/** The tables and unique indexes, and what one unit of work decides and writes
    (migrations/, cmd/internal/usecase/process-wager-transaction.go). */
module Database {
  import opened Outcome
  import opened Monetary
  import opened Wager

  /** A row of wallet_ledger; sequence is the BIGSERIAL column seq. */
  datatype Entry = Entry(
    sequence: nat, wallet: Id, tx: Id, direction: Direction, amount: Money, before: Money, after: Money, createdAt: int)

  /** A row of outbox, as the snapshot its payload is built from. */
  datatype Event =
    | TransactionProcessed(tx: Tx)
    | TransactionRejected(tx: Tx)
    | TransactionParked(tx: Tx)
    | BalanceChanged(change: Change, txId: Id)

  datatype MessageKey = MessageKey(consumer: string, messageId: string)
  datatype InboxRow = InboxRow(hash: Business, receivedAt: int, completedAt: Option<int>, attempts: nat)

  /** Committed state. ledger and outbox list the rows in commit order. externals, keys, owners, openings
      and reversals are the unique indexes. parked is a history variable: the row every transaction ever
      committed in PENDING_REFERENCE had at that commit. */
  datatype Db = Db(
    wallets: map<Id, WalletRow>, txs: map<Id, Tx>, ledger: seq<Entry>, outbox: seq<Event>,
    inbox: map<MessageKey, InboxRow>,
    owners: map<(Id, Currency), Id>,
    externals: map<(string, string), Id>,
    keys: map<(string, string), Id>,
    openings: map<Id, Id>,
    reversals: map<Id, Id>,
    parked: map<Id, Tx>)

  const EMPTY_DB := Db(map[], map[], [], [], map[], map[], map[], map[], map[], map[], map[])

  /** WagerResult. A completed message answers Duplicate, which carries no outcome. */
  datatype Answer =
    | Duplicate
    | Answer(id: Id, state: State, balance: Option<Money>, failure: Option<FailureCode>, replayed: bool)

  // ---- What is written ----

  datatype Posting = Posting(from: WalletRow, change: Change)

  /** The writes of one operation: its row (inserted by this unit of work, or updated), its movement and,
      through EventsOf, its events. */
  datatype Write = Write(tx: Tx, inserted: bool, posting: Option<Posting>)

  function EntryOf(c: Change, tx: Id, sequence: nat): Entry {
    Entry(sequence, c.wallet, tx, c.direction, c.amount, c.before, c.after, c.at)
  }

  function EventsOf(w: Write): seq<Event> {
    (match w.tx.state
     case Processed => [TransactionProcessed(w.tx)]
     case Rejected => [TransactionRejected(w.tx)]
     case PendingReference => [TransactionParked(w.tx)]
     case _ => [])
    + (if w.posting.Some? then [BalanceChanged(w.posting.value.change, w.tx.id)] else [])
  }

  // ---- Unique indexes over wager_transactions; None keeps a row out of the index ----

  function ExternalKey(t: Tx): Option<(string, string)> {
    if t.business.kind.Opening? then None else Some((t.business.provider, t.business.externalId))
  }

  function IdempotencyKey(t: Tx): Option<(string, string)> {
    if t.business.kind.Opening? then None else Some((t.business.provider, t.key))
  }

  function OpeningKey(t: Tx): Option<Id> {
    if t.business.kind.Opening? then Some(t.business.wallet) else None
  }

  predicate IsReversal(t: Tx) {
    t.state.Processed? && t.business.kind.RequiresReference()
  }

  function ReversalKey(t: Tx): Option<Id> {
    if IsReversal(t) then Some(t.referenceId) else None
  }

  function Indexed<K>(index: map<K, Id>, key: Option<K>, id: Id): map<K, Id> {
    if key.Some? then index[key.value := id] else index
  }

  predicate Taken<K>(index: map<K, Id>, key: Option<K>) {
    key.Some? && key.value in index
  }

  /** A row of wager_transactions and its index entries, and the events and the entry beside it. */
  function InstallRow(db: Db, t: Tx): Db {
    db.(
    txs := db.txs[t.id := t],
    externals := Indexed(db.externals, ExternalKey(t), t.id),
    keys := Indexed(db.keys, IdempotencyKey(t), t.id),
    openings := Indexed(db.openings, OpeningKey(t), t.id),
    reversals := Indexed(db.reversals, ReversalKey(t), t.id),
    parked := if t.state.PendingReference? then db.parked[t.id := t] else db.parked)
  }

  function WalletsAfter(wallets: map<Id, WalletRow>, posting: Option<Posting>): map<Id, WalletRow> {
    if posting.None? then wallets
    else wallets[posting.value.change.wallet := WalletAfter(posting.value.from, posting.value.change)]
  }

  function LedgerAfter(ledger: seq<Entry>, w: Write, sequence: nat): seq<Entry> {
    if w.posting.None? then ledger else ledger + [EntryOf(w.posting.value.change, w.tx.id, sequence)]
  }

  /** What the commit of a write leaves. */
  function Install(db: Db, w: Write, sequence: nat): Db {
    InstallRow(db, w.tx).(
    wallets := WalletsAfter(db.wallets, w.posting),
    ledger := LedgerAfter(db.ledger, w, sequence),
    outbox := db.outbox + EventsOf(w))
  }

  // ---- What is decided ----

  datatype Plan =
    | Fails(error: Error)
    | Replies(answer: Answer)
    | Writes(write: Write, answer: Answer)

  /** What the reads of an operation lead to. Consult: the next read decides. */
  datatype Verdict = Consult | Wait | Refuse(code: FailureCode) | Settle

  datatype Job = Job(tx: Tx, inserted: bool, wallet: Option<WalletRow>, reference: Option<Tx>, verdict: Verdict)

  function AnswerOf(t: Tx): Answer {
    Answer(t.id, t.state, t.result, t.failure, false)
  }

  function ReplayOf(t: Tx): Answer {
    Answer(t.id, t.state, t.result, t.failure, true)
  }

  function FindExternal(db: Db, provider: string, externalId: string): Option<Tx> {
    if (provider, externalId) in db.externals then Get(db.txs, db.externals[(provider, externalId)]) else None
  }

  function JudgeWallet(w: Option<WalletRow>, b: Business): Verdict {
    if w.None? then Refuse(WalletNotFoundCode)
    else if w.value.player != b.player then Refuse(WalletNotFoundCode)
    else if w.value.balance.currency != b.money.currency then Refuse(CurrencyMismatchCode)
    else if b.kind.RequiresReference() then Consult
    else Settle
  }

  function JudgeReference(t: Tx, reference: Option<Tx>): Verdict {
    if reference.None? || !reference.value.state.IsTerminal() then Wait
    else if !reference.value.state.Processed? then Refuse(ReferenceNotProcessedCode)
    else if !Agrees(t, reference.value) then Refuse(ReferenceMismatchCode)
    else Consult
  }

  function JudgeReversal(reversed: bool): Verdict {
    if reversed then Refuse(AlreadyReversedCode) else Settle
  }

  function JobOf(db: Db, t: Tx, inserted: bool): Job {
    var b := t.business;
    var w := Get(db.wallets, b.wallet);
    match JudgeWallet(w, b)
    case Consult =>
      var r := FindExternal(db, b.provider, b.reference);
      (match JudgeReference(t, r)
       case Consult => Job(t, inserted, w, r, JudgeReversal(r.value.id in db.reversals))
       case v => Job(t, inserted, w, r, v))
    case v => Job(t, inserted, w, None, v)
  }

  function Rejecting(t: Tx, inserted: bool, code: FailureCode, now: int): Plan {
    match MarkedRejected(t, code, now)
    case Err(e) => Fails(e)
    case Ok(t1) => Writes(Write(t1, inserted, None), AnswerOf(t1))
  }

  function Parking(t: Tx, inserted: bool, now: int): Plan {
    if t.state.PendingReference? then Replies(Answer(t.id, t.state, None, None, false))
    else match MarkedPendingReference(t, now)
      case Err(e) => Fails(e)
      case Ok(t1) => Writes(Write(t1, inserted, None), AnswerOf(t1))
  }

  function Concluding(t: Tx, inserted: bool, balance: Money, posting: Option<Posting>, now: int): Plan {
    match MarkedProcessed(t, balance, now)
    case Err(e) => Fails(e)
    case Ok(t1) => Writes(Write(t1, inserted, posting), AnswerOf(t1))
  }

  function Settling(t: Tx, inserted: bool, w: WalletRow, reference: Option<Tx>, now: int): Plan {
    match MovementOf(t, reference)
    case Err(e) => Fails(e)
    case Ok(None) => Concluding(t, inserted, w.balance, None, now)
    case Ok(Some(d)) =>
      match MovementChange(w, d, t.business.money, now)
      case Err(e) =>
        if e.InsufficientFunds? then Rejecting(t, inserted, InsufficientFundsCodeOf(t.business.kind), now) else Fails(e)
      case Ok(c) =>
        if c.version < 1 then Fails(SchemaViolation)
        else Concluding(t, inserted, c.after, Some(Posting(w, c)), now)
  }

  /** What an operation does once its reads have decided. */
  function Finish(j: Job, now: int): Plan {
    match j.verdict
    case Wait => Parking(j.tx, j.inserted, now)
    case Refuse(code) => Rejecting(j.tx, j.inserted, code, now)
    case Settle =>
      if j.wallet.None? then Fails(WalletNotFound)
      else if j.reference.None? then Settling(j.tx, j.inserted, j.wallet.value, None, now)
      else (match ReferenceResolved(j.tx, j.reference.value.id, now)
            case Err(e) => Fails(e)
            case Ok(t1) => Settling(t1, j.inserted, j.wallet.value, j.reference, now))
    case Consult => Fails(UnresolvedReference)
  }

  datatype Recorded = Unrecordable(error: Error) | Concluded(tx: Tx) | Open(tx: Tx, inserted: bool)

  /** wager_transactions_reference_policy, where the code lets a blank reference through. */
  predicate ReferenceChecked(b: Business) {
    b.kind.AcceptsReference() || b.reference == ""
  }

  /** The INSERT of a new transaction: the CHECK, unique keys, then the foreign key on (wallet_id, currency). */
  function InsertGuard(db: Db, t: Tx): Result<()> {
    if !ReferenceChecked(t.business) then Err(SchemaViolation)
    else if Taken(db.externals, ExternalKey(t)) || Taken(db.keys, IdempotencyKey(t)) then Err(ConcurrentUpdate)
    else if t.business.wallet !in db.wallets
      || db.wallets[t.business.wallet].balance.currency != t.business.money.currency
    then Err(SchemaViolation)
    else Ok(())
  }

  function RecordExisting(t: Tx, cmd: Command): Recorded {
    if t.business != cmd.business then Unrecordable(PayloadConflict)
    else if t.state.IsTerminal() then Concluded(t)
    else Open(t, false)
  }

  function RecordNew(db: Db, cmd: Command, id: Id, now: int): Recorded {
    match NewExternal(cmd, id, now)
    case Err(_) => Unrecordable(InvalidCommand)
    case Ok(t) => if InsertGuard(db, t).Err? then Unrecordable(InsertGuard(db, t).error) else Open(t, true)
  }

  function Record(db: Db, cmd: Command, id: Id, now: int): Recorded {
    match FindExternal(db, cmd.business.provider, cmd.business.externalId)
    case Some(t) => RecordExisting(t, cmd)
    case None => RecordNew(db, cmd, id, now)
  }

  /** ProcessWagerTransaction run alone on db: every read sees db, and the writes land on db. */
  function ApplyPlan(db: Db, cmd: Command, id: Id, now: int): Plan {
    if !ValidCommand(cmd) then Fails(InvalidCommand)
    else match Record(db, cmd, id, now)
      case Unrecordable(e) => Fails(e)
      case Concluded(t) => Replies(ReplayOf(t))
      case Open(t, inserted) => Finish(JobOf(db, t, inserted), now)
  }

  /** ResumePendingReference.Expire run alone on db. */
  function ExpirePlan(db: Db, id: Id, now: int): Plan {
    match Get(db.txs, id)
    case None => Fails(TransactionNotFound)
    case Some(t) =>
      if t.state.IsTerminal() then Replies(ReplayOf(t)) else Rejecting(t, false, ReferenceNotFoundCode, now)
  }

  // ---- Opening a wallet ----

  datatype Found = Found(wallet: WalletRow, opening: Option<Tx>)

  /** recordOpening: the movement an opening describes; the wallet was born with the balance applied. */
  function OpeningChange(w: WalletRow): Change {
    Change(w.id, Credit, w.balance, Money(0, w.balance.currency), w.balance, w.version, w.createdAt)
  }

  function OpenPlan(db: Db, player: Id, initial: Money, walletId: Id, txId: Id, now: int): Result<Found> {
    if !initial.Initialized() then Err(UninitializedMoney)
    else if initial.cents < 0 then Err(NegativeInitialBalance)
    else if (player, initial.currency) in db.owners then Err(WalletAlreadyExists)
    else FoundOf(player, initial, walletId, txId, now)
  }

  function FoundOf(player: Id, initial: Money, walletId: Id, txId: Id, now: int): Result<Found> {
    match NewWallet(walletId, player, initial, now)
    case Err(e) => Err(e)
    case Ok(w) =>
      if initial.cents == 0 then Ok(Found(w, None))
      else match NewOpening(txId, w.id, w.player, w.balance, w.createdAt)
        case Err(e) => Err(e)
        case Ok(t) => Ok(Found(w, Some(t)))
  }

  /** The writes beside the wallet row of a positive opening. */
  function OpeningWrite(f: Found): Write
    requires f.opening.Some?
  {
    Write(f.opening.value, true, Some(Posting(f.wallet, OpeningChange(f.wallet))))
  }

  function InstallWallet(db: Db, w: WalletRow): Db {
    db.(wallets := db.wallets[w.id := w], owners := db.owners[(w.player, w.balance.currency) := w.id])
  }

  function InstallFound(db: Db, f: Found, sequence: nat): Db {
    if f.opening.None? then InstallWallet(db, f.wallet)
    else Install(InstallWallet(db, f.wallet), OpeningWrite(f), sequence)
  }
}
