/** Rows written and read back: the mapping to nullable columns, and what the restoring constructors accept
    (cmd/internal/domain/, cmd/internal/infra/postgres/). */
module Restore {
  import opened Outcome
  import opened Monetary
  import opened Wager
  import opened Database
  import opened History

  // ---- Columns ----

  /** The columns of wager_transactions that a read selects; None is NULL. */
  datatype TxColumns = TxColumns(
    id: Id, wallet: Id, player: Id, currency: string, amountCents: int64, kind: Kind, state: State,
    provider: Option<string>, externalId: Option<string>, key: Option<string>, hash: Option<Business>,
    round: Option<string>, game: Option<string>,
    reference: Option<string>, referenceId: Option<Id>,
    failure: Option<FailureCode>, resultCents: Option<int64>, createdAt: int, updatedAt: int)

  function NullableText(value: string): Option<string> {
    if value == "" then None else Some(value)
  }

  function TextOf(value: Option<string>): string {
    if value.None? then "" else value.value
  }

  /** TransactionRepository.Insert. */
  function ColumnsOf(t: Tx): TxColumns {
    var b := t.business;
    TxColumns(
      t.id, b.wallet, b.player, b.money.currency, b.money.cents, b.kind, t.state,
      NullableText(b.provider), NullableText(b.externalId), NullableText(t.key),
      if b.kind.IsExternal() then Some(b) else None,
      NullableText(b.round), NullableText(b.game), NullableText(b.reference),
      if t.referenceId == 0 then None else Some(t.referenceId),
      t.failure, if t.result.Some? then Some(t.result.value.cents) else None, t.createdAt, t.updatedAt)
  }

  function NewMoney(cents: int64, currency: string): Result<Money> {
    if IsCurrency(currency) then Ok(Money(cents, currency)) else Err(InvalidCurrencyFormat)
  }

  // ---- Restoring a transaction ----

  function ValidateRestoredOrigin(t: Tx, hash: Option<Business>): Result<()> {
    var b := t.business;
    if b.kind.IsExternal() then if hash.None? then Err(MissingExternalMetadata) else ValidateExternalMetadata(b, t.key)
    else if b.provider != "" || b.externalId != "" || t.key != "" || hash.Some? || b.round != "" || b.game != ""
    then Err(InvalidTransactionRecord)
    else Ok(())
  }

  function ValidateRestoredOutcome(t: Tx): Result<()> {
    var b := t.business;
    if t.referenceId != 0 && (!b.kind.AcceptsReference() || b.reference == "" || t.referenceId == t.id)
    then Err(InvalidTransactionRecord)
    else if (t.state.Rejected? || t.state.Failed?) != t.failure.Some? then Err(InvalidTransactionRecord)
    else if !t.state.Processed? then if t.result.Some? then Err(InvalidTransactionRecord) else Ok(())
    else if t.result.None? then Err(InvalidTransactionRecord)
    else if t.result.value.currency != b.money.currency then Err(CurrencyMismatch)
    else if t.result.value.cents < 0 then Err(InvalidTransactionRecord)
    else if b.kind.RequiresReference() && t.referenceId == 0 then Err(InvalidTransactionRecord)
    else Ok(())
  }

  function RestoreTransaction(t: Tx, hash: Option<Business>): Result<Tx> {
    var b := t.business;
    if ValidateIdentity(t.id, b.wallet, b.player).Err? then Err(ValidateIdentity(t.id, b.wallet, b.player).error)
    else if ValidateRestoredOrigin(t, hash).Err? then Err(ValidateRestoredOrigin(t, hash).error)
    else if ValidateAmountForKind(b.kind, b.money).Err? then Err(ValidateAmountForKind(b.kind, b.money).error)
    else if ValidateReferenceForKind(b.kind, b.reference).Err?
    then Err(ValidateReferenceForKind(b.kind, b.reference).error)
    else if ValidateRestoredOutcome(t).Err? then Err(ValidateRestoredOutcome(t).error)
    else if t.createdAt == ZERO_TIME || t.updatedAt == ZERO_TIME then Err(InvalidTimestamp)
    else if t.updatedAt < t.createdAt then Err(InvalidTransactionRecord)
    else Ok(t)
  }

  /** What a stored transaction must look like: all that identifies it, or for an OPENING nothing of it; the amount
      and the reference its kind asks for; the outcome its state has, and no other. */
  ghost predicate Restorable(t: Tx, hash: Option<Business>) {
    var b := t.business;
    && t.id != 0 && b.wallet != 0 && b.player != 0
    && (if b.kind == Opening
        then b.provider == b.externalId == t.key == b.round == b.game == "" && hash.None?
        else !Blank(b.provider) && !Blank(b.externalId) && !Blank(t.key) && !Blank(b.round) && !Blank(b.game)
             && hash.Some?)
    && b.money.currency != "" && (if b.kind == Loss then b.money.cents == 0 else b.money.cents > 0)
    && (b.kind == Refund || b.kind == Rollback ==> !Blank(b.reference))
    && (b.kind == Bet || b.kind == Loss || b.kind == Opening ==> Blank(b.reference))
    && (t.referenceId != 0 ==>
          (b.kind == Win || b.kind == Refund || b.kind == Rollback) && b.reference != "" && t.referenceId != t.id)
    && (t.failure.Some? <==> t.state == Rejected || t.state == Failed)
    && (t.result.Some? <==> t.state == Processed)
    && (t.result.Some? ==>
          t.result.value.currency == b.money.currency && t.result.value.cents >= 0
          && (b.kind == Refund || b.kind == Rollback ==> t.referenceId != 0))
    && t.createdAt != ZERO_TIME && t.updatedAt != ZERO_TIME && t.createdAt <= t.updatedAt
  }

  /** A row that is not like that is refused, and one that is comes back as it is. */
  lemma RestoredIff(t: Tx, hash: Option<Business>)
    ensures RestoreTransaction(t, hash).Ok? <==> Restorable(t, hash)
    ensures RestoreTransaction(t, hash).Ok? ==> RestoreTransaction(t, hash).value == t
  {
  }

  /** scanTransaction. The part of the payload that no column holds is in the hash. */
  function ScanTransaction(c: TxColumns): Result<Tx> {
    match NewMoney(c.amountCents, c.currency)
    case Err(e) => Err(e)
    case Ok(money) =>
      var b := Business(TextOf(c.provider), TextOf(c.externalId), c.player, c.wallet, TextOf(c.round), TextOf(c.game),
                        c.kind, money,
                        TextOf(c.reference), if c.hash.Some? then c.hash.value.rest else "");
      var result := if c.resultCents.Some? then Some(Money(c.resultCents.value, money.currency)) else None;
      RestoreTransaction(
        Tx(c.id, b, TextOf(c.key), c.state, if c.referenceId.Some? then c.referenceId.value else 0, c.failure, result,
           c.createdAt, c.updatedAt),
        c.hash)
  }

  // ---- What the constructors and the transitions make ----

  /** What every transaction satisfies that was made by a constructor and any transitions. */
  ghost predicate WellMade(t: Tx) {
    && t.id != 0 && ValidBusiness(t.business, t.key)
    && (t.business.kind.Opening? ==> t.state.Processed?)
    && (t.failure.Some? <==> t.state.Rejected? || t.state.Failed?)
    && (t.result.Some? <==> t.state.Processed?)
    && (t.result.Some? ==> t.result.value.currency == t.business.money.currency && t.result.value.cents >= 0)
    && (t.referenceId != 0 ==>
          t.business.kind.AcceptsReference() && t.business.reference != "" && t.referenceId != t.id)
    && (IsReversal(t) ==> t.referenceId != 0)
    && t.createdAt <= t.updatedAt && t.createdAt != ZERO_TIME && t.updatedAt != ZERO_TIME
  }

  lemma ConstructorsMakeWell(cmd: Command, id: Id, wallet: Id, player: Id, amount: Money, now: int)
    ensures NewExternal(cmd, id, now).Ok? ==> WellMade(NewExternal(cmd, id, now).value)
    ensures NewOpening(id, wallet, player, amount, now).Ok? ==>
      WellMade(NewOpening(id, wallet, player, amount, now).value)
  {
    assert Blank("");
  }

  ghost predicate RefusedOrWellMade(t: Tx, r: Result<Tx>) {
    if t.state.IsTerminal() then r == Err(TransactionTerminal) else r.Ok? ==> WellMade(r.value)
  }

  /** Every transition keeps it, and refuses a transaction that has concluded. */
  lemma TransitionsMakeWell(t: Tx, balance: Money, code: FailureCode, reference: Id, now: int)
    requires WellMade(t)
    ensures RefusedOrWellMade(t, MarkedProcessed(t, balance, now)) && RefusedOrWellMade(t, MarkedRejected(t, code, now))
    ensures RefusedOrWellMade(t, MarkedFailed(t, code, now)) && RefusedOrWellMade(t, MarkedPendingReference(t, now))
    ensures RefusedOrWellMade(t, ReferenceResolved(t, reference, now))
  {
    hide ValidBusiness;
  }

  /** Whatever was made is accepted when its row is read back, with equal fields. */
  lemma RestoredAsWritten(t: Tx)
    requires WellMade(t)
    ensures ScanTransaction(ColumnsOf(t)) == Ok(t)
  {
    var c := ColumnsOf(t);
    assert TextOf(c.provider) == t.business.provider && TextOf(c.reference) == t.business.reference;
    assert ValidateIdentity(t.id, t.business.wallet, t.business.player).Ok?;
    hide ValidateExternalMetadata, ValidateAmountForKind, ValidateReferenceForKind;
    assert RestoreTransaction(t, c.hash) == Ok(t);
  }

  /** What the domain can be asked to do with a transaction. */
  datatype Transition =
    | Process(balance: Money)
    | Refuse(code: FailureCode)
    | GiveUp(code: FailureCode)
    | Wait
    | Resolve(reference: Id)

  /** Any way to make a transaction: a constructor, then transitions that were accepted. */
  datatype Making =
    | External(cmd: Command, id: Id, now: int)
    | Internal(id: Id, wallet: Id, player: Id, amount: Money, now: int)
    | Then(before: Making, transition: Transition, now: int)

  function Moved(t: Tx, transition: Transition, now: int): Result<Tx> {
    match transition
    case Process(balance) => MarkedProcessed(t, balance, now)
    case Refuse(code) => MarkedRejected(t, code, now)
    case GiveUp(code) => MarkedFailed(t, code, now)
    case Wait => MarkedPendingReference(t, now)
    case Resolve(reference) => ReferenceResolved(t, reference, now)
  }

  function Made(m: Making): Result<Tx> {
    match m
    case External(cmd, id, now) => NewExternal(cmd, id, now)
    case Internal(id, wallet, player, amount, now) => NewOpening(id, wallet, player, amount, now)
    case Then(before, transition, now) =>
      match Made(before)
      case Err(e) => Err(e)
      case Ok(t) => Moved(t, transition, now)
  }

  lemma {:induction false} MadeIsWellMade(m: Making)
    ensures Made(m).Ok? ==> WellMade(Made(m).value)
  {
    hide WellMade, NewExternal, NewOpening;
    hide MarkedProcessed, MarkedRejected, MarkedFailed, MarkedPendingReference, ReferenceResolved;
    match m
    case External(cmd, id, now) => ConstructorsMakeWell(cmd, id, 0, 0, cmd.business.money, now);
    case Internal(id, wallet, player, amount, now) =>
      ConstructorsMakeWell(Command(OpeningBusiness(wallet, player, amount), ""), id, wallet, player, amount, now);
    case Then(before, transition, now) =>
      MadeIsWellMade(before);
      if Made(before).Ok? {
        var balance := if transition.Process? then transition.balance else Money(0, "");
        var code := if transition.Refuse? || transition.GiveUp? then transition.code else InternalErrorCode;
        var reference := if transition.Resolve? then transition.reference else 0;
        TransitionsMakeWell(Made(before).value, balance, code, reference, now);
      }
  }

  /** Whatever constructors and transitions make, in any order, is accepted with equal fields when it is written to
      its row and read back. */
  lemma EverythingMadeRestores(m: Making)
    requires Made(m).Ok?
    ensures ScanTransaction(ColumnsOf(Made(m).value)) == Made(m)
  {
    hide WellMade, ScanTransaction, ColumnsOf;
    MadeIsWellMade(m);
    RestoredAsWritten(Made(m).value);
  }

  lemma CommittedIsWellMade(db: Db, id: Id)
    requires RowsOk(db.wallets, db.txs) && id in db.txs
    ensures WellMade(db.txs[id])
  {
    var t := db.txs[id];
    assert RowOk(db.wallets, db.txs, t);
    assert Blank("");
  }

  // ---- Wallets ----

  datatype WalletColumns = WalletColumns(id: Id, player: Id, currency: string, balanceCents: int64, version: int64,
                                         createdAt: int, updatedAt: int)

  function WalletColumnsOf(w: WalletRow): WalletColumns {
    WalletColumns(w.id, w.player, w.balance.currency, w.balance.cents, w.version, w.createdAt, w.updatedAt)
  }

  function RestoreWallet(w: WalletRow): Result<WalletRow> {
    if w.id == 0 then Err(InvalidWalletId)
    else if w.player == 0 then Err(InvalidPlayerId)
    else if !w.balance.Initialized() then Err(UninitializedMoney)
    else if w.balance.cents < 0 || w.version < 1 then Err(InvalidWalletState)
    else if w.createdAt == ZERO_TIME || w.updatedAt == ZERO_TIME then Err(InvalidTimestamp)
    else if w.updatedAt < w.createdAt then Err(InvalidWalletState)
    else Ok(w)
  }

  lemma WalletRestoredIff(w: WalletRow)
    ensures RestoreWallet(w).Ok? <==>
      && w.id != 0 && w.player != 0 && w.balance.currency != "" && w.balance.cents >= 0 && w.version >= 1
      && w.createdAt != ZERO_TIME && w.updatedAt != ZERO_TIME && w.createdAt <= w.updatedAt
    ensures RestoreWallet(w).Ok? ==> RestoreWallet(w).value == w
  {
  }

  function ScanWallet(c: WalletColumns): Result<WalletRow> {
    match NewMoney(c.balanceCents, c.currency)
    case Err(e) => Err(e)
    case Ok(balance) => RestoreWallet(WalletRow(c.id, c.player, balance, c.version, c.createdAt, c.updatedAt))
  }

  /** Every committed row, of either table, is accepted when it is read, with equal fields. */
  lemma CommittedRowsRestore(db: Db, id: Id)
    requires DbInv(db)
    ensures id in db.txs ==> ScanTransaction(ColumnsOf(db.txs[id])) == Ok(db.txs[id])
    ensures id in db.wallets ==> ScanWallet(WalletColumnsOf(db.wallets[id])) == Ok(db.wallets[id])
  {
    hide RowsOk, IndexesExact, OwnersExact, LedgerMatchesRows, ChainsOk, TransactionEventsExact, WalletEventsExact;
    hide ParkedOk, InboxOk, ScanTransaction;
    if id in db.txs {
      CommittedIsWellMade(db, id);
      RestoredAsWritten(db.txs[id]);
    }
  }

  // ---- The command of a parked row ----

  function CommandOf(t: Tx): Command {
    Command(t.business, t.key)
  }

  /** Resuming the command that was rebuilt from the columns of a row does what redelivering the original
      command does, whatever key the redelivery carries. */
  lemma ResumedAsRedelivered(db: Db, cmd: Command, id: Id, now: int)
    requires DbInv(db) && FindExternal(db, cmd.business.provider, cmd.business.externalId).Some?
    requires FindExternal(db, cmd.business.provider, cmd.business.externalId).value.business == cmd.business
    ensures var t := FindExternal(db, cmd.business.provider, cmd.business.externalId).value;
      && ScanTransaction(ColumnsOf(t)).Ok?
      && ApplyPlan(db, CommandOf(ScanTransaction(ColumnsOf(t)).value), id, now) == ApplyPlan(db, cmd, id, now)
  {
    hide RowsOk, WalletsOk, IndexExact, OwnersExact, LedgerMatchesRows, ChainsOk, TransactionEventsExact;
    hide WalletEventsExact, ParkedOk, InboxOk;
    hide ScanTransaction, ColumnsOf, JobOf, Finish, RecordNew, WellMade;
    var key := (cmd.business.provider, cmd.business.externalId);
    var t := FindExternal(db, cmd.business.provider, cmd.business.externalId).value;
    CommittedIsWellMade(db, db.externals[key]);
    RestoredAsWritten(t);
  }
}
