/** What a provider can rely on: the outcome of an operation in terms of balances and of what was reversed. */
module Outcomes {
  import opened Outcome
  import opened Monetary
  import opened Wager
  import opened Database
  import opened History
  import opened Reversals
  import opened Statements
  import Service

  // ---- What is accepted ----

  /** The shape of a command that WagerCommand.validate lets through. */
  ghost predicate WellFormed(cmd: Command) {
    var b := cmd.business;
    && b.provider != "" && b.externalId != "" && b.wallet != 0 && b.player != 0
    && b.kind != Opening && b.money.currency != ""
  }

  /** What the constructor asks of a new operation: all that identifies it, an amount of zero for a LOSS and above
      zero for anything else, and a reference for a reversal and for nothing but a reversal or a WIN. */
  ghost predicate Acceptable(cmd: Command) {
    var b := cmd.business;
    && !Blank(b.provider) && !Blank(b.externalId) && !Blank(cmd.key) && !Blank(b.round) && !Blank(b.game)
    && b.wallet != 0 && b.player != 0 && b.kind != Opening && b.money.currency != ""
    && (if b.kind == Loss then b.money.cents == 0 else b.money.cents > 0)
    && (b.kind == Refund || b.kind == Rollback ==> !Blank(b.reference))
    && (b.kind == Bet || b.kind == Loss ==> Blank(b.reference))
  }

  function NewRow(cmd: Command, id: Id, now: int): Tx {
    Tx(id, cmd.business, cmd.key, Pending, 0, None, None, now, now)
  }

  /** A new operation is accepted if and only if its fields allow it, and starts PENDING with nothing decided. */
  lemma AcceptedIff(cmd: Command, id: Id, now: int)
    ensures ValidCommand(cmd) <==> WellFormed(cmd)
    ensures NewExternal(cmd, id, now).Ok? <==> Acceptable(cmd) && id != 0 && now != ZERO_TIME
    ensures NewExternal(cmd, id, now).Ok? ==> NewExternal(cmd, id, now).value == NewRow(cmd, id, now)
  {
  }

  /** A command that is malformed, or names nothing known and is not acceptable, is refused as invalid. */
  lemma InvalidIff(db: Db, cmd: Command, id: Id, now: int)
    ensures ApplyPlan(db, cmd, id, now) == Fails(InvalidCommand) <==>
      !WellFormed(cmd)
      || (FindExternal(db, cmd.business.provider, cmd.business.externalId).None?
          && !(Acceptable(cmd) && id != 0 && now != ZERO_TIME))
  {
    AcceptedIff(cmd, id, now);
    hide ValidCommand, NewExternal, Finish, JobOf, FindExternal, WellFormed, Acceptable;
    match Record(db, cmd, id, now)
    case Open(t, inserted) => FinishNeverConflicts(JobOf(db, t, inserted), now);
    case _ =>
  }

  // ---- What is promised ----

  /** Row t is the operation that the provider calls externalId. */
  ghost predicate Names(txs: map<Id, Tx>, t: Tx, provider: string, externalId: string) {
    && t.id in txs && txs[t.id] == t
    && t.business.kind != Opening && t.business.provider == provider && t.business.externalId == externalId
  }

  /** r is the row of that name, None if there is none. */
  ghost predicate IsNamed(txs: map<Id, Tx>, r: Option<Tx>, provider: string, externalId: string) {
    if r.Some? then Names(txs, r.value, provider, externalId) else forall t :: !Names(txs, t, provider, externalId)
  }

  /** The operation of cmd that a delivery works on, with its wallet w and its reference r: a new row that no key and
      no constraint refuses, or the row that waits. */
  ghost predicate WorksOn(db: Db, cmd: Command, id: Id, now: int, t: Tx, inserted: bool, w: WalletRow, r: Option<Tx>) {
    var b := cmd.business;
    && DbInv(db) && WellFormed(cmd) && Get(db.wallets, b.wallet) == Some(w)
    && IsNamed(db.txs, if inserted then None else Some(t), b.provider, b.externalId)
    && IsNamed(db.txs, r, b.provider, b.reference)
    && (if inserted
        then
          && Acceptable(cmd) && id != 0 && id !in db.txs && now != ZERO_TIME && t == NewRow(cmd, id, now)
          && (b.kind == Bet || b.kind == Loss ==> b.reference == "")
          && w.balance.currency == b.money.currency
          && (forall x | x in db.txs && db.txs[x].business.kind != Opening ::
                !(db.txs[x].business.provider == b.provider && db.txs[x].key == cmd.key))
        else t.state == PendingReference && t.business == b)
  }

  function Latest(now: int, previous: int): int {
    if now < previous then previous else now
  }

  /** The row is concluded as refused with a code, and that is the answer. */
  ghost predicate Refuses(plan: Plan, t: Tx, inserted: bool, code: FailureCode, now: int) {
    var refused := t.(state := Rejected, failure := Some(code), updatedAt := Latest(now, t.updatedAt));
    if now == ZERO_TIME then plan == Fails(InvalidTimestamp)
    else plan == Writes(Write(refused, inserted, None), Answer(t.id, Rejected, None, Some(code), false))
  }

  /** A new row is parked; one that waits already is left as it is. */
  ghost predicate Waits(plan: Plan, t: Tx, inserted: bool, now: int) {
    var answer := Answer(t.id, PendingReference, None, None, false);
    if !inserted then plan == Replies(answer)
    else plan == Writes(Write(t.(state := PendingReference, updatedAt := Latest(now, t.updatedAt)), true, None), answer)
  }

  /** The row is concluded as processed with the balance that is answered. */
  ghost predicate Concludes(plan: Plan, t: Tx, inserted: bool, balance: Money, posting: Option<Posting>, now: int) {
    var processed := t.(state := Processed, result := Some(balance), updatedAt := Latest(now, t.updatedAt));
    if now == ZERO_TIME then plan == Fails(InvalidTimestamp)
    else plan == Writes(Write(processed, inserted, posting), Answer(t.id, Processed, Some(balance), None, false))
  }

  /** The wallet moves from its current row w by all of the amount of the operation. */
  ghost predicate Transfers(plan: Plan, t: Tx, inserted: bool, w: WalletRow, d: Direction, now: int)
    requires 0 <= w.balance.cents + Signed(d, t.business.money.cents) <= MAX_INT64 && w.version < MAX_INT64
  {
    var after := Money(w.balance.cents + Signed(d, t.business.money.cents), w.balance.currency);
    var change := Change(w.id, d, t.business.money, w.balance, after, w.version + 1, Latest(now, w.updatedAt));
    Concludes(plan, t, inserted, after, Some(Posting(w, change)), now)
  }

  /** A movement is refused when it would leave the balance negative, an error when a balance or a version would
      leave int64, and else made. */
  ghost predicate MovesIfPossible(plan: Plan, t: Tx, inserted: bool, w: WalletRow, d: Direction, lacking: FailureCode,
                                  now: int) {
    var balance := w.balance.cents + Signed(d, t.business.money.cents);
    if now == ZERO_TIME then plan == Fails(InvalidTimestamp)
    else if balance < 0 then Refuses(plan, t, inserted, lacking, now)
    else if balance > MAX_INT64 then plan == Fails(ArithmeticOverflow)
    else if w.version == MAX_INT64 then plan == Fails(SchemaViolation)
    else Transfers(plan, t, inserted, w, d, now)
  }

  /** The reference is a processed operation of the same player, wallet and round, for the same money, and of a kind
      that the reversal may undo. */
  predicate Undoes(b: Business, r: Tx) {
    && r.state == Processed && r.business.player == b.player && r.business.wallet == b.wallet
    && r.business.round == b.round && r.business.money == b.money
    && (r.business.kind == Bet || (b.kind == Rollback && (r.business.kind == Win || r.business.kind == Refund)))
  }

  /** What taking back a reference does: the opposite of what the reference did. */
  function Opposite(kind: Kind): Direction {
    if kind == Bet then Credit else Debit
  }

  /** Some processed reversal points at the reference. */
  ghost predicate Reversed(txs: map<Id, Tx>, reference: Id) {
    exists x :: Reverses(txs, x, reference)
  }

  predicate Unfinished(r: Tx) {
    r.state == Pending || r.state == PendingReference
  }

  ghost predicate ReversalAsPromised(txs: map<Id, Tx>, plan: Plan, t: Tx, inserted: bool, w: WalletRow, r: Option<Tx>,
                                     now: int) {
    if r.None? || Unfinished(r.value) then Waits(plan, t, inserted, now)
    else if r.value.state != Processed then Refuses(plan, t, inserted, ReferenceNotProcessedCode, now)
    else if !Undoes(t.business, r.value) then Refuses(plan, t, inserted, ReferenceMismatchCode, now)
    else if Reversed(txs, r.value.id) then Refuses(plan, t, inserted, AlreadyReversedCode, now)
    else MovesIfPossible(plan, t.(referenceId := r.value.id, updatedAt := Latest(now, t.updatedAt)), inserted, w,
                         Opposite(r.value.business.kind), ReversalInsufficientFundsCode, now)
  }

  ghost predicate AsPromised(txs: map<Id, Tx>, plan: Plan, t: Tx, inserted: bool, w: WalletRow, r: Option<Tx>,
                             now: int) {
    if w.player != t.business.player then Refuses(plan, t, inserted, WalletNotFoundCode, now)
    else match t.business.kind
      case Bet => MovesIfPossible(plan, t, inserted, w, Debit, InsufficientFundsCode, now)
      case Win => MovesIfPossible(plan, t, inserted, w, Credit, InsufficientFundsCode, now)
      case Loss => Concludes(plan, t, inserted, w.balance, None, now)
      case _ => ReversalAsPromised(txs, plan, t, inserted, w, r, now)
  }

  // ---- From the code to the promise ----

  lemma NamedIsFound(db: Db, r: Option<Tx>, provider: string, externalId: string)
    requires DbInv(db) && IsNamed(db.txs, r, provider, externalId)
    ensures FindExternal(db, provider, externalId) == r
  {
    hide WalletsOk, OwnersExact, LedgerMatchesRows, ChainsOk, TransactionEventsExact, WalletEventsExact, ParkedOk;
    hide InboxOk;
    hide RowsOk;
    assert IndexExact(db.txs, db.externals, ExternalKey);
    if r.Some? {
      assert ExternalKey(db.txs[r.value.id]) == Some((provider, externalId));
    } else if FindExternal(db, provider, externalId).Some? {
      FoundIsNamed(db, provider, externalId);
    }
  }

  lemma FoundIsNamed(db: Db, provider: string, externalId: string)
    requires DbInv(db) && FindExternal(db, provider, externalId).Some?
    ensures Names(db.txs, FindExternal(db, provider, externalId).value, provider, externalId)
  {
    hide DbInv, FindExternal;
    FoundByExternal(db, provider, externalId);
  }

  lemma RefusingIs(t: Tx, inserted: bool, code: FailureCode, now: int)
    requires !t.state.IsTerminal() && t.result.None?
    ensures Refuses(Rejecting(t, inserted, code, now), t, inserted, code, now)
  {
  }

  lemma ConcludingIs(t: Tx, inserted: bool, balance: Money, posting: Option<Posting>, now: int)
    requires !t.state.IsTerminal() && t.failure.None? && balance.Initialized() && balance.cents >= 0
    requires balance.currency == t.business.money.currency
    requires (t.business.kind.RequiresReference() ==> t.referenceId != 0)
    ensures Concludes(Concluding(t, inserted, balance, posting, now), t, inserted, balance, posting, now)
  {
  }

  lemma ParkingIs(t: Tx, inserted: bool, now: int)
    requires if inserted then t.state.Pending? && now != ZERO_TIME else t.state.PendingReference?
    requires t.business.kind.RequiresReference() && t.business.reference != "" && t.result.None? && t.failure.None?
    ensures Waits(Parking(t, inserted, now), t, inserted, now)
  {
  }

  /** A wallet that an operation on its currency can move. */
  ghost predicate Movable(w: WalletRow, b: Business) {
    w.balance.Initialized() && w.balance.cents >= 0 && w.version >= 1 && w.balance.currency == b.money.currency
  }

  lemma ChangeIs(w: WalletRow, d: Direction, amount: Money, now: int)
    requires w.balance.Initialized() && w.balance.cents >= 0 && w.version >= 1 && w.balance.currency == amount.currency
    requires amount.cents > 0 && now != ZERO_TIME
    ensures var balance, r := w.balance.cents + Signed(d, amount.cents), MovementChange(w, d, amount, now);
      if balance < 0 then r == Err(InsufficientFunds)
      else if balance > MAX_INT64 then r == Err(ArithmeticOverflow)
      else
        && r.Ok? && (w.version == MAX_INT64 ==> r.value.version < 1)
        && (w.version < MAX_INT64 ==>
              r.value == Change(w.id, d, amount, w.balance, Money(balance, w.balance.currency), w.version + 1,
                                Latest(now, w.updatedAt)))
  {
    MovementEffect(w, d, amount, now);
  }

  lemma SettlingIs(t: Tx, inserted: bool, w: WalletRow, reference: Option<Tx>, d: Direction, now: int)
    requires t.result.None? && t.failure.None? && !t.state.IsTerminal() && t.business.money.cents > 0
    requires Movable(w, t.business) && (t.business.kind.RequiresReference() ==> t.referenceId != 0)
    requires MovementOf(t, reference) == Ok(Some(d)) && now != ZERO_TIME
    ensures MovesIfPossible(Settling(t, inserted, w, reference, now), t, inserted, w, d,
                            InsufficientFundsCodeOf(t.business.kind), now)
  {
    hide MovementOf, MovementChange, Rejecting, Concluding, Refuses, Concludes;
    ChangeIs(w, d, t.business.money, now);
    RefusingIs(t, inserted, InsufficientFundsCodeOf(t.business.kind), now);
    var balance := w.balance.cents + Signed(d, t.business.money.cents);
    if 0 <= balance <= MAX_INT64 && w.version < MAX_INT64 {
      var c := MovementChange(w, d, t.business.money, now).value;
      ConcludingIs(t, inserted, c.after, Some(Posting(w, c)), now);
    }
  }

  // ---- The outcomes ----

  lemma KeysAreFree(db: Db, cmd: Command)
    requires DbInv(db) && FindExternal(db, cmd.business.provider, cmd.business.externalId).None?
    requires forall x | x in db.txs && db.txs[x].business.kind != Opening ::
      !(db.txs[x].business.provider == cmd.business.provider && db.txs[x].key == cmd.key)
    ensures (cmd.business.provider, cmd.business.externalId) !in db.externals
    ensures (cmd.business.provider, cmd.key) !in db.keys
  {
    hide WalletsOk, OwnersExact, LedgerMatchesRows, ChainsOk, TransactionEventsExact, WalletEventsExact, ParkedOk;
    hide InboxOk;
    hide RowsOk;
    assert IndexExact(db.txs, db.externals, ExternalKey) && IndexExact(db.txs, db.keys, IdempotencyKey);
  }

  /** What a delivery works on, whether new or waiting. */
  ghost predicate Workable(t: Tx, inserted: bool, w: WalletRow) {
    && !t.state.IsTerminal() && t.result.None? && t.failure.None? && t.referenceId == 0 && t.id != 0
    && (if inserted then t.state.Pending? else t.state.PendingReference? && t.business.kind.RequiresReference())
    && (t.business.kind.RequiresReference() ==> t.business.reference != "")
    && (t.business.kind.Loss? || t.business.money.cents > 0) && t.business.kind.IsExternal()
    && Movable(w, t.business)
  }

  lemma AcceptableFields(cmd: Command, id: Id, now: int)
    requires Acceptable(cmd) && id != 0
    ensures var t := NewRow(cmd, id, now);
      && (t.business.kind.RequiresReference() ==> t.business.reference != "")
      && (t.business.kind.Loss? || t.business.money.cents > 0) && t.business.kind.IsExternal()
  {
    assert Blank("");
  }

  lemma NewIsRecorded(db: Db, cmd: Command, id: Id, now: int)
    requires ValidCommand(cmd) && NewExternal(cmd, id, now) == Ok(NewRow(cmd, id, now))
    requires cmd.business.kind.IsExternal()
    requires FindExternal(db, cmd.business.provider, cmd.business.externalId).None?
    requires (cmd.business.provider, cmd.business.externalId) !in db.externals
    requires (cmd.business.provider, cmd.key) !in db.keys
    requires FitsWallet(db.wallets, cmd.business) && ReferenceChecked(cmd.business)
    ensures ApplyPlan(db, cmd, id, now) == Finish(JobOf(db, NewRow(cmd, id, now), true), now)
  {
    hide ValidCommand, NewExternal, FindExternal, Finish, JobOf;
  }

  lemma NewWork(db: Db, cmd: Command, id: Id, now: int, t: Tx, w: WalletRow, r: Option<Tx>)
    requires WorksOn(db, cmd, id, now, t, true, w, r)
    ensures t.business == cmd.business && Workable(t, true, w)
    ensures ApplyPlan(db, cmd, id, now) == Finish(JobOf(db, t, true), now)
  {
    hide DbInv, NewExternal, ValidCommand, Finish, JobOf, FindExternal, IsNamed, Acceptable, WellFormed, ApplyPlan;
    AcceptedIff(cmd, id, now);
    AcceptableFields(cmd, id, now);
    NamedIsFound(db, None, cmd.business.provider, cmd.business.externalId);
    KeysAreFree(db, cmd);
    MovableWallet(db, cmd.business.wallet);
    NewIsRecorded(db, cmd, id, now);
  }

  lemma MovableWallet(db: Db, id: Id)
    requires DbInv(db) && id in db.wallets
    ensures var w := db.wallets[id]; w.id == id && w.balance.Initialized() && w.balance.cents >= 0 && w.version >= 1
  {
    hide RowsOk, IndexesExact, OwnersExact, LedgerMatchesRows, ChainsOk, TransactionEventsExact, WalletEventsExact;
    hide ParkedOk, InboxOk;
  }

  lemma WaitingRow(db: Db, t: Tx)
    requires DbInv(db) && t.id in db.txs && db.txs[t.id] == t && t.state == PendingReference
    ensures t.result.None? && t.failure.None? && t.referenceId == 0 && t.id != 0 && t.business.kind.RequiresReference()
    ensures t.business.reference != "" && t.business.money.cents > 0 && FitsWallet(db.wallets, t.business)
  {
    hide DbInv, RowsOk;
    RowsOfInv(db);
    WaitingRowIs(db, t);
  }

  lemma WaitingRowIs(db: Db, t: Tx)
    requires RowsOk(db.wallets, db.txs) && t.id in db.txs && db.txs[t.id] == t && t.state == PendingReference
    ensures t.result.None? && t.failure.None? && t.referenceId == 0 && t.id != 0 && t.business.kind.RequiresReference()
    ensures t.business.reference != "" && t.business.money.cents > 0 && FitsWallet(db.wallets, t.business)
  {
    hide References;
    assert RowOk(db.wallets, db.txs, t);
    assert Blank("");
  }

  lemma WaitingIsResumed(db: Db, cmd: Command, id: Id, now: int, t: Tx)
    requires ValidCommand(cmd) && FindExternal(db, cmd.business.provider, cmd.business.externalId) == Some(t)
    requires t.business == cmd.business && !t.state.IsTerminal()
    ensures ApplyPlan(db, cmd, id, now) == Finish(JobOf(db, t, false), now)
  {
    hide ValidCommand, FindExternal, Finish, JobOf, RecordNew;
  }

  lemma WaitingWork(db: Db, cmd: Command, id: Id, now: int, t: Tx, w: WalletRow, r: Option<Tx>)
    requires WorksOn(db, cmd, id, now, t, false, w, r)
    ensures t.business == cmd.business && Workable(t, false, w)
    ensures ApplyPlan(db, cmd, id, now) == Finish(JobOf(db, t, false), now)
  {
    NamedRow(db.txs, t, cmd.business.provider, cmd.business.externalId);
    hide DbInv, ValidCommand, Finish, JobOf, FindExternal, IsNamed, WellFormed, ApplyPlan;
    AcceptedIff(cmd, id, now);
    NamedIsFound(db, Some(t), cmd.business.provider, cmd.business.externalId);
    WaitingRow(db, t);
    MovableWallet(db, cmd.business.wallet);
    WaitingIsResumed(db, cmd, id, now, t);
  }

  lemma NamedRow(txs: map<Id, Tx>, t: Tx, provider: string, externalId: string)
    ensures IsNamed(txs, Some(t), provider, externalId) ==> t.id in txs && txs[t.id] == t
  {
  }

  /** The job of an operation whose wallet passed and that refers to nothing. */
  lemma PlainIs(db: Db, t: Tx, inserted: bool, w: WalletRow, now: int)
    requires Workable(t, inserted, w) && Get(db.wallets, t.business.wallet) == Some(w) && w.player == t.business.player
    requires !t.business.kind.RequiresReference() && now != ZERO_TIME
    ensures AsPromised(db.txs, Finish(JobOf(db, t, inserted), now), t, inserted, w, None, now)
  {
    hide MovesIfPossible, Concludes;
    assert Finish(JobOf(db, t, inserted), now) == Settling(t, inserted, w, None, now);
    if t.business.kind.Loss? {
      ConcludingIs(t, inserted, w.balance, None, now);
    } else {
      SettlingIs(t, inserted, w, None, if t.business.kind.Bet? then Debit else Credit, now);
    }
  }

  /** What the reference makes of the plan of a reversal, once the plan is known case by case. */
  lemma ReferenceIs(db: Db, t: Tx, inserted: bool, w: WalletRow, r: Tx, now: int, plan: Plan)
    requires Workable(t, inserted, w) && t.business.kind.RequiresReference()
    requires r.state.IsTerminal() && r.id != 0 && r.id != t.id
    requires r.state.Processed? ==> (Agrees(t, r) <==> Undoes(t.business, r))
    requires r.id in db.reversals <==> Reversed(db.txs, r.id)
    requires !r.state.Processed? ==> plan == Rejecting(t, inserted, ReferenceNotProcessedCode, now)
    requires r.state.Processed? && !Agrees(t, r) ==> plan == Rejecting(t, inserted, ReferenceMismatchCode, now)
    requires r.state.Processed? && Agrees(t, r) && r.id in db.reversals ==>
      plan == Rejecting(t, inserted, AlreadyReversedCode, now)
    requires r.state.Processed? && Agrees(t, r) && r.id !in db.reversals ==>
      plan == match ReferenceResolved(t, r.id, now)
        case Err(e) => Fails(e)
        case Ok(t1) => Settling(t1, inserted, w, Some(r), now)
    ensures ReversalAsPromised(db.txs, plan, t, inserted, w, Some(r), now)
  {
    hide MovesIfPossible, Refuses, Settling, Rejecting, Agrees, Undoes, Reversed, ReferenceResolved;
    RefusingIs(t, inserted, ReferenceNotProcessedCode, now);
    RefusingIs(t, inserted, ReferenceMismatchCode, now);
    RefusingIs(t, inserted, AlreadyReversedCode, now);
    if Undoes(t.business, r) && r.state.Processed? {
      ResolvedIs(t, inserted, w, r, now);
      ZeroNeverMoves(t.(referenceId := r.id, updatedAt := Latest(now, t.updatedAt)), inserted, w, r, now);
    }
  }

  lemma ZeroNeverMoves(t: Tx, inserted: bool, w: WalletRow, r: Tx, now: int)
    ensures now == ZERO_TIME ==>
      MovesIfPossible(Fails(InvalidTimestamp), t, inserted, w, Opposite(r.business.kind), ReversalInsufficientFundsCode,
                      now)
  {
  }

  /** The job of a reversal whose wallet passed. */
  lemma ReversalIs(db: Db, t: Tx, inserted: bool, w: WalletRow, r: Option<Tx>, now: int)
    requires DbInv(db) && Workable(t, inserted, w) && Get(db.wallets, t.business.wallet) == Some(w)
    requires w.player == t.business.player && t.business.kind.RequiresReference() && (inserted ==> now != ZERO_TIME)
    requires inserted ==> t.id !in db.txs
    requires !inserted ==> t.id in db.txs && db.txs[t.id] == t
    requires FindExternal(db, t.business.provider, t.business.reference) == r
    ensures ReversalAsPromised(db.txs, Finish(JobOf(db, t, inserted), now), t, inserted, w, r, now)
  {
    hide DbInv, MovesIfPossible, Refuses, Waits, Finish, JobOf, Settling, Rejecting, Parking, FindExternal, Agrees;
    hide Undoes, Reversed, ReferenceResolved;
    WalletPasses(w, t.business, inserted);
    Service.JobOnReference(db, t, inserted, now);
    if r.None? || Unfinished(r.value) {
      ParkingIs(t, inserted, now);
    } else {
      FoundByExternal(db, t.business.provider, t.business.reference);
      RowIdIsNotNil(db, r.value.id);
      ReversedIffIndexed(db, r.value.id);
      if r.value.state.Processed? {
        AgreesIffUndoes(t, r.value);
      }
      ReferenceIs(db, t, inserted, w, r.value, now, Finish(JobOf(db, t, inserted), now));
    }
  }

  lemma WalletPasses(w: WalletRow, b: Business, inserted: bool)
    requires Movable(w, b) && w.player == b.player && b.kind.RequiresReference()
    ensures JudgeWallet(Some(w), b).Consult?
  {
  }

  lemma ResolvedIs(t: Tx, inserted: bool, w: WalletRow, r: Tx, now: int)
    requires Workable(t, inserted, w) && t.business.kind.RequiresReference()
    requires r.id != 0 && r.id != t.id && Undoes(t.business, r)
    ensures var t1 := t.(referenceId := r.id, updatedAt := Latest(now, t.updatedAt));
      var resolved := ReferenceResolved(t, r.id, now);
      if now == ZERO_TIME then resolved == Err(InvalidTimestamp)
      else
        && resolved == Ok(t1)
        && MovesIfPossible(Settling(t1, inserted, w, Some(r), now), t1, inserted, w, Opposite(r.business.kind),
                           ReversalInsufficientFundsCode, now)
  {
    hide Settling, MovesIfPossible;
    if now != ZERO_TIME {
      var t1 := t.(referenceId := r.id, updatedAt := Latest(now, t.updatedAt));
      SettlingIs(t1, inserted, w, Some(r), Opposite(r.business.kind), now);
    }
  }

  lemma OtherPlayersIs(db: Db, t: Tx, inserted: bool, w: WalletRow, now: int)
    requires Workable(t, inserted, w) && Get(db.wallets, t.business.wallet) == Some(w) && w.player != t.business.player
    ensures Refuses(Finish(JobOf(db, t, inserted), now), t, inserted, WalletNotFoundCode, now)
  {
    Service.JobOnWallet(db, t, inserted, now);
    RefusingIs(t, inserted, WalletNotFoundCode, now);
    hide Finish, JobOf, Rejecting, Refuses, Settling;
  }

  /** What a delivery of a new operation, or of one that waits, comes to. */
  lemma OperationOutcome(db: Db, cmd: Command, id: Id, now: int, t: Tx, inserted: bool, w: WalletRow, r: Option<Tx>)
    requires WorksOn(db, cmd, id, now, t, inserted, w, r)
    ensures AsPromised(db.txs, ApplyPlan(db, cmd, id, now), t, inserted, w, r, now)
  {
    hide DbInv, ReversalAsPromised, Refuses, MovesIfPossible, Concludes, ApplyPlan, Finish, JobOf, Workable;
    hide Acceptable, WellFormed, IsNamed;
    if inserted {
      NewWork(db, cmd, id, now, t, w, r);
    } else {
      WaitingWork(db, cmd, id, now, t, w, r);
    }
    WorkOnWallet(db, cmd, t, inserted, w, r, id, now);
  }

  lemma WorkOnWallet(db: Db, cmd: Command, t: Tx, inserted: bool, w: WalletRow, r: Option<Tx>, id: Id, now: int)
    requires WorksOn(db, cmd, id, now, t, inserted, w, r) && t.business == cmd.business && Workable(t, inserted, w)
    ensures AsPromised(db.txs, Finish(JobOf(db, t, inserted), now), t, inserted, w, r, now)
  {
    NamedRow(db.txs, t, cmd.business.provider, cmd.business.externalId);
    hide DbInv, ReversalAsPromised, Refuses, MovesIfPossible, Concludes, Finish, JobOf, Acceptable, WellFormed, IsNamed;
    hide Movable;
    if w.player != t.business.player {
      OtherPlayersIs(db, t, inserted, w, now);
    } else if t.business.kind.RequiresReference() {
      NamedIsFound(db, r, t.business.provider, t.business.reference);
      ReversalIs(db, t, inserted, w, r, now);
    } else {
      PlainIs(db, t, inserted, w, now);
    }
  }

  /** A new BET takes its amount when the balance covers it, and is refused otherwise; a WIN adds its amount; a LOSS
      is processed and moves nothing. */
  lemma PlainOutcome(db: Db, cmd: Command, id: Id, now: int, w: WalletRow, r: Option<Tx>)
    requires WorksOn(db, cmd, id, now, NewRow(cmd, id, now), true, w, r) && w.player == cmd.business.player
    ensures var plan, t := ApplyPlan(db, cmd, id, now), NewRow(cmd, id, now);
      match cmd.business.kind
      case Bet => MovesIfPossible(plan, t, true, w, Debit, InsufficientFundsCode, now)
      case Win => MovesIfPossible(plan, t, true, w, Credit, InsufficientFundsCode, now)
      case Loss => Concludes(plan, t, true, w.balance, None, now)
      case _ => true
  {
    OperationOutcome(db, cmd, id, now, NewRow(cmd, id, now), true, w, r);
    hide WorksOn, MovesIfPossible, Concludes, ApplyPlan;
  }

  /** A new reversal is parked while its reference is missing or unfinished. It moves money exactly when the
      reference is one that it undoes and that nothing has reversed, and then it takes back the whole amount. */
  lemma ReversalOutcome(db: Db, cmd: Command, id: Id, now: int, w: WalletRow, r: Option<Tx>)
    requires WorksOn(db, cmd, id, now, NewRow(cmd, id, now), true, w, r) && w.player == cmd.business.player
    requires cmd.business.kind == Refund || cmd.business.kind == Rollback
    ensures ReversalAsPromised(db.txs, ApplyPlan(db, cmd, id, now), NewRow(cmd, id, now), true, w, r, now)
  {
    hide WorksOn, ReversalAsPromised, ApplyPlan;
    OperationOutcome(db, cmd, id, now, NewRow(cmd, id, now), true, w, r);
  }

  /** A waiting reversal that is resumed or redelivered goes on waiting, with nothing written, exactly while its
      reference is missing or unfinished; then it is refused or moves the whole amount, from the current row of its
      wallet, as a new one would. */
  lemma WaitingOutcome(db: Db, cmd: Command, id: Id, now: int, t: Tx, w: WalletRow, r: Option<Tx>)
    requires WorksOn(db, cmd, id, now, t, false, w, r) && w.player == t.business.player
    ensures ReversalAsPromised(db.txs, ApplyPlan(db, cmd, id, now), t, false, w, r, now)
  {
    NamedRow(db.txs, t, cmd.business.provider, cmd.business.externalId);
    hide ReversalAsPromised, ApplyPlan, DbInv, IsNamed, WellFormed, Acceptable, Refuses, MovesIfPossible, Concludes;
    OperationOutcome(db, cmd, id, now, t, false, w, r);
    WaitingRow(db, t);
  }

  /** An operation, new or waiting, on a wallet of another player is refused as if there were no such wallet, and
      moves nothing. */
  lemma OtherPlayersWallet(db: Db, cmd: Command, id: Id, now: int, t: Tx, inserted: bool, w: WalletRow, r: Option<Tx>)
    requires WorksOn(db, cmd, id, now, t, inserted, w, r) && w.player != cmd.business.player
    ensures Refuses(ApplyPlan(db, cmd, id, now), t, inserted, WalletNotFoundCode, now)
  {
    hide Refuses, ApplyPlan, DbInv, Acceptable, WellFormed, IsNamed;
    OperationOutcome(db, cmd, id, now, t, inserted, w, r);
  }

  lemma RowIdIsNotNil(db: Db, id: Id)
    requires DbInv(db) && id in db.txs
    ensures id != 0
  {
    RowsOfInv(db);
    hide DbInv;
    assert RowOk(db.wallets, db.txs, db.txs[id]);
  }

  lemma ReversedIffIndexed(db: Db, p: Id)
    requires DbInv(db)
    ensures p in db.reversals <==> Reversed(db.txs, p)
  {
    hide RowsOk, WalletsOk, OwnersExact, LedgerMatchesRows, ChainsOk, TransactionEventsExact, WalletEventsExact;
    hide ParkedOk, InboxOk;
    assert IndexExact(db.txs, db.reversals, ReversalKey);
    if p in db.reversals {
      assert Reverses(db.txs, db.reversals[p], p);
    }
    if x :| Reverses(db.txs, x, p) {
      assert ReversalKey(db.txs[x]) == Some(p);
    }
  }

  lemma AgreesIffUndoes(t: Tx, r: Tx)
    requires r.state.Processed? && t.business.kind.RequiresReference() && t.business.money.Initialized()
    ensures Agrees(t, r) <==> Undoes(t.business, r)
  {
  }

  // ---- Conflicts ----

  /** An error of recording the operation, before anything is read about its wallet. */
  predicate IsConflict(e: Error) {
    e.ConcurrentUpdate? || e.PayloadConflict? || e.InvalidCommand?
  }

  lemma SettlingNeverConflicts(t: Tx, inserted: bool, w: WalletRow, reference: Option<Tx>, now: int)
    ensures var plan := Settling(t, inserted, w, reference, now); plan.Fails? ==> !IsConflict(plan.error)
  {
  }

  lemma FinishNeverConflicts(job: Job, now: int)
    ensures Finish(job, now).Fails? ==> !IsConflict(Finish(job, now).error)
  {
    hide Settling;
    if job.verdict.Settle? && job.wallet.Some? {
      if job.reference.None? {
        SettlingNeverConflicts(job.tx, job.inserted, job.wallet.value, None, now);
      } else if ReferenceResolved(job.tx, job.reference.value.id, now).Ok? {
        SettlingNeverConflicts(ReferenceResolved(job.tx, job.reference.value.id, now).value, job.inserted,
                               job.wallet.value, job.reference, now);
      }
    }
  }

  /** A payload conflict is reported exactly when the external id is known with another payload. An idempotency key
      that belongs to another external id is reported as a concurrent update instead. */
  lemma ConflictsIff(db: Db, cmd: Command, id: Id, now: int)
    requires ValidCommand(cmd)
    ensures var plan := ApplyPlan(db, cmd, id, now);
      var known := FindExternal(db, cmd.business.provider, cmd.business.externalId);
      && (plan == Fails(PayloadConflict) <==> known.Some? && known.value.business != cmd.business)
      && (known.None? && NewExternal(cmd, id, now).Ok? && ReferenceChecked(cmd.business)
          && (cmd.business.provider, cmd.key) in db.keys
          ==> plan == Fails(ConcurrentUpdate))
  {
    hide NewExternal, Finish, JobOf, ValidCommand, FindExternal;
    NewKeepsCommand(cmd, id, now);
    match Record(db, cmd, id, now)
    case Open(t, inserted) => FinishNeverConflicts(JobOf(db, t, inserted), now);
    case _ =>
  }

  lemma NewKeepsCommand(cmd: Command, id: Id, now: int)
    ensures NewExternal(cmd, id, now).Ok? ==>
      var t := NewExternal(cmd, id, now).value;
      t.business == cmd.business && t.key == cmd.key && t.business.kind.IsExternal()
  {
  }

  // ---- Blank references ----

  /** A blank reference that is not empty passes every validation of the use case. */
  lemma BlankReferencePassesValidation(id: Id, now: int)
    requires id != 0 && now != ZERO_TIME
    ensures var b := Business("p", "x", 1, 1, "r", "g", Bet, Money(100, "BRL"), " ", "");
      var cmd := Command(b, "k");
      ValidCommand(cmd) && NewExternal(cmd, id, now).Ok? && !ReferenceChecked(b)
  {
    assert 'p' in "p" && 'x' in "x" && 'r' in "r" && 'g' in "g" && 'k' in "k";
    assert Blank(" ");
  }

  /** A new operation that its constructor accepts is refused by the CHECK on references exactly when its kind takes
      no reference and the blank text it carries is not empty; and where no key is taken and the wallet fits, that
      CHECK is the one thing that refuses its row. */
  lemma BlankReferenceIsRefusedIff(db: Db, cmd: Command, id: Id, now: int)
    requires ValidCommand(cmd) && FindExternal(db, cmd.business.provider, cmd.business.externalId).None?
    requires NewExternal(cmd, id, now).Ok?
    ensures var b := cmd.business;
      !ReferenceChecked(b) <==> (b.kind.Bet? || b.kind.Loss?) && b.reference != "" && Blank(b.reference)
    ensures !ReferenceChecked(cmd.business) ==> ApplyPlan(db, cmd, id, now) == Fails(SchemaViolation)
    ensures var t := NewExternal(cmd, id, now).value;
      !Taken(db.externals, ExternalKey(t)) && !Taken(db.keys, IdempotencyKey(t))
        && FitsWallet(db.wallets, cmd.business) ==>
        (RecordNew(db, cmd, id, now) == Unrecordable(SchemaViolation) <==> !ReferenceChecked(cmd.business))
        && (RecordNew(db, cmd, id, now).Open? <==> ReferenceChecked(cmd.business))
  {
    NewKeepsCommand(cmd, id, now);
    if !cmd.business.kind.AcceptsReference() {
      ReferenceOfNew(cmd, id, now);
    }
    hide NewExternal, ValidCommand, Finish, JobOf, FindExternal, Blank;
  }

  lemma ReferenceOfNew(cmd: Command, id: Id, now: int)
    requires NewExternal(cmd, id, now).Ok? && !cmd.business.kind.AcceptsReference()
    ensures Blank(cmd.business.reference)
  {
  }

  // ---- Missing wallets ----

  /** A new operation that no key and no CHECK refuses, naming a wallet that does not exist or holds another currency,
      is refused by the foreign key: an error, with no row left behind. */
  lemma NoSuchWallet(db: Db, cmd: Command, id: Id, now: int)
    requires WellFormed(cmd) && Acceptable(cmd) && id != 0 && now != ZERO_TIME
    requires DbInv(db) && IsNamed(db.txs, None, cmd.business.provider, cmd.business.externalId)
    requires forall x | x in db.txs && db.txs[x].business.kind != Opening ::
      !(db.txs[x].business.provider == cmd.business.provider && db.txs[x].key == cmd.key)
    requires cmd.business.kind == Bet || cmd.business.kind == Loss ==> cmd.business.reference == ""
    requires var b := cmd.business;
      b.wallet !in db.wallets || db.wallets[b.wallet].balance.currency != b.money.currency
    ensures ApplyPlan(db, cmd, id, now) == Fails(SchemaViolation)
  {
    hide DbInv, WellFormed, Acceptable, NewExternal, ValidCommand, FindExternal, IsNamed;
    AcceptedIff(cmd, id, now);
    NamedIsFound(db, None, cmd.business.provider, cmd.business.externalId);
    KeysAreFree(db, cmd);
  }

  // ---- What a movement leaves ----

  /** The wallet, the entry and the events that a movement leaves, field by field. */
  lemma TransferLeaves(db: Db, plan: Plan, t: Tx, inserted: bool, w: WalletRow, d: Direction, now: int, sequence: nat)
    requires 0 <= w.balance.cents + Signed(d, t.business.money.cents) <= MAX_INT64 && w.version < MAX_INT64
    requires now != ZERO_TIME && Transfers(plan, t, inserted, w, d, now)
    ensures var after := Money(w.balance.cents + Signed(d, t.business.money.cents), w.balance.currency);
      var at := Latest(now, w.updatedAt);
      var done := t.(state := Processed, result := Some(after), updatedAt := Latest(now, t.updatedAt));
      var left := Install(db, plan.write, sequence);
      && left.wallets == db.wallets[w.id := WalletRow(w.id, w.player, after, w.version + 1, w.createdAt, at)]
      && left.txs == db.txs[t.id := done]
      && left.ledger == db.ledger + [Entry(sequence, w.id, t.id, d, t.business.money, w.balance, after, at)]
      && left.outbox == db.outbox + [
           TransactionProcessed(done),
           BalanceChanged(Change(w.id, d, t.business.money, w.balance, after, w.version + 1, at), t.id)]
  {
  }

  // ---- Expiries ----

  /** An expiry refuses a waiting reversal with REFERENCE_NOT_FOUND and answers so, replays a concluded one, and
      fails for an unknown one. */
  lemma ExpiryOutcome(db: Db, id: Id, now: int)
    requires DbInv(db)
    ensures var plan := ExpirePlan(db, id, now);
      if id !in db.txs then plan == Fails(TransactionNotFound)
      else
        var t := db.txs[id];
        if t.state == PendingReference then Refuses(plan, t, false, ReferenceNotFoundCode, now)
        else plan == Replies(Answer(id, t.state, t.result, t.failure, true))
  {
    hide DbInv, RowsOk, Rejecting, Refuses;
    if id in db.txs {
      RowsOfInv(db);
      RowStateOf(db, id);
      if db.txs[id].state.PendingReference? {
        RefusingIs(db.txs[id], false, ReferenceNotFoundCode, now);
      }
    }
  }

  lemma RowStateOf(db: Db, id: Id)
    requires RowsOk(db.wallets, db.txs) && id in db.txs
    ensures db.txs[id].id == id && (db.txs[id].state.PendingReference? || db.txs[id].state.IsTerminal())
    ensures db.txs[id].state.PendingReference? ==> db.txs[id].result.None?
  {
    assert RowOk(db.wallets, db.txs, db.txs[id]);
  }

  // ---- Openings ----

  function OpeningRow(wallet: Id, player: Id, amount: Money, id: Id, now: int): Tx {
    Tx(id, Business("", "", player, wallet, "", "", Opening, amount, "", ""), "", Processed, 0, None, Some(amount), now,
       now)
  }

  /** A wallet is opened if and only if the balance is an amount that is not negative, everything is identified and
      dated, and the player has no wallet in that currency; it holds exactly that balance, and a positive one is
      recorded as an OPENING of that amount. */
  lemma OpenedIff(db: Db, player: Id, initial: Money, walletId: Id, txId: Id, now: int)
    requires DbInv(db)
    ensures var plan := OpenPlan(db, player, initial, walletId, txId, now);
      && (plan.Ok? <==>
            && initial.currency != "" && initial.cents >= 0
            && player != 0 && walletId != 0 && now != ZERO_TIME && (initial.cents > 0 ==> txId != 0)
            && !HasWallet(db, player, initial.currency))
      && (plan.Ok? ==>
            && plan.value.wallet == WalletRow(walletId, player, initial, 1, now, now)
            && plan.value.opening ==
                 if initial.cents > 0 then Some(OpeningRow(walletId, player, initial, txId, now)) else None)
      && (initial.currency != "" && initial.cents >= 0 && HasWallet(db, player, initial.currency) ==>
            plan == Err(WalletAlreadyExists))
  {
    OwnerIffWallet(db, player, initial.currency);
    hide DbInv, HasWallet;
  }

  ghost predicate HasWallet(db: Db, player: Id, currency: Currency) {
    exists id | id in db.wallets :: db.wallets[id].player == player && db.wallets[id].balance.currency == currency
  }

  lemma OwnerIffWallet(db: Db, player: Id, currency: Currency)
    requires DbInv(db)
    ensures (player, currency) in db.owners <==> HasWallet(db, player, currency)
  {
    hide RowsOk, WalletsOk, IndexesExact, LedgerMatchesRows, ChainsOk, TransactionEventsExact, WalletEventsExact;
    hide ParkedOk, InboxOk;
    assert OwnersExact(db.wallets, db.owners);
  }

  /** What a positive opening leaves, field by field. */
  lemma OpeningLeaves(db: Db, player: Id, initial: Money, walletId: Id, txId: Id, now: int, sequence: nat)
    requires initial.cents > 0
    ensures var w, t := WalletRow(walletId, player, initial, 1, now, now), OpeningRow(walletId, player, initial, txId,
          now);
      var left, zero := InstallFound(db, Found(w, Some(t)), sequence), Money(0, initial.currency);
      && left.wallets == db.wallets[walletId := w] && left.txs == db.txs[txId := t]
      && left.ledger == db.ledger + [Entry(sequence, walletId, txId, Credit, initial, zero, initial, now)]
      && left.outbox == db.outbox + [
           TransactionProcessed(t), BalanceChanged(Change(walletId, Credit, initial, zero, initial, 1, now), txId)]
  {
  }

  // ---- Transitions ----

  /** A permanent failure concludes a transaction that has not concluded, and only that. */
  lemma FailedIs(t: Tx, code: FailureCode, now: int)
    ensures MarkedFailed(t, code, now) ==
      if t.state == Processed || t.state == Rejected || t.state == Failed then Err(TransactionTerminal)
      else if now == ZERO_TIME then Err(InvalidTimestamp)
      else Ok(t.(state := Failed, failure := Some(code), updatedAt := Latest(now, t.updatedAt)))
  {
  }
}
