/** Wallets, wager transactions and their state machine, as values
    (cmd/internal/domain/wallet.go and wager-transaction.go). */
module Wager {
  import opened Outcome
  import opened Monetary

  /** An identifier; 0 is uuid.Nil. */
  type Id = nat

  datatype Direction = Debit | Credit

  datatype Kind = Opening | Bet | Win | Loss | Refund | Rollback {
    predicate IsExternal() {
      this != Opening
    }

    /** None for LOSS, which moves nothing, and for ROLLBACK, whose direction depends on its reference. */
    function Direction(): Option<Direction> {
      match this
      case Bet => Some(Debit)
      case Opening | Win | Refund => Some(Credit)
      case Loss | Rollback => None
    }

    predicate RequiresReference() {
      Refund? || Rollback?
    }

    predicate AcceptsReference() {
      RequiresReference() || Win?
    }
  }

  datatype State = Pending | PendingReference | Processed | Rejected | Failed {
    predicate IsTerminal() {
      Processed? || Rejected? || Failed?
    }
  }

  datatype FailureCode =
    | InsufficientFundsCode
    | ReversalInsufficientFundsCode
    | ReferenceNotFoundCode
    | ReferenceNotProcessedCode
    | ReferenceMismatchCode
    | AlreadyReversedCode
    | WalletNotFoundCode
    | CurrencyMismatchCode
    | InternalErrorCode

  /** What the payload hash covers: the business fields, and whatever else the canonical payload holds.
      SHA-256 is modelled as injective, so the hash of an operation is this record itself: equal hashes
      mean equal business fields. An OPENING has empty provider metadata; an empty reference means the
      operation names none. */
  datatype Business = Business(
    provider: string, externalId: string, player: Id, wallet: Id, round: string, game: string,
    kind: Kind, money: Money, reference: string, rest: string)

  datatype Command = Command(business: Business, key: string)

  /** A row of wager_transactions, without the claim columns of the reference worker. referenceId 0 is NULL. */
  datatype Tx = Tx(
    id: Id, business: Business, key: string, state: State, referenceId: Id,
    failure: Option<FailureCode>, result: Option<Money>, createdAt: int, updatedAt: int)

  datatype WalletRow = WalletRow(
    id: Id, player: Id, balance: Money, version: int64, createdAt: int, updatedAt: int)

  datatype Change = Change(
    wallet: Id, direction: Direction, amount: Money, before: Money, after: Money, version: int64, at: int)

  /** time.Time{}: the instant that was never set. */
  const ZERO_TIME: int := 0

  // ---- Validation ----

  predicate IsSpace(c: char) {
    c in {'\t', '\n', '\U{0B}', '\U{0C}', '\r', ' ', '\U{85}', '\U{A0}', '\U{1680}', '\U{2028}', '\U{2029}',
          '\U{202F}', '\U{205F}', '\U{3000}'} || '\U{2000}' <= c <= '\U{200A}'
  }

  /** strings.TrimSpace(s) == "". */
  predicate Blank(s: string) {
    forall c | c in s :: IsSpace(c)
  }

  function ValidateIdentity(id: Id, wallet: Id, player: Id): Result<()> {
    if id == 0 then Err(InvalidTransactionId)
    else if wallet == 0 then Err(InvalidWalletId)
    else if player == 0 then Err(InvalidPlayerId)
    else Ok(())
  }

  function ValidateExternalMetadata(b: Business, key: string): Result<()> {
    if Blank(b.provider) || Blank(b.externalId) || Blank(key) || Blank(b.round) || Blank(b.game)
    then Err(MissingExternalMetadata)
    else Ok(())
  }

  function ValidateAmountForKind(kind: Kind, amount: Money): Result<()> {
    if !amount.Initialized() then Err(UninitializedMoney)
    else if amount.cents < 0 then Err(InvalidTransactionAmount)
    else if !kind.Loss? && amount.cents <= 0 then Err(InvalidTransactionAmount)
    else if kind.Loss? && amount.cents != 0 then Err(InvalidTransactionAmount)
    else Ok(())
  }

  function ValidateReferenceForKind(kind: Kind, reference: string): Result<()> {
    if kind.RequiresReference() && Blank(reference) then Err(MissingReference)
    else if !kind.AcceptsReference() && !Blank(reference) then Err(ReferenceNotApplicable)
    else Ok(())
  }

  // ---- Constructors ----

  /** WagerCommand.validate. */
  predicate ValidCommand(cmd: Command) {
    var b := cmd.business;
    b.provider != "" && b.externalId != "" && b.wallet != 0 && b.player != 0 && b.kind.IsExternal()
      && b.money.Initialized()
  }

  function NewExternal(cmd: Command, id: Id, now: int): Result<Tx> {
    var b := cmd.business;
    if b.kind.Opening? then Err(InvalidExternalKind)
    else if ValidateIdentity(id, b.wallet, b.player).Err? then Err(ValidateIdentity(id, b.wallet, b.player).error)
    else if ValidateExternalMetadata(b, cmd.key).Err? then Err(MissingExternalMetadata)
    else if ValidateAmountForKind(b.kind, b.money).Err? then Err(ValidateAmountForKind(b.kind, b.money).error)
    else if ValidateReferenceForKind(b.kind, b.reference).Err?
      then Err(ValidateReferenceForKind(b.kind, b.reference).error)
    else if now == ZERO_TIME then Err(InvalidTimestamp)
    else Ok(Tx(id, b, cmd.key, Pending, 0, None, None, now, now))
  }

  function OpeningBusiness(wallet: Id, player: Id, amount: Money): Business {
    Business("", "", player, wallet, "", "", Opening, amount, "", "")
  }

  function NewOpening(id: Id, wallet: Id, player: Id, amount: Money, now: int): Result<Tx> {
    if ValidateIdentity(id, wallet, player).Err? then Err(ValidateIdentity(id, wallet, player).error)
    else if ValidateAmountForKind(Opening, amount).Err? then Err(ValidateAmountForKind(Opening, amount).error)
    else if now == ZERO_TIME then Err(InvalidTimestamp)
    else Ok(Tx(id, OpeningBusiness(wallet, player, amount), "", Processed, 0, None, Some(amount), now, now))
  }

  function NewWallet(id: Id, player: Id, initial: Money, now: int): Result<WalletRow> {
    if id == 0 then Err(InvalidWalletId)
    else if player == 0 then Err(InvalidPlayerId)
    else if !initial.Initialized() then Err(UninitializedMoney)
    else if initial.cents < 0 then Err(NegativeInitialBalance)
    else if now == ZERO_TIME then Err(InvalidTimestamp)
    else Ok(WalletRow(id, player, initial, 1, now, now))
  }

  // ---- Transitions ----

  /** The instant a change is recorded at never precedes the previous one. */
  function Later(now: int, previous: int): (r: int)
    ensures r >= previous && r >= now && (r == previous || r == now)
  {
    if now < previous then previous else now
  }

  function MarkedProcessed(t: Tx, balance: Money, now: int): Result<Tx> {
    if t.state.IsTerminal() then Err(TransactionTerminal)
    else if now == ZERO_TIME then Err(InvalidTimestamp)
    else if !balance.Initialized() then Err(UninitializedMoney)
    else if balance.currency != t.business.money.currency then Err(CurrencyMismatch)
    else if balance.cents < 0 then Err(InvalidTransactionAmount)
    else if t.business.kind.RequiresReference() && t.referenceId == 0 then Err(UnresolvedReference)
    else Ok(t.(state := Processed, result := Some(balance), updatedAt := Later(now, t.updatedAt)))
  }

  function MarkedRejected(t: Tx, code: FailureCode, now: int): Result<Tx> {
    if t.state.IsTerminal() then Err(TransactionTerminal)
    else if now == ZERO_TIME then Err(InvalidTimestamp)
    else Ok(t.(state := Rejected, failure := Some(code), updatedAt := Later(now, t.updatedAt)))
  }

  function MarkedFailed(t: Tx, code: FailureCode, now: int): Result<Tx> {
    if t.state.IsTerminal() then Err(TransactionTerminal)
    else if now == ZERO_TIME then Err(InvalidTimestamp)
    else Ok(t.(state := Failed, failure := Some(code), updatedAt := Later(now, t.updatedAt)))
  }

  function MarkedPendingReference(t: Tx, now: int): Result<Tx> {
    if t.state.IsTerminal() then Err(TransactionTerminal)
    else if now == ZERO_TIME then Err(InvalidTimestamp)
    else if !t.business.kind.AcceptsReference() then Err(ReferenceNotApplicable)
    else if t.business.reference == "" then Err(MissingReference)
    else Ok(t.(state := PendingReference, updatedAt := Later(now, t.updatedAt)))
  }

  function ReferenceResolved(t: Tx, reference: Id, now: int): Result<Tx> {
    if t.state.IsTerminal() then Err(TransactionTerminal)
    else if now == ZERO_TIME then Err(InvalidTimestamp)
    else if !t.business.kind.AcceptsReference() then Err(ReferenceNotApplicable)
    else if t.business.reference == "" then Err(MissingReference)
    else if reference == 0 || reference == t.id then Err(InvalidTransactionId)
    else if t.referenceId != 0 && t.referenceId != reference then Err(ReferenceAlreadyResolved)
    else Ok(t.(referenceId := reference, updatedAt := Later(now, t.updatedAt)))
  }

  // ---- Movements ----

  function ChangeOf(w: WalletRow, d: Direction, amount: Money, after: Money, now: int): Change {
    Change(w.id, d, amount, w.balance, after, Wrap64(w.version + 1), Later(now, w.updatedAt))
  }

  function DebitOf(w: WalletRow, amount: Money, now: int): Result<Change> {
    if amount.cents <= 0 then Err(InvalidDebit)
    else if now == ZERO_TIME then Err(InvalidTimestamp)
    else match w.balance.Compare(amount)
      case Err(e) => Err(e)
      case Ok(c) =>
        if c < 0 then Err(InsufficientFunds)
        else match w.balance.Subtract(amount)
          case Err(e) => Err(e)
          case Ok(after) => Ok(ChangeOf(w, Debit, amount, after, now))
  }

  function CreditOf(w: WalletRow, amount: Money, now: int): Result<Change> {
    if amount.cents <= 0 then Err(InvalidCredit)
    else if now == ZERO_TIME then Err(InvalidTimestamp)
    else match w.balance.Add(amount)
      case Err(e) => Err(e)
      case Ok(after) => Ok(ChangeOf(w, Credit, amount, after, now))
  }

  function MovementChange(w: WalletRow, d: Direction, amount: Money, now: int): Result<Change> {
    if d.Debit? then DebitOf(w, amount, now) else CreditOf(w, amount, now)
  }

  /** The row of a wallet after one of its own changes. */
  function WalletAfter(w: WalletRow, c: Change): WalletRow {
    w.(balance := c.after, version := c.version, updatedAt := c.at)
  }

  function Signed(d: Direction, cents: int): int {
    if d.Credit? then cents else -cents
  }

  /** A movement is accepted exactly when the new balance is representable and not negative, and it then
      moves the balance by the signed amount. */
  lemma MovementEffect(w: WalletRow, d: Direction, amount: Money, now: int)
    requires w.balance.cents >= 0 && w.balance.Initialized() && amount.cents > 0
    requires amount.currency == w.balance.currency
    requires now != ZERO_TIME
    ensures MovementChange(w, d, amount, now).Ok? <==> 0 <= w.balance.cents + Signed(d, amount.cents) <= MAX_INT64
    ensures MovementChange(w, d, amount, now).Ok? ==>
      var c := MovementChange(w, d, amount, now).value;
      c.after.cents == w.balance.cents + Signed(d, amount.cents) && c.after.currency == w.balance.currency
      && c.before == w.balance && c.amount == amount && c.direction == d && c.wallet == w.id
    ensures MovementChange(w, d, amount, now).Err? ==>
      MovementChange(w, d, amount, now).error == (if d.Debit? then InsufficientFunds else ArithmeticOverflow)
  {
  }

  /** movementOf: how an operation moves the balance; Ok(None) moves nothing. */
  function MovementOf(t: Tx, reference: Option<Tx>): Result<Option<Direction>> {
    if !t.business.kind.Rollback? then Ok(t.business.kind.Direction())
    else match reference
      case None => Err(UnresolvedReference)
      case Some(r) =>
        match r.business.kind.Direction()
        case None => Err(UnreversibleReference)
        case Some(d) => Ok(Some(if d.Debit? then Credit else Debit))
  }

  /** agrees: whether a reversal and its reference describe the same money. */
  predicate Agrees(t: Tx, r: Tx) {
    var b, o := t.business, r.business;
    && b.player == o.player && b.wallet == o.wallet && b.round == o.round
    && (b.kind.Refund? ==> o.kind.Bet?)
    && (b.kind.Rollback? ==> o.kind.Bet? || o.kind.Win? || o.kind.Refund?)
    && b.money.Equals(o.money) == Ok(true)
  }

  function InsufficientFundsCodeOf(kind: Kind): FailureCode {
    if kind.RequiresReference() then ReversalInsufficientFundsCode else InsufficientFundsCode
  }
}
