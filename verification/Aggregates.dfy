/** The two aggregates as the objects the use cases change in place
    (cmd/internal/domain/wallet.go and wager-transaction.go). */
module Aggregates {
  import opened Outcome
  import opened Monetary
  import opened Wager
  import opened Database

  class Wallet {
    const id: Id
    const player: Id
    var balance: Money
    var version: int64
    const createdAt: int
    var updatedAt: int

    function Row(): WalletRow
      reads this
    {
      WalletRow(id, player, balance, version, createdAt, updatedAt)
    }

    constructor Restored(row: WalletRow)
      ensures Row() == row
    {
      id, player, balance, version := row.id, row.player, row.balance, row.version;
      createdAt, updatedAt := row.createdAt, row.updatedAt;
    }

    /** Withdraws an amount, or fails and leaves the wallet as it was. */
    method Debit(amount: Money, now: int) returns (r: Result<Change>)
      modifies this
      ensures r == DebitOf(old(Row()), amount, now)
      ensures Row() == if r.Ok? then WalletAfter(old(Row()), r.value) else old(Row())
    {
      if amount.cents == 0 || amount.cents < 0 {
        return Err(InvalidDebit);
      }
      if now == ZERO_TIME {
        return Err(InvalidTimestamp);
      }
      var comparison := balance.Compare(amount);
      if comparison.Err? {
        return Err(comparison.error);
      }
      if comparison.value < 0 {
        return Err(InsufficientFunds);
      }
      match balance.Subtract(amount) {
        case Err(error) => r := Err(error);
        case Ok(newBalance) =>
          var change := Apply(Direction.Debit, amount, newBalance, now);
          r := Ok(change);
      }
    }

    method Credit(amount: Money, now: int) returns (r: Result<Change>)
      modifies this
      ensures r == CreditOf(old(Row()), amount, now)
      ensures Row() == if r.Ok? then WalletAfter(old(Row()), r.value) else old(Row())
    {
      if amount.cents == 0 || amount.cents < 0 {
        return Err(InvalidCredit);
      }
      if now == ZERO_TIME {
        return Err(InvalidTimestamp);
      }
      var newBalance := balance.Add(amount);
      if newBalance.Err? {
        return Err(newBalance.error);
      }
      var change := Apply(Direction.Credit, amount, newBalance.value, now);
      r := Ok(change);
    }

    /** Stores an already validated balance and describes the movement. */
    method Apply(direction: Direction, amount: Money, newBalance: Money, now: int) returns (change: Change)
      modifies this
      ensures change == ChangeOf(old(Row()), direction, amount, newBalance, now)
      ensures Row() == WalletAfter(old(Row()), change)
    {
      var occurredAt := now;
      if occurredAt < updatedAt {
        occurredAt := updatedAt;
      }
      change := Change(id, direction, amount, balance, newBalance, Wrap64(version + 1), occurredAt);
      balance, version, updatedAt := newBalance, change.version, occurredAt;
    }
  }

  class WagerTransaction {
    const id: Id
    const business: Business
    const key: string
    var state: State
    var referenceId: Id
    var failure: Option<FailureCode>
    var result: Option<Money>
    const createdAt: int
    var updatedAt: int

    function Row(): Tx
      reads this
    {
      Tx(id, business, key, state, referenceId, failure, result, createdAt, updatedAt)
    }

    constructor Restored(row: Tx)
      ensures Row() == row
    {
      id, business, key, state, referenceId := row.id, row.business, row.key, row.state, row.referenceId;
      failure, result, createdAt, updatedAt := row.failure, row.result, row.createdAt, row.updatedAt;
    }

    /** What a transition promises: it takes effect, or it fails and leaves the transaction as it was. */
    ghost predicate Moved(expected: Result<Tx>, was: Tx, r: Result<()>)
      reads this
    {
      match expected
      case Ok(t) => r == Ok(()) && Row() == t
      case Err(e) => r == Err(e) && Row() == was
    }

    method EnsureTransition(now: int) returns (r: Result<()>)
      ensures r ==
        if state.IsTerminal() then Err(TransactionTerminal)
        else if now == ZERO_TIME then Err(InvalidTimestamp)
        else Ok(())
    {
      if state.IsTerminal() {
        return Err(TransactionTerminal);
      }
      r := if now == ZERO_TIME then Err(InvalidTimestamp) else Ok(());
    }

    /** The instant never moves backwards. */
    method Touch(now: int)
      modifies this`updatedAt
      ensures updatedAt == Later(now, old(updatedAt))
    {
      if now >= updatedAt {
        updatedAt := now;
      }
    }

    method MarkAsProcessed(balance: Money, now: int) returns (r: Result<()>)
      modifies this
      ensures Moved(MarkedProcessed(old(Row()), balance, now), old(Row()), r)
    {
      var allowed := EnsureTransition(now);
      if allowed.Err? {
        return allowed;
      }
      if !balance.Initialized() {
        return Err(UninitializedMoney);
      }
      if balance.currency != business.money.currency {
        return Err(CurrencyMismatch);
      }
      if balance.cents < 0 {
        return Err(InvalidTransactionAmount);
      }
      if business.kind.RequiresReference() && referenceId == 0 {
        return Err(UnresolvedReference);
      }
      state := Processed;
      result := Some(balance);
      Touch(now);
      r := Ok(());
    }

    /** code is None for a blank one. */
    method Reject(code: Option<FailureCode>, now: int) returns (r: Result<()>)
      modifies this
      ensures code.Some? ==> Moved(MarkedRejected(old(Row()), code.value, now), old(Row()), r)
      ensures code.None? ==> Row() == old(Row())
      ensures code.None? ==> r == Err(if old(state).IsTerminal() then TransactionTerminal
                                      else if now == ZERO_TIME then InvalidTimestamp
                                      else MissingFailureCode)
    {
      var allowed := EnsureTransition(now);
      if allowed.Err? {
        return allowed;
      }
      if code.None? {
        return Err(MissingFailureCode);
      }
      state := Rejected;
      failure := code;
      Touch(now);
      r := Ok(());
    }

    /** code is None for a blank one. */
    method Fail(code: Option<FailureCode>, now: int) returns (r: Result<()>)
      modifies this
      ensures code.Some? ==> Moved(MarkedFailed(old(Row()), code.value, now), old(Row()), r)
      ensures code.None? ==> Row() == old(Row())
      ensures code.None? ==> r == Err(if old(state).IsTerminal() then TransactionTerminal
                                      else if now == ZERO_TIME then InvalidTimestamp
                                      else MissingFailureCode)
    {
      var allowed := EnsureTransition(now);
      if allowed.Err? {
        return allowed;
      }
      if code.None? {
        return Err(MissingFailureCode);
      }
      state := Failed;
      failure := code;
      Touch(now);
      r := Ok(());
    }

    method MarkAsPendingReference(now: int) returns (r: Result<()>)
      modifies this
      ensures Moved(MarkedPendingReference(old(Row()), now), old(Row()), r)
    {
      var allowed := EnsureTransition(now);
      if allowed.Err? {
        return allowed;
      }
      if !business.kind.AcceptsReference() {
        return Err(ReferenceNotApplicable);
      }
      if business.reference == "" {
        return Err(MissingReference);
      }
      state := PendingReference;
      Touch(now);
      r := Ok(());
    }

    method ResolveReference(reference: Id, now: int) returns (r: Result<()>)
      modifies this
      ensures Moved(ReferenceResolved(old(Row()), reference, now), old(Row()), r)
    {
      var allowed := EnsureTransition(now);
      if allowed.Err? {
        return allowed;
      }
      if !business.kind.AcceptsReference() {
        return Err(ReferenceNotApplicable);
      }
      if business.reference == "" {
        return Err(MissingReference);
      }
      if reference == 0 || reference == id {
        return Err(InvalidTransactionId);
      }
      if referenceId != 0 && referenceId != reference {
        return Err(ReferenceAlreadyResolved);
      }
      referenceId := reference;
      Touch(now);
      r := Ok(());
    }
  }
}
