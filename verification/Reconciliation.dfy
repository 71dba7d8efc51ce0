/** Rebuilding a balance from the ledger
    (cmd/internal/domain/wallet-ledger-entry.go, cmd/internal/usecase/queries.go). */
module Reconciliation {
  import opened Outcome
  import opened Monetary
  import opened Wager
  import opened Database
  import opened History
  import opened Reversals

  // ---- Entries ----

  function ExpectedAfter(e: Entry): Result<Money> {
    if e.direction.Credit? then e.before.Add(e.amount) else e.before.Subtract(e.amount)
  }

  /** buildLedgerEntry, which both a new entry and a row read back go through. */
  function BuildEntry(e: Entry): Result<Entry> {
    if e.wallet == 0 then Err(InvalidWalletId)
    else if e.tx == 0 then Err(InvalidTransactionId)
    else if !e.amount.Initialized() || !e.before.Initialized() || !e.after.Initialized() then Err(UninitializedMoney)
    else if e.amount.cents <= 0 then Err(InvalidLedgerAmount)
    else if e.before.cents < 0 || e.after.cents < 0 then Err(NegativeLedgerBalance)
    else match ExpectedAfter(e)
      case Err(error) => Err(error)
      case Ok(expected) =>
        match expected.Equals(e.after)
        case Err(error) => Err(error)
        case Ok(equal) =>
          if !equal then Err(LedgerBalanceMismatch)
          else if e.createdAt == ZERO_TIME then Err(InvalidTimestamp)
          else Ok(e)
  }

  /** An entry is accepted if and only if it is about one currency and goes from one balance that is not negative to
      another by its amount. */
  lemma BuiltIff(e: Entry)
    ensures BuildEntry(e).Ok? <==>
      && e.wallet != 0 && e.tx != 0 && e.createdAt != ZERO_TIME
      && e.amount.currency != "" && e.before.currency == e.amount.currency == e.after.currency
      && e.amount.cents > 0 && e.before.cents >= 0 && e.after.cents >= 0
      && (e.after.cents as int) == e.before.cents as int
          + (if e.direction == Credit then e.amount.cents as int else -(e.amount.cents as int))
    ensures BuildEntry(e).Ok? ==> BuildEntry(e).value == e
  {
  }

  function SignedAmount(e: Entry): Result<Money> {
    if e.direction.Credit? then Ok(e.amount) else e.amount.Negate()
  }

  // ---- Replay ----

  /** The sum in order, stopping at the first error. */
  function Replay(currency: Currency, entries: seq<Entry>): Result<Money> {
    if entries == [] then if IsCurrency(currency) then Ok(Money(0, currency)) else Err(InvalidCurrencyFormat)
    else match Replay(currency, entries[..|entries| - 1])
      case Err(error) => Err(error)
      case Ok(balance) =>
        match SignedAmount(entries[|entries| - 1])
        case Err(error) => Err(error)
        case Ok(signed) => balance.Add(signed)
  }

  lemma {:induction false} ReplayStops(currency: Currency, entries: seq<Entry>, n: nat)
    requires n <= |entries| && Replay(currency, entries[..n]).Err?
    ensures Replay(currency, entries) == Replay(currency, entries[..n])
  {
    if n < |entries| {
      assert entries[..|entries| - 1][..n] == entries[..n];
      ReplayStops(currency, entries[..|entries| - 1], n);
    } else {
      assert entries[..n] == entries;
    }
  }

  /** ReplayLedgerBalance. */
  method ReplayLedgerBalance(currency: Currency, entries: seq<Entry>) returns (r: Result<Money>)
    ensures r == Replay(currency, entries)
  {
    assert entries[..0] == [];
    if !IsCurrency(currency) {
      ReplayStops(currency, entries, 0);
      return Err(InvalidCurrencyFormat);
    }
    var balance := Money(0, currency);
    for i := 0 to |entries|
      invariant Replay(currency, entries[..i]) == Ok(balance)
    {
      var signed := SignedAmount(entries[i]);
      assert entries[..i + 1][..i] == entries[..i];
      if signed.Err? {
        ReplayStops(currency, entries, i + 1);
        return Err(signed.error);
      }
      var sum := balance.Add(signed.value);
      if sum.Err? {
        ReplayStops(currency, entries, i + 1);
        return Err(sum.error);
      }
      balance := sum.value;
    }
    assert entries[..|entries|] == entries;
    r := Ok(balance);
  }

  datatype Report = Report(stored: Money, calculated: Money, difference: Money, consistent: bool, checked: nat)

  /** ReconcileWallet.Execute on one snapshot. */
  method Reconcile(stored: Money, entries: seq<Entry>) returns (r: Result<Report>)
    ensures r.Ok?
      <==> Replay(stored.currency, entries).Ok? && stored.Subtract(Replay(stored.currency, entries).value).Ok?
    ensures r.Ok? ==>
      var calculated := Replay(stored.currency, entries).value;
      && r.value.stored == stored && r.value.calculated == calculated && r.value.checked == |entries|
      && stored.Subtract(calculated) == Ok(r.value.difference)
      && (r.value.consistent <==> stored.cents == calculated.cents)
    ensures r.Err? ==>
      r.error == if Replay(stored.currency, entries).Err? then Replay(stored.currency, entries).error
        else ArithmeticOverflow
  {
    ReplayKeepsCurrency(stored.currency, entries);
    var calculated := ReplayLedgerBalance(stored.currency, entries);
    if calculated.Err? {
      return Err(calculated.error);
    }
    var difference := stored.Subtract(calculated.value);
    if difference.Err? {
      return Err(difference.error);
    }
    r := Ok(Report(stored, calculated.value, difference.value, difference.value.IsZero(), |entries|));
  }

  lemma {:induction false} ReplayKeepsCurrency(currency: Currency, entries: seq<Entry>)
    ensures Replay(currency, entries).Ok? ==>
      Replay(currency, entries).value.currency == currency && IsCurrency(currency)
  {
    if entries != [] {
      ReplayKeepsCurrency(currency, entries[..|entries| - 1]);
    }
  }

  // ---- What replay yields ----

  ghost predicate Movements(es: seq<Entry>, currency: Currency) {
    forall i | 0 <= i < |es| :: es[i].amount.currency == currency && es[i].amount.cents > 0
  }

  predicate Representable(cents: int) {
    MIN_INT64 <= cents <= MAX_INT64
  }

  /** Replay yields the sum exactly when no partial sum leaves int64, and reports overflow otherwise. */
  lemma {:induction false} ReplayIsSum(currency: Currency, es: seq<Entry>)
    requires IsCurrency(currency) && Movements(es, currency)
    ensures Replay(currency, es).Ok? <==> forall n | 0 <= n <= |es| :: Representable(Sum(es[..n]))
    ensures Replay(currency, es).Ok? ==>
      Replay(currency, es).value.cents == Sum(es) && Replay(currency, es).value.currency == currency
    ensures Replay(currency, es).Err? ==> Replay(currency, es).error == ArithmeticOverflow
  {
    assert es[..|es|] == es;
    if es == [] {
      assert Replay(currency, es) == Ok(Money(0, currency));
    } else {
      hide Replay;
      var m := |es| - 1;
      ReplayIsSum(currency, es[..m]);
      forall n | 0 <= n <= m ensures es[..m][..n] == es[..n] {}
      LastMovement(currency, es);
    }
  }

  lemma LastMovement(currency: Currency, es: seq<Entry>)
    requires es != [] && currency != "" && es[|es| - 1].amount.currency == currency && es[|es| - 1].amount.cents > 0
    requires var before := Replay(currency, es[..|es| - 1]); before.Ok? ==> before.value.currency == currency
    ensures var before, after := Replay(currency, es[..|es| - 1]), Replay(currency, es);
      && (after.Ok? <==> before.Ok? && Representable(before.value.cents + SignedOf(es[|es| - 1])))
      && (after.Ok? ==>
            after.value.currency == currency && after.value.cents == before.value.cents + SignedOf(es[|es| - 1]))
      && (after.Err? ==> after.error == if before.Err? then before.error else ArithmeticOverflow)
  {
    hide SignedAmount, Representable, SignedOf, IsCurrency;
    var before := Replay(currency, es[..|es| - 1]);
    if before.Ok? {
      SignedMoves(before.value, es[|es| - 1]);
    } else {
      assert Replay(currency, es) == before;
    }
  }

  lemma SignedMoves(balance: Money, e: Entry)
    requires balance.Initialized() && e.amount.currency == balance.currency && e.amount.cents > 0
    ensures SignedAmount(e).Ok?
    ensures var after := balance.Add(SignedAmount(e).value);
      && (after.Ok? <==> Representable(balance.cents + SignedOf(e)))
      && (after.Ok? ==> after.value.currency == balance.currency && after.value.cents == balance.cents + SignedOf(e))
      && (after.Err? ==> after.error == ArithmeticOverflow)
  {
  }

  // ---- Order does not matter, but for overflow ----

  ghost function SumOf(m: multiset<Entry>): int {
    if m == multiset{} then 0 else
    var e :| e in m;
    SignedOf(e) + SumOf(m - multiset{e})
  }

  lemma {:induction false} SumOfRemove(m: multiset<Entry>, e: Entry)
    requires e in m
    ensures SumOf(m) == SignedOf(e) + SumOf(m - multiset{e})
    decreases |m|
  {
    var x :| x in m && SumOf(m) == SignedOf(x) + SumOf(m - multiset{x});
    if x != e {
      SumOfRemove(m - multiset{x}, e);
      SumOfRemove(m - multiset{e}, x);
      assert m - multiset{x} - multiset{e} == m - multiset{e} - multiset{x};
    }
  }

  lemma {:induction false} SumIsSumOf(es: seq<Entry>)
    ensures Sum(es) == SumOf(multiset(es))
  {
    if es != [] {
      var n := |es| - 1;
      assert es == es[..n] + [es[n]];
      SumIsSumOf(es[..n]);
      SumOfRemove(multiset(es), es[n]);
      assert multiset(es) - multiset{es[n]} == multiset(es[..n]);
    }
  }

  // ---- Reachable ledgers ----

  lemma ChainOfWallet(db: Db, wallet: Id)
    requires DbInv(db) && wallet in db.wallets
    ensures var w, es := db.wallets[wallet], EntriesOf(db.ledger, wallet);
      && w.balance.Initialized() && w.balance.cents >= 0 && WalletChain(w, es, Get(db.openings, wallet))
  {
    hide RowsOk, IndexesExact, OwnersExact, LedgerMatchesRows, TransactionEventsExact, WalletEventsExact, ParkedOk;
    hide InboxOk, WalletChain;
  }

  lemma ChainMoves(es: seq<Entry>, currency: Currency)
    requires Chain(es, currency)
    ensures Movements(es, currency)
  {
    forall i | 0 <= i < |es| ensures es[i].amount.currency == currency && es[i].amount.cents > 0 {
      assert Linked(es, i, currency);
    }
  }

  lemma ChainPrefix(es: seq<Entry>, currency: Currency, n: nat)
    requires Chain(es, currency) && n <= |es|
    ensures Chain(es[..n], currency)
  {
    forall i: nat | i < n ensures Linked(es[..n], i, currency) {
      assert es[..n][..i] == es[..i];
      assert Linked(es, i, currency);
    }
  }

  lemma ChainEndIsAmount(es: seq<Entry>, currency: Currency)
    requires Chain(es, currency)
    ensures 0 <= EndOf(es, currency).cents <= MAX_INT64 && EndOf(es, currency).currency == currency
  {
    if es != [] {
      assert Linked(es, |es| - 1, currency);
    }
  }

  /** In sequence order the replay of a reachable ledger never overflows, and it finds the stored balance. */
  lemma ReachableLedgerReconciles(db: Db, wallet: Id)
    requires DbInv(db) && wallet in db.wallets
    ensures var w, es := db.wallets[wallet], EntriesOf(db.ledger, wallet);
      Replay(w.balance.currency, es) == Ok(w.balance)
        && w.balance.Subtract(w.balance) == Ok(Money(0, w.balance.currency))
  {
    hide DbInv, Chain, Replay, EndOf;
    ChainOfWallet(db, wallet);
    ChainReplays(EntriesOf(db.ledger, wallet), db.wallets[wallet].balance.currency);
  }

  lemma ChainReplays(es: seq<Entry>, currency: Currency)
    requires Chain(es, currency) && IsCurrency(currency)
    ensures Replay(currency, es) == Ok(EndOf(es, currency))
  {
    hide Chain, Replay, EndOf, Movements;
    ChainMoves(es, currency);
    forall n | 0 <= n <= |es| ensures Representable(Sum(es[..n])) {
      ChainPrefix(es, currency, n);
      ChainSums(es[..n], currency);
      ChainEndIsAmount(es[..n], currency);
    }
    ChainSums(es, currency);
    ChainEndIsAmount(es, currency);
    ReplayIsSum(currency, es);
  }

  lemma {:induction false} SumAndCurrencyOfPermutation(es: seq<Entry>, ps: seq<Entry>, currency: Currency)
    requires multiset(es) == multiset(ps) && Movements(es, currency)
    ensures Sum(es) == Sum(ps) && Movements(ps, currency)
  {
    SumIsSumOf(es);
    SumIsSumOf(ps);
    forall i | 0 <= i < |ps| ensures ps[i].amount.currency == currency && ps[i].amount.cents > 0 {
      assert ps[i] in multiset(ps);
      assert ps[i] in es;
    }
  }

  /** In any other order the replay yields the stored balance, exactly when no partial sum leaves int64, or the
      overflow error: never another value. */
  lemma AnyOrderReconcilesOrOverflows(db: Db, wallet: Id, ps: seq<Entry>)
    requires DbInv(db) && wallet in db.wallets && multiset(ps) == multiset(EntriesOf(db.ledger, wallet))
    ensures var w := db.wallets[wallet];
      if forall n | 0 <= n <= |ps| :: Representable(Sum(ps[..n]))
      then Replay(w.balance.currency, ps) == Ok(w.balance)
      else Replay(w.balance.currency, ps) == Err(ArithmeticOverflow)
  {
    ChainOfWallet(db, wallet);
    hide DbInv;
    var w, es := db.wallets[wallet], EntriesOf(db.ledger, wallet);
    ChainMoves(es, w.balance.currency);
    SumAndCurrencyOfPermutation(es, ps, w.balance.currency);
    ChainSums(es, w.balance.currency);
    ReplayIsSum(w.balance.currency, ps);
  }

  /** An order can overflow midway: two credits before the debit between them. */
  lemma AnOrderThatOverflows()
    ensures var big := Money(MAX_INT64, "BRL");
      var zero := Money(0, "BRL");
      var es := [Entry(1, 1, 1, Credit, big, zero, big, 1), Entry(2, 1, 2, Debit, big, big, zero, 1),
                 Entry(3, 1, 3, Credit, big, zero, big, 1)];
      && Chain(es, "BRL") && Replay("BRL", es) == Ok(big)
      && Replay("BRL", [es[0], es[2], es[1]]) == Err(ArithmeticOverflow)
  {
    var big := Money(MAX_INT64, "BRL");
    var zero := Money(0, "BRL");
    var es := [Entry(1, 1, 1, Credit, big, zero, big, 1), Entry(2, 1, 2, Debit, big, big, zero, 1),
               Entry(3, 1, 3, Credit, big, zero, big, 1)];
    assert Linked(es, 0, "BRL") && Linked(es, 1, "BRL") && Linked(es, 2, "BRL");
    assert es[..2][..1] == es[..1];
    assert es[..1][..0] == [];
    assert Replay("BRL", es[..1]) == Ok(big);
    assert Replay("BRL", es[..2]) == Ok(zero);
    var ps := [es[0], es[2], es[1]];
    assert ps[..2][..1] == es[..1];
    assert Replay("BRL", ps[..2]) == Err(ArithmeticOverflow);
  }

  /** Every entry of a reachable ledger is accepted when it is read back, as it was written. */
  lemma ReachableEntriesRestore(db: Db, wallet: Id, i: nat)
    requires DbInv(db) && wallet in db.wallets && i < |EntriesOf(db.ledger, wallet)|
    ensures var e := EntriesOf(db.ledger, wallet)[i];
      e.tx != 0 && e.wallet != 0 && BuildEntry(e) == Ok(e)
  {
    hide DbInv, BuildEntry, Linked;
    var es, currency := EntriesOf(db.ledger, wallet), db.wallets[wallet].balance.currency;
    EntryIds(db, wallet, es[i]);
    ChainOfWallet(db, wallet);
    assert Linked(es, i, currency);
    ChainPrefix(es, currency, i);
    ChainEndIsAmount(es[..i], currency);
    LinkedEntryBuilds(es, i, currency);
  }

  lemma LinkedEntryBuilds(es: seq<Entry>, i: nat, currency: Currency)
    requires i < |es| && Linked(es, i, currency) && EndOf(es[..i], currency).cents >= 0
    requires EndOf(es[..i], currency).currency == currency
    requires es[i].tx != 0 && es[i].wallet != 0 && currency != ""
    ensures BuildEntry(es[i]) == Ok(es[i])
  {
    hide EndOf;
  }

  lemma EntryIds(db: Db, wallet: Id, e: Entry)
    requires DbInv(db) && wallet in db.wallets && e in EntriesOf(db.ledger, wallet)
    ensures e.tx != 0 && e.wallet == wallet && wallet != 0
  {
    hide IndexesExact, OwnersExact, ChainsOk, TransactionEventsExact, WalletEventsExact, ParkedOk, InboxOk;
    var es := EntriesOf(db.ledger, wallet);
    var i :| 0 <= i < |es| && es[i] == e;
    assert e in db.ledger;
    var j :| 0 <= j < |db.ledger| && db.ledger[j] == e;
    assert EntryMatches(db.txs, db.ledger[j]);
    assert RowOk(db.wallets, db.txs, db.txs[e.tx]);
  }
}
