/** Reversals form short chains, so that money is returned at most once, and balances are the sum of what
    the chains net. */
module Reversals {
  import opened Outcome
  import opened Monetary
  import opened Wager
  import opened Database
  import opened History

  // ---- The shape of chains ----

  /** The part of the invariant that chains follow from. */
  ghost predicate Linkable(db: Db) {
    RowsOk(db.wallets, db.txs) && IndexExact(db.txs, db.reversals, ReversalKey)
  }

  /** c is a processed reversal of p. */
  ghost predicate Reverses(txs: map<Id, Tx>, c: Id, p: Id) {
    c in txs && IsReversal(txs[c]) && txs[c].referenceId == p
  }

  /** A reversal takes back exactly what its reference did: same wallet, same money, opposite direction. */
  lemma ReversalMirrors(db: Db, c: Id, p: Id)
    requires Linkable(db) && Reverses(db.txs, c, p)
    ensures p in db.txs && p != c && db.txs[p].state.Processed?
    ensures db.txs[p].business.wallet == db.txs[c].business.wallet
    ensures db.txs[p].business.money == db.txs[c].business.money
    ensures var k := db.txs[p].business.kind; k.Bet? || (db.txs[c].business.kind.Rollback? && (k.Win? || k.Refund?))
    ensures DirectionOf(db.txs, db.txs[c]).Some? && DirectionOf(db.txs, db.txs[p]).Some?
    ensures DirectionOf(db.txs, db.txs[c]) != DirectionOf(db.txs, db.txs[p])
  {
    hide Linkable;
    ReversalRefers(db, c, p);
    Mirrored(db.txs, db.txs[c]);
  }

  lemma Mirrored(txs: map<Id, Tx>, t: Tx)
    requires IsReversal(t) && References(txs, t)
    ensures var r := txs[t.referenceId];
      && r.business.money == t.business.money && r.business.wallet == t.business.wallet
      && (r.business.kind.Bet? || (t.business.kind.Rollback? && (r.business.kind.Win? || r.business.kind.Refund?)))
      && DirectionOf(txs, t).Some? && DirectionOf(txs, r).Some? && DirectionOf(txs, t) != DirectionOf(txs, r)
  {
  }

  lemma ReversalRefers(db: Db, c: Id, p: Id)
    requires Linkable(db) && Reverses(db.txs, c, p)
    ensures References(db.txs, db.txs[c]) && db.txs[c].referenceId == p
    ensures db.txs[c].id == c
  {
    hide IndexExact, Agrees;
    assert RowOk(db.wallets, db.txs, db.txs[c]);
  }

  /** Nothing is reversed twice. */
  lemma OneReversal(db: Db, c: Id, d: Id, p: Id)
    requires Linkable(db) && Reverses(db.txs, c, p) && Reverses(db.txs, d, p)
    ensures c == d && Get(db.reversals, p) == Some(c)
  {
    assert ReversalKey(db.txs[c]) == Some(p) && ReversalKey(db.txs[d]) == Some(p);
  }

  /** A reversal can be reversed only as BET, REFUND, ROLLBACK, and that chain ends there. */
  lemma ChainsEndAtThree(db: Db, root: Id, c: Id, g: Id)
    requires Linkable(db) && Reverses(db.txs, c, root) && Reverses(db.txs, g, c)
    ensures root in db.txs && db.txs[root].business.kind.Bet? && db.txs[c].business.kind.Refund?
    ensures db.txs[g].business.kind.Rollback?
    ensures forall x :: !Reverses(db.txs, x, g)
    ensures !IsReversal(db.txs[root])
  {
    hide Linkable;
    ReversalMirrors(db, c, root);
    ReversalMirrors(db, g, c);
    forall x ensures !Reverses(db.txs, x, g) {
      if Reverses(db.txs, x, g) {
        ReversalMirrors(db, x, g);
        assert false;
      }
    }
  }

  // ---- Nets ----

  /** What a transaction did to its wallet. */
  ghost function Moved(txs: map<Id, Tx>, id: Id): int {
    if id in txs && Moves(txs[id]) && DirectionOf(txs, txs[id]).Some?
    then Signed(DirectionOf(txs, txs[id]).value, txs[id].business.money.cents)
    else 0
  }

  /** A movement that reverses nothing: an opening, a bet or a win. */
  predicate IsRoot(t: Tx) {
    Moves(t) && !t.business.kind.RequiresReference()
  }

  function MovedBy(db: Db, id: Option<Id>): set<Id> {
    if id.Some? then {id.value} else {}
  }

  function ChildOf(db: Db, id: Id): Option<Id> {
    Get(db.reversals, id)
  }

  function GrandchildOf(db: Db, id: Id): Option<Id> {
    if ChildOf(db, id).Some? then ChildOf(db, ChildOf(db, id).value) else None
  }

  ghost function MovedIf(txs: map<Id, Tx>, id: Option<Id>): int {
    if id.Some? then Moved(txs, id.value) else 0
  }

  /** What a movement and its chain of reversals did to the wallet together. */
  ghost function Net(db: Db, root: Id): int {
    Moved(db.txs, root) + MovedIf(db.txs, ChildOf(db, root)) + MovedIf(db.txs, GrandchildOf(db, root))
  }

  lemma ReversalCancels(db: Db, c: Id, p: Id)
    requires Linkable(db) && Reverses(db.txs, c, p)
    ensures Moved(db.txs, c) == -Moved(db.txs, p)
  {
    hide Linkable, DirectionOf;
    ReversalMirrors(db, c, p);
  }

  lemma ChildReverses(db: Db, id: Id)
    requires Linkable(db)
    ensures ChildOf(db, id).Some? ==> Reverses(db.txs, ChildOf(db, id).value, id)
  {
    assert ChildOf(db, id).Some? ==> ReversalKey(db.txs[db.reversals[id]]) == Some(id);
  }

  /** A bet of a and its chain net -a, or nothing once the bet is refunded or rolled back and that stands; a
      win nets a, or nothing once rolled back; an opening always stands. */
  lemma NetIsAllOrNothing(db: Db, root: Id)
    requires Linkable(db) && root in db.txs && IsRoot(db.txs[root])
    ensures var a := db.txs[root].business.money.cents;
      var stands := ChildOf(db, root).None? || GrandchildOf(db, root).Some?;
      match db.txs[root].business.kind
      case Bet => Net(db, root) == if stands then -a else 0
      case Win => GrandchildOf(db, root).None? && Net(db, root) == if stands then a else 0
      case _ => ChildOf(db, root).None? && Net(db, root) == a
  {
    hide Linkable, Reverses;
    ChildReverses(db, root);
    if ChildOf(db, root).Some? {
      var c := ChildOf(db, root).value;
      ReversalMirrors(db, c, root);
      ReversalCancels(db, c, root);
      ChildReverses(db, c);
      if ChildOf(db, c).Some? {
        ReversalCancels(db, ChildOf(db, c).value, c);
        ChainsEndAtThree(db, root, c, ChildOf(db, c).value);
      }
    }
  }

  // ---- Balances ----

  function SignedOf(e: Entry): int {
    Signed(e.direction, e.amount.cents)
  }

  /** What the entries of the given transactions did together. */
  ghost function Total(es: seq<Entry>, ids: set<Id>): int {
    if es == [] then 0
    else Total(es[..|es| - 1], ids) + if es[|es| - 1].tx in ids then SignedOf(es[|es| - 1]) else 0
  }

  ghost function Sum(es: seq<Entry>): int {
    if es == [] then 0 else Sum(es[..|es| - 1]) + SignedOf(es[|es| - 1])
  }

  lemma {:induction false} ChainSums(es: seq<Entry>, currency: Currency)
    requires Chain(es, currency)
    ensures EndOf(es, currency).cents == Sum(es)
  {
    if es != [] {
      var n := |es| - 1;
      forall i: nat | i < n ensures Linked(es[..n], i, currency) {
        assert es[..n][..i] == es[..i];
        assert Linked(es, i, currency);
      }
      ChainSums(es[..n], currency);
      assert Linked(es, n, currency);
    }
  }

  /** The movements that reverse nothing, each with all that its chain netted. */
  ghost function SumOfNets(db: Db, es: seq<Entry>): int {
    if es == [] then 0 else
    var id := es[|es| - 1].tx;
    SumOfNets(db, es[..|es| - 1]) + if id in db.txs && IsRoot(db.txs[id]) then Net(db, id) else 0
  }

  /** A root and its chain. */
  ghost function Family(db: Db, root: Id): set<Id> {
    {root} + MovedBy(db, ChildOf(db, root)) + MovedBy(db, GrandchildOf(db, root))
  }

  function RootOf(txs: map<Id, Tx>, id: Id): Id {
    if id !in txs || !IsReversal(txs[id]) then id else
    var p := txs[id].referenceId;
    if p !in txs || !IsReversal(txs[p]) then p else txs[p].referenceId
  }

  /** Every movement belongs to the family of one root, which is a movement of the same wallet. */
  lemma RootIsRoot(db: Db, id: Id)
    requires Linkable(db) && id in db.txs && Moves(db.txs[id])
    ensures var r := RootOf(db.txs, id);
      r in db.txs && IsRoot(db.txs[r]) && db.txs[r].business.wallet == db.txs[id].business.wallet && id in Family(db, r)
  {
    hide Linkable;
    if IsReversal(db.txs[id]) {
      var p := db.txs[id].referenceId;
      ReversalMirrors(db, id, p);
      OneReversal(db, id, id, p);
      if IsReversal(db.txs[p]) {
        ReversalMirrors(db, p, db.txs[p].referenceId);
        OneReversal(db, p, p, db.txs[p].referenceId);
        ChainsEndAtThree(db, db.txs[p].referenceId, p, id);
      }
    }
  }

  lemma FamilyHasRoot(db: Db, r: Id, id: Id)
    requires Linkable(db) && r in db.txs && IsRoot(db.txs[r]) && id in Family(db, r)
    ensures RootOf(db.txs, id) == r
  {
    hide Linkable;
    ChildReverses(db, r);
    if ChildOf(db, r).Some? {
      ChildReverses(db, ChildOf(db, r).value);
    }
  }

  // ---- Totals over entries ----

  ghost predicate DistinctTxs(es: seq<Entry>) {
    forall i, j | 0 <= i < j < |es| :: es[i].tx != es[j].tx
  }

  lemma {:induction false} TotalOfUnion(es: seq<Entry>, a: set<Id>, b: set<Id>)
    requires a !! b
    ensures Total(es, a + b) == Total(es, a) + Total(es, b)
  {
    if es != [] { TotalOfUnion(es[..|es| - 1], a, b); }
  }

  ghost predicate EntriesMatch(txs: map<Id, Tx>, es: seq<Entry>) {
    forall i | 0 <= i < |es| :: EntryMatches(txs, es[i])
  }

  lemma {:induction false} TotalOfNone(es: seq<Entry>, ids: set<Id>)
    requires forall i | 0 <= i < |es| :: es[i].tx !in ids
    ensures Total(es, ids) == 0
  {
    if es != [] { TotalOfNone(es[..|es| - 1], ids); }
  }

  lemma {:induction false} TotalOfOne(txs: map<Id, Tx>, es: seq<Entry>, id: Id)
    requires DistinctTxs(es) && EntriesMatch(txs, es) && Posted(es, id)
    ensures Total(es, {id}) == Moved(txs, id)
  {
    var n := |es| - 1;
    if es[n].tx == id {
      TotalOfNone(es[..n], {id});
      assert EntryMatches(txs, es[n]);
    } else {
      var i :| 0 <= i < |es| && es[i].tx == id;
      assert es[..n][i].tx == id;
      TotalOfOne(txs, es[..n], id);
    }
  }

  lemma TotalOfOption(db: Db, es: seq<Entry>, id: Option<Id>)
    requires DistinctTxs(es) && EntriesMatch(db.txs, es) && (id.Some? ==> Posted(es, id.value))
    ensures Total(es, MovedBy(db, id)) == MovedIf(db.txs, id)
  {
    if id.Some? { TotalOfOne(db.txs, es, id.value); } else { TotalOfNone(es, {}); }
  }

  /** The entries of all movements of a wallet. */
  ghost predicate AllPosted(txs: map<Id, Tx>, es: seq<Entry>, wallet: Id) {
    forall id | id in txs && Moves(txs[id]) && txs[id].business.wallet == wallet :: Posted(es, id)
  }

  lemma FamilyTotal(db: Db, es: seq<Entry>, r: Id)
    requires Linkable(db) && r in db.txs && IsRoot(db.txs[r])
    requires DistinctTxs(es) && EntriesMatch(db.txs, es) && AllPosted(db.txs, es, db.txs[r].business.wallet)
    ensures Total(es, Family(db, r)) == Net(db, r)
  {
    hide Linkable, EntriesMatch, DistinctTxs, Total, Moved, Posted, DirectionOf;
    var c, g := ChildOf(db, r), GrandchildOf(db, r);
    ChildReverses(db, r);
    if c.Some? {
      ReversalMirrors(db, c.value, r);
      ChildReverses(db, c.value);
      if g.Some? {
        ReversalMirrors(db, g.value, c.value);
      }
    }
    TotalOfOption(db, es, Some(r));
    TotalOfOption(db, es, c);
    TotalOfOption(db, es, g);
    TotalOfUnion(es, {r}, MovedBy(db, c));
    TotalOfUnion(es, {r} + MovedBy(db, c), MovedBy(db, g));
  }

  /** The entries among rs that open a family, each with the total of that family in es. */
  ghost function SumOfFamilies(db: Db, rs: seq<Entry>, es: seq<Entry>): int {
    if rs == [] then 0 else
    var id := rs[|rs| - 1].tx;
    SumOfFamilies(db, rs[..|rs| - 1], es) + if id in db.txs && IsRoot(db.txs[id]) then Total(es, Family(db, id)) else 0
  }

  /** One more entry is counted once, in the family it belongs to. */
  lemma {:induction false} OneMoreEntry(db: Db, rs: seq<Entry>, es: seq<Entry>, e: Entry)
    requires Linkable(db) && DistinctTxs(rs)
    ensures SumOfFamilies(db, rs, es + [e]) == SumOfFamilies(db, rs, es)
      + (if HasFamily(db, rs, e.tx) then SignedOf(e) else 0)
  {
    hide Linkable;
    if rs != [] {
      var n := |rs| - 1;
      OneMoreEntry(db, rs[..n], es, e);
      assert (es + [e])[..|es|] == es;
      if i :| 0 <= i < n && OpensFamilyOf(db, rs[i], e.tx) && OpensFamilyOf(db, rs[n], e.tx) {
        FamilyHasRoot(db, rs[i].tx, e.tx);
        FamilyHasRoot(db, rs[n].tx, e.tx);
      }
      assert forall i | 0 <= i < n :: rs[..n][i] == rs[i];
      hide Family;
    }
  }

  ghost predicate OpensFamilyOf(db: Db, x: Entry, id: Id) {
    x.tx in db.txs && IsRoot(db.txs[x.tx]) && id in Family(db, x.tx)
  }

  ghost predicate HasFamily(db: Db, rs: seq<Entry>, id: Id) {
    exists i :: 0 <= i < |rs| && OpensFamilyOf(db, rs[i], id)
  }

  lemma {:induction false} NoFamilies(db: Db, rs: seq<Entry>)
    ensures SumOfFamilies(db, rs, []) == 0
  {
    if rs != [] { NoFamilies(db, rs[..|rs| - 1]); }
  }

  lemma {:induction false} EveryEntryInOneFamily(db: Db, rs: seq<Entry>, es: seq<Entry>)
    requires Linkable(db) && DistinctTxs(rs)
    requires forall j | 0 <= j < |es| :: HasFamily(db, rs, es[j].tx)
    ensures SumOfFamilies(db, rs, es) == Sum(es)
  {
    hide Linkable, HasFamily;
    if es == [] {
      NoFamilies(db, rs);
    } else {
      var n := |es| - 1;
      forall j | 0 <= j < n ensures HasFamily(db, rs, es[..n][j].tx) {
        assert es[..n][j] == es[j];
      }
      EveryEntryInOneFamily(db, rs, es[..n]);
      OneMoreEntry(db, rs, es[..n], es[n]);
      assert es[..n] + [es[n]] == es;
    }
  }

  lemma {:induction false} FamiliesAreNets(db: Db, rs: seq<Entry>, es: seq<Entry>, wallet: Id)
    requires Linkable(db) && DistinctTxs(es) && EntriesMatch(db.txs, es) && AllPosted(db.txs, es, wallet)
    requires forall i | 0 <= i < |rs| :: rs[i].tx in db.txs && db.txs[rs[i].tx].business.wallet == wallet
    ensures SumOfFamilies(db, rs, es) == SumOfNets(db, rs)
  {
    hide Linkable, EntriesMatch, AllPosted, DistinctTxs, Family, Net, Total;
    if rs != [] {
      FamiliesAreNets(db, rs[..|rs| - 1], es, wallet);
      var id := rs[|rs| - 1].tx;
      if IsRoot(db.txs[id]) {
        FamilyTotal(db, es, id);
      }
    }
  }

  // ---- The entries of a wallet ----

  lemma {:induction false} EntriesOfKeepsAll(ledger: seq<Entry>, wallet: Id, i: nat)
    requires i < |ledger| && ledger[i].wallet == wallet
    ensures Posted(EntriesOf(ledger, wallet), ledger[i].tx)
  {
    var n := |ledger| - 1;
    var es := EntriesOf(ledger, wallet);
    if i == n {
      assert es[|es| - 1].tx == ledger[i].tx;
    } else {
      EntriesOfKeepsAll(ledger[..n], wallet, i);
      var shorter := EntriesOf(ledger[..n], wallet);
      var j :| 0 <= j < |shorter| && shorter[j].tx == ledger[i].tx;
      assert es[j].tx == ledger[i].tx;
    }
  }

  lemma {:induction false} EntriesOfDistinct(ledger: seq<Entry>, wallet: Id)
    requires DistinctTxs(ledger)
    ensures DistinctTxs(EntriesOf(ledger, wallet))
  {
    if ledger != [] {
      var n := |ledger| - 1;
      EntriesOfDistinct(ledger[..n], wallet);
      var shorter := EntriesOf(ledger[..n], wallet);
      forall i | 0 <= i < |shorter| ensures shorter[i].tx != ledger[n].tx {
        assert shorter[i] in ledger[..n];
      }
    }
  }

  lemma WalletEntriesMatch(db: Db, wallet: Id)
    requires LedgerMatchesRows(db.txs, db.ledger)
    ensures var es := EntriesOf(db.ledger, wallet);
      DistinctTxs(es) && EntriesMatch(db.txs, es) && AllPosted(db.txs, es, wallet)
  {
    var es := EntriesOf(db.ledger, wallet);
    EntriesOfDistinct(db.ledger, wallet);
    forall i | 0 <= i < |es| ensures EntryMatches(db.txs, es[i]) {
      assert es[i] in db.ledger;
    }
    forall id | id in db.txs && Moves(db.txs[id]) && db.txs[id].business.wallet == wallet ensures Posted(es, id) {
      assert Posted(db.ledger, id);
      var i: nat :| i < |db.ledger| && db.ledger[i].tx == id;
      assert EntryMatches(db.txs, db.ledger[i]);
      EntriesOfKeepsAll(db.ledger, wallet, i);
    }
  }

  lemma EveryEntryHasRoot(db: Db, wallet: Id)
    requires Linkable(db) && LedgerMatchesRows(db.txs, db.ledger)
    ensures var es := EntriesOf(db.ledger, wallet);
      forall j | 0 <= j < |es| :: HasFamily(db, es, es[j].tx)
  {
    hide Linkable, LedgerMatchesRows;
    var es := EntriesOf(db.ledger, wallet);
    WalletEntriesMatch(db, wallet);
    forall j | 0 <= j < |es| ensures HasFamily(db, es, es[j].tx) {
      assert EntryMatches(db.txs, es[j]) && es[j].wallet == wallet;
      RootIsRoot(db, es[j].tx);
      var r := RootOf(db.txs, es[j].tx);
      assert Posted(es, r);
      var i :| 0 <= i < |es| && es[i].tx == r;
      assert OpensFamilyOf(db, es[i], es[j].tx);
    }
  }

  /** The balance of a wallet is its opening plus what every bet and every win on it nets. */
  lemma BalanceIsSumOfNets(db: Db, wallet: Id)
    requires DbInv(db) && wallet in db.wallets
    ensures db.wallets[wallet].balance.cents == SumOfNets(db, EntriesOf(db.ledger, wallet))
  {
    hide RowsOk, WalletsOk, OwnersExact, IndexExact, LedgerMatchesRows, TransactionEventsExact, WalletEventsExact;
    hide ParkedOk, InboxOk;
    hide SumOfNets, Chain, EndOf, EntriesMatch, DistinctTxs, AllPosted, OpensFamilyOf;
    var es, w := EntriesOf(db.ledger, wallet), db.wallets[wallet];
    assert WalletChain(w, es, Get(db.openings, wallet));
    ChainSums(es, w.balance.currency);
    WalletEntriesMatch(db, wallet);
    EveryEntryHasRoot(db, wallet);
    EveryEntryInOneFamily(db, es, es);
    EntriesOnWallet(db, es, wallet);
    FamiliesAreNets(db, es, es, wallet);
  }

  lemma EntriesOnWallet(db: Db, es: seq<Entry>, wallet: Id)
    requires EntriesMatch(db.txs, es) && forall i | 0 <= i < |es| :: es[i].wallet == wallet
    ensures forall i | 0 <= i < |es| :: es[i].tx in db.txs && db.txs[es[i].tx].business.wallet == wallet
  {
    forall i | 0 <= i < |es| ensures es[i].tx in db.txs && db.txs[es[i].tx].business.wallet == wallet {
      assert EntryMatches(db.txs, es[i]);
    }
  }
}
