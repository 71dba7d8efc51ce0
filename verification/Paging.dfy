/** Walking the ledger of a wallet by cursor while new entries are committed
    (cmd/internal/infra/http/wallet-handler.go, cmd/internal/infra/postgres/query-repository.go). */
module Paging {
  import opened Outcome
  import opened Monetary
  import opened Wager
  import opened Database
  import opened History
  import opened Protocol
  import opened Statements
  import opened Safety
  import opened Guarantees

  const DEFAULT_LIMIT := 50
  const MAX_LIMIT := 200

  /** A page, and the cursor of the next one. A cursor is the sequence behind its opaque token. */
  datatype Page = Page(entries: seq<Entry>, next: Option<int>)

  /** parseLimit on what strconv.Atoi reads, None where it fails. */
  function ParseLimit(raw: Option<int>): (limit: nat)
    ensures 1 <= limit <= MAX_LIMIT
    ensures raw.Some? && 1 <= raw.value <= 200 ==> limit == raw.value
    ensures raw.None? || raw.value < 1 ==> limit == 50
    ensures raw.Some? && raw.value > 200 ==> limit == 200
  {
    if raw.None? || raw.value < 1 then DEFAULT_LIMIT
    else if raw.value > MAX_LIMIT then MAX_LIMIT
    else raw.value
  }

  /** decodeCursor: no cursor is the first page. */
  function AfterSequence(cursor: Option<int>): int {
    if cursor.None? then 0 else cursor.value
  }

  // ---- The query ----

  /** The rows that WHERE wallet_id = wallet AND seq > after selects. */
  predicate Eligible(e: Entry, wallet: Id, after: int) {
    e.wallet == wallet && e.sequence > after
  }

  ghost predicate Ascending(rows: seq<Entry>) {
    forall i, j | 0 <= i < j < |rows| :: rows[i].sequence < rows[j].sequence
  }

  /** What SELECT .. ORDER BY seq LIMIT limit may return: eligible rows in order, and an eligible row left
      out only when the limit is reached, and then only beyond the last row. */
  ghost predicate Selects(ledger: seq<Entry>, wallet: Id, after: int, limit: nat, rows: seq<Entry>) {
    && Ascending(rows) && |rows| <= limit
    && (forall i | 0 <= i < |rows| :: rows[i] in ledger && Eligible(rows[i], wallet, after))
    && (forall e | e in ledger && Eligible(e, wallet, after) && e !in rows ::
          |rows| == limit && (forall i | 0 <= i < |rows| :: rows[i].sequence < e.sequence))
  }

  /** At most limit rows; one more row than that says that another page exists. */
  function PageOf(rows: seq<Entry>, limit: nat): Page
    requires limit >= 1
  {
    if |rows| > limit then Page(rows[..limit], Some(rows[limit - 1].sequence)) else Page(rows, None)
  }

  /** WalletHandler.Ledger after the wallet was found: rows is what the query returned for limit + 1. */
  method LedgerPage(rows: seq<Entry>, limit: nat) returns (page: Page)
    requires limit >= 1
    ensures page == PageOf(rows, limit)
  {
    var next: Option<int> := None;
    var shown := rows;
    if |rows| > limit {
      next := Some(rows[limit - 1].sequence);
      shown := rows[..limit];
    }
    var entries := [];
    for i := 0 to |shown|
      invariant entries == shown[..i]
    {
      entries := entries + [shown[i]];
    }
    page := Page(entries, next);
  }

  /** What the handler answers on a ledger: the wallet is read first, so that an unknown one is an error. */
  ghost predicate Answers(db: Db, wallet: Id, cursor: Option<int>, limit: nat, r: Result<Page>)
    requires limit >= 1
  {
    if wallet !in db.wallets then r == Err(WalletNotFound)
    else exists rows ::
      Selects(db.ledger, wallet, AfterSequence(cursor), limit + 1, rows) && r == Ok(PageOf(rows, limit))
  }

  // ---- One page ----

  /** The entries of a wallet, in commit order, are in sequence order. */
  ghost predicate Ordered(es: seq<Entry>) {
    Ascending(es) && forall i | 0 <= i < |es| :: es[i].sequence > 0
  }

  lemma {:induction false} EntriesOfIsAll(ledger: seq<Entry>, wallet: Id, e: Entry)
    requires e in ledger && e.wallet == wallet
    ensures e in EntriesOf(ledger, wallet)
  {
    var n := |ledger| - 1;
    if e != ledger[n] {
      assert e in ledger[..n];
      EntriesOfIsAll(ledger[..n], wallet, e);
    }
  }

  /** The cursor of a prefix: the last sequence of it. */
  function CursorOf(es: seq<Entry>): int {
    if es == [] then 0 else es[|es| - 1].sequence
  }

  lemma AfterCursor(es: seq<Entry>, n: nat, i: nat)
    requires Ordered(es) && n <= |es| && i < |es|
    ensures es[i].sequence > CursorOf(es[..n]) <==> i >= n
  {
  }

  /** The same, over the entries of the wallet. */
  ghost predicate Takes(es: seq<Entry>, after: int, limit: nat, rows: seq<Entry>) {
    && Ascending(rows) && |rows| <= limit
    && (forall i | 0 <= i < |rows| :: rows[i] in es && rows[i].sequence > after)
    && (forall m | 0 <= m < |es| && es[m].sequence > after && es[m] !in rows ::
          |rows| == limit && (forall i | 0 <= i < |rows| :: rows[i].sequence < es[m].sequence))
  }

  lemma SelectsTakes(db: Db, wallet: Id, after: int, limit: nat, rows: seq<Entry>)
    requires Selects(db.ledger, wallet, after, limit, rows)
    ensures Takes(EntriesOf(db.ledger, wallet), after, limit, rows)
  {
    var es := EntriesOf(db.ledger, wallet);
    forall i | 0 <= i < |rows| ensures rows[i] in es {
      EntriesOfIsAll(db.ledger, wallet, rows[i]);
    }
    assert forall m | 0 <= m < |es| :: es[m] in db.ledger && es[m].wallet == wallet;
  }

  /** The k-th row is not among the entries that the rows before it are. */
  lemma RowIsAhead(es: seq<Entry>, n: nat, limit: nat, rows: seq<Entry>, k: nat) returns (i: nat)
    requires Ordered(es) && n <= |es| && 0 < k <= |rows| && Takes(es, CursorOf(es[..n]), limit, rows)
    requires n + k - 1 <= |es| && rows[..k - 1] == es[n..n + k - 1]
    ensures n + k - 1 <= i < |es| && es[i] == rows[k - 1]
  {
    assert rows[k - 1] in es;
    i :| i < |es| && es[i] == rows[k - 1];
    AfterCursor(es, n, i);
    forall m | n <= m < n + k - 1 ensures es[m] == rows[m - n] {
      assert es[m] == es[n..n + k - 1][m - n];
    }
  }

  lemma NextRow(es: seq<Entry>, n: nat, limit: nat, rows: seq<Entry>, k: nat)
    requires Ordered(es) && n <= |es| && 0 < k <= |rows| && Takes(es, CursorOf(es[..n]), limit, rows)
    requires n + k - 1 <= |es| && rows[..k - 1] == es[n..n + k - 1]
    ensures n + k <= |es| && rows[k - 1] == es[n + k - 1]
  {
    var i := RowIsAhead(es, n, limit, rows, k);
    var m := n + k - 1;
    AfterCursor(es, n, m);
    assert es[m].sequence <= rows[k - 1].sequence;
    assert es[m] in rows;
    var j :| 0 <= j < |rows| && rows[j] == es[m];
    assert j <= k - 1;
    assert forall q | 0 <= q < k - 1 :: rows[q] == rows[..k - 1][q];
    assert es[m] !in es[n..n + k - 1];
  }

  /** The rows taken after a prefix are the entries that follow it, one by one. */
  lemma {:induction false} TakenIsSlice(es: seq<Entry>, n: nat, limit: nat, rows: seq<Entry>, k: nat)
    requires Ordered(es) && n <= |es| && k <= |rows| && Takes(es, CursorOf(es[..n]), limit, rows)
    ensures n + k <= |es| && rows[..k] == es[n..n + k]
  {
    hide Ordered, Takes;
    if k > 0 {
      TakenIsSlice(es, n, limit, rows, k - 1);
      NextRow(es, n, limit, rows, k);
      assert rows[..k] == rows[..k - 1] + [rows[k - 1]];
      assert es[n..n + k] == es[n..n + k - 1] + [es[n + k - 1]];
    }
  }

  /** The query after the cursor of a prefix returns the next entries: all that are left, or limit of them. */
  lemma QueryReturnsNext(es: seq<Entry>, n: nat, limit: nat, rows: seq<Entry>)
    requires Ordered(es) && n <= |es| && Takes(es, CursorOf(es[..n]), limit, rows)
    ensures |rows| == (if |es| - n < limit then |es| - n else limit) && rows == es[n..n + |rows|]
  {
    TakenIsSlice(es, n, limit, rows, |rows|);
    assert rows[..|rows|] == rows;
    if n + |rows| < |es| {
      var y := es[n + |rows|];
      AfterCursor(es, n, n + |rows|);
      assert y !in es[n..n + |rows|];
      assert |rows| == limit;
    }
  }

  // ---- A walk ----

  /** One request of a walk: the state of the run it was answered in, its page size and its page. */
  datatype Visit = Visit(at: nat, limit: nat, page: Page)

  function CursorAfter(visits: seq<Visit>): Option<int> {
    if visits == [] then None else visits[|visits| - 1].page.next
  }

  /** Each request follows the cursor of the previous page, in the same or a later state, with any page size. */
  ghost predicate IsWalk(states: seq<Sys>, wallet: Id, visits: seq<Visit>) {
    visits != [] ==>
      var n := |visits| - 1;
      var v := visits[n];
      && IsWalk(states, wallet, visits[..n])
      && (n > 0 ==> visits[n - 1].page.next.Some? && visits[n - 1].at <= v.at)
      && v.at < |states| && 1 <= v.limit <= MAX_LIMIT
      && wallet in states[v.at].db.wallets
      && Answers(states[v.at].db, wallet, CursorAfter(visits[..n]), v.limit, Ok(v.page))
  }

  function Collected(visits: seq<Visit>): seq<Entry> {
    if visits == [] then [] else Collected(visits[..|visits| - 1]) + visits[|visits| - 1].page.entries
  }

  lemma {:induction false} EntriesGrow(ledger: seq<Entry>, after: seq<Entry>, wallet: Id)
    requires ledger <= after
    ensures EntriesOf(ledger, wallet) <= EntriesOf(after, wallet)
  {
    if |ledger| < |after| {
      EntriesGrow(ledger, after[..|after| - 1], wallet);
    } else {
      assert ledger == after;
    }
  }

  lemma ReachableEntries(locking: bool, states: seq<Sys>, actions: seq<Action>, i: nat, wallet: Id)
    requires IsRun(locking, states, actions) && i < |states| && wallet in states[i].db.wallets
    ensures var es := EntriesOf(states[i].db.ledger, wallet);
      Ordered(es)
  {
    hide IsRun, Inv, DbInv;
    RunsKeepInv(locking, states, actions, i);
    var db := states[i].db;
    DbInvOf(locking, states[i]);
    SequencesOfInv(locking, states[i]);
    ChainOfInv(db, wallet);
    var es := EntriesOf(db.ledger, wallet);
    assert forall j | 0 <= j < |es| :: es[j] in db.ledger;
  }

  lemma DbInvOf(locking: bool, s: Sys)
    requires Inv(locking, s)
    ensures DbInv(s.db)
  {
    hide DbInv;
  }

  lemma SequencesOfInv(locking: bool, s: Sys)
    requires Inv(locking, s)
    ensures forall i | 0 <= i < |s.db.ledger| :: s.db.ledger[i].sequence > 0
  {
    hide DbInv, SessionsOk, RepliesTruthful;
  }

  lemma ChainOfInv(db: Db, wallet: Id)
    requires DbInv(db) && wallet in db.wallets
    ensures Ascending(EntriesOf(db.ledger, wallet))
  {
    hide RowsOk, WalletsOk, IndexesExact, OwnersExact, LedgerMatchesRows, TransactionEventsExact, WalletEventsExact;
    hide ParkedOk, InboxOk, Linked;
    assert WalletChain(db.wallets[wallet], EntriesOf(db.ledger, wallet), Get(db.openings, wallet));
  }

  /** The pages so far are the oldest entries, each once and in order; a page without a cursor completes them. */
  ghost predicate WalkedSoFar(ledger: seq<Entry>, wallet: Id, visits: seq<Visit>) {
    var es, n := EntriesOf(ledger, wallet), |Collected(visits)|;
    && Collected(visits) <= es
    && (visits != [] && CursorAfter(visits).None? ==> Collected(visits) == es)
    && (visits == [] || CursorAfter(visits).Some? ==> AfterSequence(CursorAfter(visits)) == CursorOf(Collected(visits)))
    && (visits != [] && CursorAfter(visits).Some? ==> n < |es|)
  }

  lemma NextRows(es: seq<Entry>, collected: seq<Entry>, limit: nat, rows: seq<Entry>)
    requires Ordered(es) && collected <= es && limit >= 1 && Takes(es, CursorOf(collected), limit + 1, rows)
    ensures var page := PageOf(rows, limit);
      && collected + page.entries <= es
      && (page.next.None? ==> collected + page.entries == es)
      && (page.next.Some? ==>
            page.next.value == CursorOf(collected + page.entries) && |collected + page.entries| < |es|)
  {
    hide Ordered, Takes;
    var n, page := |collected|, PageOf(rows, limit);
    assert es[..n] == collected;
    QueryReturnsNext(es, n, limit + 1, rows);
    assert page.entries == es[n..n + |page.entries|];
    assert collected + page.entries == es[..n + |page.entries|];
  }

  lemma NextPage(db: Db, es: seq<Entry>, wallet: Id, collected: seq<Entry>, cursor: Option<int>, limit: nat, page: Page)
    requires es == EntriesOf(db.ledger, wallet) && Ordered(es)
    requires wallet in db.wallets && limit >= 1 && Answers(db, wallet, cursor, limit, Ok(page))
    requires collected <= es && AfterSequence(cursor) == CursorOf(collected)
    ensures collected + page.entries <= es
    ensures page.next.None? ==> collected + page.entries == es
    ensures page.next.Some? ==>
      page.next.value == CursorOf(collected + page.entries) && |collected + page.entries| < |es|
  {
    hide Ordered, Selects, Takes, EntriesOf, PageOf;
    var rows :| Selects(db.ledger, wallet, AfterSequence(cursor), limit + 1, rows) && page == PageOf(rows, limit);
    SelectsTakes(db, wallet, AfterSequence(cursor), limit + 1, rows);
    NextRows(es, collected, limit, rows);
  }

  /** What was collected stays the oldest part of a longer ledger. */
  lemma CarryOver(ledger: seq<Entry>, after: seq<Entry>, wallet: Id, visits: seq<Visit>)
    requires WalkedSoFar(ledger, wallet, visits) && ledger <= after && visits != [] && CursorAfter(visits).Some?
    ensures Collected(visits) <= EntriesOf(after, wallet)
    ensures AfterSequence(CursorAfter(visits)) == CursorOf(Collected(visits))
  {
    EntriesGrow(ledger, after, wallet);
    hide EntriesOf, Collected;
  }

  /** One more page. */
  lemma ExtendWalk(db: Db, wallet: Id, before: seq<Visit>, v: Visit)
    requires wallet in db.wallets && Ordered(EntriesOf(db.ledger, wallet)) && v.limit >= 1
    requires Answers(db, wallet, CursorAfter(before), v.limit, Ok(v.page))
    requires Collected(before) <= EntriesOf(db.ledger, wallet)
    requires AfterSequence(CursorAfter(before)) == CursorOf(Collected(before))
    ensures WalkedSoFar(db.ledger, wallet, before + [v])
  {
    hide Ordered, Answers, EntriesOf;
    assert (before + [v])[..|before|] == before;
    NextPage(db, EntriesOf(db.ledger, wallet), wallet, Collected(before), CursorAfter(before), v.limit, v.page);
  }

  /** Walking a wallet by cursor, with any page sizes and any commits between the pages, shows each entry exactly
      once, in order and without gaps, and ends only when every entry committed by then was shown. */
  lemma {:induction false} WalkIsComplete(locking: bool, states: seq<Sys>, actions: seq<Action>, wallet: Id,
                                          visits: seq<Visit>)
    requires IsRun(locking, states, actions) && visits != [] && IsWalk(states, wallet, visits)
    ensures WalkedSoFar(states[visits[|visits| - 1].at].db.ledger, wallet, visits)
  {
    hide IsRun, Answers, Ordered, WalkedSoFar, EntriesOf;
    var n := |visits| - 1;
    var v := visits[n];
    ReachableEntries(locking, states, actions, v.at, wallet);
    if n > 0 {
      WalkIsComplete(locking, states, actions, wallet, visits[..n]);
      LedgerGrows(locking, states, actions, visits[n - 1].at, v.at);
      CarryOver(states[visits[n - 1].at].db.ledger, states[v.at].db.ledger, wallet, visits[..n]);
    }
    ExtendWalk(states[v.at].db, wallet, visits[..n], v);
    assert visits[..n] + [v] == visits;
  }

  lemma LedgerGrows(locking: bool, states: seq<Sys>, actions: seq<Action>, i: nat, j: nat)
    requires IsRun(locking, states, actions) && i <= j < |states|
    ensures states[i].db.ledger <= states[j].db.ledger
  {
    hide IsRun, TerminalRowsKept;
    HistoryGrows(locking, states, actions, i, j);
  }
}
