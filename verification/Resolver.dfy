/** Retrying parked reversals under leases and an attempt limit (cmd/internal/infra/worker/reference-resolver.go,
    cmd/internal/infra/postgres/pending-reference-store.go). */
module Resolver {
  import opened Outcome
  import opened Monetary
  import opened Wager
  import opened Database
  import opened History
  import opened Restore
  import Delivery

  /** maxAttempts and ttl are limits only when positive. */
  datatype Limits = Limits(maxAttempts: int, ttl: int, lease: int, base: int64, max: int64)

  function Exhausted(cfg: Limits, attempts: nat, age: int): bool {
    (cfg.maxAttempts > 0 && attempts > cfg.maxAttempts) || (cfg.ttl > 0 && age > cfg.ttl)
  }

  /** The claim columns of a row of wager_transactions; waiting is state = PENDING_REFERENCE. */
  datatype Parked = Parked(waiting: bool, attempts: nat, nextAttemptAt: Option<int>, lockedUntil: Option<int>)

  predicate Due(r: Parked, now: int) {
    r.waiting && (r.nextAttemptAt.None? || r.nextAttemptAt.value <= now)
      && (r.lockedUntil.None? || r.lockedUntil.value <= now)
  }

  function TakenRow(r: Parked, now: int, lease: int): Parked {
    r.(lockedUntil := Some(now + lease), attempts := r.attempts + 1)
  }

  /** Reschedule and Release test the state of the row, not the owner of the claim. */
  function RescheduledRow(r: Parked, now: int, delay: int): Parked {
    if r.waiting then r.(nextAttemptAt := Some(now + delay), lockedUntil := None) else r
  }

  function ReleasedRow(r: Parked): Parked {
    if r.waiting then r.(lockedUntil := None) else r
  }

  function TakenRows(rows: map<Id, Parked>, ids: set<Id>, now: int, lease: int): map<Id, Parked> {
    map id | id in rows :: if id in ids then TakenRow(rows[id], now, lease) else rows[id]
  }

  predicate Selectable(rows: map<Id, Parked>, skipped: set<Id>, now: int, id: Id)
    requires id in rows
  {
    Due(rows[id], now) && id !in skipped
  }

  /** ORDER BY reference_next_attempt_at NULLS FIRST, id. */
  predicate DueBefore(rows: map<Id, Parked>, id: Id, other: Id)
    requires id in rows && other in rows
  {
    var at, next := rows[id].nextAttemptAt, rows[other].nextAttemptAt;
    if at == next then id < other else at.None? || (next.Some? && at.value < next.value)
  }

  ghost predicate AllDue(rows: map<Id, Parked>, skipped: set<Id>, now: int, due: seq<Id>) {
    forall i | 0 <= i < |due| :: due[i] in rows && Selectable(rows, skipped, now, due[i])
  }

  ghost predicate InDueOrder(rows: map<Id, Parked>, due: seq<Id>) {
    forall i, j | 0 <= i < j < |due| :: due[i] in rows && due[j] in rows && DueBefore(rows, due[i], due[j])
  }

  ghost predicate After(rows: map<Id, Parked>, due: seq<Id>, id: Id)
    requires id in rows
  {
    forall i | 0 <= i < |due| :: due[i] in rows && DueBefore(rows, due[i], id)
  }

  /** The first rows that are due, free and not skipped: all of them, or limit of them. */
  ghost predicate Selected(rows: map<Id, Parked>, skipped: set<Id>, limit: nat, now: int, due: seq<Id>) {
    && |due| <= limit && AllDue(rows, skipped, now, due) && InDueOrder(rows, due)
    && (forall id | id in rows && Selectable(rows, skipped, now, id) && id !in due ::
          |due| == limit && After(rows, due, id))
  }

  lemma DueIsNew(was: map<Id, Parked>, due: seq<Id>, n: nat)
    requires InDueOrder(was, due) && n < |due|
    ensures due[n] !in due[..n]
  {
    assert forall i | 0 <= i < n :: DueBefore(was, due[i], due[n]);
  }

  function Set(ids: seq<Id>): set<Id> {
    set id | id in ids
  }

  /** The attempts that a claim reports: those before it, and itself. */
  function AttemptsOf(rows: map<Id, Parked>, ids: set<Id>): map<Id, nat> {
    map id | id in ids && id in rows :: rows[id].attempts + 1
  }

  lemma NothingTaken(rows: map<Id, Parked>, now: int, lease: int)
    ensures TakenRows(rows, {}, now, lease) == rows && AttemptsOf(rows, {}) == map[]
  {
  }

  lemma OneMoreTaken(rows: map<Id, Parked>, ids: set<Id>, id: Id, now: int, lease: int)
    requires id in rows && id !in ids
    ensures var taken := TakenRows(rows, ids, now, lease);
      && id in taken && taken[id] == rows[id]
      && taken[id := TakenRow(rows[id], now, lease)] == TakenRows(rows, ids + {id}, now, lease)
    ensures AttemptsOf(rows, ids)[id := rows[id].attempts + 1] == AttemptsOf(rows, ids + {id})
  {
  }

  /** The claim columns of wager_transactions, and the statements that change them. */
  class PendingReferenceStore {
    var rows: map<Id, Parked>

    constructor (rows: map<Id, Parked>)
      ensures this.rows == rows
    {
      this.rows := rows;
    }

    /** The subquery: rows that are due and free, in due order, past those that SKIP LOCKED leaves to others. */
    method SelectDue(skipped: set<Id>, limit: nat, now: int) returns (due: seq<Id>)
      ensures Selected(rows, skipped, limit, now, due)
    {
      due := [];
      var rest := set id | id in rows && Selectable(rows, skipped, now, id);
      while |due| < limit && rest != {}
        invariant |due| <= limit && AllDue(rows, skipped, now, due) && InDueOrder(rows, due)
        invariant rest == set id | id in rows && Selectable(rows, skipped, now, id) && id !in due
        invariant forall id | id in rest :: After(rows, due, id)
        decreases limit - |due|
      {
        var first :| first in rest;
        var others := rest - {first};
        while others != {}
          invariant first in rest && first !in others && others <= rest
          invariant forall id | id in rest && id !in others :: id == first || DueBefore(rows, first, id)
          decreases others
        {
          var id :| id in others;
          others := others - {id};
          if DueBefore(rows, id, first) {
            first := id;
          }
        }
        due := due + [first];
        rest := rest - {first};
      }
      assert forall id | id in rows && Selectable(rows, skipped, now, id) && id !in due :: id in rest;
    }

    /** ClaimDue, up to the read that loads the claimed rows in full. The attempts are reported by row. */
    method ClaimDue(skipped: set<Id>, limit: nat, lease: int, now: int) returns (claimed: map<Id, nat>, order: seq<Id>)
      modifies this
      ensures Selected(old(rows), skipped, limit, now, order)
      ensures rows == TakenRows(old(rows), Set(order), now, lease) && claimed == AttemptsOf(old(rows), Set(order))
    {
      hide TakenRows, AttemptsOf, InDueOrder, Selectable, After;
      claimed, order := map[], [];
      var due := SelectDue(skipped, limit, now);
      NothingTaken(rows, now, lease);
      assert Set(due[..0]) == {};
      for n := 0 to |due|
        invariant rows == TakenRows(old(rows), Set(due[..n]), now, lease)
        invariant order == due[..n] && claimed == AttemptsOf(old(rows), Set(due[..n]))
      {
        var id := due[n];
        DueIsNew(old(rows), due, n);
        OneMoreTaken(old(rows), Set(due[..n]), id, now, lease);
        assert due[..n + 1] == due[..n] + [id];
        assert Set(due[..n + 1]) == Set(due[..n]) + {id};
        rows := rows[id := TakenRow(rows[id], now, lease)];
        claimed := claimed[id := rows[id].attempts];
        order := order + [id];
      }
      assert due[..|due|] == due;
    }

    method Reschedule(id: Id, delay: int, now: int)
      modifies this
      ensures rows == if id in old(rows) then old(rows)[id := RescheduledRow(old(rows)[id], now, delay)] else old(rows)
    {
      if id in rows && rows[id].waiting {
        rows := rows[id := rows[id].(nextAttemptAt := Some(now + delay), lockedUntil := None)];
      }
    }

    method Release(id: Id)
      modifies this
      ensures rows == if id in old(rows) then old(rows)[id := ReleasedRow(old(rows)[id])] else old(rows)
    {
      if id in rows && rows[id].waiting {
        rows := rows[id := rows[id].(lockedUntil := None)];
      }
    }
  }

  /** A claim is named by its row and the attempts it was handed out with. */
  type Claim = (Id, nat)

  /** until is the end of its lease; called tells that the worker went on to Resume or Expire. */
  datatype Work = Work(until: int, called: bool)

  /** open are the claims some worker still has in hand. resumed are those it called Resume for. */
  datatype State = State(now: int, rows: map<Id, Parked>, open: map<Claim, Work>, resumed: set<Claim>)

  datatype Action =
    | Pass(ticks: nat)
    | Parks(id: Id)
    | Concludes(id: Id)
    | Claims(ids: set<Id>)
    | Resumes(claim: Claim, age: int)
    | Expires(claim: Claim, age: int)
    | Reschedules(claim: Claim)
    | Releases(claim: Claim)
    | Drops(claim: Claim)

  function NewWork(rows: map<Id, Parked>, ids: set<Id>, until: int): map<Claim, Work>
    requires ids <= rows.Keys
  {
    map id | id in ids :: (id, rows[id].attempts + 1) := Work(until, false)
  }

  /** Concludes is the commit of any delivery, or of Resume or Expire, that leaves the row terminal. A worker
      calls Resume or Expire once per claim, then may release it, or stop at any moment. */
  ghost predicate Step(cfg: Limits, s: State, t: State, a: Action) {
    match a
    case Pass(ticks) => t == s.(now := s.now + ticks)
    case Parks(id) => id !in s.rows && t == s.(rows := s.rows[id := Parked(true, 0, None, None)])
    case Concludes(id) => id in s.rows && t == s.(rows := s.rows[id := s.rows[id].(waiting := false)])
    case Claims(ids) =>
      && ids <= s.rows.Keys && (forall id | id in ids :: Due(s.rows[id], s.now))
      && t == s.(rows := TakenRows(s.rows, ids, s.now, cfg.lease),
                 open := s.open + NewWork(s.rows, ids, s.now + cfg.lease))
    case Resumes(c, age) =>
      && c in s.open && !s.open[c].called && !Exhausted(cfg, c.1, age)
      && t == s.(open := s.open[c := s.open[c].(called := true)], resumed := s.resumed + {c})
    case Expires(c, age) =>
      && c in s.open && !s.open[c].called && Exhausted(cfg, c.1, age) && c.0 in s.rows
      && t == s.(open := s.open[c := s.open[c].(called := true)], rows := s.rows[c.0 := s.rows[c.0].(waiting := false)])
    case Reschedules(c) =>
      && c in s.open && c.0 in s.rows
      && var delay := Delivery.BackoffDelay(c.1, cfg.base, cfg.max);
      && t == s.(open := s.open - {c}, rows := s.rows[c.0 := RescheduledRow(s.rows[c.0], s.now, delay)])
    case Releases(c) =>
      && c in s.open && c.0 in s.rows
      && t == s.(open := s.open - {c}, rows := s.rows[c.0 := ReleasedRow(s.rows[c.0])])
    case Drops(c) => t == s.(open := s.open - {c})
  }

  ghost predicate IsRun(cfg: Limits, states: seq<State>, actions: seq<Action>) {
    && |states| == |actions| + 1 && states[0] == State(states[0].now, map[], map[], {})
    && forall i | 0 <= i < |actions| :: Step(cfg, states[i], states[i + 1], actions[i])
  }

  // ---- The number of resumptions ----

  /** Claims are handed out once, and resumed at most once, and never past the limit. */
  ghost predicate Inv(cfg: Limits, s: State) {
    && (forall c | c in s.open :: c.0 in s.rows && 1 <= c.1 <= s.rows[c.0].attempts)
    && (forall c | c in s.resumed ::
          && c.0 in s.rows && 1 <= c.1 <= s.rows[c.0].attempts && (cfg.maxAttempts > 0 ==> c.1 <= cfg.maxAttempts)
          && (c in s.open ==> s.open[c].called))
  }

  lemma StepKeeps(cfg: Limits, s: State, t: State, a: Action)
    requires Inv(cfg, s) && Step(cfg, s, t, a)
    ensures Inv(cfg, t)
  {
    if a.Claims? {
      ClaimsKeep(cfg, s, t, a);
    } else if a.Reschedules? || a.Releases? {
      ReleasesKeep(cfg, s, t, a);
    } else {
      hide Delivery.BackoffDelay, TakenRows, NewWork, RescheduledRow, ReleasedRow;
    }
  }

  lemma ReleasesKeep(cfg: Limits, s: State, t: State, a: Action)
    requires Inv(cfg, s) && (a.Reschedules? || a.Releases?) && Step(cfg, s, t, a)
    ensures Inv(cfg, t)
  {
    hide Delivery.BackoffDelay, TakenRows, NewWork, Exhausted;
  }

  lemma ClaimsKeep(cfg: Limits, s: State, t: State, a: Action)
    requires Inv(cfg, s) && a.Claims? && Step(cfg, s, t, a)
    ensures Inv(cfg, t)
  {
    hide Delivery.BackoffDelay, RescheduledRow, ReleasedRow, Exhausted;
  }

  lemma {:induction false} RunsKeepInv(cfg: Limits, states: seq<State>, actions: seq<Action>, i: nat)
    requires IsRun(cfg, states, actions) && i < |states|
    ensures Inv(cfg, states[i])
  {
    hide Step;
    if i > 0 {
      RunsKeepInv(cfg, states, actions, i - 1);
      assert Step(cfg, states[i - 1], states[i - 1 + 1], actions[i - 1]);
      StepKeeps(cfg, states[i - 1], states[i], actions[i - 1]);
    }
  }

  function ResumesOf(resumed: set<Claim>, id: Id): set<nat> {
    set c | c in resumed && c.0 == id :: c.1
  }

  function UpTo(n: nat): (s: set<nat>)
    ensures |s| == n && forall k :: k in s <==> 1 <= k <= n
  {
    if n == 0 then {} else UpTo(n - 1) + {n}
  }

  lemma SubsetIsSmaller(a: set<nat>, b: set<nat>)
    requires a <= b
    ensures |a| <= |b|
  {
    assert b == a + (b - a);
  }

  /** Over all instances the workers resume one reversal at most maxAttempts times: once per claim, and each
      claim has its own number of attempts. */
  lemma ResumesAreBounded(cfg: Limits, states: seq<State>, actions: seq<Action>, i: nat, id: Id)
    requires cfg.maxAttempts > 0 && IsRun(cfg, states, actions) && i < |states|
    ensures |ResumesOf(states[i].resumed, id)| <= cfg.maxAttempts
    ensures forall c, age, t | Step(cfg, states[i], t, Resumes(c, age)) :: c !in states[i].resumed
  {
    RunsKeepInv(cfg, states, actions, i);
    hide IsRun;
    var ks := ResumesOf(states[i].resumed, id);
    forall k | k in ks ensures k in UpTo(cfg.maxAttempts) {
      assert (id, k) in states[i].resumed;
    }
    SubsetIsSmaller(ks, UpTo(cfg.maxAttempts));
  }

  // ---- The number of claims ----

  predicate Overdue(cfg: Limits, c: Claim) {
    c.1 > cfg.maxAttempts
  }

  /** The lease of c still runs. */
  predicate Running(s: State, c: Claim) {
    c in s.open && s.now < s.open[c].until
  }

  /** Workers are on time: they release under their own lease, and a claim past the limit commits its
      expiry before its lease ends, without being dropped or released first. */
  ghost predicate Timely(cfg: Limits, s: State, a: Action) {
    match a
    case Pass(ticks) =>
      forall c | c in s.open && Overdue(cfg, c) && !s.open[c].called :: s.now + ticks < s.open[c].until
    case Reschedules(c) => Running(s, c) && (Overdue(cfg, c) ==> s.open[c].called)
    case Releases(c) => Running(s, c) && (Overdue(cfg, c) ==> s.open[c].called)
    case Drops(c) => c in s.open && Overdue(cfg, c) ==> s.open[c].called
    case _ => true
  }

  ghost predicate TimelyRun(cfg: Limits, states: seq<State>, actions: seq<Action>)
    requires |states| == |actions| + 1
  {
    forall i | 0 <= i < |actions| :: Timely(cfg, states[i], actions[i])
  }

  ghost predicate ClaimOk(cfg: Limits, s: State, c: Claim) {
    c in s.open && c.0 in s.rows ==>
      && (s.rows[c.0].waiting && Running(s, c) ==>
            s.rows[c.0].lockedUntil == Some(s.open[c].until) && c.1 == s.rows[c.0].attempts)
      && (s.rows[c.0].waiting && Overdue(cfg, c) ==> !s.open[c].called)
  }

  /** A row that waits past the limit is in the hands of the one claim that will expire it. */
  ghost predicate RowOk(cfg: Limits, s: State, id: Id) {
    id in s.rows ==>
      && s.rows[id].attempts <= cfg.maxAttempts + 1
      && (s.rows[id].waiting && s.rows[id].attempts == cfg.maxAttempts + 1 ==>
            var c := (id, cfg.maxAttempts + 1); Running(s, c) && !s.open[c].called)
  }

  ghost predicate TimelyInv(cfg: Limits, s: State) {
    (forall c :: ClaimOk(cfg, s, c)) && (forall id :: RowOk(cfg, s, id))
  }

  lemma ClaimKept(cfg: Limits, s: State, t: State, a: Action, c: Claim)
    requires cfg.maxAttempts > 0 && cfg.lease > 0 && Inv(cfg, s) && Step(cfg, s, t, a) && Timely(cfg, s, a)
    requires ClaimOk(cfg, s, c) && RowOk(cfg, s, c.0)
    requires (a.Reschedules? || a.Releases?) ==> ClaimOk(cfg, s, a.claim)
    ensures ClaimOk(cfg, t, c)
  {
    if a.Claims? {
      ClaimKeptByClaims(cfg, s, t, a, c);
    } else {
      hide Delivery.BackoffDelay, TakenRows, NewWork;
    }
  }

  lemma ClaimKeptByClaims(cfg: Limits, s: State, t: State, a: Action, c: Claim)
    requires cfg.maxAttempts > 0 && cfg.lease > 0 && Inv(cfg, s) && a.Claims? && Step(cfg, s, t, a)
    requires ClaimOk(cfg, s, c) && RowOk(cfg, s, c.0)
    ensures ClaimOk(cfg, t, c)
  {
    hide Delivery.BackoffDelay, RescheduledRow, ReleasedRow, Exhausted;
  }

  lemma RowKept(cfg: Limits, s: State, t: State, a: Action, id: Id)
    requires cfg.maxAttempts > 0 && cfg.lease > 0 && Inv(cfg, s) && Step(cfg, s, t, a) && Timely(cfg, s, a)
    requires ClaimOk(cfg, s, (id, cfg.maxAttempts + 1)) && RowOk(cfg, s, id)
    ensures RowOk(cfg, t, id)
  {
    if a.Claims? {
      RowKeptByClaims(cfg, s, t, a, id);
    } else {
      hide Delivery.BackoffDelay, TakenRows, NewWork;
    }
  }

  lemma RowKeptByClaims(cfg: Limits, s: State, t: State, a: Action, id: Id)
    requires cfg.maxAttempts > 0 && cfg.lease > 0 && Inv(cfg, s) && a.Claims? && Step(cfg, s, t, a)
    requires ClaimOk(cfg, s, (id, cfg.maxAttempts + 1)) && RowOk(cfg, s, id)
    ensures RowOk(cfg, t, id)
  {
    hide Delivery.BackoffDelay, RescheduledRow, ReleasedRow, Exhausted;
  }

  lemma {:induction false} RunsKeepTimelyInv(cfg: Limits, states: seq<State>, actions: seq<Action>, i: nat)
    requires cfg.maxAttempts > 0 && cfg.lease > 0 && IsRun(cfg, states, actions) && TimelyRun(cfg, states, actions)
    requires i < |states|
    ensures TimelyInv(cfg, states[i])
  {
    hide Step, Timely, ClaimOk, RowOk;
    if i == 0 {
      InitialTimelyInv(cfg, states[0]);
    } else {
      RunsKeepTimelyInv(cfg, states, actions, i - 1);
      RunsKeepInv(cfg, states, actions, i - 1);
      var s, t, a := states[i - 1], states[i], actions[i - 1];
      assert Step(cfg, states[i - 1], states[i - 1 + 1], a) && Timely(cfg, s, a);
      forall c ensures ClaimOk(cfg, t, c) {
        ClaimKept(cfg, s, t, a, c);
      }
      forall id ensures RowOk(cfg, t, id) {
        RowKept(cfg, s, t, a, id);
      }
    }
  }

  lemma InitialTimelyInv(cfg: Limits, s: State)
    requires s.rows == map[] && s.open == map[]
    ensures TimelyInv(cfg, s)
  {
  }

  /** With a positive limit, when workers are on time and every expiry commits, a reversal is claimed at most
      maxAttempts + 1 times; once that last claim went on to its expiry the reversal is terminal. */
  lemma TerminalWithinLimit(cfg: Limits, states: seq<State>, actions: seq<Action>, i: nat, id: Id)
    requires cfg.maxAttempts > 0 && cfg.lease > 0 && IsRun(cfg, states, actions) && TimelyRun(cfg, states, actions)
    requires i < |states| && id in states[i].rows
    ensures var s, c := states[i], (id, cfg.maxAttempts + 1);
      && s.rows[id].attempts <= cfg.maxAttempts + 1
      && (s.rows[id].attempts == cfg.maxAttempts + 1 && (c !in s.open || s.open[c].called) ==> !s.rows[id].waiting)
  {
    RunsKeepTimelyInv(cfg, states, actions, i);
    hide IsRun, TimelyRun;
    assert RowOk(cfg, states[i], id);
  }

  /** A terminal reversal is never claimed again and stays terminal. */
  lemma {:induction false} TerminalIsFinal(cfg: Limits, states: seq<State>, actions: seq<Action>, i: nat, j: nat,
                                           id: Id)
    requires IsRun(cfg, states, actions) && i <= j < |states| && id in states[i].rows && !states[i].rows[id].waiting
    ensures id in states[j].rows && states[j].rows[id] == states[i].rows[id]
  {
    hide Delivery.BackoffDelay, NewWork;
    if i < j {
      TerminalIsFinal(cfg, states, actions, i, j - 1, id);
      assert Step(cfg, states[j - 1], states[j - 1 + 1], actions[j - 1]);
    }
  }

  /** However late workers are: once the expiry of a claim has committed, the reversal is terminal in every later
      state and is never claimed again; and a claim past the limit can go on to nothing but its expiry. */
  lemma ExpiryIsFinal(cfg: Limits, states: seq<State>, actions: seq<Action>, i: nat, j: nat)
    requires IsRun(cfg, states, actions) && i < |actions| && i < j < |states| && actions[i].Expires?
    ensures var id := actions[i].claim.0;
      && id in states[i].rows && id in states[j].rows && !states[j].rows[id].waiting
      && states[j].rows[id].attempts == states[i].rows[id].attempts
      && (j < |actions| && actions[j].Claims? ==> id !in actions[j].ids)
    ensures forall c, age | cfg.maxAttempts > 0 && Overdue(cfg, c) :: Exhausted(cfg, c.1, age)
  {
    assert Step(cfg, states[i], states[i + 1], actions[i]);
    TerminalIsFinal(cfg, states, actions, i + 1, j, actions[i].claim.0);
    if j < |actions| {
      assert Step(cfg, states[j], states[j + 1], actions[j]);
    }
    hide IsRun, TakenRows, NewWork, Delivery.BackoffDelay;
  }

  // ---- Loading what was claimed ----

  /** What a worker is handed: its command is rebuilt from the row. */
  datatype PendingReference = PendingReference(id: Id, attempts: nat, createdAt: int, command: Command)

  function PendingOf(t: Tx, claimed: map<Id, nat>): PendingReference {
    PendingReference.PendingReference(t.id, if t.id in claimed then claimed[t.id] else 0, t.createdAt, CommandOf(t))
  }

  /** load: found are the rows of the claimed identifiers, in the order the database returns them. */
  method Load(found: seq<TxColumns>, claimed: map<Id, nat>) returns (r: Result<seq<PendingReference>>)
    ensures r.Ok? <==> forall i | 0 <= i < |found| :: ScanTransaction(found[i]).Ok?
    ensures r.Ok? ==> |r.value| == |found|
    ensures r.Ok? ==> forall i | 0 <= i < |found| :: r.value[i] == PendingOf(ScanTransaction(found[i]).value, claimed)
    ensures r.Err? ==> exists i | 0 <= i < |found| :: ScanTransaction(found[i]) == Err(r.error)
  {
    var pending := [];
    for i := 0 to |found|
      invariant |pending| == i && forall k | 0 <= k < i :: ScanTransaction(found[k]).Ok?
      invariant forall k | 0 <= k < i :: pending[k] == PendingOf(ScanTransaction(found[k]).value, claimed)
    {
      var scanned := ScanTransaction(found[i]);
      if scanned.Err? {
        return Err(scanned.error);
      }
      pending := pending + [PendingOf(scanned.value, claimed)];
    }
    r := Ok(pending);
  }

  /** Loading committed rows never fails, and hands out each with its attempts and a command that does what
      redelivering its own command does. */
  lemma LoadedAsStored(db: Db, id: Id, claimed: map<Id, nat>, cmd: Command, newId: Id, now: int)
    requires DbInv(db) && id in db.txs && id in claimed && cmd.business == db.txs[id].business && ValidCommand(cmd)
    ensures ScanTransaction(ColumnsOf(db.txs[id])).Ok?
    ensures var p := PendingOf(ScanTransaction(ColumnsOf(db.txs[id])).value, claimed);
      && p.id == id && p.attempts == claimed[id] && p.createdAt == db.txs[id].createdAt
      && ApplyPlan(db, p.command, newId, now) == ApplyPlan(db, cmd, newId, now)
  {
    hide DbInv, ScanTransaction, ColumnsOf, ApplyPlan, ValidCommand;
    CommittedRowsRestore(db, id);
    RowIsFound(db, id, cmd);
    ResumedAsRedelivered(db, cmd, newId, now);
  }

  lemma RowIsFound(db: Db, id: Id, cmd: Command)
    requires DbInv(db) && id in db.txs && cmd.business == db.txs[id].business && ValidCommand(cmd)
    ensures db.txs[id].id == id
    ensures FindExternal(db, cmd.business.provider, cmd.business.externalId) == Some(db.txs[id])
  {
    hide RowOk, WalletsOk, OwnersExact, LedgerMatchesRows, ChainsOk, TransactionEventsExact, WalletEventsExact;
    hide ParkedOk, InboxOk;
    assert IndexExact(db.txs, db.externals, ExternalKey);
    assert ExternalKey(db.txs[id]) == Some((cmd.business.provider, cmd.business.externalId));
  }

  // ---- When a claim is resumed, and when it is expired ----

  /** The attempts of a claim are past a positive limit. */
  predicate TooManyAttempts(cfg: Limits, c: Claim) {
    cfg.maxAttempts > 0 && c.1 > cfg.maxAttempts
  }

  /** A reversal is past a positive time to live. */
  predicate TooOld(cfg: Limits, age: int) {
    cfg.ttl > 0 && age > cfg.ttl
  }

  /** In every run a reversal is expired only past the limit on attempts or past its time to live. */
  lemma ExpiredOnlyPastALimit(cfg: Limits, states: seq<State>, actions: seq<Action>, i: nat, c: Claim, age: int)
    requires IsRun(cfg, states, actions) && i < |actions| && actions[i] == Expires(c, age)
    ensures TooManyAttempts(cfg, c) || TooOld(cfg, age)
  {
    assert Step(cfg, states[i], states[i + 1], actions[i]);
    hide IsRun, TakenRows, NewWork, Delivery.BackoffDelay;
  }

  /** A claim within both limits can be resumed and not expired; past either it can be expired and not resumed. */
  lemma ResumedOrExpired(cfg: Limits, s: State, c: Claim, age: int)
    requires c in s.open && !s.open[c].called && c.0 in s.rows
    ensures (exists t :: Step(cfg, s, t, Resumes(c, age))) <==> !TooManyAttempts(cfg, c) && !TooOld(cfg, age)
    ensures (exists t :: Step(cfg, s, t, Expires(c, age))) <==> TooManyAttempts(cfg, c) || TooOld(cfg, age)
  {
    hide TakenRows, NewWork, Delivery.BackoffDelay, RescheduledRow, ReleasedRow;
    var called := s.open[c := s.open[c].(called := true)];
    if TooManyAttempts(cfg, c) || TooOld(cfg, age) {
      var t := s.(open := called, rows := s.rows[c.0 := s.rows[c.0].(waiting := false)]);
      assert Step(cfg, s, t, Expires(c, age));
    } else {
      assert Step(cfg, s, s.(open := called, resumed := s.resumed + {c}), Resumes(c, age));
    }
  }

  // ---- What a claim takes ----

  /** Whether a reversal waits, is due and free, in terms of its columns. */
  predicate Waiting(r: Parked, now: int) {
    && r.waiting
    && (r.nextAttemptAt == None || r.nextAttemptAt.value <= now)
    && (r.lockedUntil == None || r.lockedUntil.value <= now)
  }

  /** A selection takes only reversals that wait, are due and free; it leaves one out only at the limit, and then none
      that is due earlier, never-tried ones first. */
  lemma SelectionIs(rows: map<Id, Parked>, skipped: set<Id>, limit: nat, now: int, due: seq<Id>)
    requires Selected(rows, skipped, limit, now, due)
    ensures |due| <= limit && forall i | 0 <= i < |due| ::
      due[i] in rows && Waiting(rows[due[i]], now) && due[i] !in skipped
    ensures forall id, i | id in rows && Waiting(rows[id], now) && id !in skipped && id !in due && 0 <= i < |due| ::
      NoLater(rows[due[i]].nextAttemptAt, rows[id].nextAttemptAt)
    ensures forall id | id in rows && Waiting(rows[id], now) && id !in skipped && id !in due :: |due| == limit
    ensures forall i, j | 0 <= i < j < |due| ::
      due[i] != due[j] && NoLater(rows[due[i]].nextAttemptAt, rows[due[j]].nextAttemptAt)
  {
    assert forall id | id in rows :: Waiting(rows[id], now) <==> Due(rows[id], now);
  }

  predicate NoLater(a: Option<int>, b: Option<int>) {
    a == None || (b != None && a.value <= b.value)
  }

  /** What the statements do to a row: a claim locks it and counts, putting it off and releasing it free it, and a
      concluded row is left alone. */
  lemma RowStatements(r: Parked, now: int, lease: int, delay: int)
    ensures TakenRow(r, now, lease) == Parked(r.waiting, r.attempts + 1, r.nextAttemptAt, Some(now + lease))
    ensures RescheduledRow(r, now, delay) == if r.waiting then Parked(true, r.attempts, Some(now + delay), None) else r
    ensures ReleasedRow(r) == if r.waiting then Parked(true, r.attempts, r.nextAttemptAt, None) else r
  {
  }
}
