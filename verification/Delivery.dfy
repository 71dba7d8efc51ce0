/** Publishing the outbox under leases: any number of publishers claim, send, confirm and reschedule, late,
    twice or not at all (cmd/internal/infra/postgres/outbox-repository.go,
    cmd/internal/infra/worker/outbox-publisher.go). */
module Delivery {
  import opened Outcome
  import opened Monetary
  import opened Wager
  import opened Database

  type Publisher = nat

  // ---- Backoff ----

  const MAX_SHIFT := 32

  function Pow2(n: nat): (p: nat)
    ensures p >= 1
  {
    if n == 0 then 1 else 2 * Pow2(n - 1)
  }

  /** base << shift on a 64-bit duration. */
  function ShiftLeft(base: int64, shift: nat): int64 {
    Wrap64(base * Pow2(shift))
  }

  /** Whatever the shift wraps around to, the delay stays within (0, max]. */
  function BackoffDelay(attempts: int, base: int64, max: int64): (delay: int64)
    ensures max > 0 ==> 0 < delay <= max
  {
    var shift := if attempts < 1 then 0 else attempts - 1;
    if shift > MAX_SHIFT then max
    else
      var delay := ShiftLeft(base, shift);
      if delay <= 0 || delay > max then max else delay
  }

  /** The delay the comment of the source promises: doubling with each attempt, up to the cap. */
  function CappedDoubling(attempts: int, base: int64, max: int64): int {
    var delay := base * Pow2(if attempts < 1 then 0 else attempts - 1);
    if delay > max then max else delay
  }

  /** The delay doubles up to the cap exactly when the shift neither wraps around into (0, max) nor is cut
      off while the doubled delay is still below the cap. */
  lemma BackoffIsCappedDoublingIff(attempts: int, base: int64, max: int64)
    requires base > 0 && max > 0
    ensures var shift := if attempts < 1 then 0 else attempts - 1;
      BackoffDelay(attempts, base, max) == CappedDoubling(attempts, base, max) <==>
        if shift > MAX_SHIFT then base * Pow2(shift) >= max
        else base * Pow2(shift) <= MAX_INT64 || !(0 < ShiftLeft(base, shift) < max)
  {
    var shift := if attempts < 1 then 0 else attempts - 1;
    assert base * Pow2(shift) >= base >= 1 by {
      MulAtLeast(base, Pow2(shift));
    }
  }

  lemma MulAtLeast(a: int, b: int)
    requires a >= 1 && b >= 1
    ensures a * b >= a
  {
    assert a * (b - 1) >= 0;
  }

  lemma Pow2Of32()
    ensures Pow2(32) == 0x1_0000_0000
  {
    assert Pow2(8) == 0x100;
    assert Pow2(16) == 0x1_0000;
    assert Pow2(24) == 0x100_0000;
  }

  lemma {:induction false} Pow2Grows(n: nat, m: nat)
    requires n <= m
    ensures Pow2(n) <= Pow2(m)
  {
    if n < m { Pow2Grows(n, m - 1); }
  }

  /** It can wrap around: with a base of 4.3 seconds and a cap of one hour the 33rd delay is 4.3 seconds. */
  lemma BackoffCanWrap()
    ensures BackoffDelay(33, 0x1_0000_0001, 3_600_000_000_000) == 0x1_0000_0000
    ensures CappedDoubling(33, 0x1_0000_0001, 3_600_000_000_000) == 3_600_000_000_000
  {
    Pow2Of32();
  }

  /** A base below 2^31 nanoseconds never wraps around. */
  lemma SmallBaseNeverWraps(attempts: int, base: int64, max: int64)
    requires 0 < base < 0x8000_0000 && max > 0 && attempts <= MAX_SHIFT + 1
    ensures BackoffDelay(attempts, base, max) == CappedDoubling(attempts, base, max)
  {
    var shift := if attempts < 1 then 0 else attempts - 1;
    Pow2Of32();
    Pow2Grows(shift, 32);
    assert base * Pow2(shift) <= base * Pow2(32) by { MulMonotone(base, Pow2(shift), Pow2(32)); }
    BackoffIsCappedDoublingIff(attempts, base, max);
  }

  lemma MulMonotone(a: int, b: int, c: int)
    requires a >= 0 && b <= c
    ensures a * b <= a * c
  {
    assert a * (c - b) >= 0;
  }

  // ---- Rows ----

  /** A row of outbox, named by its position. touched is a history variable: when it was last saved, claimed or
      rescheduled. */
  datatype Row = Row(
    event: Event, occurredAt: int, publishedAt: Option<int>, attempts: nat, nextAttemptAt: int,
    lockedBy: Option<Publisher>, lockedUntil: Option<int>, lastError: Option<string>, touched: int)

  function SavedRow(event: Event, occurredAt: int, now: int): Row {
    Row(event, occurredAt, None, 0, now, None, None, None, now)
  }

  predicate Claimable(r: Row, now: int) {
    r.publishedAt.None? && r.nextAttemptAt <= now && (r.lockedUntil.None? || r.lockedUntil.value <= now)
  }

  function ClaimedRow(r: Row, publisher: Publisher, now: int, lease: int): Row {
    r.(lockedBy := Some(publisher), lockedUntil := Some(now + lease), attempts := r.attempts + 1, touched := now)
  }

  /** MarkPublished; a second confirmation changes nothing. */
  function PublishedRow(r: Row, now: int): Row {
    if r.publishedAt.Some? then r else r.(publishedAt := Some(now), lockedBy := None, lockedUntil := None)
  }

  /** outbox_published_after_occurred refuses a confirmation before the event occurred. */
  predicate Confirmable(r: Row, now: int) {
    r.publishedAt.Some? || now >= r.occurredAt
  }

  /** Reschedule: whoever holds the row. An empty cause is stored as NULL. */
  function PostponedRow(r: Row, now: int, delay: int, cause: string): Row {
    if r.publishedAt.Some? then r
    else r.(nextAttemptAt := now + delay, lockedBy := None, lockedUntil := None,
            lastError := if cause == "" then None else Some(cause), touched := now)
  }

  // ---- The store ----

  datatype Claimed = Claimed(event: nat, attempts: nat)

  function EventsOfClaims(claimed: seq<Claimed>): seq<nat> {
    seq(|claimed|, i requires 0 <= i < |claimed| => claimed[i].event)
  }

  predicate Selectable(rows: seq<Row>, skipped: set<nat>, now: int, e: nat)
    requires e < |rows|
  {
    Claimable(rows[e], now) && e !in skipped
  }

  /** ORDER BY next_attempt_at, event_id. */
  predicate DueBefore(rows: seq<Row>, e: nat, d: nat)
    requires e < |rows| && d < |rows|
  {
    rows[e].nextAttemptAt < rows[d].nextAttemptAt || (rows[e].nextAttemptAt == rows[d].nextAttemptAt && e < d)
  }

  ghost predicate AllDue(rows: seq<Row>, skipped: set<nat>, now: int, due: seq<nat>) {
    forall i | 0 <= i < |due| :: due[i] < |rows| && Selectable(rows, skipped, now, due[i])
  }

  ghost predicate InDueOrder(rows: seq<Row>, due: seq<nat>) {
    forall i, j | 0 <= i < j < |due| :: due[i] < |rows| && due[j] < |rows| && DueBefore(rows, due[i], due[j])
  }

  ghost predicate After(rows: seq<Row>, due: seq<nat>, e: nat)
    requires e < |rows|
  {
    forall i | 0 <= i < |due| :: due[i] < |rows| && DueBefore(rows, due[i], e)
  }

  /** The first rows that are due, free and not skipped: all of them, or limit of them. */
  ghost predicate Selected(rows: seq<Row>, skipped: set<nat>, limit: nat, now: int, due: seq<nat>) {
    && |due| <= limit && AllDue(rows, skipped, now, due) && InDueOrder(rows, due)
    && (forall e | 0 <= e < |rows| && Selectable(rows, skipped, now, e) && e !in due ::
          |due| == limit && After(rows, due, e))
  }

  lemma DueIsNew(was: seq<Row>, due: seq<nat>, n: nat)
    requires InDueOrder(was, due) && n < |due|
    ensures due[n] !in due[..n]
  {
    assert forall i | 0 <= i < n :: DueBefore(was, due[i], due[n]);
  }

  /** The table outbox and the statements that the service runs on it. */
  class OutboxStore {
    var rows: seq<Row>

    constructor ()
      ensures rows == []
    {
      rows := [];
    }

    method Save(event: Event, occurredAt: int, now: int)
      modifies this
      ensures rows == old(rows) + [SavedRow(event, occurredAt, now)]
    {
      rows := rows + [SavedRow(event, occurredAt, now)];
    }

    /** The subquery: rows that are due and free, in due order, past those that SKIP LOCKED leaves to others. */
    method SelectDue(skipped: set<nat>, limit: nat, now: int) returns (due: seq<nat>)
      ensures Selected(rows, skipped, limit, now, due)
    {
      due := [];
      while |due| < limit
        invariant |due| <= limit && AllDue(rows, skipped, now, due) && InDueOrder(rows, due)
        invariant forall e | 0 <= e < |rows| && Selectable(rows, skipped, now, e) && e !in due :: After(rows, due, e)
        decreases limit - |due|
      {
        var first: Option<nat> := None;
        for e := 0 to |rows|
          invariant first.Some? ==>
            first.value < e && Selectable(rows, skipped, now, first.value) && first.value !in due
          invariant forall d | 0 <= d < e && Selectable(rows, skipped, now, d) && d !in due ::
            first.Some? && (first.value == d || DueBefore(rows, first.value, d))
        {
          if Selectable(rows, skipped, now, e) && e !in due && (first.None? || DueBefore(rows, e, first.value)) {
            first := Some(e);
          }
        }
        if first.None? {
          return;
        }
        due := due + [first.value];
      }
    }

    method ClaimPending(publisher: Publisher, skipped: set<nat>, limit: nat, lease: int, now: int)
      returns (claimed: seq<Claimed>)
      modifies this
      ensures Selected(old(rows), skipped, limit, now, EventsOfClaims(claimed))
      ensures |rows| == |old(rows)|
      ensures forall e | 0 <= e < |rows| ::
        rows[e] ==
          if e in EventsOfClaims(claimed) then ClaimedRow(old(rows)[e], publisher, now, lease) else old(rows)[e]
      ensures forall c | c in claimed :: c.event < |old(rows)| && c.attempts == old(rows)[c.event].attempts + 1
    {
      claimed := [];
      var due := SelectDue(skipped, limit, now);
      for n := 0 to |due|
        invariant |rows| == |old(rows)| && EventsOfClaims(claimed) == due[..n]
        invariant forall e | 0 <= e < |rows| ::
          rows[e] == if e in due[..n] then ClaimedRow(old(rows)[e], publisher, now, lease) else old(rows)[e]
        invariant forall c | c in claimed :: c.event < |old(rows)| && c.attempts == old(rows)[c.event].attempts + 1
      {
        var e := due[n];
        DueIsNew(old(rows), due, n);
        rows := rows[e := ClaimedRow(rows[e], publisher, now, lease)];
        claimed := claimed + [Claimed(e, rows[e].attempts)];
        assert due[..n + 1] == due[..n] + [e];
      }
      assert due[..|due|] == due;
    }

    method MarkPublished(event: nat, now: int) returns (r: Result<()>)
      modifies this
      ensures event >= |old(rows)| ==> r.Ok? && rows == old(rows)
      ensures event < |old(rows)| ==> (r.Ok? <==> Confirmable(old(rows)[event], now))
      ensures event < |old(rows)| ==>
        rows == if r.Ok? then old(rows)[event := PublishedRow(old(rows)[event], now)] else old(rows)
    {
      r := Ok(());
      if event < |rows| && rows[event].publishedAt.None? {
        if now < rows[event].occurredAt {
          r := Err(SchemaViolation);
        } else {
          rows := rows[event := rows[event].(publishedAt := Some(now), lockedBy := None, lockedUntil := None)];
        }
      }
    }

    method Reschedule(event: nat, delay: int, cause: string, now: int)
      modifies this
      ensures event >= |old(rows)| ==> rows == old(rows)
      ensures event < |old(rows)| ==> rows == old(rows)[event := PostponedRow(old(rows)[event], now, delay, cause)]
    {
      if event < |rows| && rows[event].publishedAt.None? {
        var message := if cause == "" then None else Some(cause);
        rows := rows[event := rows[event].(nextAttemptAt := now + delay, lockedBy := None, lockedUntil := None,
                                           lastError := message, touched := now)];
      }
    }
  }

  /** deliver, after the broker took the event (no failure) or not: confirm it, or put it off. */
  method Deliver(store: OutboxStore, event: Claimed, failure: Option<string>, base: int64, max: int64, now: int)
    requires event.event < |store.rows|
    modifies store
    ensures var was := old(store.rows)[event.event];
      store.rows == old(store.rows)[event.event :=
        if failure.Some? then PostponedRow(was, now, BackoffDelay(event.attempts, base, max), failure.value)
        else if Confirmable(was, now) then PublishedRow(was, now)
        else was]
  {
    if failure.Some? {
      store.Reschedule(event.event, BackoffDelay(event.attempts, base, max), failure.value, now);
      return;
    }
    var confirmed := store.MarkPublished(event.event, now);
  }

  // ---- Publishers ----

  datatype Config = Config(lease: int, base: int64, max: int64)

  /** The work a publisher has from one of its claims, until it confirms, reschedules or drops it. */
  datatype Holding = Holding(until: int, attempts: nat, sent: bool)

  /** now is the database clock. sent are the events that reached the broker. */
  datatype State = State(now: int, rows: seq<Row>, holdings: map<(Publisher, nat), Holding>, sent: set<nat>)

  datatype Action =
    | Pass(ticks: nat)
    | Saved(snapshot: Event, occurredAt: int)
    | Claims(publisher: Publisher, events: set<nat>)
    | Sends(publisher: Publisher, event: nat)
    | Confirms(publisher: Publisher, event: nat)
    | Postpones(publisher: Publisher, event: nat, cause: string)
    | Drops(publisher: Publisher, event: nat)

  function ClaimedRows(rows: seq<Row>, events: set<nat>, publisher: Publisher, now: int, lease: int): seq<Row> {
    seq(|rows|,
        i requires 0 <= i < |rows| => if i in events then ClaimedRow(rows[i], publisher, now, lease) else rows[i])
  }

  function Held(holdings: map<(Publisher, nat), Holding>, rows: seq<Row>, events: set<nat>, publisher: Publisher,
                until: int): map<(Publisher, nat), Holding>
    requires forall e | e in events :: e < |rows|
  {
    holdings + map e | e in events :: (publisher, e) := Holding(until, rows[e].attempts + 1, false)
  }

  /** SKIP LOCKED: a claim takes any claimable rows. A publisher acts on what it holds, late or not. */
  ghost predicate Step(cfg: Config, s: State, t: State, a: Action) {
    match a
    case Pass(ticks) => t == s.(now := s.now + ticks)
    case Saved(snapshot, occurredAt) => t == s.(rows := s.rows + [SavedRow(snapshot, occurredAt, s.now)])
    case Claims(p, events) =>
      && (forall e | e in events :: e < |s.rows| && Claimable(s.rows[e], s.now))
      && t == s.(rows := ClaimedRows(s.rows, events, p, s.now, cfg.lease),
                 holdings := Held(s.holdings, s.rows, events, p, s.now + cfg.lease))
    case Sends(p, e) =>
      && (p, e) in s.holdings
      && t == s.(holdings := s.holdings[(p, e) := s.holdings[(p, e)].(sent := true)], sent := s.sent + {e})
    case Confirms(p, e) =>
      && (p, e) in s.holdings && s.holdings[(p, e)].sent && e < |s.rows|
      && t == s.(rows := if Confirmable(s.rows[e], s.now) then s.rows[e := PublishedRow(s.rows[e], s.now)] else s.rows,
                 holdings := s.holdings - {(p, e)})
    case Postpones(p, e, cause) =>
      && (p, e) in s.holdings && !s.holdings[(p, e)].sent && e < |s.rows|
      && var delay := BackoffDelay(s.holdings[(p, e)].attempts, cfg.base, cfg.max);
      && t == s.(rows := s.rows[e := PostponedRow(s.rows[e], s.now, delay, cause)],
                 holdings := s.holdings - {(p, e)})
    case Drops(p, e) => t == s.(holdings := s.holdings - {(p, e)})
  }

  ghost predicate IsRun(cfg: Config, states: seq<State>, actions: seq<Action>) {
    && |states| == |actions| + 1 && states[0] == State(states[0].now, [], map[], {})
    && forall i | 0 <= i < |actions| :: Step(cfg, states[i], states[i + 1], actions[i])
  }

  /** The publisher releases an event while its own lease runs. */
  predicate Timely(s: State, a: Action) {
    (a.Confirms? || a.Postpones?) && (a.publisher, a.event) in s.holdings ==>
      s.now < s.holdings[(a.publisher, a.event)].until
  }

  /** p is working on e at the database instant. */
  predicate Holds(s: State, p: Publisher, e: nat) {
    (p, e) in s.holdings && s.now < s.holdings[(p, e)].until
  }

  // ---- What holds whatever publishers do ----

  ghost predicate RowOk(cfg: Config, r: Row, now: int, sent: bool) {
    && r.touched <= now && (r.lockedBy.Some? <==> r.lockedUntil.Some?)
    && (r.publishedAt.Some? ==> sent && r.occurredAt <= r.publishedAt.value <= now && r.lockedBy.None?)
    && (r.publishedAt.None? ==>
          r.nextAttemptAt <= r.touched + cfg.max
            && (r.lockedUntil.Some? ==> r.lockedUntil.value <= r.touched + cfg.lease))
  }

  ghost predicate Inv(cfg: Config, s: State) {
    && (forall e | 0 <= e < |s.rows| :: RowOk(cfg, s.rows[e], s.now, e in s.sent))
    && (forall k | k in s.holdings :: k.1 < |s.rows| && (s.holdings[k].sent ==> k.1 in s.sent))
  }

  lemma StepKeeps(cfg: Config, s: State, t: State, a: Action)
    requires cfg.max > 0 && Inv(cfg, s) && Step(cfg, s, t, a)
    ensures Inv(cfg, t)
  {
    hide BackoffDelay;
    var delay :=
      if a.Postpones? && (a.publisher, a.event) in s.holdings
      then BackoffDelay(s.holdings[(a.publisher, a.event)].attempts, cfg.base, cfg.max)
      else 1;
    assert delay <= cfg.max;
  }

  lemma {:induction false} RunsKeepInv(cfg: Config, states: seq<State>, actions: seq<Action>, i: nat)
    requires cfg.max > 0 && IsRun(cfg, states, actions) && i < |states|
    ensures Inv(cfg, states[i])
  {
    hide Step;
    if i > 0 {
      RunsKeepInv(cfg, states, actions, i - 1);
      assert Step(cfg, states[i - 1], states[i - 1 + 1], actions[i - 1]);
      StepKeeps(cfg, states[i - 1], states[i], actions[i - 1]);
    }
  }

  /** An event keeps its snapshot, its publication mark never changes once set, and only what was sent is marked. */
  ghost predicate RowsKept(rows: seq<Row>, after: seq<Row>) {
    && |rows| <= |after|
    && forall e | 0 <= e < |rows| ::
         && after[e].event == rows[e].event && after[e].occurredAt == rows[e].occurredAt
         && (rows[e].publishedAt.Some? ==> after[e].publishedAt == rows[e].publishedAt)
         && rows[e].attempts <= after[e].attempts
  }

  lemma {:induction false} SnapshotsAreForever(cfg: Config, states: seq<State>, actions: seq<Action>, i: nat, j: nat)
    requires IsRun(cfg, states, actions) && i <= j < |states|
    ensures RowsKept(states[i].rows, states[j].rows) && states[i].now <= states[j].now
  {
    hide BackoffDelay, Held;
    if i < j {
      SnapshotsAreForever(cfg, states, actions, i, j - 1);
      assert Step(cfg, states[j - 1], states[j - 1 + 1], actions[j - 1]);
    }
  }

  /** Whatever publishers do, an unpublished event is claimable again within the longer of the lease and the
      longest delay after the last action on it. */
  lemma ClaimableAgain(cfg: Config, states: seq<State>, actions: seq<Action>, i: nat, e: nat, at: int)
    requires cfg.max > 0 && IsRun(cfg, states, actions) && i < |states| && e < |states[i].rows|
    requires states[i].rows[e].publishedAt.None?
    requires at >= states[i].rows[e].touched + (if cfg.lease > cfg.max then cfg.lease else cfg.max)
    ensures Claimable(states[i].rows[e], at)
  {
    RunsKeepInv(cfg, states, actions, i);
    assert RowOk(cfg, states[i].rows[e], states[i].now, e in states[i].sent);
    hide IsRun;
  }

  // ---- When no two publishers hold one event ----

  /** While p holds e nobody can claim it: it is published, or not due, or locked for that long. */
  ghost predicate Guarded(s: State, p: Publisher, e: nat) {
    Holds(s, p, e) ==>
      && e < |s.rows|
      && var r, until := s.rows[e], s.holdings[(p, e)].until;
      r.publishedAt.Some? || r.nextAttemptAt >= until || (r.lockedUntil.Some? && r.lockedUntil.value >= until)
  }

  /** No two publishers hold e. */
  ghost predicate HeldOnce(s: State, e: nat) {
    forall p: Publisher, q: Publisher | Holds(s, p, e) && Holds(s, q, e) :: p == q
  }

  ghost predicate Exclusive(s: State) {
    (forall e: nat :: HeldOnce(s, e)) && (forall p: Publisher, e: nat :: Guarded(s, p, e))
  }

  /** The delay of a postponement. */
  function DelayOf(cfg: Config, s: State, p: Publisher, e: nat): int64
    requires (p, e) in s.holdings
  {
    BackoffDelay(s.holdings[(p, e)].attempts, cfg.base, cfg.max)
  }

  /** The step puts off an event that q holds, to an instant before the lease of q ends. */
  predicate Exposes(cfg: Config, s: State, a: Action, q: Publisher) {
    && a.Postpones? && (a.publisher, a.event) in s.holdings && a.event < |s.rows|
    && s.rows[a.event].publishedAt.None? && q != a.publisher && Holds(s, q, a.event)
    && s.now + DelayOf(cfg, s, a.publisher, a.event) < s.holdings[(q, a.event)].until
  }

  /** A postponement of an unpublished event outlasts every lease of another publisher that still runs. */
  ghost predicate Harmless(cfg: Config, s: State, a: Action) {
    forall q: Publisher :: !Exposes(cfg, s, a, q)
  }

  lemma ClaimKeepsGuards(cfg: Config, s: State, t: State, a: Action, p: Publisher, e: nat)
    requires Guarded(s, p, e) && a.Claims? && Step(cfg, s, t, a)
    ensures Guarded(t, p, e)
  {
  }

  lemma ClaimKeepsHeldOnce(cfg: Config, s: State, t: State, a: Action, e: nat)
    requires Exclusive(s) && a.Claims? && Step(cfg, s, t, a)
    ensures HeldOnce(t, e)
  {
    forall p: Publisher, q: Publisher | Holds(t, p, e) && Holds(t, q, e) ensures p == q {
      assert HeldOnce(s, e) && Guarded(s, p, e) && Guarded(s, q, e);
      assert p != a.publisher || e !in a.events ==> Holds(s, p, e);
      assert q != a.publisher || e !in a.events ==> Holds(s, q, e);
    }
  }

  lemma ReleaseKeepsGuard(cfg: Config, s: State, t: State, a: Action, p: Publisher, e: nat)
    requires Guarded(s, p, e) && (a.Confirms? || a.Postpones?) && Step(cfg, s, t, a) && !Exposes(cfg, s, a, p)
    ensures Guarded(t, p, e)
  {
    hide BackoffDelay;
  }

  lemma OtherKeepsGuard(cfg: Config, s: State, t: State, a: Action, p: Publisher, e: nat)
    requires Guarded(s, p, e) && !a.Claims? && !a.Confirms? && !a.Postpones? && Step(cfg, s, t, a)
    ensures Guarded(t, p, e)
  {
    hide BackoffDelay, ClaimedRows, Held;
  }

  /** Only a claim begins a holding. */
  lemma HoldersOnlyFromClaims(cfg: Config, s: State, t: State, a: Action, e: nat)
    requires HeldOnce(s, e) && !a.Claims? && Step(cfg, s, t, a)
    ensures HeldOnce(t, e)
  {
    hide BackoffDelay, ClaimedRows, Held;
    forall p: Publisher, q: Publisher | Holds(t, p, e) && Holds(t, q, e) ensures p == q {
      assert Holds(s, p, e) && Holds(s, q, e);
    }
  }

  lemma HarmlessKeepsExclusive(cfg: Config, s: State, t: State, a: Action)
    requires Exclusive(s) && Step(cfg, s, t, a) && Harmless(cfg, s, a)
    ensures Exclusive(t)
  {
    hide Step, Exposes, HeldOnce, Guarded;
    forall e: nat ensures HeldOnce(t, e) {
      if a.Claims? {
        ClaimKeepsHeldOnce(cfg, s, t, a, e);
      } else {
        HoldersOnlyFromClaims(cfg, s, t, a, e);
      }
    }
    forall p: Publisher, e: nat ensures Guarded(t, p, e) {
      if a.Claims? {
        ClaimKeepsGuards(cfg, s, t, a, p, e);
      } else if a.Confirms? || a.Postpones? {
        ReleaseKeepsGuard(cfg, s, t, a, p, e);
      } else {
        OtherKeepsGuard(cfg, s, t, a, p, e);
      }
    }
  }

  ghost predicate HarmlessRun(cfg: Config, states: seq<State>, actions: seq<Action>)
    requires |states| == |actions| + 1
  {
    forall i | 0 <= i < |actions| :: Harmless(cfg, states[i], actions[i])
  }

  lemma NobodyHolds(s: State)
    requires s.holdings == map[]
    ensures Exclusive(s)
  {
  }

  /** In every run of harmless steps no two publishers hold the same event at the same database instant. */
  lemma {:induction false} HarmlessRunsAreExclusive(cfg: Config, states: seq<State>, actions: seq<Action>, i: nat)
    requires IsRun(cfg, states, actions) && HarmlessRun(cfg, states, actions) && i < |states|
    ensures Exclusive(states[i]) && forall e: nat :: HeldOnce(states[i], e)
  {
    hide Step, Harmless, HeldOnce, Guarded;
    if i == 0 {
      NobodyHolds(states[0]);
    } else {
      HarmlessRunsAreExclusive(cfg, states, actions, i - 1);
      var s, t, a := states[i - 1], states[i], actions[i - 1];
      assert Step(cfg, states[i - 1], states[i - 1 + 1], a) && Harmless(cfg, s, a);
      HarmlessKeepsExclusive(cfg, s, t, a);
    }
  }

  /** What a step that exposes q leaves. */
  lemma ExposedRow(cfg: Config, s: State, t: State, a: Action, q: Publisher)
    requires Step(cfg, s, t, a) && Exposes(cfg, s, a, q)
    ensures t.now == s.now && a.event < |t.rows| && (q, a.event) in t.holdings
    ensures t.holdings[(q, a.event)] == s.holdings[(q, a.event)]
    ensures var r := t.rows[a.event];
      && r.publishedAt.None? && r.lockedUntil.None?
      && r.nextAttemptAt == s.now + DelayOf(cfg, s, a.publisher, a.event) < t.holdings[(q, a.event)].until
  {
    hide BackoffDelay, ClaimedRows, Held;
  }

  lemma HeldOfOne(holdings: map<(Publisher, nat), Holding>, rows: seq<Row>, e: nat, r: Publisher, until: int)
    requires e < |rows|
    ensures Held(holdings, rows, {e}, r, until) == holdings[(r, e) := Holding(until, rows[e].attempts + 1, false)]
  {
  }

  lemma StepOfClaims(cfg: Config, u: State, v: State, e: nat, r: Publisher)
    requires e < |u.rows| && Claimable(u.rows[e], u.now)
    requires v == u.(rows := ClaimedRows(u.rows, {e}, r, u.now, cfg.lease),
                     holdings := Held(u.holdings, u.rows, {e}, r, u.now + cfg.lease))
    ensures Step(cfg, u, v, Claims(r, {e}))
  {
    hide BackoffDelay, ClaimedRows, Held;
  }

  /** A claimable event can be claimed alone, and no other holding ends by that. */
  lemma ClaimOne(cfg: Config, u: State, e: nat, r: Publisher) returns (v: State)
    requires cfg.lease > 0 && e < |u.rows| && Claimable(u.rows[e], u.now)
    ensures Step(cfg, u, v, Claims(r, {e})) && v.now == u.now && Holds(v, r, e)
    ensures forall q: Publisher | q != r && Holds(u, q, e) :: Holds(v, q, e)
  {
    hide Step, ClaimedRows, Held, Claimable;
    v := u.(rows := ClaimedRows(u.rows, {e}, r, u.now, cfg.lease),
            holdings := Held(u.holdings, u.rows, {e}, r, u.now + cfg.lease));
    StepOfClaims(cfg, u, v, e, r);
    HeldOfOne(u.holdings, u.rows, e, r, u.now + cfg.lease);
  }

  /** After a step that exposes q, any other publisher can claim the event while q still holds it. */
  lemma ExposedIsClaimed(cfg: Config, s: State, t: State, a: Action, q: Publisher, r: Publisher)
    returns (u: State, v: State)
    requires cfg.max > 0 && cfg.lease > 0 && Step(cfg, s, t, a) && Exposes(cfg, s, a, q) && r != q
    ensures Step(cfg, t, u, Pass(DelayOf(cfg, s, a.publisher, a.event)))
    ensures Step(cfg, u, v, Claims(r, {a.event}))
    ensures Holds(v, q, a.event) && Holds(v, r, a.event)
  {
    ExposedRow(cfg, s, t, a, q);
    var delay: int64 := DelayOf(cfg, s, a.publisher, a.event);
    u := t.(now := t.now + delay);
    assert Step(cfg, t, u, Pass(delay)) && Holds(u, q, a.event) by { PassOf(cfg, t, u, delay); }
    hide Step, Exposes, BackoffDelay;
    v := ClaimOne(cfg, u, a.event, r);
  }

  lemma PassOf(cfg: Config, s: State, t: State, ticks: nat)
    requires t == s.(now := s.now + ticks)
    ensures Step(cfg, s, t, Pass(ticks))
  {
    hide BackoffDelay, ClaimedRows, Held;
  }

  /** A run with one harmful step can go on, two steps after it, to a state in which two publishers hold the event:
      a condition weaker than harmlessness keeps no exclusion. */
  lemma HarmfulStepsBreakExclusion(cfg: Config, states: seq<State>, actions: seq<Action>, i: nat)
    returns (longer: seq<State>, more: seq<Action>)
    requires cfg.max > 0 && cfg.lease > 0 && IsRun(cfg, states, actions) && i < |actions|
    requires !Harmless(cfg, states[i], actions[i])
    ensures IsRun(cfg, longer, more) && |longer| == i + 4
    ensures longer[..i + 2] == states[..i + 2] && more[..i + 1] == actions[..i + 1]
    ensures more[i + 1].Pass? && more[i + 2].Claims?
    ensures actions[i].Postpones? && !HeldOnce(longer[i + 3], actions[i].event)
  {
    var s, t, a := states[i], states[i + 1], actions[i];
    hide BackoffDelay, ClaimedRows, Held;
    var q: Publisher :| Exposes(cfg, s, a, q);
    var r: Publisher := q + 1;
    assert Step(cfg, s, t, a);
    var u, v := ExposedIsClaimed(cfg, s, t, a, q, r);
    var delay: nat := DelayOf(cfg, s, a.publisher, a.event);
    longer := states[..i + 2] + [u, v];
    more := actions[..i + 1] + [Pass(delay), Claims(r, {a.event})];
    hide Step, Exposes, HeldOnce;
    forall k | 0 <= k < |more| ensures Step(cfg, longer[k], longer[k + 1], more[k]) {
      if k <= i {
        assert Step(cfg, states[k], states[k + 1], actions[k]);
      }
    }
    TwoHolders(longer[i + 3], q, r, a.event);
  }

  lemma TwoHolders(s: State, p: Publisher, q: Publisher, e: nat)
    requires p != q && Holds(s, p, e) && Holds(s, q, e)
    ensures !HeldOnce(s, e)
  {
  }

  /** A run that shares all up to its i-th step with states, and then takes harmless steps only. */
  ghost predicate Continues(cfg: Config, states: seq<State>, actions: seq<Action>, i: nat,
                            longer: seq<State>, more: seq<Action>)
    requires |states| == |actions| + 1 && i < |actions|
  {
    && IsRun(cfg, longer, more) && i < |more|
    && longer[..i + 2] == states[..i + 2] && more[..i + 1] == actions[..i + 1]
    && forall k | i < k < |more| :: Harmless(cfg, longer[k], more[k])
  }

  ghost predicate NeverHeldTwice(states: seq<State>) {
    forall k, e: nat | 0 <= k < |states| :: HeldOnce(states[k], e)
  }

  lemma ContinuedHarmlessly(cfg: Config, states: seq<State>, actions: seq<Action>, i: nat,
                            longer: seq<State>, more: seq<Action>)
    requires |states| == |actions| + 1 && i < |actions| && HarmlessRun(cfg, states, actions)
    requires Continues(cfg, states, actions, i, longer, more)
    ensures NeverHeldTwice(longer)
  {
    hide Harmless, Step, Exclusive, HeldOnce;
    forall k | 0 <= k < |more| ensures Harmless(cfg, longer[k], more[k]) {
      if k <= i {
        assert longer[k] == longer[..i + 2][k] && more[k] == more[..i + 1][k];
        assert states[k] == states[..i + 2][k] && actions[k] == actions[..i + 1][k];
      }
    }
    forall k, e: nat | 0 <= k < |longer| ensures HeldOnce(longer[k], e) {
      HarmlessRunsAreExclusive(cfg, longer, more, k);
    }
  }

  /** The exact condition: the steps of a run are harmless if and only if no way to go on harmlessly from any of them
      comes to two publishers that hold one event. */
  lemma ExclusionIffHarmless(cfg: Config, states: seq<State>, actions: seq<Action>)
    requires cfg.max > 0 && cfg.lease > 0 && IsRun(cfg, states, actions)
    ensures HarmlessRun(cfg, states, actions) <==>
      forall i: nat, longer, more | i < |actions| && Continues(cfg, states, actions, i, longer, more) ::
        NeverHeldTwice(longer)
  {
    hide Harmless, Step, NeverHeldTwice;
    if HarmlessRun(cfg, states, actions) {
      hide HarmlessRun, Continues;
      forall i: nat, longer, more | i < |actions| && Continues(cfg, states, actions, i, longer, more)
        ensures NeverHeldTwice(longer)
      {
        ContinuedHarmlessly(cfg, states, actions, i, longer, more);
      }
    } else {
      var i: nat :| i < |actions| && !Harmless(cfg, states[i], actions[i]);
      var longer, more := HarmfulStepsBreakExclusion(cfg, states, actions, i);
      BrokenContinuation(cfg, states, actions, i, longer, more);
      assert Continues(cfg, states, actions, i, longer, more) && !NeverHeldTwice(longer);
    }
  }

  lemma BrokenContinuation(cfg: Config, states: seq<State>, actions: seq<Action>, i: nat,
                           longer: seq<State>, more: seq<Action>)
    requires |states| == |actions| + 1 && i < |actions| && IsRun(cfg, longer, more) && |longer| == i + 4
    requires longer[..i + 2] == states[..i + 2] && more[..i + 1] == actions[..i + 1]
    requires |more| == i + 3 && more[i + 1].Pass? && more[i + 2].Claims?
    requires actions[i].Postpones? && !HeldOnce(longer[i + 3], actions[i].event)
    ensures Continues(cfg, states, actions, i, longer, more) && !NeverHeldTwice(longer)
  {
    hide IsRun, HeldOnce;
    forall k | i < k < |more| ensures Harmless(cfg, longer[k], more[k]) {
      assert k == i + 1 || k == i + 2;
    }
  }

  ghost predicate TimelyRun(states: seq<State>, actions: seq<Action>)
    requires |states| == |actions| + 1
  {
    forall i | 0 <= i < |actions| :: Timely(states[i], actions[i])
  }

  /** A publisher whose own lease runs exposes nobody. */
  lemma TimelyIsHarmless(cfg: Config, s: State, a: Action)
    requires Exclusive(s) && Timely(s, a)
    ensures Harmless(cfg, s, a)
  {
    forall q: Publisher ensures !Exposes(cfg, s, a, q) {
      if a.Postpones? && (a.publisher, a.event) in s.holdings {
        assert HeldOnce(s, a.event) && Holds(s, a.publisher, a.event);
      }
    }
  }

  lemma {:induction false} TimelyRunsAreExclusive(cfg: Config, states: seq<State>, actions: seq<Action>, i: nat)
    requires IsRun(cfg, states, actions) && TimelyRun(states, actions) && i < |states|
    ensures Exclusive(states[i])
  {
    hide Step, Exclusive, Timely, Harmless;
    if i == 0 {
      NobodyHolds(states[0]);
    } else {
      TimelyRunsAreExclusive(cfg, states, actions, i - 1);
      var s, t, a := states[i - 1], states[i], actions[i - 1];
      assert Step(cfg, states[i - 1], states[i - 1 + 1], a) && Timely(s, a);
      TimelyIsHarmless(cfg, s, a);
      HarmlessKeepsExclusive(cfg, s, t, a);
    }
  }

  /** So in every run where each publisher releases an event only while its own lease runs, no two publishers
      hold the same event at the same database instant. */
  lemma OneHolder(cfg: Config, states: seq<State>, actions: seq<Action>, i: nat, p: Publisher, q: Publisher, e: nat)
    requires IsRun(cfg, states, actions) && TimelyRun(states, actions) && i < |states|
    requires Holds(states[i], p, e) && Holds(states[i], q, e)
    ensures p == q
  {
    TimelyRunsAreExclusive(cfg, states, actions, i);
    hide IsRun, TimelyRun;
    assert HeldOnce(states[i], e);
  }

  // A run in which publisher 1 comes late: at 10 its lease is over and publisher 2 has claimed the event.

  const SHORT := Config(10, 1, 1)

  function LateAction(event: Event, i: nat): Action {
    match i
    case 0 => Saved(event, 0)
    case 1 => Claims(1, {0})
    case 2 => Pass(10)
    case 3 => Claims(2, {0})
    case 4 => Postpones(1, 0, "timeout")
    case 5 => Pass(1)
    case _ => Claims(3, {0})
  }

  function LateState(event: Event, i: nat): State {
    var first, second, third := Holding(10, 1, false), Holding(20, 2, false), Holding(21, 3, false);
    var claimed := Row(event, 0, None, 1, 0, Some(1), Some(10), None, 0);
    var again := Row(event, 0, None, 2, 0, Some(2), Some(20), None, 10);
    var freed := Row(event, 0, None, 2, 11, None, None, Some("timeout"), 10);
    match i
    case 0 => State(0, [], map[], {})
    case 1 => State(0, [SavedRow(event, 0, 0)], map[], {})
    case 2 => State(0, [claimed], map[(1, 0) := first], {})
    case 3 => State(10, [claimed], map[(1, 0) := first], {})
    case 4 => State(10, [again], map[(1, 0) := first, (2, 0) := second], {})
    case 5 => State(10, [freed], map[(2, 0) := second], {})
    case 6 => State(11, [freed], map[(2, 0) := second], {})
    case _ => State(11, [Row(event, 0, None, 3, 11, Some(3), Some(21), Some("timeout"), 11)],
                    map[(2, 0) := second, (3, 0) := third], {})
  }

  lemma ClaimOfOne(s: State, r: Row, p: Publisher)
    requires s.rows == [r] && Claimable(r, s.now)
    ensures var holding := Holding(s.now + 10, r.attempts + 1, false);
      var t := s.(rows := [ClaimedRow(r, p, s.now, 10)], holdings := s.holdings[(p, 0) := holding]);
      Step(SHORT, s, t, Claims(p, {0}))
  {
    assert ClaimedRows(s.rows, {0}, p, s.now, 10) == [ClaimedRow(r, p, s.now, 10)];
    HeldOfOne(s.holdings, s.rows, 0, p, s.now + 10);
    hide BackoffDelay, ClaimedRows, Held;
  }

  lemma LateClaim(event: Event, i: nat)
    requires i == 1 || i == 3 || i == 6
    ensures Step(SHORT, LateState(event, i), LateState(event, i + 1), LateAction(event, i))
  {
    hide Step;
    var s := LateState(event, i);
    ClaimOfOne(s, s.rows[0], if i == 1 then 1 else if i == 3 then 2 else 3);
  }

  lemma LateStep(event: Event, i: nat)
    requires i < 7
    ensures Step(SHORT, LateState(event, i), LateState(event, i + 1), LateAction(event, i))
  {
    if i == 1 || i == 3 || i == 6 {
      LateClaim(event, i);
    } else {
      hide ClaimedRows, Held;
      assert BackoffDelay(1, 1, 1) == 1;
    }
  }

  /** A release does not test its owner: one that comes late frees the lease of the next publisher, and then
      two of them hold the event. */
  lemma LateReleaseBreaksExclusion(event: Event) returns (states: seq<State>, actions: seq<Action>)
    ensures IsRun(SHORT, states, actions)
    ensures Holds(states[|states| - 1], 2, 0) && Holds(states[|states| - 1], 3, 0)
  {
    states := seq(8, i requires 0 <= i => LateState(event, i));
    actions := seq(7, i requires 0 <= i => LateAction(event, i));
    hide Step;
    forall i | 0 <= i < |actions| ensures Step(SHORT, states[i], states[i + 1], actions[i]) {
      LateStep(event, i);
    }
  }

  // ---- What a claim takes ----

  /** Whether an event is unpublished, due and free, in terms of its columns. */
  predicate Pending(r: Row, now: int) {
    r.publishedAt == None && r.nextAttemptAt <= now && (r.lockedUntil == None || r.lockedUntil.value <= now)
  }

  /** A selection takes only events that are unpublished, due and free; it leaves one out only at the limit, and then
      none that is due earlier. */
  lemma SelectionIs(rows: seq<Row>, skipped: set<nat>, limit: nat, now: int, due: seq<nat>)
    requires Selected(rows, skipped, limit, now, due)
    ensures |due| <= limit && forall i | 0 <= i < |due| ::
      due[i] < |rows| && Pending(rows[due[i]], now) && due[i] !in skipped
    ensures forall e, i | 0 <= e < |rows| && Pending(rows[e], now) && e !in skipped && e !in due && 0 <= i < |due| ::
      rows[due[i]].nextAttemptAt <= rows[e].nextAttemptAt
    ensures forall e | 0 <= e < |rows| && Pending(rows[e], now) && e !in skipped && e !in due :: |due| == limit
    ensures forall i, j | 0 <= i < j < |due| ::
      due[i] != due[j] && rows[due[i]].nextAttemptAt <= rows[due[j]].nextAttemptAt
  {
    assert forall e | 0 <= e < |rows| :: Pending(rows[e], now) <==> Claimable(rows[e], now);
  }

  /** What the statements do to a row of the outbox, field by field. A published row is never touched again. */
  lemma RowStatements(r: Row, p: Publisher, now: int, lease: int, delay: int, cause: string)
    ensures ClaimedRow(r, p, now, lease) ==
      Row(r.event, r.occurredAt, r.publishedAt, r.attempts + 1, r.nextAttemptAt, Some(p), Some(now + lease),
          r.lastError, now)
    ensures PublishedRow(r, now) ==
      if r.publishedAt != None then r
      else Row(r.event, r.occurredAt, Some(now), r.attempts, r.nextAttemptAt, None, None, r.lastError, r.touched)
    ensures PostponedRow(r, now, delay, cause) ==
      if r.publishedAt != None then r
      else Row(r.event, r.occurredAt, None, r.attempts, now + delay, None, None,
               if cause == "" then None else Some(cause), now)
    ensures Confirmable(r, now) <==> r.publishedAt != None || r.occurredAt <= now
  {
  }
}
