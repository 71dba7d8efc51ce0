/** What every run of the service guarantees to its callers. */
module Guarantees {
  import opened Outcome
  import opened Monetary
  import opened Wager
  import opened Database
  import opened History
  import opened Openings
  import opened Protocol
  import opened Sessions
  import opened Decisions
  import opened Statements
  import opened Safety
  import opened Atomicity
  import opened Reversals
  import opened Reconciliation

  // ---- Atomicity ----

  lemma CommittingSession(locking: bool, states: seq<Sys>, actions: seq<Action>, i: nat, sid: Sid)
    requires IsRun(locking, states, actions) && i < |actions| && actions[i] == Commit(sid)
    ensures Inv(locking, states[i]) && StepCommit(states[i], states[i + 1], sid)
  {
    hide Inv, StepCommit, StepStart, StepRun, StepStop, StepRetry;
    RunsKeepInv(locking, states, actions, i);
    assert Step(locking, states[i], states[i + 1], actions[i]);
  }

  lemma ReadyConclusion(locking: bool, s: Sys, sid: Sid)
    requires SessionsOk(locking, s) && sid in s.sessions && s.sessions[sid].pc.Ready?
    ensures ConclusionSeen(locking, s.db, s.locks, s.next, sid, s.sessions[sid], s.sessions[sid].pc.conclusion)
  {
    hide ConclusionSeen, IdsHeld, InboxSeen;
    assert SessionOk(locking, s.db, s.locks, s.next, sid, s.sessions[sid]);
  }

  /** A delivery whose commit moves money, or under the wallet lock concludes its transaction. */
  ghost predicate ConcludesDelivery(locking: bool, a: Session) {
    && a.task.Deliver? && a.pc.Ready? && a.pc.conclusion.Decided?
    && var w := a.pc.conclusion.decision.write;
    w.posting.Some? || (locking && w.tx.state.IsTerminal())
  }

  /** The commit of session a leaves what running its use case alone on db leaves, and answers the same. */
  ghost predicate LikeApplyAlone(db: Db, after: Sys, sid: Sid, a: Session)
    requires a.task.Deliver? && a.pc.Ready? && a.pc.conclusion.Decided?
  {
    var plan := ApplyPlan(db, a.task.cmd, a.id, a.now);
    && plan.Writes? && Effect(db, a.pc.conclusion) == Execute(db, plan, a.pc.conclusion.decision.sequence)
    && after.db == Apply(db, a, a.pc.conclusion)
    && sid in after.sessions && after.sessions[sid].pc == Committed(Some(plan.answer))
  }

  lemma DeliveryCommit(locking: bool, s: Sys, t: Sys, sid: Sid)
    requires SessionsOk(locking, s) && StepCommit(s, t, sid) && ConcludesDelivery(locking, s.sessions[sid])
    ensures LikeApplyAlone(s.db, t, sid, s.sessions[sid])
  {
    hide SessionsOk, Decisive, Finish, ApplyPlan, Install, Apply, FoundSeen, Truthful;
    var a := s.sessions[sid];
    ReadyConclusion(locking, s, sid);
    var d := a.pc.conclusion.decision;
    DecidedPlan(locking, s.db, s.locks, s.next, sid, a, d);
    WaitMeansParked(d.job, a.now);
    DecidedAsAlone(locking, s.db, s.locks, s.next, sid, a, d);
  }

  lemma DecidedPlan(locking: bool, db: Db, locks: map<Resource, Sid>, next: nat, sid: Sid, a: Session, d: Decision)
    requires Decisive(locking, db, locks, next, sid, a, d)
    ensures Finish(d.job, a.now) == Writes(d.write, d.answer)
  {
    hide JobSeen, ExpirySeen, Finish;
  }

  /** In every interleaving, with aborts and crashes, the commit of a delivery that moves money, and under the
      wallet lock of every delivery that concludes its transaction, has the effect of running the use case
      alone and atomically on the state it commits to, and answers the same. */
  lemma DeliveriesAreAtomic(locking: bool, states: seq<Sys>, actions: seq<Action>, i: nat, sid: Sid)
    requires IsRun(locking, states, actions) && i < |actions| && actions[i] == Commit(sid)
    requires sid in states[i].sessions && ConcludesDelivery(locking, states[i].sessions[sid])
    ensures LikeApplyAlone(states[i].db, states[i + 1], sid, states[i].sessions[sid])
  {
    hide LikeApplyAlone, SessionsOk, StepCommit, DbInv, RepliesTruthful, SequencesBelow, Step;
    CommittingSession(locking, states, actions, i, sid);
    DeliveryCommit(locking, states[i], states[i + 1], sid);
  }

  /** The commit of an expiry or an opening leaves what running it alone on db leaves, and answers the same. */
  ghost predicate LikeUseCaseAlone(db: Db, after: Sys, sid: Sid, a: Session)
    requires a.pc.Ready?
  {
    && (a.task.Expire? && a.pc.conclusion.Decided? ==>
          var plan := ExpirePlan(db, a.task.tx, a.now);
          && plan.Writes? && Effect(db, a.pc.conclusion) == Execute(db, plan, a.pc.conclusion.decision.sequence)
          && after.db == Apply(db, a, a.pc.conclusion)
          && sid in after.sessions && after.sessions[sid].pc == Committed(Some(plan.answer)))
    && (a.task.OpenFor? && a.pc.conclusion.Founding? ==>
          var plan := OpenPlan(db, a.task.player, a.task.initial, a.walletId, a.id, a.now);
          && plan.Ok? && after.db == Apply(db, a, a.pc.conclusion)
          && Effect(db, a.pc.conclusion) == InstallFound(db, plan.value, a.pc.conclusion.sequence))
  }

  lemma OtherCommit(locking: bool, s: Sys, t: Sys, sid: Sid)
    requires SessionsOk(locking, s) && StepCommit(s, t, sid)
    ensures LikeUseCaseAlone(s.db, t, sid, s.sessions[sid])
  {
    hide SessionsOk, Decisive, FoundSeen, ExpirePlan, OpenPlan, Install, InstallFound, Apply, Truthful;
    var a := s.sessions[sid];
    ReadyConclusion(locking, s, sid);
    if a.task.Expire? && a.pc.conclusion.Decided? {
      ExpiredAsAlone(locking, s.db, s.locks, s.next, sid, a, a.pc.conclusion.decision);
    }
    if a.task.OpenFor? && a.pc.conclusion.Founding? {
      FoundAsAlone(s.db, s.locks, sid, a, a.pc.conclusion.found);
    }
  }

  /** So do expiries, which take no wallet lock, and openings. */
  lemma ExpiriesAndOpeningsAreAtomic(locking: bool, states: seq<Sys>, actions: seq<Action>, i: nat, sid: Sid)
    requires IsRun(locking, states, actions) && i < |actions| && actions[i] == Commit(sid)
    ensures sid in states[i].sessions && states[i].sessions[sid].pc.Ready?
    ensures LikeUseCaseAlone(states[i].db, states[i + 1], sid, states[i].sessions[sid])
  {
    hide LikeUseCaseAlone, SessionsOk, DbInv, RepliesTruthful, SequencesBelow, Step, Apply;
    CommittingSession(locking, states, actions, i, sid);
    OtherCommit(locking, states[i], states[i + 1], sid);
  }

  // ---- Nothing but a commit is seen ----

  /** Aborts, crashes, retries, statements and lost answers leave no trace. */
  lemma OnlyCommitsAreSeen(locking: bool, s: Sys, t: Sys, action: Action)
    requires Step(locking, s, t, action) && !action.Commit?
    ensures t.db == s.db
  {
    hide Statement, FreshSession, Free;
  }

  /** No committed row is PENDING or FAILED, and no committed delivery is incomplete. */
  lemma CommittedStatesAreSettled(locking: bool, states: seq<Sys>, actions: seq<Action>, i: nat)
    requires IsRun(locking, states, actions) && i < |states|
    ensures forall id | id in states[i].db.txs ::
      !states[i].db.txs[id].state.Pending? && !states[i].db.txs[id].state.Failed?
    ensures forall k | k in states[i].db.inbox :: states[i].db.inbox[k].completedAt.Some?
  {
    hide IsRun, Inv, RowsOk;
    RunsKeepInv(locking, states, actions, i);
    InvFacts(locking, states[i]);
    var db := states[i].db;
    forall id | id in db.txs ensures !db.txs[id].state.Pending? && !db.txs[id].state.Failed? {
      RowIsSettled(db, id);
    }
  }

  lemma RowIsSettled(db: Db, id: Id)
    requires RowsOk(db.wallets, db.txs) && id in db.txs
    ensures !db.txs[id].state.Pending? && !db.txs[id].state.Failed?
  {
    assert RowOk(db.wallets, db.txs, db.txs[id]);
  }

  /** So a message that was registered before is complete: it is answered Duplicate, or its hash conflicts. */
  lemma NoDeliveryInProgress(locking: bool, states: seq<Sys>, actions: seq<Action>, i: nat, a: Session, m: Message)
    requires IsRun(locking, states, actions) && i < |states| && m.key in states[i].db.inbox
    ensures var move := RegisterStatement(states[i].db, a, m);
      if states[i].db.inbox[m.key].hash != m.hash then move == Fail(MessageConflict)
      else move.To? && move.session.pc == Ready(Quiet(Duplicate))
  {
    hide IsRun;
    CommittedStatesAreSettled(locking, states, actions, i);
  }

  // ---- The committed history only grows ----

  ghost predicate Appends(db: Db, d: Db) {
    db.ledger <= d.ledger && db.outbox <= d.outbox
  }

  ghost predicate TerminalRowsKept(txs: map<Id, Tx>, after: map<Id, Tx>) {
    forall id | id in txs && txs[id].state.IsTerminal() :: id in after && after[id] == txs[id]
  }

  ghost predicate Grows(db: Db, d: Db) {
    Appends(db, d) && TerminalRowsKept(db.txs, d.txs) && WalletsAdvance(db.wallets, d.wallets)
      && Extends(db.externals, d.externals) && InboxAdvances(db.inbox, d.inbox)
  }

  lemma InstallAppends(db: Db, w: Write, sequence: nat)
    ensures Appends(db, Install(db, w, sequence))
  {
    hide EventsOf, InstallRow, EntryOf;
  }

  lemma EffectAppends(db: Db, o: Conclusion)
    ensures Appends(db, Effect(db, o))
  {
    hide Install, OpeningWrite, Appends;
    match o
    case Quiet(_) => NothingAppends(db);
    case Decided(d) => InstallAppends(db, d.write, d.sequence);
    case Founding(f, sequence) => FoundAppends(db, f, sequence);
  }

  lemma NothingAppends(db: Db)
    ensures Appends(db, db)
  {
  }

  lemma FoundAppends(db: Db, f: Found, sequence: nat)
    ensures Appends(db, InstallFound(db, f, sequence))
  {
    hide Install, OpeningWrite;
    if f.opening.Some? { InstallAppends(InstallWallet(db, f.wallet), OpeningWrite(f), sequence); }
  }

  lemma ApplyAppends(db: Db, a: Session, o: Conclusion)
    ensures Appends(db, Apply(db, a, o))
  {
    hide Effect;
    EffectAppends(db, o);
  }

  lemma GrowsReflexive(db: Db)
    ensures Grows(db, db)
  {
  }

  lemma StepGrows(locking: bool, s: Sys, t: Sys, action: Action)
    requires Inv(locking, s) && Step(locking, s, t, action)
    ensures Grows(s.db, t.db)
  {
    hide DbInv, SessionsOk, RepliesTruthful, WalletsAdvance, ReversalsAdvance, InboxAdvances, Untouched, Extends;
    hide SequencesBelow;
    hide StepStart, StepRun, StepStop, StepRetry, StepAnswered, StepLost;
    if action.Commit? {
      CommitKeeps(locking, s, t, action.sid);
      var a := s.sessions[action.sid];
      ApplyAppends(s.db, a, a.pc.conclusion);
      hide Apply;
    } else {
      OnlyCommitsAreSeen(locking, s, t, action);
      hide Step;
      GrowsReflexive(s.db);
    }
  }

  lemma GrowsTransitive(db: Db, d: Db, e: Db)
    requires Grows(db, d) && Grows(d, e)
    ensures Grows(db, e)
  {
  }

  /** The ledger and the outbox are append-only, concluded rows never change, versions never go back. */
  lemma {:induction false} HistoryGrows(locking: bool, states: seq<Sys>, actions: seq<Action>, i: nat, j: nat)
    requires IsRun(locking, states, actions) && i <= j < |states|
    ensures Grows(states[i].db, states[j].db)
  {
    hide Step, Grows, Inv;
    if i == j {
      GrowsReflexive(states[i].db);
    } else {
      HistoryGrows(locking, states, actions, i, j - 1);
      RunsKeepInv(locking, states, actions, j - 1);
      assert Step(locking, states[j - 1], states[j - 1 + 1], actions[j - 1]);
      StepGrows(locking, states[j - 1], states[j], actions[j - 1]);
      GrowsTransitive(states[i].db, states[j - 1].db, states[j].db);
    }
  }

  // ---- Messages ----

  /** The commit of a message nobody handled yet leaves its complete row, under its hash and with this one delivery
      counted; that of one handled before answers Duplicate and changes nothing but the count in its row. */
  ghost predicate RecordsMessage(db: Db, d: Db, m: Message, o: Conclusion) {
    && m.key in d.inbox && d.inbox[m.key].hash == m.hash && d.inbox[m.key].completedAt.Some?
    && (m.key !in db.inbox ==>
          d == Effect(db, o).(inbox := db.inbox[m.key := d.inbox[m.key]]) && d.inbox[m.key].attempts == 1)
    && (m.key in db.inbox ==> o == Quiet(Duplicate) && d == Counted(db, m.key))
  }

  /** The state after one more delivery of a message that was handled before. */
  function Counted(db: Db, key: MessageKey): Db
    requires key in db.inbox
  {
    db.(inbox := db.inbox[key := db.inbox[key].(attempts := db.inbox[key].attempts + 1)])
  }

  lemma CommitRecordsMessage(locking: bool, s: Sys, t: Sys, sid: Sid)
    requires SessionsOk(locking, s) && InboxOk(s.db.inbox) && StepCommit(s, t, sid)
    requires s.sessions[sid].task.Deliver? && s.sessions[sid].task.message.Some?
    ensures RecordsMessage(s.db, t.db, s.sessions[sid].task.message.value, s.sessions[sid].pc.conclusion)
  {
    hide PcOk, IdsHeld, Effect;
    var a := s.sessions[sid];
    assert SessionOk(locking, s.db, s.locks, s.next, sid, a);
    EffectKeepsInbox(s.db, a.pc.conclusion);
    NothingIsQuiet(s.db, Duplicate);
  }

  lemma NothingIsQuiet(db: Db, answer: Answer)
    ensures Effect(db, Quiet(answer)) == db
  {
  }

  /** Once a delivery of a message committed, its row stays, and every later commit of the same message, however
      they raced, answers Duplicate and changes nothing but the count of its deliveries, by one. */
  lemma MessageTakesEffectOnce(locking: bool, states: seq<Sys>, actions: seq<Action>, i: nat, j: nat, sid: Sid,
                               other: Sid, m: Message)
    requires IsRun(locking, states, actions) && i < j < |actions|
    requires actions[i] == Commit(sid) && actions[j] == Commit(other)
    requires sid in states[i].sessions && other in states[j].sessions
    requires var task := states[i].sessions[sid].task; task.Deliver? && task.message == Some(m)
    requires var task := states[j].sessions[other].task;
      task.Deliver? && task.message.Some? && task.message.value.key == m.key
    ensures states[j].sessions[other].task.message == Some(m)
    ensures states[j].sessions[other].pc == Ready(Quiet(Duplicate))
    ensures m.key in states[j].db.inbox && states[j].db.inbox[m.key].hash == m.hash
    ensures states[j + 1].db == Counted(states[j].db, m.key)
  {
    assert |states| == |actions| + 1;
    hide IsRun, Inv, Effect, StepCommit, Appends, TerminalRowsKept, WalletsAdvance, Extends;
    CommittingSession(locking, states, actions, i, sid);
    CommittingSession(locking, states, actions, j, other);
    HistoryGrows(locking, states, actions, i + 1, j);
    InvOfSession(locking, states[i]);
    InvOfSession(locking, states[j]);
    hide SessionsOk, InboxOk;
    CommitRecordsMessage(locking, states[i], states[i + 1], sid);
    CommitRecordsMessage(locking, states[j], states[j + 1], other);
    CommitIsReady(states[j], states[j + 1], other);
  }

  lemma InvOfSession(locking: bool, s: Sys)
    requires Inv(locking, s)
    ensures SessionsOk(locking, s) && InboxOk(s.db.inbox)
  {
    hide SessionsOk, Sound, RepliesTruthful, InboxOk;
  }

  lemma CommitIsReady(s: Sys, t: Sys, sid: Sid)
    requires StepCommit(s, t, sid)
    ensures s.sessions[sid].pc.Ready?
  {
  }

  /** A unit of work is attempted at most three times. */
  lemma RetriesAreBounded(locking: bool, states: seq<Sys>, actions: seq<Action>, i: nat, sid: Sid)
    requires IsRun(locking, states, actions) && i < |states| && sid in states[i].sessions
    ensures states[i].sessions[sid].attempt + 1 <= 3
  {
    hide IsRun, Inv, SessionsOk, InboxOk;
    RunsKeepInv(locking, states, actions, i);
    InvOfSession(locking, states[i]);
    AttemptBound(locking, states[i], sid);
  }

  lemma {:induction false} Above(used: set<Id>) returns (bound: Id)
    ensures bound > 0 && forall id | id in used :: id < bound
    decreases used
  {
    if used == {} {
      bound := 1;
    } else {
      var id :| id in used;
      var rest := Above(used - {id});
      bound := if id < rest then rest else id + 1;
      forall x | x in used ensures x < bound {
        assert x == id || x in used - {id};
      }
    }
  }

  /** An attempt is made again, from the start, if and only if it failed with a concurrent update and was not the
      third. */
  lemma RetriedIff(locking: bool, s: Sys, sid: Sid)
    requires sid in s.sessions
    ensures (exists t, a :: Step(locking, s, t, Retry(sid, a))) <==>
      && s.sessions[sid].task.Deliver? && s.sessions[sid].attempt + 1 < 3
      && Statement(locking, s.db, s.sessions[sid], s.next) == Fail(ConcurrentUpdate)
  {
    hide Statement;
    var was := s.sessions[sid];
    if was.task.Deliver? && was.attempt + 1 < 3
      && Statement(locking, s.db, was, s.next) == Fail(ConcurrentUpdate)
    {
      var named := set r | r in s.locks && r.Identity? :: r.id;
      var id := Above(s.db.txs.Keys + s.db.wallets.Keys + named);
      assert id !in s.db.txs.Keys + s.db.wallets.Keys + named;
      assert Identity(id) in s.locks ==> id in named;
      var a := Session(was.task, was.attempt + 1, id, id, was.received, was.now, None, Begun);
      var left := Unlocked(s.locks, sid);
      var t := s.(sessions := s.sessions[sid := a], locks := Locked(left, Ids(a), sid));
      assert FreshSession(s, left, sid, a);
      assert Step(locking, s, t, Retry(sid, a));
    }
  }

  // ---- Idempotency ----

  ghost predicate AboutExternal(db: Db, task: Task, provider: string, externalId: string) {
    match task
    case Deliver(cmd, _) => cmd.business.provider == provider && cmd.business.externalId == externalId
    case Expire(tx) => tx in db.txs && ExternalKey(db.txs[tx]) == Some((provider, externalId))
    case OpenFor(_, _) => false
  }

  predicate Concludes(answer: Answer) {
    answer.Answer? && answer.state.IsTerminal()
  }

  lemma TruthNames(db: Db, task: Task, answer: Answer, provider: string, externalId: string)
    requires RowsOk(db.wallets, db.txs) && IndexExact(db.txs, db.externals, ExternalKey)
    requires Truthful(db, task, answer) && answer.Answer? && AboutExternal(db, task, provider, externalId)
    ensures Get(db.externals, (provider, externalId)) == Some(answer.id)
  {
    hide RowsOk;
    RowStates(db, answer.id);
    assert ExternalKey(db.txs[answer.id]).Some? ==>
      Get(db.externals, ExternalKey(db.txs[answer.id]).value) == Some(answer.id);
  }

  /** All answers ever given about one (provider, external id), over HTTP, SQS or by the worker, name the same
      transaction, and all those that conclude it carry the same state, balance and failure code. */
  lemma AnswersAgree(locking: bool, states: seq<Sys>, actions: seq<Action>, n: nat, i: nat, j: nat, provider: string,
                     externalId: string)
    requires IsRun(locking, states, actions) && n < |states| && i < |states[n].replies| && j < |states[n].replies|
    requires var x, y := states[n].replies[i], states[n].replies[j];
      && x.answer.Answer? && y.answer.Answer?
      && AboutExternal(states[n].db, x.task, provider, externalId)
      && AboutExternal(states[n].db, y.task, provider, externalId)
    ensures var x, y := states[n].replies[i].answer, states[n].replies[j].answer;
      x.id == y.id && (Concludes(x) && Concludes(y) ==> SameOutcome(x, y))
  {
    var db := states[n].db;
    hide IsRun, AboutExternal, Inv, Truthful;
    RunsKeepInv(locking, states, actions, n);
    InvFacts(locking, states[n]);
    hide RowsOk, IndexExact;
    assert Truthful(db, states[n].replies[i].task, states[n].replies[i].answer)
      && Truthful(db, states[n].replies[j].task, states[n].replies[j].answer);
    TruthNames(db, states[n].replies[i].task, states[n].replies[i].answer, provider, externalId);
    TruthNames(db, states[n].replies[j].task, states[n].replies[j].answer, provider, externalId);
    SameRowSameOutcome(db, states[n].replies[i].task, states[n].replies[j].task, states[n].replies[i].answer,
                       states[n].replies[j].answer);
  }

  lemma SameRowSameOutcome(db: Db, task: Task, other: Task, x: Answer, y: Answer)
    requires Truthful(db, task, x) && Truthful(db, other, y) && x.Answer? && y.Answer? && x.id == y.id
    ensures Concludes(x) && Concludes(y) ==> SameOutcome(x, y)
  {
  }

  lemma InvFacts(locking: bool, s: Sys)
    requires Inv(locking, s)
    ensures RowsOk(s.db.wallets, s.db.txs) && RepliesTruthful(s.db, s.replies) && InboxOk(s.db.inbox)
    ensures IndexExact(s.db.txs, s.db.externals, ExternalKey) && LedgerMatchesRows(s.db.txs, s.db.ledger)
  {
    hide RowsOk, RepliesTruthful, IndexExact, WalletsOk, OwnersExact, LedgerMatchesRows, ChainsOk;
    hide TransactionEventsExact, WalletEventsExact, ParkedOk, InboxOk, SessionsOk;
  }

  /** One (provider, external id) never has more than one ledger entry. */
  lemma OneEntryPerExternalId(locking: bool, states: seq<Sys>, actions: seq<Action>, n: nat, i: nat, j: nat)
    requires IsRun(locking, states, actions) && n < |states| && i < |states[n].db.ledger| && j < |states[n].db.ledger|
    requires var db := states[n].db; db.ledger[i].tx in db.txs && db.ledger[j].tx in db.txs
    requires var db := states[n].db;
      ExternalKey(db.txs[db.ledger[i].tx]).Some?
        && ExternalKey(db.txs[db.ledger[i].tx]) == ExternalKey(db.txs[db.ledger[j].tx])
    ensures i == j
  {
    hide IsRun, Inv, RowsOk, RepliesTruthful, EntryMatches;
    RunsKeepInv(locking, states, actions, n);
    InvFacts(locking, states[n]);
    var db := states[n].db;
    assert db.ledger[i].tx == db.ledger[j].tx;
  }

  /** A transaction has an entry exactly when it is PROCESSED and not a LOSS, whoever raced. */
  lemma EntryExactlyWhenMoved(locking: bool, states: seq<Sys>, actions: seq<Action>, n: nat, id: Id)
    requires IsRun(locking, states, actions) && n < |states|
    ensures var db := states[n].db; id in db.txs && Moves(db.txs[id]) <==> Posted(db.ledger, id)
  {
    hide IsRun, Inv, RowsOk, RepliesTruthful, IndexExact;
    RunsKeepInv(locking, states, actions, n);
    InvFacts(locking, states[n]);
    var db := states[n].db;
    if Posted(db.ledger, id) {
      var i :| 0 <= i < |db.ledger| && db.ledger[i].tx == id;
      assert EntryMatches(db.txs, db.ledger[i]);
    }
  }

  // ---- Guards ----

  /** In every reachable state the ledger key of a movement is free, and the update of a row is refused only by
      the terminal-row trigger, when Expire or another delivery got ahead: the one-reversal index never
      fires. The version test refuses a movement exactly when the version of the wallet moved since it was
      read, which under the wallet lock never happens. */
  lemma GuardsThatFire(locking: bool, states: seq<Sys>, actions: seq<Action>, n: nat, sid: Sid)
    requires IsRun(locking, states, actions) && n < |states| && sid in states[n].sessions
    ensures var s, a := states[n], states[n].sessions[sid];
      match a.pc
      case Moving(d) =>
        && d.job.wallet.Some? && d.job.wallet.value.id in s.db.wallets
        && (if s.db.wallets[d.job.wallet.value.id].version == d.job.wallet.value.version
            then BalanceStatement(s.db, a, d).To?
            else !locking && BalanceStatement(s.db, a, d) == Fail(ConcurrentUpdate))
      case Entering(d) => LedgerStatement(s.db, a, d, s.next).To?
      case Updating(d) =>
        if !d.write.inserted && d.write.tx.id in s.db.txs && s.db.txs[d.write.tx.id].state.IsTerminal()
        then RowStatement(s.db, a, d) == Fail(SchemaViolation)
        else RowStatement(s.db, a, d).To?
      case _ => true
  {
    hide IsRun, DbInv, DecisionSeen, Held, BalanceStatement, LedgerStatement, RowStatement, RowsOk;
    RunsKeepInv(locking, states, actions, n);
    var s, a := states[n], states[n].sessions[sid];
    assert SessionOk(locking, s.db, s.locks, s.next, sid, a);
    RowsOfInv(s.db);
    match a.pc
    case Moving(d) =>
      VersionTestIsExact(locking, s.db, s.locks, sid, a, d);
      if locking { VersionTestIsSilent(s.db, s.locks, sid, a, d); }
    case Entering(d) => EntryGoesIn(locking, s.db, s.locks, s.next, sid, a, d);
    case Updating(d) => OnlyTheTriggerRefuses(locking, s.db, s.locks, sid, a, d);
    case _ =>
  }

  lemma EntryGoesIn(locking: bool, db: Db, locks: map<Resource, Sid>, next: nat, sid: Sid, a: Session, d: Decision)
    requires DbInv(db) && DecisionSeen(locking, db, locks, sid, a, d) && d.write.posting.Some?
    requires Held(db, locks, sid, d) && IdsHeld(db, locks, sid, a)
    ensures LedgerStatement(db, a, d, next).To?
  {
    hide DbInv, DecisionSeen, Held, IdsHeld, AlreadyPosted;
    UniqueEntryIsSilent(locking, db, locks, sid, a, d);
  }

  /** The refusals for an unknown wallet and for another currency are dead code: the foreign key on
      (wallet_id, currency) refuses the insert first. */
  lemma ForeignKeyRefusesFirst(states: seq<Sys>, actions: seq<Action>, n: nat, sid: Sid)
    requires IsRun(true, states, actions) && n < |states| && sid in states[n].sessions
    requires states[n].sessions[sid].pc.Recording?
    ensures var a, db := states[n].sessions[sid], states[n].db;
      var b := a.pc.tx.business;
      JudgeWallet(Get(db.wallets, b.wallet), b).Refuse? ==>
        b.wallet in db.wallets && db.wallets[b.wallet].player != b.player
  {
    hide IsRun, TxSeen, DbInv, RowsOk;
    RunsKeepInv(true, states, actions, n);
    var s, a := states[n], states[n].sessions[sid];
    assert SessionOk(true, s.db, s.locks, s.next, sid, a);
    RowsOfInv(s.db);
    TxSeenHasWallet(s.db, s.locks, sid, a, a.pc.tx, a.pc.inserted);
  }

  // ---- Parked reversals ----

  /** A park is atomic at its commit exactly when the reference is still missing or waiting then. */
  lemma ParksAreAtomicIff(states: seq<Sys>, actions: seq<Action>, i: nat, sid: Sid)
    requires IsRun(true, states, actions) && i < |actions| && actions[i] == Commit(sid) && sid in states[i].sessions
    requires var a := states[i].sessions[sid];
      a.task.Deliver? && a.pc.Ready? && a.pc.conclusion.Decided?
        && a.pc.conclusion.decision.write.tx.state.PendingReference?
    ensures var a, b := states[i].sessions[sid], states[i].sessions[sid].task.cmd.business;
      LikeApplyAlone(states[i].db, states[i + 1], sid, a)
      <==> JudgeReference(a.pc.conclusion.decision.job.tx, FindExternal(states[i].db, b.provider, b.reference)).Wait?
  {
    hide LikeApplyAlone, SessionsOk, StepCommit, DbInv, RepliesTruthful, SequencesBelow, Step, FindExternal;
    hide JudgeReference;
    CommittingSession(true, states, actions, i, sid);
    ParkCommit(states[i], states[i + 1], sid);
  }

  lemma ParkCommit(s: Sys, t: Sys, sid: Sid)
    requires SessionsOk(true, s) && StepCommit(s, t, sid)
    requires var a := s.sessions[sid];
      a.task.Deliver? && a.pc.conclusion.Decided? && a.pc.conclusion.decision.write.tx.state.PendingReference?
    ensures var a, b := s.sessions[sid], s.sessions[sid].task.cmd.business;
      LikeApplyAlone(s.db, t, sid, a)
      <==> JudgeReference(a.pc.conclusion.decision.job.tx, FindExternal(s.db, b.provider, b.reference)).Wait?
  {
    hide SessionsOk, Decisive, Finish, ApplyPlan, Apply, FoundSeen, Truthful, FindExternal, JudgeReference;
    var a := s.sessions[sid];
    ReadyConclusion(true, s, sid);
    var d := a.pc.conclusion.decision;
    DecidedPlan(true, s.db, s.locks, s.next, sid, a, d);
    WaitMeansParked(d.job, a.now);
    ParkedAsAloneIff(s.db, s.locks, s.next, sid, a, d);
    var b := a.task.cmd.business;
    assert d.job.tx.business == b by { DecidedJob(true, s.db, s.locks, s.next, sid, a, d); }
  }

  // ---- Answers over time ----

  lemma {:induction false} RepliesAreKept(locking: bool, states: seq<Sys>, actions: seq<Action>, i: nat, j: nat)
    requires IsRun(locking, states, actions) && i <= j < |states|
    ensures states[i].replies <= states[j].replies
  {
    hide Statement, FreshSession, Free, Apply;
    if i < j {
      RepliesAreKept(locking, states, actions, i, j - 1);
      assert Step(locking, states[j - 1], states[j - 1 + 1], actions[j - 1]);
    }
  }

  /** The business fields of the operation that a reply is about. */
  ghost predicate AboutBusiness(db: Db, reply: Reply, b: Business) {
    match reply.task
    case Deliver(cmd, _) => b == cmd.business
    case Expire(id) => id in db.txs && b == db.txs[id].business
    case OpenFor(_, _) => false
  }

  /** A conclusion that a caller was given by i, to a delivery or an expiry, is what every redelivery is answered in
      any later state j, under any key, and that changes nothing. */
  lemma ConclusionsAreForever(locking: bool, states: seq<Sys>, actions: seq<Action>, i: nat, j: nat, n: nat,
                              again: Command, id: Id, now: int)
    requires IsRun(locking, states, actions) && i <= j < |states| && n < |states[i].replies|
    requires Concludes(states[i].replies[n].answer)
    requires AboutBusiness(states[i].db, states[i].replies[n], again.business) && ValidCommand(again)
    ensures var plan := ApplyPlan(states[j].db, again, id, now);
      plan.Replies? && SameOutcome(plan.answer, states[i].replies[n].answer) && plan.answer.replayed
  {
    hide IsRun, Inv, RepliesTruthful, DbInv, ApplyPlan, ValidCommand, Grows;
    var reply := states[i].replies[n];
    RunsKeepInv(locking, states, actions, i);
    ReplyIsTruthful(locking, states[i], n);
    RunsKeepInv(locking, states, actions, j);
    RepliesAreKept(locking, states, actions, i, j);
    assert states[j].replies[n] == reply;
    ReplyIsTruthful(locking, states[j], n);
    HistoryGrows(locking, states, actions, i, j);
    ConcludedRowKept(states[i].db, states[j].db, reply.answer.id);
    RedeliveryReplays(states[j].db, reply.task, reply.answer, again, id, now);
  }

  lemma ConcludedRowKept(db: Db, d: Db, id: Id)
    requires Grows(db, d) && id in db.txs && db.txs[id].state.IsTerminal()
    ensures id in d.txs && d.txs[id] == db.txs[id]
  {
    hide WalletsAdvance, Extends, Appends;
  }

  lemma ReplyIsTruthful(locking: bool, s: Sys, n: nat)
    requires Inv(locking, s) && n < |s.replies|
    ensures DbInv(s.db) && Truthful(s.db, s.replies[n].task, s.replies[n].answer)
  {
    hide DbInv, Truthful, SessionsOk;
  }

  // ---- Money and events ----

  lemma DbInvInEveryRun(locking: bool, states: seq<Sys>, actions: seq<Action>, n: nat)
    requires IsRun(locking, states, actions) && n < |states|
    ensures DbInv(states[n].db)
  {
    hide IsRun, DbInv, SessionsOk, RepliesTruthful;
    RunsKeepInv(locking, states, actions, n);
  }

  /** In every reachable state only the player of a wallet has played on it. */
  lemma ProcessedOnOwnWallet(locking: bool, states: seq<Sys>, actions: seq<Action>, n: nat, id: Id)
    requires IsRun(locking, states, actions) && n < |states| && id in states[n].db.txs
    requires states[n].db.txs[id].state.Processed?
    ensures var db, b := states[n].db, states[n].db.txs[id].business;
      && b.wallet in db.wallets && db.wallets[b.wallet].player == b.player
      && db.wallets[b.wallet].balance.currency == b.money.currency
  {
    hide IsRun, DbInv, RowsOk;
    DbInvInEveryRun(locking, states, actions, n);
    RowsOfInv(states[n].db);
    ProcessedRow(states[n].db, id);
  }

  lemma ProcessedRow(db: Db, id: Id)
    requires RowsOk(db.wallets, db.txs) && id in db.txs && db.txs[id].state.Processed?
    ensures var b := db.txs[id].business;
      && b.wallet in db.wallets && db.wallets[b.wallet].player == b.player
      && db.wallets[b.wallet].balance.currency == b.money.currency
  {
    assert RowOk(db.wallets, db.txs, db.txs[id]);
  }

  /** In every reachable state the entries of a wallet start at zero, each begins where the previous ended, they
      end at the stored balance, the version counts them, and replaying them finds that balance, which is the
      opening plus what each bet and win nets. */
  lemma MoneyIsConserved(locking: bool, states: seq<Sys>, actions: seq<Action>, n: nat, wallet: Id)
    requires IsRun(locking, states, actions) && n < |states| && wallet in states[n].db.wallets
    ensures var db, w := states[n].db, states[n].db.wallets[wallet];
      var es := EntriesOf(db.ledger, wallet);
      && Chain(es, w.balance.currency) && EndOf(es, w.balance.currency) == w.balance && w.balance.cents >= 0
      && w.version == (if wallet in db.openings then 0 else 1) + |es|
      && Replay(w.balance.currency, es) == Ok(w.balance)
      && w.balance.cents == SumOfNets(db, es)
  {
    hide IsRun, DbInv, Chain, EndOf, Replay, SumOfNets;
    DbInvInEveryRun(locking, states, actions, n);
    var db := states[n].db;
    ChainOfWallet(db, wallet);
    ReachableLedgerReconciles(db, wallet);
    BalanceIsSumOfNets(db, wallet);
  }

  lemma LinkableOfInv(db: Db)
    requires DbInv(db)
    ensures Linkable(db)
  {
    hide RowsOk, IndexExact, WalletsOk, OwnersExact, LedgerMatchesRows, ChainsOk, TransactionEventsExact;
    hide WalletEventsExact, ParkedOk, InboxOk;
  }

  /** In every reachable state nothing is reversed twice, and what a bet or a win and its reversals did together
      is all of its amount or nothing. */
  lemma ReversalsNeverPayTwice(locking: bool, states: seq<Sys>, actions: seq<Action>, n: nat, root: Id, c: Id, d: Id)
    requires IsRun(locking, states, actions) && n < |states|
    ensures var db := states[n].db;
      && (Reverses(db.txs, c, root) && Reverses(db.txs, d, root) ==> c == d)
      && (root in db.txs && IsRoot(db.txs[root]) ==>
            var a: int := db.txs[root].business.money.cents;
            Net(db, root) in (if db.txs[root].business.kind.Bet? then {-a, 0} else {a, 0}))
  {
    hide IsRun, DbInv, Linkable, Net;
    DbInvInEveryRun(locking, states, actions, n);
    var db := states[n].db;
    LinkableOfInv(db);
    if Reverses(db.txs, c, root) && Reverses(db.txs, d, root) {
      OneReversal(db, c, d, root);
    }
    if root in db.txs && IsRoot(db.txs[root]) {
      NetIsAllOrNothing(db, root);
    }
  }

  /** In every reachable state the outbox holds, for each transaction, its wait if it was ever parked and its
      conclusion, for each wallet the events of its entries with consecutive versions, and nothing else. */
  lemma OutboxIsTheHistory(locking: bool, states: seq<Sys>, actions: seq<Action>, n: nat, id: Id)
    requires IsRun(locking, states, actions) && n < |states|
    ensures var db := states[n].db;
      && EventsAbout(db.outbox, id) == EventsDue(Get(db.parked, id), Get(db.txs, id))
      && var evs, es := BalanceEvents(db.outbox, id), EntriesOf(db.ledger, id);
      if id !in db.wallets then evs == []
      else |evs| == |es| && forall i | 0 <= i < |es| ::
             evs[i].BalanceChanged? && evs[i].txId == es[i].tx && evs[i].change.before == es[i].before
               && evs[i].change.after == es[i].after
             && evs[i].change.direction == es[i].direction && evs[i].change.amount == es[i].amount
             && evs[i].change.version == db.wallets[id].version - |es| + i + 1
  {
    hide IsRun, DbInv;
    DbInvInEveryRun(locking, states, actions, n);
    EventsOfInv(states[n].db, id);
  }

  lemma EventsOfInv(db: Db, id: Id)
    requires DbInv(db)
    ensures EventsAbout(db.outbox, id) == EventsDue(Get(db.parked, id), Get(db.txs, id))
    ensures id !in db.wallets ==> BalanceEvents(db.outbox, id) == []
    ensures id in db.wallets ==>
      && EventsMatchEntries(BalanceEvents(db.outbox, id), EntriesOf(db.ledger, id), BaseVersion(Get(db.openings, id)))
      && db.wallets[id].version == BaseVersion(Get(db.openings, id)) + |EntriesOf(db.ledger, id)|
  {
    hide RowsOk, WalletsOk, IndexesExact, OwnersExact, LedgerMatchesRows, ParkedOk, InboxOk, EventsMatchEntries;
    hide Chain, EventsDue;
    assert id in db.wallets ==> WalletChain(db.wallets[id], EntriesOf(db.ledger, id), Get(db.openings, id));
  }
}
