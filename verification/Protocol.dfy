/** The service as a state machine: any number of SQL sessions at Read Committed run the use cases over one
    database, one statement at a time, and may abort, crash, retry or lose their answer
    (cmd/internal/usecase/, cmd/internal/infra/postgres/). A session reads committed rows only; what it
    writes stays in its program counter until it commits. */
module Protocol {
  import opened Outcome
  import opened Monetary
  import opened Wager
  import opened Database

  type Sid = nat

  /** What a session can hold until it ends: row locks, index keys of uncommitted rows, and generated
      identifiers. A statement that needs a resource of another session waits. */
  datatype Resource =
    | WalletLock(wallet: Id)
    | RowLock(tx: Id)
    | ExternalLock(external: (string, string))
    | KeyLock(key: (string, string))
    | ReversalLock(reference: Id)
    | OwnerLock(owner: (Id, Currency))
    | InboxLock(message: MessageKey)
    | Identity(id: Id)

  datatype Message = Message(key: MessageKey, hash: Business)

  /** A delivery over HTTP or by the reference worker (no message) or over SQS, an opening, an expiry. */
  datatype Task =
    | Deliver(cmd: Command, message: Option<Message>)
    | OpenFor(player: Id, initial: Money)
    | Expire(tx: Id)

  datatype Decision = Decision(job: Job, write: Write, sequence: nat, answer: Answer)

  datatype Conclusion =
    | Quiet(answer: Answer)
    | Decided(decision: Decision)
    | Founding(found: Found, sequence: nat)

  /** The next statement of a session, with what it has read and decided so far. */
  datatype Pc =
    | Begun
    | Registered
    | Absent
    | Recording(tx: Tx, inserted: bool)
    | Consulting(job: Job)
    | Checking(job: Job)
    | Moving(decision: Decision)
    | Entering(decision: Decision)
    | Updating(decision: Decision)
    | Saving(decision: Decision)
    | Unowned
    | Crediting(found: Found)
    | Completing(conclusion: Conclusion)
    | Ready(conclusion: Conclusion)
    | Committed(answer: Option<Answer>)

  /** received is when the handler of a message read the clock, now when the use case did. */
  datatype Session = Session(
    task: Task, attempt: nat, id: Id, walletId: Id, received: int, now: int, inbox: Option<InboxRow>, pc: Pc)

  datatype Reply = Reply(task: Task, answer: Answer)

  datatype Sys = Sys(db: Db, sessions: map<Sid, Session>, locks: map<Resource, Sid>, next: nat, replies: seq<Reply>)

  const INIT := Sys(EMPTY_DB, map[], map[], 1, [])

  const MAX_ATTEMPTS := 3

  // ---- Triggers ----

  /** wager_transactions_guard_update. */
  predicate RowGuard(was: Tx, t: Tx) {
    && !was.state.IsTerminal()
    && was.id == t.id && was.business == t.business && was.key == t.key && was.createdAt == t.createdAt
    && (was.referenceId != 0 ==> t.referenceId == was.referenceId)
  }

  /** wallets_guard_update. */
  predicate WalletGuard(was: WalletRow, w: WalletRow) {
    && was.id == w.id && was.player == w.player && was.balance.currency == w.balance.currency
    && was.createdAt == w.createdAt
    && (if was.balance.cents != w.balance.cents then w.version == was.version + 1 else w.version == was.version)
  }

  // ---- Statements ----

  /** What the next statement of a session does: it goes on, holding more and perhaps drawing a sequence
      number, or it fails, and then the whole unit of work is rolled back. */
  datatype Move = To(session: Session, acquire: set<Resource>, draws: bool) | Fail(error: Error)

  function Go(a: Session, pc: Pc, acquire: set<Resource>): Move {
    To(a.(pc := pc), acquire, false)
  }

  function WalletLocks(locking: bool, wallet: Id): set<Resource> {
    if locking then {WalletLock(wallet)} else {}
  }

  /** The decision is taken: what is left are the writes. */
  function Decide(a: Session, job: Job, acquire: set<Resource>): Move {
    match Finish(job, a.now)
    case Fails(e) => Fail(e)
    case Replies(answer) => Go(a, Completing(Quiet(answer)), acquire)
    case Writes(write, answer) =>
      var d := Decision(job, write, 0, answer);
      Go(a, if write.posting.Some? then Moving(d) else Updating(d), acquire)
  }

  /** InboxRepository.Register: one upsert. */
  function RegisterStatement(db: Db, a: Session, m: Message): Move {
    match Get(db.inbox, m.key)
    case None =>
      To(a.(inbox := Some(InboxRow(m.hash, a.received, None, 1)), pc := Registered), {InboxLock(m.key)}, false)
    case Some(row) =>
      var bumped := Some(row.(attempts := row.attempts + 1));
      if row.hash != m.hash then Fail(MessageConflict)
      else if row.completedAt.Some?
      then To(a.(inbox := bumped, pc := Ready(Quiet(Duplicate))), {InboxLock(m.key)}, false)
      else To(a.(inbox := bumped, pc := Registered), {InboxLock(m.key)}, false)
  }

  /** The transaction is found, or is about to be inserted. */
  function LookupStatement(db: Db, a: Session, cmd: Command): Move {
    match FindExternal(db, cmd.business.provider, cmd.business.externalId)
    case None => Go(a, Absent, {})
    case Some(t) =>
      match RecordExisting(t, cmd)
      case Unrecordable(e) => Fail(e)
      case Concluded(t) => Go(a, Completing(Quiet(ReplayOf(t))), {})
      case Open(t, inserted) => Go(a, Recording(t, inserted), {})
  }

  function InsertStatement(db: Db, a: Session, cmd: Command): Move {
    match RecordNew(db, cmd, a.id, a.now)
    case Open(t, inserted) =>
      Go(a, Recording(t, inserted),
         {ExternalLock((t.business.provider, t.business.externalId)), KeyLock((t.business.provider, t.key))})
    case Unrecordable(e) => Fail(e)
    case Concluded(_) => Fail(TransactionTerminal)
  }

  /** LockByID, and the checks on the wallet. Without locking it is a plain read. */
  function WalletStatement(locking: bool, db: Db, a: Session, t: Tx, inserted: bool): Move {
    var w := Get(db.wallets, t.business.wallet);
    var job := Job(t, inserted, w, None, JudgeWallet(w, t.business));
    if job.verdict.Consult? then Go(a, Consulting(job), WalletLocks(locking, t.business.wallet))
    else Decide(a, job, WalletLocks(locking, t.business.wallet))
  }

  /** The lookup of the reference. The row this session inserted itself is PENDING, so finding it and not
      finding it both lead to waiting. */
  function ReferenceStatement(db: Db, a: Session, job: Job): Move {
    var b := job.tx.business;
    var r := FindExternal(db, b.provider, b.reference);
    var job1 := job.(reference := r, verdict := JudgeReference(job.tx, r));
    if job1.verdict.Consult? then Go(a, Checking(job1), {}) else Decide(a, job1, {})
  }

  function ReversalStatement(db: Db, a: Session, job: Job): Move {
    if job.reference.None? then Fail(UnresolvedReference)
    else Decide(a, job.(verdict := JudgeReversal(job.reference.value.id in db.reversals)), {})
  }

  /** UpdateBalance: conditioned on the version that was read, then the trigger. */
  function BalanceStatement(db: Db, a: Session, d: Decision): Move {
    if d.write.posting.None? then Fail(SchemaViolation) else
    var p := d.write.posting.value;
    if p.from.id !in db.wallets || db.wallets[p.from.id].version != p.change.version - 1 then Fail(ConcurrentUpdate)
    else if !WalletGuard(db.wallets[p.from.id], WalletAfter(p.from, p.change)) then Fail(SchemaViolation)
    else Go(a, Entering(d), {WalletLock(p.from.id)})
  }

  ghost predicate AlreadyPosted(ledger: seq<Entry>, wallet: Id, tx: Id) {
    exists i :: 0 <= i < |ledger| && ledger[i].wallet == wallet && ledger[i].tx == tx
  }

  ghost function LedgerStatement(db: Db, a: Session, d: Decision, next: nat): Move {
    if d.write.posting.None? then Fail(SchemaViolation)
    else if AlreadyPosted(db.ledger, d.write.posting.value.change.wallet, d.write.tx.id) then Fail(ConcurrentUpdate)
    else To(a.(pc := Updating(d.(sequence := next))), {}, true)
  }

  /** TransactionRepository.Update: row lock, trigger, one-reversal index. */
  function RowStatement(db: Db, a: Session, d: Decision): Move {
    var t := d.write.tx;
    if !d.write.inserted && t.id !in db.txs then Fail(TransactionNotFound)
    else if !d.write.inserted && !RowGuard(db.txs[t.id], t) then Fail(SchemaViolation)
    else if Taken(db.reversals, ReversalKey(t)) then Fail(ConcurrentUpdate)
    else Go(a, Saving(d), {RowLock(t.id)} + (if ReversalKey(t).Some? then {ReversalLock(t.referenceId)} else {}))
  }

  /** InboxRepository.Complete, for a delivery that registered a message. */
  function CompleteStatement(a: Session, o: Conclusion): Move {
    var row := if a.inbox.None? then None
               else Some(a.inbox.value.(completedAt := Some(Later(a.received, a.inbox.value.receivedAt))));
    To(a.(inbox := row, pc := Ready(o)), {}, false)
  }

  function FoundingStatement(db: Db, a: Session, player: Id, initial: Money): Move {
    match OpenPlan(db, player, initial, a.walletId, a.id, a.now)
    case Err(e) => Fail(e)
    case Ok(f) =>
      var pc := if f.opening.Some? then Crediting(f) else Completing(Founding(f, 0));
      Go(a, pc, {OwnerLock((player, initial.currency))})
  }

  function ExpiryStatement(db: Db, a: Session, id: Id): Move {
    match Get(db.txs, id)
    case None => Fail(TransactionNotFound)
    case Some(t) =>
      if t.state.IsTerminal() then Go(a, Completing(Quiet(ReplayOf(t))), {})
      else Decide(a, Job(t, false, None, None, Refuse(ReferenceNotFoundCode)), {})
  }

  function BeginStatement(db: Db, a: Session): Move {
    match a.task
    case Deliver(cmd, message) =>
      if !ValidCommand(cmd) then Fail(InvalidCommand)
      else if message.None? then Go(a, Registered, {})
      else RegisterStatement(db, a, message.value)
    case OpenFor(player, initial) =>
      if OpenPlan(db, player, initial, a.walletId, a.id, a.now).Err?
      then Fail(OpenPlan(db, player, initial, a.walletId, a.id, a.now).error)
      else Go(a, Unowned, {})
    case Expire(tx) => ExpiryStatement(db, a, tx)
  }

  /** The next statement of session a, seeing the committed state db. */
  ghost function Statement(locking: bool, db: Db, a: Session, next: nat): Move {
    match a.pc
    case Begun => BeginStatement(db, a)
    case Registered => if a.task.Deliver? then LookupStatement(db, a, a.task.cmd) else Fail(InvalidCommand)
    case Absent => if a.task.Deliver? then InsertStatement(db, a, a.task.cmd) else Fail(InvalidCommand)
    case Recording(t, inserted) => WalletStatement(locking, db, a, t, inserted)
    case Consulting(job) => ReferenceStatement(db, a, job)
    case Checking(job) => ReversalStatement(db, a, job)
    case Moving(d) => BalanceStatement(db, a, d)
    case Entering(d) => LedgerStatement(db, a, d, next)
    case Updating(d) => RowStatement(db, a, d)
    case Saving(d) => Go(a, Completing(Decided(d)), {})
    case Unowned =>
      if a.task.OpenFor? then FoundingStatement(db, a, a.task.player, a.task.initial) else Fail(InvalidCommand)
    case Crediting(f) => To(a.(pc := Completing(Founding(f, next))), {}, true)
    case Completing(o) => CompleteStatement(a, o)
    case Ready(_) => Fail(SchemaViolation)
    case Committed(_) => Fail(SchemaViolation)
  }

  // ---- Steps ----

  predicate Mine(locks: map<Resource, Sid>, r: Resource, sid: Sid) {
    r in locks && locks[r] == sid
  }

  ghost predicate Free(locks: map<Resource, Sid>, rs: set<Resource>, sid: Sid) {
    forall r | r in rs :: r in locks ==> locks[r] == sid
  }

  function Locked(locks: map<Resource, Sid>, rs: set<Resource>, sid: Sid): map<Resource, Sid> {
    map r | r in locks.Keys + rs :: if r in rs then sid else locks[r]
  }

  function Unlocked(locks: map<Resource, Sid>, sid: Sid): map<Resource, Sid> {
    map r | r in locks && locks[r] != sid :: locks[r]
  }

  function Effect(db: Db, o: Conclusion): Db {
    match o
    case Quiet(_) => db
    case Decided(d) => Install(db, d.write, d.sequence)
    case Founding(f, sequence) => InstallFound(db, f, sequence)
  }

  /** What a commit makes visible. */
  function Apply(db: Db, a: Session, o: Conclusion): Db {
    var d := Effect(db, o);
    if a.inbox.Some? && a.task.Deliver? && a.task.message.Some?
    then d.(inbox := d.inbox[a.task.message.value.key := a.inbox.value])
    else d
  }

  function AnswerOfConclusion(o: Conclusion): Option<Answer> {
    match o
    case Quiet(answer) => Some(answer)
    case Decided(d) => Some(d.answer)
    case Founding(_, _) => None
  }

  datatype Action =
    | Start(sid: Sid, session: Session)
    | Run(sid: Sid)
    | Commit(sid: Sid)
    | Stop(sid: Sid)
    | Retry(sid: Sid, session: Session)
    | Answered(sid: Sid)
    | Lost(sid: Sid)
    | Skip(gap: nat)

  function Ids(a: Session): set<Resource> {
    {Identity(a.id), Identity(a.walletId)}
  }

  /** Generated identifiers are fresh: in no committed row and held by no open session. */
  ghost predicate FreshSession(s: Sys, locks: map<Resource, Sid>, sid: Sid, a: Session) {
    && a.pc.Begun? && a.inbox.None?
    && a.id != 0 && a.id !in s.db.txs && a.walletId != 0 && a.walletId !in s.db.wallets
    && forall r | r in Ids(a) :: r !in locks
  }

  ghost predicate StepStart(s: Sys, t: Sys, sid: Sid, a: Session) {
    && sid !in s.sessions && a.attempt == 0 && FreshSession(s, s.locks, sid, a)
    && t == s.(sessions := s.sessions[sid := a], locks := Locked(s.locks, Ids(a), sid))
  }

  /** One statement: it waits until what it needs is free, and sees what is committed then. */
  ghost predicate StepRun(locking: bool, s: Sys, t: Sys, sid: Sid) {
    && sid in s.sessions
    && var m := Statement(locking, s.db, s.sessions[sid], s.next);
    && m.To? && Free(s.locks, m.acquire, sid)
    && t == s.(sessions := s.sessions[sid := m.session], locks := Locked(s.locks, m.acquire, sid),
               next := if m.draws then s.next + 1 else s.next)
  }

  ghost predicate StepCommit(s: Sys, t: Sys, sid: Sid) {
    && sid in s.sessions && s.sessions[sid].pc.Ready?
    && var a := s.sessions[sid];
    && t == s.(db := Apply(s.db, a, a.pc.conclusion), locks := Unlocked(s.locks, sid),
               sessions := s.sessions[sid := a.(pc := Committed(AnswerOfConclusion(a.pc.conclusion)))])
  }

  /** An error, a crash or a cancelled context before the commit: nothing the session wrote remains. */
  ghost predicate StepStop(s: Sys, t: Sys, sid: Sid) {
    && sid in s.sessions && !s.sessions[sid].pc.Committed?
    && t == s.(sessions := s.sessions - {sid}, locks := Unlocked(s.locks, sid))
  }

  /** runWithRetry: a unit of work that failed with ErrConcurrentUpdate runs again from the start. */
  ghost predicate StepRetry(locking: bool, s: Sys, t: Sys, sid: Sid, a: Session) {
    && sid in s.sessions && s.sessions[sid].task.Deliver?
    && Statement(locking, s.db, s.sessions[sid], s.next) == Fail(ConcurrentUpdate)
    && a.task == s.sessions[sid].task && a.attempt == s.sessions[sid].attempt + 1 < MAX_ATTEMPTS
    && FreshSession(s, Unlocked(s.locks, sid), sid, a)
    && t == s.(sessions := s.sessions[sid := a], locks := Locked(Unlocked(s.locks, sid), Ids(a), sid))
  }

  ghost predicate StepAnswered(s: Sys, t: Sys, sid: Sid) {
    && sid in s.sessions && s.sessions[sid].pc.Committed? && s.sessions[sid].pc.answer.Some?
    && t == s.(sessions := s.sessions - {sid},
               replies := s.replies + [Reply(s.sessions[sid].task, s.sessions[sid].pc.answer.value)])
  }

  /** Committed, but the answer never reached the caller. */
  ghost predicate StepLost(s: Sys, t: Sys, sid: Sid) {
    sid in s.sessions && s.sessions[sid].pc.Committed? && t == s.(sessions := s.sessions - {sid})
  }

  ghost predicate Step(locking: bool, s: Sys, t: Sys, action: Action) {
    match action
    case Start(sid, a) => StepStart(s, t, sid, a)
    case Run(sid) => StepRun(locking, s, t, sid)
    case Commit(sid) => StepCommit(s, t, sid)
    case Stop(sid) => StepStop(s, t, sid)
    case Retry(sid, a) => StepRetry(locking, s, t, sid, a)
    case Answered(sid) => StepAnswered(s, t, sid)
    case Lost(sid) => StepLost(s, t, sid)
    case Skip(gap) => t == s.(next := s.next + gap)
  }

  /** A run: any interleaving of the steps of any sessions, from the empty database. */
  ghost predicate IsRun(locking: bool, states: seq<Sys>, actions: seq<Action>) {
    && |states| == |actions| + 1 && states[0] == INIT
    && forall i | 0 <= i < |actions| :: Step(locking, states[i], states[i + 1], actions[i])
  }
}
