/** Every statement of a session leaves it with true knowledge of the committed state. */
module Statements {
  import opened Outcome
  import opened Monetary
  import opened Wager
  import opened Database
  import opened History
  import opened Openings
  import opened Protocol
  import opened Sessions
  import opened Decisions

  /** After a statement the session holds what it held, and what the statement acquired. */
  ghost predicate Gains(locks: map<Resource, Sid>, after: map<Resource, Sid>, rs: set<Resource>, sid: Sid) {
    forall r :: Mine(after, r, sid) <==> Mine(locks, r, sid) || r in rs
  }

  lemma LockedGains(locks: map<Resource, Sid>, rs: set<Resource>, sid: Sid)
    requires Free(locks, rs, sid)
    ensures Gains(locks, Locked(locks, rs, sid), rs, sid)
    ensures forall other | other != sid :: SameLocks(locks, Locked(locks, rs, sid), other)
  {
  }

  // ---- Reading ----

  lemma FoundByExternal(db: Db, provider: string, externalId: string)
    requires DbInv(db) && FindExternal(db, provider, externalId).Some?
    ensures var t := FindExternal(db, provider, externalId).value;
      && Get(db.externals, (provider, externalId)) == Some(t.id) && t.id in db.txs && db.txs[t.id] == t
      && t.business.kind.IsExternal() && t.business.provider == provider && t.business.externalId == externalId
      && (t.state.IsTerminal() || (t.state.PendingReference? && t.business.kind.RequiresReference()))
  {
    hide WalletsOk, OwnersExact, LedgerMatchesRows, ChainsOk, TransactionEventsExact, WalletEventsExact, ParkedOk;
    hide InboxOk;
    var id := db.externals[(provider, externalId)];
    assert IndexExact(db.txs, db.externals, ExternalKey);
    assert ExternalKey(db.txs[id]) == Some((provider, externalId));
    RowStates(db, id);
  }

  lemma RowStates(db: Db, id: Id)
    requires RowsOk(db.wallets, db.txs) && id in db.txs
    ensures db.txs[id].id == id
    ensures (db.txs[id].state.IsTerminal()
             || (db.txs[id].state.PendingReference? && db.txs[id].business.kind.RequiresReference()))
    ensures FitsWallet(db.wallets, db.txs[id].business)
  {
    assert RowOk(db.wallets, db.txs, db.txs[id]);
  }

  lemma WalletRowSeen(db: Db, locks: map<Resource, Sid>, sid: Sid, id: Id)
    requires WalletsOk(db.wallets) && id in db.wallets
    ensures WalletSeen(db, locks, sid, db.wallets[id], id)
  {
  }

  lemma TxSeenHasWallet(db: Db, locks: map<Resource, Sid>, sid: Sid, a: Session, t: Tx, inserted: bool)
    requires RowsOk(db.wallets, db.txs) && TxSeen(db, locks, sid, a, t, inserted)
    ensures FitsWallet(db.wallets, t.business)
    ensures inserted ==> t.state.Pending?
  {
    hide RowsOk, FitsWallet;
    if inserted {
      NewIsPending(a.task.cmd, a.id, a.now);
      GuardedFits(db, t);
    } else {
      RowStates(db, t.id);
    }
  }

  lemma NewIsPending(cmd: Command, id: Id, now: int)
    ensures NewExternal(cmd, id, now).Ok? ==> NewExternal(cmd, id, now).value.state.Pending?
  {
  }

  lemma GuardedFits(db: Db, t: Tx)
    requires InsertGuard(db, t).Ok?
    ensures FitsWallet(db.wallets, t.business)
  {
  }

  // ---- Deciding ----

  lemma TxSeenGains(db: Db, locks: map<Resource, Sid>, after: map<Resource, Sid>, rs: set<Resource>, sid: Sid,
                    a: Session, t: Tx, inserted: bool)
    requires Gains(locks, after, rs, sid) && TxSeen(db, locks, sid, a, t, inserted)
    ensures TxSeen(db, after, sid, a, t, inserted)
  {
    hide NewExternal, WaitingSeen, InsertGuard, ValidCommand;
  }

  /** A decided job goes on to its writes, or answers that it still waits. */
  lemma DecideKeeps(locking: bool, db: Db, locks: map<Resource, Sid>, next: nat, sid: Sid, a: Session, job: Job,
                    acquire: set<Resource>)
    requires JobSeen(locking, db, locks, sid, a, job) && Decide(a, job, acquire).To?
    requires job.inserted ==> job.tx.state.Pending?
    ensures PcOk(locking, db, locks, next, sid, Decide(a, job, acquire).session)
    ensures Decide(a, job, acquire).session == a.(pc := Decide(a, job, acquire).session.pc)
    ensures !Decide(a, job, acquire).draws
  {
    hide VerdictSeen, WalletSeen, Finish, ValidCommand, NewExternal;
    FinishShape(job, a.now);
  }

  lemma LookupKeeps(locking: bool, db: Db, locks: map<Resource, Sid>, after: map<Resource, Sid>, next: nat, sid: Sid,
                    a: Session)
    requires DbInv(db) && a.task.Deliver? && ValidCommand(a.task.cmd) && LookupStatement(db, a, a.task.cmd).To?
    ensures PcOk(locking, db, after, next, sid, LookupStatement(db, a, a.task.cmd).session)
  {
    hide DbInv, ValidCommand;
    var b := a.task.cmd.business;
    if FindExternal(db, b.provider, b.externalId).Some? {
      FoundByExternal(db, b.provider, b.externalId);
    }
  }

  lemma InsertKeeps(locking: bool, db: Db, locks: map<Resource, Sid>, after: map<Resource, Sid>, next: nat, sid: Sid,
                    a: Session)
    requires a.task.Deliver? && ValidCommand(a.task.cmd)
    requires var m := InsertStatement(db, a, a.task.cmd); m.To? && Gains(locks, after, m.acquire, sid)
    ensures PcOk(locking, db, after, next, sid, InsertStatement(db, a, a.task.cmd).session)
  {
    hide ValidCommand;
    if NewExternal(a.task.cmd, a.id, a.now).Ok? {
      NewExternalIsWorkable(a.task.cmd, a.id, a.now);
    }
    hide NewExternal, Workable, InsertGuard;
  }

  lemma WalletKeeps(locking: bool, db: Db, locks: map<Resource, Sid>, after: map<Resource, Sid>, next: nat, sid: Sid,
                    a: Session, t: Tx, inserted: bool)
    requires DbInv(db) && TxSeen(db, locks, sid, a, t, inserted)
    requires var m := WalletStatement(locking, db, a, t, inserted); m.To? && Gains(locks, after, m.acquire, sid)
    ensures PcOk(locking, db, after, next, sid, WalletStatement(locking, db, a, t, inserted).session)
  {
    hide TxSeen, RowsOk, WalletsOk, IndexesExact, OwnersExact, LedgerMatchesRows, ChainsOk, TransactionEventsExact;
    hide WalletEventsExact, ParkedOk, InboxOk, JudgeWallet;
    TxSeenHasWallet(db, locks, sid, a, t, inserted);
    var m := WalletStatement(locking, db, a, t, inserted);
    TxSeenGains(db, locks, after, m.acquire, sid, a, t, inserted);
    WalletRowSeen(db, after, sid, t.business.wallet);
    var w := db.wallets[t.business.wallet];
    var job := Job(t, inserted, Some(w), None, JudgeWallet(Some(w), t.business));
    DecideAcquires(a, job, WalletLocks(locking, t.business.wallet));
    JudgedWallet(Some(w), t.business);
    assert VerdictSeen(db, job);
    if !job.verdict.Consult? {
      DecideKeeps(locking, db, after, next, sid, a, job, WalletLocks(locking, t.business.wallet));
    } else {
      JobIrrelevant(locking, db, after, sid, a, m.session, job);
    }
  }

  /** What a session has read does not depend on where it stands. */
  lemma JobIrrelevant(locking: bool, db: Db, locks: map<Resource, Sid>, sid: Sid, a: Session, b: Session, job: Job)
    requires JobSeen(locking, db, locks, sid, a, job)
    requires b.task == a.task && b.id == a.id && b.now == a.now
    ensures JobSeen(locking, db, locks, sid, b, job)
  {
    hide VerdictSeen, WalletSeen, WaitingSeen, NewExternal, InsertGuard, ValidCommand;
  }

  lemma JudgedWallet(w: Option<WalletRow>, b: Business)
    ensures !JudgeWallet(w, b).Wait?
    ensures JudgeWallet(w, b).Consult? ==> b.kind.RequiresReference()
  {
  }

  lemma DecideAcquires(a: Session, job: Job, acquire: set<Resource>)
    ensures Decide(a, job, acquire).To? ==> Decide(a, job, acquire).acquire == acquire
  {
  }

  lemma JobSeenGains(locking: bool, db: Db, locks: map<Resource, Sid>, after: map<Resource, Sid>, rs: set<Resource>,
                     sid: Sid, a: Session, job: Job)
    requires Gains(locks, after, rs, sid) && JobSeen(locking, db, locks, sid, a, job)
    requires WalletLock(job.tx.business.wallet) !in rs || Get(db.wallets, job.tx.business.wallet) == job.wallet
    ensures JobSeen(locking, db, after, sid, a, job)
  {
    hide TxSeen, VerdictSeen;
    TxSeenGains(db, locks, after, rs, sid, a, job.tx, job.inserted);
  }

  lemma ReferenceKeeps(locking: bool, db: Db, locks: map<Resource, Sid>, after: map<Resource, Sid>, next: nat, sid: Sid,
                       a: Session, job: Job)
    requires DbInv(db) && JobSeen(locking, db, locks, sid, a, job) && job.verdict.Consult? && job.reference.None?
    requires var m := ReferenceStatement(db, a, job); m.To? && Gains(locks, after, m.acquire, sid)
    ensures PcOk(locking, db, after, next, sid, ReferenceStatement(db, a, job).session)
  {
    hide DbInv, TxSeen, WalletSeen, JudgeWallet, Finish;
    var b := job.tx.business;
    var r := FindExternal(db, b.provider, b.reference);
    var job1 := job.(reference := r, verdict := JudgeReference(job.tx, r));
    DecideAcquires(a, job1, {});
    JobSeenGains(locking, db, locks, after, {}, sid, a, job);
    if r.Some? {
      FoundByExternal(db, b.provider, b.reference);
    }
    assert VerdictSeen(db, job1);
    SeenIsPending(db, locks, sid, a, job.tx, job.inserted);
    if !job1.verdict.Consult? {
      DecideKeeps(locking, db, after, next, sid, a, job1, {});
    } else {
      JobIrrelevant(locking, db, after, sid, a, ReferenceStatement(db, a, job).session, job1);
    }
  }

  lemma SeenIsPending(db: Db, locks: map<Resource, Sid>, sid: Sid, a: Session, t: Tx, inserted: bool)
    requires TxSeen(db, locks, sid, a, t, inserted)
    ensures inserted ==> t.state.Pending?
  {
    hide ValidCommand;
    if inserted { NewIsPending(a.task.cmd, a.id, a.now); }
    hide NewExternal;
  }

  lemma ReversalKeeps(locking: bool, db: Db, locks: map<Resource, Sid>, after: map<Resource, Sid>, next: nat, sid: Sid,
                      a: Session, job: Job)
    requires JobSeen(locking, db, locks, sid, a, job) && job.verdict.Consult? && job.reference.Some?
    requires var m := ReversalStatement(db, a, job); m.To? && Gains(locks, after, m.acquire, sid)
    ensures PcOk(locking, db, after, next, sid, ReversalStatement(db, a, job).session)
  {
    hide TxSeen, WalletSeen, JudgeWallet, JudgeReference, Finish, ReferenceSeen;
    var job1 := job.(verdict := JudgeReversal(job.reference.value.id in db.reversals));
    DecideAcquires(a, job1, {});
    JobSeenGains(locking, db, locks, after, {}, sid, a, job);
    assert VerdictSeen(db, job1);
    SeenIsPending(db, locks, sid, a, job.tx, job.inserted);
    DecideKeeps(locking, db, after, next, sid, a, job1, {});
  }

  // ---- Writing ----

  lemma DecisionSeenGains(locking: bool, db: Db, locks: map<Resource, Sid>, after: map<Resource, Sid>,
                          rs: set<Resource>, sid: Sid, a: Session, d: Decision)
    requires Gains(locks, after, rs, sid) && DecisionSeen(locking, db, locks, sid, a, d)
    requires WalletLock(d.job.tx.business.wallet) !in rs || Get(db.wallets, d.job.tx.business.wallet) == d.job.wallet
    ensures DecisionSeen(locking, db, after, sid, a, d)
  {
    hide JobSeen, Finish, WaitingSeen;
    if JobSeen(locking, db, locks, sid, a, d.job) {
      JobSeenGains(locking, db, locks, after, rs, sid, a, d.job);
    }
  }

  /** The version test makes the wallet row that was read the current one. */
  lemma BalanceKeeps(locking: bool, db: Db, locks: map<Resource, Sid>, after: map<Resource, Sid>, next: nat, sid: Sid,
                     a: Session, d: Decision)
    requires DecisionSeen(locking, db, locks, sid, a, d) && d.write.posting.Some?
    requires var m := BalanceStatement(db, a, d); m.To? && Gains(locks, after, m.acquire, sid)
    ensures PcOk(locking, db, after, next, sid, BalanceStatement(db, a, d).session)
    ensures Get(db.wallets, d.job.tx.business.wallet) == d.job.wallet
  {
    hide Finish, TxSeen, VerdictSeen, WalletGuard, WaitingSeen;
    FinishShape(d.job, a.now);
    DecisionSeenGains(locking, db, locks, after, {WalletLock(d.write.posting.value.from.id)}, sid, a, d);
    SessionIrrelevant(locking, db, after, sid, a, BalanceStatement(db, a, d).session, d);
    hide JobSeen;
  }

  lemma RedecidedSeen(locking: bool, db: Db, locks: map<Resource, Sid>, sid: Sid, a: Session, d: Decision,
                      sequence: nat)
    requires DecisionSeen(locking, db, locks, sid, a, d)
    ensures DecisionSeen(locking, db, locks, sid, a, d.(sequence := sequence))
  {
    hide JobSeen, ExpirySeen, Finish;
  }

  ghost predicate SequencesBelow(ledger: seq<Entry>, next: nat) {
    next > 0 && forall i | 0 <= i < |ledger| :: 0 < ledger[i].sequence < next
  }

  lemma DrawsArePositive(ledger: seq<Entry>, next: nat)
    requires SequencesBelow(ledger, next)
    ensures next > 0
  {
  }

  lemma LedgerKeeps(locking: bool, db: Db, locks: map<Resource, Sid>, after: map<Resource, Sid>, next: nat, sid: Sid,
                    a: Session, d: Decision)
    requires DecisionSeen(locking, db, locks, sid, a, d) && d.write.posting.Some? && Held(db, locks, sid, d)
    requires SequencesBelow(db.ledger, next)
    requires var m := LedgerStatement(db, a, d, next); m.To? && Gains(locks, after, m.acquire, sid)
    ensures PcOk(locking, db, after, next + 1, sid, LedgerStatement(db, a, d, next).session)
  {
    hide DecisionSeen;
    DecisionSeenGains(locking, db, locks, after, {}, sid, a, d);
    RedecidedSeen(locking, db, after, sid, a, d, next);
    SessionIrrelevant(locking, db, after, sid, a, LedgerStatement(db, a, d, next).session, d.(sequence := next));
  }

  /** What a session has decided does not depend on where it stands. */
  lemma SessionIrrelevant(locking: bool, db: Db, locks: map<Resource, Sid>, sid: Sid, a: Session, b: Session,
                          d: Decision)
    requires DecisionSeen(locking, db, locks, sid, a, d)
    requires b.task == a.task && b.id == a.id && b.now == a.now
    ensures DecisionSeen(locking, db, locks, sid, b, d)
  {
    hide Finish, VerdictSeen, WalletSeen, WaitingSeen, NewExternal, InsertGuard, ValidCommand;
  }

  /** The trigger makes the transaction row that was read the current one. */
  lemma RowKeeps(locking: bool, db: Db, locks: map<Resource, Sid>, after: map<Resource, Sid>, next: nat, sid: Sid,
                 a: Session, d: Decision)
    requires DecisionSeen(locking, db, locks, sid, a, d) && Held(db, locks, sid, d) && Sequenced(db, next, d)
    requires var m := RowStatement(db, a, d); m.To? && Gains(locks, after, m.acquire, sid)
    ensures PcOk(locking, db, after, next, sid, RowStatement(db, a, d).session)
  {
    hide Sequenced;
    RowGuardMeansWaiting(locking, db, locks, sid, a, d);
    hide DecisionSeen;
    DecisionSeenGains(locking, db, locks, after, RowStatement(db, a, d).acquire, sid, a, d);
    SessionIrrelevant(locking, db, after, sid, a, RowStatement(db, a, d).session, d);
  }

  lemma RowGuardMeansWaiting(locking: bool, db: Db, locks: map<Resource, Sid>, sid: Sid, a: Session, d: Decision)
    requires DecisionSeen(locking, db, locks, sid, a, d) && RowStatement(db, a, d).To?
    ensures !d.write.inserted ==> d.write.tx.id in db.txs && db.txs[d.write.tx.id] == d.job.tx
  {
    hide Finish, VerdictSeen, WalletSeen, NewExternal, InsertGuard;
    FinishShape(d.job, a.now);
  }

  // ---- The other use cases, and the end of a unit of work ----

  lemma ExpiryKeeps(locking: bool, db: Db, after: map<Resource, Sid>, next: nat, sid: Sid, a: Session)
    requires DbInv(db) && a.task.Expire? && ExpiryStatement(db, a, a.task.tx).To?
    ensures PcOk(locking, db, after, next, sid, ExpiryStatement(db, a, a.task.tx).session)
  {
    hide DbInv, RowsOk, Finish, JobSeen, SameOperation, PostsFrom;
    RowsOfInv(db);
    RowStates(db, a.task.tx);
    FinishShape(Job(db.txs[a.task.tx], false, None, None, Refuse(ReferenceNotFoundCode)), a.now);
  }

  lemma FoundingKeeps(locking: bool, db: Db, locks: map<Resource, Sid>, after: map<Resource, Sid>, next: nat, sid: Sid,
                      a: Session)
    requires a.task.OpenFor?
    requires var m := FoundingStatement(db, a, a.task.player, a.task.initial);
      m.To? && Gains(locks, after, m.acquire, sid)
    ensures PcOk(locking, db, after, next, sid, FoundingStatement(db, a, a.task.player, a.task.initial).session)
  {
    hide OpenPlan;
  }

  lemma CreditingKeeps(locking: bool, db: Db, locks: map<Resource, Sid>, after: map<Resource, Sid>, next: nat, sid: Sid,
                       a: Session, f: Found)
    requires FoundSeen(db, locks, sid, a, f) && Gains(locks, after, {}, sid) && next > 0
    ensures PcOk(locking, db, after, next + 1, sid, a.(pc := Completing(Founding(f, next))))
  {
    hide OpenPlan;
  }

  lemma DecisiveGains(locking: bool, db: Db, locks: map<Resource, Sid>, after: map<Resource, Sid>, next: nat, sid: Sid,
                      a: Session, b: Session, d: Decision)
    requires Gains(locks, after, {}, sid) && Decisive(locking, db, locks, next, sid, a, d)
    requires b.task == a.task && b.id == a.id && b.now == a.now
    ensures Decisive(locking, db, after, next, sid, b, d)
  {
    hide DecisionSeen, Sequenced;
    DecisionSeenGains(locking, db, locks, after, {}, sid, a, d);
    SessionIrrelevant(locking, db, after, sid, a, b, d);
  }

  lemma CompletingKeeps(locking: bool, db: Db, locks: map<Resource, Sid>, after: map<Resource, Sid>, next: nat,
                        sid: Sid, a: Session, o: Conclusion)
    requires ConclusionSeen(locking, db, locks, next, sid, a, o) && Gains(locks, after, {}, sid)
    ensures PcOk(locking, db, after, next, sid, CompleteStatement(a, o).session)
  {
    hide Decisive, OpenPlan;
    if o.Decided? {
      DecisiveGains(locking, db, locks, after, next, sid, a, CompleteStatement(a, o).session, o.decision);
    }
  }

  lemma BeginKeeps(locking: bool, db: Db, locks: map<Resource, Sid>, after: map<Resource, Sid>, next: nat, sid: Sid,
                   a: Session)
    requires DbInv(db) && BeginStatement(db, a).To?
    ensures PcOk(locking, db, after, next, sid, BeginStatement(db, a).session)
  {
    hide DbInv, OpenPlan, ExpiryStatement, ValidCommand;
    if a.task.Expire? { ExpiryKeeps(locking, db, after, next, sid, a); }
  }

  /** A statement changes nothing of a session but its position and its inbox row. */
  lemma StatementShape(locking: bool, db: Db, a: Session, next: nat)
    requires Statement(locking, db, a, next).To?
    ensures var b := Statement(locking, db, a, next).session;
      && b == a.(pc := b.pc, inbox := b.inbox) && !b.pc.Begun? && !b.pc.Committed? && !a.pc.Committed? && !a.pc.Ready?
      && (!a.pc.Begun? && !a.pc.Completing? ==> b.inbox == a.inbox && !b.pc.Ready?)
  {
    hide Finish, OpenPlan, RecordNew, RecordExisting, FindExternal, JudgeWallet, JudgeReference, WalletGuard;
    hide RowGuard, RegisterStatement;
    if a.pc.Begun? { BeginShape(locking, db, a, next); }
  }

  lemma BeginShape(locking: bool, db: Db, a: Session, next: nat)
    requires Statement(locking, db, a, next).To? && a.pc.Begun?
    ensures var b := Statement(locking, db, a, next).session;
      b == a.(pc := b.pc, inbox := b.inbox) && !b.pc.Begun? && !b.pc.Committed?
  {
  }

  lemma InboxKeeps(locking: bool, db: Db, locks: map<Resource, Sid>, after: map<Resource, Sid>, sid: Sid, a: Session,
                   next: nat)
    requires InboxOk(db.inbox) && InboxSeen(db, locks, sid, a) && (a.pc.Begun? ==> a.inbox.None?)
    requires var m := Statement(locking, db, a, next); m.To? && Gains(locks, after, m.acquire, sid)
    ensures InboxSeen(db, after, sid, Statement(locking, db, a, next).session)
  {
    StatementShape(locking, db, a, next);
    if a.pc.Begun? {
      BeginInboxKeeps(db, locks, after, sid, a);
    } else if a.pc.Completing? {
    } else {
      hide Statement;
    }
  }

  lemma BeginInboxKeeps(db: Db, locks: map<Resource, Sid>, after: map<Resource, Sid>, sid: Sid, a: Session)
    requires InboxOk(db.inbox) && a.pc.Begun? && a.inbox.None?
    requires var m := BeginStatement(db, a); m.To? && Gains(locks, after, m.acquire, sid)
    ensures InboxSeen(db, after, sid, BeginStatement(db, a).session)
  {
    hide OpenPlan, Finish;
  }

  lemma IdsGain(db: Db, locks: map<Resource, Sid>, after: map<Resource, Sid>, rs: set<Resource>, sid: Sid, a: Session)
    requires Gains(locks, after, rs, sid) && IdsHeld(db, locks, sid, a)
    ensures IdsHeld(db, after, sid, a)
  {
  }

  lemma PcKeeps(locking: bool, db: Db, locks: map<Resource, Sid>, after: map<Resource, Sid>, next: nat, sid: Sid,
                a: Session)
    requires DbInv(db) && SequencesBelow(db.ledger, next) && PcOk(locking, db, locks, next, sid, a)
    requires var m := Statement(locking, db, a, next); m.To? && Gains(locks, after, m.acquire, sid)
    ensures var m := Statement(locking, db, a, next); PcOk(locking, db, after, if m.draws then next + 1 else next, sid,
                                                           m.session)
  {
    hide DbInv, SequencesBelow, Gains, TxSeen, JobSeen, DecisionSeen, Held, Sequenced, Decisive, FoundSeen;
    hide ConclusionSeen, Truthful;
    hide BeginStatement, LookupStatement, InsertStatement, WalletStatement, ReferenceStatement, ReversalStatement;
    hide BalanceStatement, LedgerStatement, RowStatement, FoundingStatement;
    StatementDraws(locking, db, a, next);
    match a.pc
    case Begun => BeginKeeps(locking, db, locks, after, next, sid, a);
    case Registered => LookupKeeps(locking, db, locks, after, next, sid, a);
    case Absent => InsertKeeps(locking, db, locks, after, next, sid, a);
    case Recording(t, inserted) => WalletKeeps(locking, db, locks, after, next, sid, a, t, inserted);
    case Consulting(job) => ReferenceKeeps(locking, db, locks, after, next, sid, a, job);
    case Checking(job) => ReversalKeeps(locking, db, locks, after, next, sid, a, job);
    case Moving(d) => BalanceKeeps(locking, db, locks, after, next, sid, a, d);
    case Entering(d) => LedgerKeeps(locking, db, locks, after, next, sid, a, d);
    case Updating(d) => RowKeeps(locking, db, locks, after, next, sid, a, d);
    case Saving(d) => SavingKeeps(locking, db, locks, after, next, sid, a, d);
    case Unowned => FoundingKeeps(locking, db, locks, after, next, sid, a);
    case Crediting(f) =>
      DrawsArePositive(db.ledger, next);
      CreditingKeeps(locking, db, locks, after, next, sid, a, f);
    case Completing(o) => CompletingKeeps(locking, db, locks, after, next, sid, a, o);
    case Ready(_) =>
    case Committed(_) =>
  }

  lemma SavingKeeps(locking: bool, db: Db, locks: map<Resource, Sid>, after: map<Resource, Sid>, next: nat, sid: Sid,
                    a: Session, d: Decision)
    requires Gains(locks, after, {}, sid) && Decisive(locking, db, locks, next, sid, a, d)
    ensures PcOk(locking, db, after, next, sid, a.(pc := Completing(Decided(d))))
  {
    hide Decisive, Gains;
    DecisiveGains(locking, db, locks, after, next, sid, a, a.(pc := Completing(Decided(d))), d);
  }

  lemma StatementDraws(locking: bool, db: Db, a: Session, next: nat)
    requires Statement(locking, db, a, next).To?
    ensures Statement(locking, db, a, next).draws <==> a.pc.Entering? || a.pc.Crediting?
  {
    hide Finish, OpenPlan, RecordNew, RecordExisting, FindExternal, JudgeWallet, JudgeReference, WalletGuard, RowGuard;
  }

  /** Every statement a session runs keeps its knowledge true. */
  lemma RunKeeps(locking: bool, db: Db, locks: map<Resource, Sid>, after: map<Resource, Sid>, next: nat, sid: Sid,
                 a: Session)
    requires DbInv(db) && SequencesBelow(db.ledger, next) && SessionOk(locking, db, locks, next, sid, a)
    requires var m := Statement(locking, db, a, next); m.To? && Gains(locks, after, m.acquire, sid)
    ensures var m := Statement(locking, db, a, next); SessionOk(locking, db, after, if m.draws then next + 1 else next,
          sid, m.session)
  {
    hide DbInv, SequencesBelow, Gains, PcOk, IdsHeld, InboxSeen, Statement, InboxOk;
    InboxOfInv(db);
    var m := Statement(locking, db, a, next);
    StatementShape(locking, db, a, next);
    PcKeeps(locking, db, locks, after, next, sid, a);
    InboxKeeps(locking, db, locks, after, sid, a, next);
    IdsGain(db, locks, after, m.acquire, sid, a);
    IdsOnly(db, after, sid, a, m.session);
  }

  lemma InboxOfInv(db: Db)
    requires DbInv(db)
    ensures InboxOk(db.inbox)
  {
  }

  lemma IdsOnly(db: Db, locks: map<Resource, Sid>, sid: Sid, a: Session, b: Session)
    requires IdsHeld(db, locks, sid, a) && b.id == a.id && b.walletId == a.walletId
    ensures IdsHeld(db, locks, sid, b)
  {
  }
}
