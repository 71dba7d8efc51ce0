/** Every commit of an interleaving has the effect of running its use case alone, at one moment, on the
    committed state; and which guards of the schema can fire. */
module Atomicity {
  import opened Outcome
  import opened Monetary
  import opened Wager
  import opened Database
  import opened History
  import opened Openings
  import opened Protocol
  import opened Sessions
  import opened Decisions
  import opened Statements
  import opened Safety

  /** What a plan, carried out alone, leaves. */
  function Execute(db: Db, plan: Plan, sequence: nat): Db {
    if plan.Writes? then Install(db, plan.write, sequence) else db
  }

  // ---- A decided job is what apply alone would decide at the commit ----

  lemma RecordIsOpen(db: Db, locks: map<Resource, Sid>, sid: Sid, a: Session, d: Decision)
    requires TxSeen(db, locks, sid, a, d.job.tx, d.job.inserted)
    requires !d.job.inserted ==> d.job.tx.id in db.txs && db.txs[d.job.tx.id] == d.job.tx
    ensures Record(db, a.task.cmd, a.id, a.now) == Open(d.job.tx, d.job.inserted)
  {
    hide ValidCommand;
    if d.job.inserted {
      NewExternalIsWorkable(a.task.cmd, a.id, a.now);
    }
    hide NewExternal, Workable;
  }

  lemma FindsReference(db: Db, t: Tx, r: Tx)
    requires ReferenceSeen(db, t, r)
    ensures FindExternal(db, t.business.provider, t.business.reference) == Some(r)
  {
  }

  /** With the wallet row current, the reads of the session are those apply alone would make now. */
  lemma JobIsCurrent(db: Db, job: Job)
    requires job.wallet.Some? && VerdictSeen(db, job) && Get(db.wallets, job.tx.business.wallet) == job.wallet
    requires job.wallet.value.id == job.tx.business.wallet
    requires !job.verdict.Wait? && !job.verdict.Consult?
    ensures JobOf(db, job.tx, job.inserted) == job
  {
    hide JudgeWallet, JudgeReference, ReferenceSeen, FindExternal;
    if job.reference.Some? {
      FindsReference(db, job.tx, job.reference.value);
    }
  }

  lemma DecidedJob(locking: bool, db: Db, locks: map<Resource, Sid>, next: nat, sid: Sid, a: Session, d: Decision)
    requires Decisive(locking, db, locks, next, sid, a, d) && a.task.Deliver? && (locking || d.write.posting.Some?)
    ensures JobSeen(locking, db, locks, sid, a, d.job)
    ensures Get(db.wallets, d.job.tx.business.wallet) == d.job.wallet
    ensures Finish(d.job, a.now) == Writes(d.write, d.answer)
    ensures !d.job.inserted ==> d.job.tx.id in db.txs && db.txs[d.job.tx.id] == d.job.tx
    ensures ValidCommand(a.task.cmd) && a.task.cmd.business == d.job.tx.business
  {
    hide Finish, VerdictSeen, InsertGuard, NewExternal, ValidCommand, Sequenced, WaitingSeen;
    FinishShape(d.job, a.now);
  }

  /** A delivery that concluded its transaction has decided what apply alone decides on the state it commits to.
      Without the wallet lock this still holds of every movement. */
  lemma DecidedAsAlone(locking: bool, db: Db, locks: map<Resource, Sid>, next: nat, sid: Sid, a: Session, d: Decision)
    requires Decisive(locking, db, locks, next, sid, a, d) && a.task.Deliver?
    requires d.write.posting.Some? || (locking && !d.job.verdict.Wait?)
    ensures ApplyPlan(db, a.task.cmd, a.id, a.now) == Writes(d.write, d.answer)
  {
    hide Decisive, Finish, InsertGuard, NewExternal, ValidCommand, WaitingSeen, JobOf, Record, VerdictSeen, WalletSeen;
    DecidedJob(locking, db, locks, next, sid, a, d);
    FinishShape(d.job, a.now);
    WalletSeenIs(locking, db, locks, sid, a, d.job);
    RecordIsOpen(db, locks, sid, a, d);
    assert !d.job.verdict.Consult?  by { FinishDecides(d.job, a.now); }
    JobIsCurrent(db, d.job);
  }

  lemma WalletSeenIs(locking: bool, db: Db, locks: map<Resource, Sid>, sid: Sid, a: Session, job: Job)
    requires JobSeen(locking, db, locks, sid, a, job)
    ensures job.wallet.value.id == job.tx.business.wallet
  {
    hide TxSeen, VerdictSeen;
  }

  lemma FinishDecides(job: Job, now: int)
    ensures Finish(job, now).Writes? ==> !job.verdict.Consult?
  {
    hide Settling, Rejecting, Parking;
  }

  /** A park has the effect of apply alone at the commit exactly when its reference is then still missing or
      waiting: a reference on another wallet, or one that Expire concludes, may get ahead of it. */
  lemma ParkedAsAloneIff(db: Db, locks: map<Resource, Sid>, next: nat, sid: Sid, a: Session, d: Decision)
    requires Decisive(true, db, locks, next, sid, a, d) && a.task.Deliver? && d.job.verdict.Wait?
    ensures var plan, b := ApplyPlan(db, a.task.cmd, a.id, a.now), d.job.tx.business;
      && (plan.Writes? && plan.answer == d.answer ==> plan == Writes(d.write, d.answer))
      && (plan == Writes(d.write, d.answer)
          <==> JudgeReference(d.job.tx, FindExternal(db, b.provider, b.reference)).Wait?)
  {
    hide Decisive, InsertGuard, NewExternal, ValidCommand, WaitingSeen, Record, WalletSeen, JudgeWallet;
    hide JudgeReference, FindExternal, TxSeen;
    DecidedJob(true, db, locks, next, sid, a, d);
    TxSeenOf(true, db, locks, sid, a, d.job);
    RecordIsOpen(db, locks, sid, a, d);
    var alone := JobOf(db, d.job.tx, d.job.inserted);
    assert alone.wallet == d.job.wallet && JudgeWallet(alone.wallet, d.job.tx.business).Consult?;
    WaitMeansParked(d.job, a.now);
    WaitMeansParked(alone, a.now);
    hide Finish;
  }

  lemma TxSeenOf(locking: bool, db: Db, locks: map<Resource, Sid>, sid: Sid, a: Session, job: Job)
    requires JobSeen(locking, db, locks, sid, a, job)
    ensures TxSeen(db, locks, sid, a, job.tx, job.inserted)
  {
  }

  lemma WaitMeansParked(job: Job, now: int)
    ensures job.verdict.Wait? ==> Finish(job, now) == Parking(job.tx, job.inserted, now)
    ensures Finish(job, now).Writes? ==> (job.verdict.Wait? <==> Finish(job, now).write.tx.state.PendingReference?)
    ensures Finish(job, now).Writes? ==> Finish(job, now).answer == AnswerOf(Finish(job, now).write.tx)
  {
    hide MovementChange;
  }

  /** At the read that finds its reference missing or waiting, a delivery does what apply alone does then. */
  lemma WaitsAsAloneAtTheRead(db: Db, locks: map<Resource, Sid>, sid: Sid, a: Session, job: Job)
    requires JobSeen(true, db, locks, sid, a, job) && job.verdict.Consult? && job.reference.None?
    requires !job.inserted ==> db.txs[job.tx.id] == job.tx
    requires JudgeReference(job.tx, FindExternal(db, job.tx.business.provider, job.tx.business.reference)).Wait?
    ensures ApplyPlan(db, a.task.cmd, a.id, a.now) == Parking(job.tx, job.inserted, a.now)
    ensures var reference := FindExternal(db, job.tx.business.provider, job.tx.business.reference);
      ReferenceStatement(db, a, job) ==
        match Parking(job.tx, job.inserted, a.now)
        case Fails(e) => Fail(e)
        case Replies(answer) => Go(a, Completing(Quiet(answer)), {})
        case Writes(w, answer) =>
          Go(a, Updating(Decision(job.(reference := reference, verdict := Wait), w, 0, answer)), {})
  {
    hide InsertGuard, NewExternal, ValidCommand, Record, JudgeReference, FindExternal;
    var d := Decision(job, Write(job.tx, job.inserted, None), 0, Duplicate);
    assert TxSeen(db, locks, sid, a, d.job.tx, d.job.inserted);
    RecordIsOpen(db, locks, sid, a, d);
    assert JudgeWallet(Get(db.wallets, job.tx.business.wallet), job.tx.business).Consult?;
    hide TxSeen, WalletSeen, JudgeWallet;
  }

  // ---- The other use cases ----

  lemma ExpiredAsAlone(locking: bool, db: Db, locks: map<Resource, Sid>, next: nat, sid: Sid, a: Session, d: Decision)
    requires Decisive(locking, db, locks, next, sid, a, d) && a.task.Expire?
    ensures ExpirePlan(db, a.task.tx, a.now) == Writes(d.write, d.answer)
  {
    hide Rejecting, Sequenced, JobSeen;
    assert ExpirySeen(db, a, d.job) by { hide JobSeen; ExpiresOnly(locking, db, locks, sid, a, d); }
    FinishShape(d.job, a.now);
  }

  lemma ExpiresOnly(locking: bool, db: Db, locks: map<Resource, Sid>, sid: Sid, a: Session, d: Decision)
    requires DecisionSeen(locking, db, locks, sid, a, d) && a.task.Expire?
    ensures ExpirySeen(db, a, d.job)
  {
    hide VerdictSeen, WalletSeen, Finish;
  }

  lemma FoundAsAlone(db: Db, locks: map<Resource, Sid>, sid: Sid, a: Session, f: Found)
    requires FoundSeen(db, locks, sid, a, f)
    ensures OpenPlan(db, a.task.player, a.task.initial, a.walletId, a.id, a.now) == Ok(f)
  {
  }

  predicate SameOutcome(x: Answer, y: Answer) {
    x.Answer? && y.Answer? && x.id == y.id && x.state == y.state && x.balance == y.balance && x.failure == y.failure
  }

  /** Once a caller has been told a conclusion, every redelivery of that operation, whatever its key, identifiers
      and time, changes nothing and is given that conclusion. */
  lemma RedeliveryReplays(db: Db, task: Task, answer: Answer, again: Command, id: Id, now: int)
    requires DbInv(db) && Truthful(db, task, answer) && answer.Answer? && answer.state.IsTerminal()
    requires again.business == db.txs[answer.id].business && ValidCommand(again)
    ensures ApplyPlan(db, again, id, now).Replies?
    ensures SameOutcome(ApplyPlan(db, again, id, now).answer, answer) && ApplyPlan(db, again, id, now).answer.replayed
  {
    hide RowsOk, WalletsOk, OwnersExact, LedgerMatchesRows, ChainsOk, TransactionEventsExact, WalletEventsExact;
    hide ParkedOk, InboxOk, JobOf, RecordNew;
    var t := db.txs[answer.id];
    RowStates(db, answer.id);
    assert ExternalKey(t) == Some((again.business.provider, again.business.externalId));
    assert FindExternal(db, again.business.provider, again.business.externalId) == Some(t);
  }

  // ---- Which guards can fire ----

  lemma SeenMoney(db: Db, locks: map<Resource, Sid>, sid: Sid, a: Session, t: Tx, inserted: bool)
    requires RowsOk(db.wallets, db.txs) && TxSeen(db, locks, sid, a, t, inserted)
    ensures t.business.kind.Loss? || t.business.money.cents > 0
  {
    hide InsertGuard;
    if inserted {
      NewExternalIsWorkable(a.task.cmd, a.id, a.now);
    } else {
      assert RowOk(db.wallets, db.txs, db.txs[t.id]);
    }
  }

  lemma SeenWalletIsSolvent(locking: bool, db: Db, locks: map<Resource, Sid>, sid: Sid, a: Session, job: Job)
    requires JobSeen(locking, db, locks, sid, a, job) && job.verdict.Settle?
    ensures job.wallet.Some? && Solvent(job.wallet.value, job.tx.business.money)
    ensures job.wallet.value.id == job.tx.business.wallet
    ensures job.reference.Some? ==> Agrees(job.tx, job.reference.value)
  {
    hide TxSeen, ReferenceSeen, NotReversedSince, Agrees;
  }

  lemma WaitingMoney(db: Db, t: Tx)
    requires RowsOk(db.wallets, db.txs) && WaitingSeen(db, t)
    ensures t.business.kind.Loss? || t.business.money.cents > 0
  {
    assert RowOk(db.wallets, db.txs, db.txs[t.id]);
  }

  lemma DecisionIsFinished(locking: bool, db: Db, locks: map<Resource, Sid>, sid: Sid, a: Session, d: Decision)
    requires RowsOk(db.wallets, db.txs) && DecisionSeen(locking, db, locks, sid, a, d)
    ensures Finished(d.job, d.write)
  {
    hide RowsOk, Finish, JobSeen, Solvent, Agrees, Finished, WaitingSeen;
    if JobSeen(locking, db, locks, sid, a, d.job) {
      TxSeenOf(locking, db, locks, sid, a, d.job);
      SeenMoney(db, locks, sid, a, d.job.tx, d.job.inserted);
      if d.job.verdict.Settle? {
        SeenWalletIsSolvent(locking, db, locks, sid, a, d.job);
      }
    } else {
      WaitingMoney(db, d.job.tx);
    }
    hide TxSeen;
    FinishFacts(d.job, a.now);
  }

  /** The movement a session has decided continues the wallet row it read. */
  lemma DecidedMovement(locking: bool, db: Db, locks: map<Resource, Sid>, sid: Sid, a: Session, d: Decision)
    requires RowsOk(db.wallets, db.txs) && DecisionSeen(locking, db, locks, sid, a, d) && d.write.posting.Some?
    ensures JobSeen(locking, db, locks, sid, a, d.job) && d.job.verdict.Settle? && Finished(d.job, d.write)
    ensures d.job.wallet == Some(d.write.posting.value.from)
    ensures ChangeOk(d.write.posting.value.from, d.write.posting.value.change)
    ensures d.write.posting.value.from.id == d.job.tx.business.wallet
  {
    hide RowsOk, Finish, JobSeen, Solvent, ChangeOk, Agrees;
    FinishShape(d.job, a.now);
    DecisionIsFinished(locking, db, locks, sid, a, d);
    SeenWalletIsSolvent(locking, db, locks, sid, a, d.job);
  }

  /** Under the wallet lock the version test and the wallet trigger never fire. */
  lemma VersionTestIsSilent(db: Db, locks: map<Resource, Sid>, sid: Sid, a: Session, d: Decision)
    requires RowsOk(db.wallets, db.txs) && DecisionSeen(true, db, locks, sid, a, d) && d.write.posting.Some?
    ensures BalanceStatement(db, a, d).To?
  {
    hide Finish, TxSeen, VerdictSeen, RowsOk;
    DecidedMovement(true, db, locks, sid, a, d);
    hide Finished;
  }

  /** The version test refuses a movement exactly when the version of its wallet moved since it was read. */
  lemma VersionTestIsExact(locking: bool, db: Db, locks: map<Resource, Sid>, sid: Sid, a: Session, d: Decision)
    requires RowsOk(db.wallets, db.txs) && DecisionSeen(locking, db, locks, sid, a, d) && d.write.posting.Some?
    ensures d.job.wallet.Some? && d.job.wallet.value.id in db.wallets
    ensures if db.wallets[d.job.wallet.value.id].version == d.job.wallet.value.version
      then BalanceStatement(db, a, d).To?
      else BalanceStatement(db, a, d) == Fail(ConcurrentUpdate)
  {
    hide Finish, TxSeen, VerdictSeen, RowsOk;
    DecidedMovement(locking, db, locks, sid, a, d);
    hide Finished;
  }

  /** Once the balance was updated, nobody else has reversed the reference: with or without the wallet lock
      the one-reversal index never fires after a version test that passed. */
  lemma OneReversalIsSilent(locking: bool, db: Db, locks: map<Resource, Sid>, sid: Sid, a: Session, d: Decision)
    requires RowsOk(db.wallets, db.txs) && DecisionSeen(locking, db, locks, sid, a, d) && d.write.posting.Some?
    requires Held(db, locks, sid, d)
    ensures !Taken(db.reversals, ReversalKey(d.write.tx))
  {
    hide RowsOk, Finish, TxSeen, Settled, DecisionSeen, ReferenceSeen;
    DecidedMovement(locking, db, locks, sid, a, d);
  }

  lemma PostedMoves(txs: map<Id, Tx>, ledger: seq<Entry>, wallet: Id, tx: Id)
    requires LedgerMatchesRows(txs, ledger) && AlreadyPosted(ledger, wallet, tx)
    ensures tx in txs && Moves(txs[tx])
  {
    var i :| 0 <= i < |ledger| && ledger[i].wallet == wallet && ledger[i].tx == tx;
    assert EntryMatches(txs, ledger[i]);
  }

  lemma FinishedMovement(job: Job, w: Write)
    requires Finished(job, w) && w.posting.Some?
    ensures w.tx.state.Processed? && w.tx.id == job.tx.id
  {
    hide ChangeOk;
  }

  lemma InsertedIsNew(locking: bool, db: Db, locks: map<Resource, Sid>, sid: Sid, a: Session, job: Job)
    requires JobSeen(locking, db, locks, sid, a, job) && IdsHeld(db, locks, sid, a)
    ensures job.inserted ==> job.tx.id !in db.txs
  {
    hide VerdictSeen, WalletSeen, InsertGuard;
    if job.inserted { NewExternalIsWorkable(a.task.cmd, a.id, a.now); }
  }

  /** A movement of a transaction that waits, or is new, never meets an entry of that transaction. */
  lemma UniqueEntryIsSilent(locking: bool, db: Db, locks: map<Resource, Sid>, sid: Sid, a: Session, d: Decision)
    requires DbInv(db) && DecisionSeen(locking, db, locks, sid, a, d) && d.write.posting.Some?
    requires Held(db, locks, sid, d) && IdsHeld(db, locks, sid, a)
    ensures !AlreadyPosted(db.ledger, d.write.posting.value.change.wallet, d.write.tx.id)
  {
    hide WalletsOk, IndexesExact, LedgerMatchesRows, OwnersExact, ChainsOk, TransactionEventsExact;
    hide WalletEventsExact, ParkedOk, InboxOk, RowsOk;
    hide JobSeen, DecisionSeen, Finished, Held, IdsHeld, ChangeOk, AlreadyPosted;
    DecidedMovement(locking, db, locks, sid, a, d);
    FinishedMovement(d.job, d.write);
    OneReversalIsSilent(locking, db, locks, sid, a, d);
    InsertedIsNew(locking, db, locks, sid, a, d.job);
    if AlreadyPosted(db.ledger, d.write.posting.value.change.wallet, d.write.tx.id) {
      PostedMoves(db.txs, db.ledger, d.write.posting.value.change.wallet, d.write.tx.id);
      ProcessedWaiterReversed(locking, db, locks, sid, a, d);
    }
  }

  lemma ReversedOnce(db: Db, t: Tx, r: Tx)
    requires RowsOk(db.wallets, db.txs) && IndexExact(db.txs, db.externals, ExternalKey)
    requires IndexExact(db.txs, db.reversals, ReversalKey)
    requires t.id in db.txs && db.txs[t.id] == t && IsReversal(t) && ReferenceSeen(db, t, r)
    ensures t.referenceId == r.id && r.id in db.reversals
  {
    assert RowOk(db.wallets, db.txs, t);
    assert References(db.txs, t);
    hide RowsOk, RowOk, RowShape;
    assert ExternalKey(db.txs[t.referenceId]) == Some((t.business.provider, t.business.reference));
    assert ReversalKey(db.txs[t.id]) == Some(t.referenceId);
  }

  lemma SettledReference(locking: bool, db: Db, locks: map<Resource, Sid>, sid: Sid, a: Session, d: Decision)
    requires JobSeen(locking, db, locks, sid, a, d.job) && d.job.verdict.Settle? && Finished(d.job, d.write)
    requires !d.job.inserted
    ensures WaitingSeen(db, d.job.tx) && d.job.reference.Some? && ReferenceSeen(db, d.job.tx, d.job.reference.value)
    ensures d.write.tx.referenceId == d.job.reference.value.id && d.write.tx.business == d.job.tx.business
  {
    hide Settled, WalletSeen, ReferenceSeen, NotReversedSince, JudgeReference, ValidCommand;
  }

  /** A waiting row that another session processed has reversed its reference. */
  lemma ProcessedWaiterReversed(locking: bool, db: Db, locks: map<Resource, Sid>, sid: Sid, a: Session, d: Decision)
    requires RowsOk(db.wallets, db.txs) && IndexesExact(db.txs, db.externals, db.keys, db.openings, db.reversals)
    requires JobSeen(locking, db, locks, sid, a, d.job) && d.job.verdict.Settle? && Finished(d.job, d.write)
    requires !d.job.inserted
    requires d.write.tx.state.Processed?
    requires d.job.tx.id in db.txs && db.txs[d.job.tx.id].state.Processed?
    ensures Taken(db.reversals, ReversalKey(d.write.tx))
  {
    hide JobSeen, Finished, IndexExact, RowsOk;
    SettledReference(locking, db, locks, sid, a, d);
    RowStates(db, d.job.tx.id);
    assert ReferenceSeen(db, db.txs[d.job.tx.id], d.job.reference.value);
    ReversedOnce(db, db.txs[d.job.tx.id], d.job.reference.value);
  }

  lemma NoMovementNoReversal(job: Job, w: Write)
    requires Finished(job, w) && w.posting.None?
    ensures ReversalKey(w.tx).None?
  {
  }

  /** The update of the row is refused by the terminal-row trigger, when another session concluded the
      transaction first, and by nothing else. */
  lemma OnlyTheTriggerRefuses(locking: bool, db: Db, locks: map<Resource, Sid>, sid: Sid, a: Session, d: Decision)
    requires RowsOk(db.wallets, db.txs) && DecisionSeen(locking, db, locks, sid, a, d) && Held(db, locks, sid, d)
    ensures !d.write.inserted ==> d.write.tx.id in db.txs
    ensures if !d.write.inserted && db.txs[d.write.tx.id].state.IsTerminal()
      then RowStatement(db, a, d) == Fail(SchemaViolation)
      else RowStatement(db, a, d).To?
  {
    DecidedRow(locking, db, locks, sid, a, d);
    hide DecisionSeen, Held, RowsOk;
  }

  lemma DecidedRow(locking: bool, db: Db, locks: map<Resource, Sid>, sid: Sid, a: Session, d: Decision)
    requires RowsOk(db.wallets, db.txs) && DecisionSeen(locking, db, locks, sid, a, d) && Held(db, locks, sid, d)
    ensures !Taken(db.reversals, ReversalKey(d.write.tx))
    ensures d.write.tx.id == d.job.tx.id && d.write.tx.business == d.job.tx.business && d.write.tx.key == d.job.tx.key
      && d.write.tx.createdAt == d.job.tx.createdAt
    ensures !d.write.inserted ==> WaitingSeen(db, d.job.tx)
    ensures !d.write.inserted && db.txs[d.job.tx.id] == d.job.tx ==> d.job.tx.referenceId == 0
  {
    hide RowsOk, Finish, Finished, Held, VerdictSeen, WalletSeen, InsertGuard;
    FinishShape(d.job, a.now);
    DecisionIsFinished(locking, db, locks, sid, a, d);
    if d.write.posting.Some? {
      OneReversalIsSilent(locking, db, locks, sid, a, d);
    } else {
      NoMovementNoReversal(d.job, d.write);
    }
    if !d.write.inserted && db.txs[d.job.tx.id] == d.job.tx {
      WaitingReferenceless(db, d.job.tx);
    }
  }

  lemma WaitingReferenceless(db: Db, t: Tx)
    requires RowsOk(db.wallets, db.txs) && WaitingSeen(db, t) && db.txs[t.id] == t
    ensures t.referenceId == 0
  {
    assert RowOk(db.wallets, db.txs, t);
  }
}
