/** What a decision writes, and why its writes are admissible when it commits. */
module Decisions {
  import opened Outcome
  import opened Monetary
  import opened Wager
  import opened Database
  import opened History
  import opened Protocol
  import opened Sessions

  /** The row a decision leaves: the same operation, concluded or parked. */
  ghost predicate SameOperation(t: Tx, t1: Tx) {
    && t1.id == t.id && t1.business == t.business && t1.key == t.key && t1.createdAt == t.createdAt
    && t1.updatedAt >= t.updatedAt
    && (t.updatedAt != ZERO_TIME ==> t1.updatedAt != ZERO_TIME)
  }

  lemma RejectingFacts(t: Tx, inserted: bool, code: FailureCode, now: int)
    requires Rejecting(t, inserted, code, now).Writes?
    ensures var w := Rejecting(t, inserted, code, now).write;
      w == Write(t.(state := Rejected, failure := Some(code), updatedAt := Later(now, t.updatedAt)), inserted, None)
    ensures !t.state.IsTerminal() && now != ZERO_TIME
    ensures Rejecting(t, inserted, code, now).answer == AnswerOf(Rejecting(t, inserted, code, now).write.tx)
  {
  }

  /** A settled operation either moves its wallet by its own amount, or is a LOSS, or lacks the funds. */
  ghost predicate Settled(t: Tx, w: WalletRow, reference: Option<Tx>, write: Write) {
    var t1 := write.tx;
    match MovementOf(t, reference)
    case Err(_) => false
    case Ok(None) =>
      t1.state.Processed? && write.posting.None? && t1.result == Some(w.balance) && t1.failure == t.failure
    case Ok(Some(d)) =>
      || (t1.state.Rejected? && write.posting.None? && t1.failure == Some(InsufficientFundsCodeOf(t.business.kind))
          && t1.result == t.result)
      || (&& t1.state.Processed? && write.posting.Some? && write.posting.value.from == w
          && t1.result == Some(write.posting.value.change.after) && t1.failure == t.failure
          && write.posting.value.change.direction == d && ChangeOk(w, write.posting.value.change)
          && write.posting.value.change.amount == t.business.money)
  }

  ghost predicate Solvent(w: WalletRow, money: Money) {
    && w.balance.Initialized() && w.balance.cents >= 0 && w.version >= 1 && w.updatedAt != ZERO_TIME
    && w.balance.currency == money.currency
  }

  lemma MovementIsChangeOk(w: WalletRow, d: Direction, amount: Money, now: int)
    requires Solvent(w, amount) && amount.cents > 0
    requires MovementChange(w, d, amount, now).Ok? && MovementChange(w, d, amount, now).value.version >= 1
    ensures ChangeOk(w, MovementChange(w, d, amount, now).value)
    ensures MovementChange(w, d, amount, now).value.direction == d
    ensures MovementChange(w, d, amount, now).value.amount == amount
  {
    MovementEffect(w, d, amount, now);
  }

  lemma SettlingFacts(t: Tx, inserted: bool, w: WalletRow, reference: Option<Tx>, now: int)
    requires Settling(t, inserted, w, reference, now).Writes?
    requires Solvent(w, t.business.money) && (t.business.kind.Loss? || t.business.money.cents > 0)
    requires reference.Some? ==> Agrees(t, reference.value)
    ensures var write := Settling(t, inserted, w, reference, now).write;
      SameOperation(t, write.tx) && write.inserted == inserted && write.tx.referenceId == t.referenceId
        && Settled(t, w, reference, write)
    ensures Settling(t, inserted, w, reference, now).answer ==
      AnswerOf(Settling(t, inserted, w, reference, now).write.tx)
    ensures !t.state.IsTerminal()
    ensures IsReversal(Settling(t, inserted, w, reference, now).write.tx) ==> t.referenceId != 0
  {
    hide Agrees;
    match MovementOf(t, reference)
    case Err(_) =>
    case Ok(None) =>
    case Ok(Some(d)) =>
      if MovementChange(w, d, t.business.money, now).Ok? {
        assert t.business.money.cents > 0;
        MovementIsChangeOk(w, d, t.business.money, now);
      }
  }

  /** A decided job writes the row it read, concluded or parked, with the reference it resolved. */
  ghost predicate Finished(job: Job, w: Write) {
    && SameOperation(job.tx, w.tx) && w.inserted == job.inserted && !job.tx.state.IsTerminal()
    && match job.verdict
       case Consult => false
       case Wait =>
         && w.tx.state.PendingReference? && w.posting.None? && !job.tx.state.PendingReference?
         && w.tx.referenceId == job.tx.referenceId && w.tx.failure == job.tx.failure && w.tx.result == job.tx.result
       case Refuse(code) =>
         && w.tx.state.Rejected? && w.posting.None? && w.tx.failure == Some(code)
         && w.tx.referenceId == job.tx.referenceId && w.tx.result == job.tx.result
       case Settle =>
         && job.wallet.Some?
         && Settled(job.tx, job.wallet.value, job.reference, w)
         && w.tx.referenceId == (if job.reference.Some? then job.reference.value.id else job.tx.referenceId)
         && (job.reference.Some? ==> job.reference.value.id != 0 && job.reference.value.id != job.tx.id)
         && (IsReversal(w.tx) ==> w.tx.referenceId != 0)
  }

  lemma FinishFacts(job: Job, now: int)
    requires Finish(job, now).Writes?
    requires job.wallet.Some? && job.verdict.Settle? ==> Solvent(job.wallet.value, job.tx.business.money)
    requires job.tx.business.kind.Loss? || job.tx.business.money.cents > 0
    requires job.reference.Some? && job.verdict.Settle? ==> Agrees(job.tx, job.reference.value)
    ensures Finished(job, Finish(job, now).write)
    ensures Finish(job, now).answer == AnswerOf(Finish(job, now).write.tx)
  {
    hide Agrees, Settled, Solvent, Settling, Rejecting;
    match job.verdict
    case Wait =>
    case Consult =>
    case Refuse(code) => RejectingFacts(job.tx, job.inserted, code, now);
    case Settle =>
      if job.reference.None? {
        SettlingFacts(job.tx, job.inserted, job.wallet.value, None, now);
      } else {
        var t1 := ReferenceResolved(job.tx, job.reference.value.id, now).value;
        AgreesAfterResolution(job.tx, t1, job.reference.value);
        SettlingFacts(t1, job.inserted, job.wallet.value, job.reference, now);
        SettledAfterResolution(job.tx, t1, job.wallet.value, job.reference, Finish(job, now).write);
      }
  }

  lemma AgreesAfterResolution(t: Tx, t1: Tx, r: Tx)
    requires t1.business == t.business
    ensures Agrees(t, r) == Agrees(t1, r)
  {
  }

  lemma SettledAfterResolution(t: Tx, t1: Tx, w: WalletRow, reference: Option<Tx>, write: Write)
    requires t1.business == t.business && t1.failure == t.failure && t1.result == t.result
    requires Settled(t1, w, reference, write)
    ensures Settled(t, w, reference, write)
  {
  }

  // ---- From knowledge to admissible writes ----

  /** Every row a session works on waits, or is the new row of its command. */
  ghost predicate Workable(t: Tx, inserted: bool) {
    && RowShapeWhenConcluded(t)
    && t.referenceId == 0 && t.failure.None? && t.result.None?
    && (if inserted then t.state.Pending? else t.state.PendingReference?)
    && !t.business.kind.Opening?
  }

  ghost predicate RowShapeWhenConcluded(t: Tx) {
    && t.id != 0 && ValidBusiness(t.business, t.key)
    && t.createdAt <= t.updatedAt && t.createdAt != ZERO_TIME && t.updatedAt != ZERO_TIME
  }

  lemma NewExternalIsWorkable(cmd: Command, id: Id, now: int)
    requires NewExternal(cmd, id, now).Ok?
    ensures Workable(NewExternal(cmd, id, now).value, true)
    ensures NewExternal(cmd, id, now).value.id == id && NewExternal(cmd, id, now).value.business == cmd.business
  {
  }

  lemma WaitingRowIsWorkable(db: Db, id: Id)
    requires RowsOk(db.wallets, db.txs) && id in db.txs && db.txs[id].state.PendingReference?
    ensures Workable(db.txs[id], false) && FitsWallet(db.wallets, db.txs[id].business)
  {
    assert RowOk(db.wallets, db.txs, db.txs[id]);
  }

  /** What a settled job relies on when it commits. */
  ghost predicate SettleCurrent(db: Db, job: Job, w: Write, sequence: nat) {
    && job.wallet.Some? && Solvent(job.wallet.value, job.tx.business.money)
    && job.wallet.value.id == job.tx.business.wallet && job.wallet.value.player == job.tx.business.player
    && Get(db.wallets, job.tx.business.wallet).Some?
    && db.wallets[job.tx.business.wallet].player == job.tx.business.player
    && (w.posting.Some? ==>
          && Get(db.wallets, job.tx.business.wallet) == job.wallet
          && LastInSequence(db.ledger, job.tx.business.wallet, sequence))
    && (job.reference.Some? <==> job.tx.business.kind.RequiresReference())
    && (job.reference.Some? ==> ReferenceCurrent(db, job.tx, job.reference.value))
  }

  ghost predicate ReferenceCurrent(db: Db, t: Tx, r: Tx) {
    && Get(db.txs, r.id) == Some(r) && r.state.Processed? && Agrees(t, r)
    && r.business.provider == t.business.provider && r.business.externalId == t.business.reference
  }

  /** What any job relies on when it commits. */
  ghost predicate JobCurrent(db: Db, job: Job, w: Write, sequence: nat) {
    && Workable(job.tx, job.inserted) && FitsWallet(db.wallets, job.tx.business)
    && (if job.inserted
        then job.tx.id !in db.txs && !Taken(db.externals, ExternalKey(job.tx))
          && !Taken(db.keys, IdempotencyKey(job.tx))
        else Get(db.txs, job.tx.id) == Some(job.tx))
    && !Taken(db.reversals, ReversalKey(w.tx))
    && (job.verdict.Wait? ==> job.tx.business.kind.RequiresReference())
    && (job.verdict.Settle? ==> SettleCurrent(db, job, w, sequence))
  }

  lemma SettledShape(job: Job, w: Write, db: Db, sequence: nat)
    requires Workable(job.tx, job.inserted) && Finished(job, w) && job.verdict.Settle?
    requires SettleCurrent(db, job, w, sequence)
    ensures RowShape(w.tx) && w.tx.state.IsTerminal()
    ensures w.posting.Some? <==> Moves(w.tx)
    ensures w.tx.referenceId != 0 ==>
      job.reference.Some? && w.tx.referenceId == job.reference.value.id && w.tx.referenceId != w.tx.id
  {
    hide ValidBusiness, ReferenceCurrent, LastInSequence;
  }

  lemma UnsettledShape(job: Job, w: Write)
    requires Workable(job.tx, job.inserted) && Finished(job, w) && !job.verdict.Settle?
    requires job.verdict.Wait? ==> job.tx.business.kind.RequiresReference()
    ensures RowShape(w.tx) && w.tx.referenceId == 0 && w.posting.None? && !w.tx.state.Processed?
    ensures w.tx.state.PendingReference? ==> job.inserted
  {
    hide ValidBusiness;
  }

  lemma ResolvedReferences(db: Db, t: Tx, t1: Tx, r: Tx)
    requires ReferenceCurrent(db, t, r) && t1.business == t.business && t1.referenceId == r.id && r.id != t1.id
    ensures References(db.txs, t1)
  {
  }

  lemma SettledPosting(db: Db, job: Job, w: Write, sequence: nat)
    requires Finished(job, w) && job.verdict.Settle? && SettleCurrent(db, job, w, sequence) && w.posting.Some?
    requires Moves(w.tx)
    ensures PostingOk(db, w.tx, w.posting.value, sequence)
  {
    hide LastInSequence, Agrees;
  }

  /** A job whose knowledge is current writes only what the committed state admits. */
  lemma CurrentJobWritesOk(db: Db, job: Job, w: Write, sequence: nat)
    requires Finished(job, w) && JobCurrent(db, job, w, sequence)
    ensures WriteOk(db, w, sequence)
  {
    hide RowShape, Workable, References, ReferenceCurrent, PostingOk, Settled, FitsWallet, Moves;
    WorkableFacts(job.tx, job.inserted);
    if job.verdict.Settle? {
      SettledShape(job, w, db, sequence);
      if w.tx.referenceId != 0 {
        ResolvedReferences(db, job.tx, w.tx, job.reference.value);
      }
      if w.posting.Some? {
        SettledPosting(db, job, w, sequence);
      }
    } else {
      UnsettledShape(job, w);
      MovesOnlyProcessed(w.tx);
    }
  }

  lemma WorkableFacts(t: Tx, inserted: bool)
    requires Workable(t, inserted)
    ensures !t.business.kind.Opening? && (inserted <==> t.state.Pending?) && (!inserted <==> t.state.PendingReference?)
  {
  }

  lemma MovesOnlyProcessed(t: Tx)
    ensures !t.state.Processed? ==> !Moves(t)
  {
  }

  // ---- From a session to a current job ----

  lemma ReferenceSeenIsCurrent(db: Db, t: Tx, r: Tx)
    requires ReferenceSeen(db, t, r) && JudgeReference(t, Some(r)).Consult?
    requires IndexExact(db.txs, db.externals, ExternalKey)
    ensures ReferenceCurrent(db, t, r)
  {
    assert ExternalKey(db.txs[r.id]) == Some((t.business.provider, t.business.reference));
  }

  lemma DecisiveTxIsWorkable(locking: bool, db: Db, locks: map<Resource, Sid>, next: nat, sid: Sid, a: Session,
                             d: Decision)
    requires RowsOk(db.wallets, db.txs)
    requires RowHeld(db, locks, sid, d) && d.write.tx.id == d.job.tx.id && d.write.inserted == d.job.inserted
    requires JobSeen(locking, db, locks, sid, a, d.job) || ExpirySeen(db, a, d.job)
    requires IdsHeld(db, locks, sid, a)
    ensures Workable(d.job.tx, d.job.inserted) && FitsWallet(db.wallets, d.job.tx.business)
    ensures if d.job.inserted
      then d.job.tx.id !in db.txs && !Taken(db.externals, ExternalKey(d.job.tx))
        && !Taken(db.keys, IdempotencyKey(d.job.tx))
      else Get(db.txs, d.job.tx.id) == Some(d.job.tx)
  {
    hide Workable, VerdictSeen, WalletSeen, NewExternal, RowsOk;
    if d.job.inserted {
      NewExternalIsWorkable(a.task.cmd, a.id, a.now);
    } else {
      WaitingRowIsWorkable(db, d.job.tx.id);
    }
  }

  lemma JobSeenSettles(locking: bool, db: Db, locks: map<Resource, Sid>, next: nat, sid: Sid, a: Session, d: Decision)
    requires IndexExact(db.txs, db.externals, ExternalKey)
    requires JobSeen(locking, db, locks, sid, a, d.job) && d.job.verdict.Settle?
    requires Held(db, locks, sid, d) && Sequenced(db, next, d)
    ensures SettleCurrent(db, d.job, d.write, d.sequence)
  {
    hide TxSeen, ReferenceSeen, ReferenceCurrent, Agrees, LastInSequence;
    if d.job.reference.Some? {
      ReferenceSeenIsCurrent(db, d.job.tx, d.job.reference.value);
    }
  }

  /** What a session has decided is admissible when it commits. */
  lemma DecisiveWritesOk(locking: bool, db: Db, locks: map<Resource, Sid>, next: nat, sid: Sid, a: Session, d: Decision)
    requires DbInv(db) && Decisive(locking, db, locks, next, sid, a, d) && IdsHeld(db, locks, sid, a)
    ensures WriteOk(db, d.write, d.sequence)
    ensures Finished(d.job, d.write) && d.answer == AnswerOf(d.write.tx)
  {
    hide RowsOk, WalletsOk, OwnersExact, LedgerMatchesRows, ChainsOk, TransactionEventsExact, WalletEventsExact;
    hide ParkedOk, InboxOk, IndexExact;
    hide JobSeen, IdsHeld, Sequenced, Held, RowHeld, Workable, SettleCurrent, Finish, Finished, WriteOk, FitsWallet;
    FinishShape(d.job, a.now);
    DecisiveTxIsWorkable(locking, db, locks, next, sid, a, d);
    if d.job.verdict.Settle? {
      JobSeenSettles(locking, db, locks, next, sid, a, d);
    }
    WaitingJobRequiresReference(locking, db, locks, sid, a, d.job);
    RowHeldIsUntaken(db, locks, sid, d);
    SettleCurrentFacts(db, d.job, d.write, d.sequence);
    WorkableMoney(d.job.tx, d.job.inserted);
    FinishFacts(d.job, a.now);
    CurrentJobWritesOk(db, d.job, d.write, d.sequence);
  }

  lemma RowHeldIsUntaken(db: Db, locks: map<Resource, Sid>, sid: Sid, d: Decision)
    requires RowHeld(db, locks, sid, d)
    ensures !Taken(db.reversals, ReversalKey(d.write.tx))
  {
  }

  lemma WaitingJobRequiresReference(locking: bool, db: Db, locks: map<Resource, Sid>, sid: Sid, a: Session, job: Job)
    requires JobSeen(locking, db, locks, sid, a, job) || ExpirySeen(db, a, job)
    ensures job.verdict.Wait? ==> job.tx.business.kind.RequiresReference()
  {
  }

  lemma SettleCurrentFacts(db: Db, job: Job, w: Write, sequence: nat)
    ensures SettleCurrent(db, job, w, sequence) ==> job.wallet.Some? && Solvent(job.wallet.value, job.tx.business.money)
    ensures SettleCurrent(db, job, w, sequence) && job.reference.Some? ==> Agrees(job.tx, job.reference.value)
  {
  }

  lemma WorkableMoney(t: Tx, inserted: bool)
    requires Workable(t, inserted)
    ensures t.business.kind.Loss? || t.business.money.cents > 0
  {
  }

  ghost predicate PostsFrom(w: Write, wallet: WalletRow) {
    w.posting.Some? ==>
      var p := w.posting.value;
      p.from == wallet && p.change.wallet == wallet.id && p.change.version == wallet.version + 1
  }

  lemma SettlingShape(t: Tx, inserted: bool, wallet: WalletRow, reference: Option<Tx>, now: int)
    ensures Settling(t, inserted, wallet, reference, now).Writes? ==>
      var w := Settling(t, inserted, wallet, reference, now).write;
      SameOperation(t, w.tx) && w.inserted == inserted && w.tx.referenceId == t.referenceId && PostsFrom(w, wallet)
    ensures !Settling(t, inserted, wallet, reference, now).Replies?
  {
    hide MovementOf;
    if MovementOf(t, reference).Ok? && MovementOf(t, reference).value.Some? {
      MovedFrom(wallet, MovementOf(t, reference).value.value, t.business.money, now);
    }
    hide MovementChange;
  }

  lemma MovedFrom(w: WalletRow, d: Direction, amount: Money, now: int)
    ensures var r := MovementChange(w, d, amount, now);
      r.Ok? ==> r.value.wallet == w.id && (r.value.version >= 1 ==> r.value.version == w.version + 1)
  {
  }

  /** What the plan of a job says about its writes, whatever the job knows. */
  lemma FinishShape(job: Job, now: int)
    ensures Finish(job, now).Writes? ==>
      var w := Finish(job, now).write;
      && SameOperation(job.tx, w.tx) && w.inserted == job.inserted
      && (job.tx.referenceId != 0 ==> w.tx.referenceId == job.tx.referenceId)
      && (w.posting.Some? ==> job.verdict.Settle? && job.wallet.Some? && PostsFrom(w, job.wallet.value))
    ensures Finish(job, now).Replies? ==>
      && job.verdict.Wait? && job.tx.state.PendingReference?
      && Finish(job, now).answer == Answer(job.tx.id, PendingReference, None, None, false)
  {
    hide Settling, PostsFrom;
    if job.verdict.Settle? && job.wallet.Some? {
      if job.reference.None? {
        SettlingShape(job.tx, job.inserted, job.wallet.value, None, now);
      } else if ReferenceResolved(job.tx, job.reference.value.id, now).Ok? {
        SettlingShape(ReferenceResolved(job.tx, job.reference.value.id, now).value, job.inserted, job.wallet.value,
                      job.reference, now);
      }
    }
  }
}
