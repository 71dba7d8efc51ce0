/** A session that nobody disturbs does what its plan says, statement by statement: the state machine of sessions
    and the plans of the use cases describe the same code. */
module Alone {
  import opened Outcome
  import opened Monetary
  import opened Wager
  import opened Database
  import opened History
  import opened Protocol
  import opened Decisions
  import Service

  /** The session has come to what the plan says. */
  ghost predicate Concludes(o: Conclusion, plan: Plan) {
    match plan
    case Fails(_) => false
    case Replies(answer) => o == Quiet(answer)
    case Writes(write, answer) => o.Decided? && o.decision.write == write && o.decision.answer == answer
  }

  /** Within the given number of statements, seeing db all the time, the session is ready to commit what the plan
      says, or fails with the error of the plan. */
  ghost predicate Leads(locking: bool, db: Db, a: Session, next: nat, plan: Plan, statements: nat)
    decreases statements
  {
    if a.pc.Ready? then Concludes(a.pc.conclusion, plan)
    else
      statements > 0 &&
      match Statement(locking, db, a, next)
      case Fail(e) => plan == Fails(e)
      case To(b, _, draws) => Leads(locking, db, b, if draws then next + 1 else next, plan, statements - 1)
  }

  // ---- The writes ----

  lemma CompletingLeads(locking: bool, db: Db, a: Session, next: nat, plan: Plan, o: Conclusion)
    requires a.pc == Completing(o) && Concludes(o, plan)
    ensures Leads(locking, db, a, next, plan, 1)
  {
    assert Leads(locking, db, CompleteStatement(a, o).session, next, plan, 0);
  }

  lemma SavingLeads(locking: bool, db: Db, a: Session, next: nat, plan: Plan, d: Decision)
    requires a.pc == Saving(d) && Concludes(Decided(d), plan)
    ensures Leads(locking, db, a, next, plan, 2)
  {
    CompletingLeads(locking, db, a.(pc := Completing(Decided(d))), next, plan, Decided(d));
    hide Concludes;
  }

  lemma UpdatingLeads(locking: bool, db: Db, a: Session, next: nat, plan: Plan, d: Decision)
    requires a.pc == Updating(d) && Concludes(Decided(d), plan) && RowStatement(db, a, d).To?
    ensures Leads(locking, db, a, next, plan, 3)
  {
    SavingLeads(locking, db, a.(pc := Saving(d)), next, plan, d);
    hide Concludes, RowGuard;
  }

  lemma EnteringLeads(locking: bool, db: Db, a: Session, next: nat, plan: Plan, d: Decision)
    requires a.pc == Entering(d) && Concludes(Decided(d), plan) && RowStatement(db, a, d).To?
    requires d.write.posting.Some? && !AlreadyPosted(db.ledger, d.write.posting.value.change.wallet, d.write.tx.id)
    ensures Leads(locking, db, a, next, plan, 4)
  {
    var d1 := d.(sequence := next);
    UpdatingLeads(locking, db, a.(pc := Updating(d1)), next + 1, plan, d1);
    hide Concludes, RowStatement, AlreadyPosted;
  }

  lemma MovingLeads(locking: bool, db: Db, a: Session, next: nat, plan: Plan, d: Decision)
    requires a.pc == Moving(d) && Concludes(Decided(d), plan) && RowStatement(db, a, d).To?
    requires BalanceStatement(db, a, d).To?
    requires d.write.posting.Some? && !AlreadyPosted(db.ledger, d.write.posting.value.change.wallet, d.write.tx.id)
    ensures Leads(locking, db, a, next, plan, 5)
  {
    EnteringLeads(locking, db, a.(pc := Entering(d)), next, plan, d);
    hide Concludes, RowStatement, AlreadyPosted, WalletGuard;
  }

  // ---- The decision ----

  /** The job was read from db: its wallet, its row and what it says about reversals are current. */
  ghost predicate Current(db: Db, job: Job) {
    && Service.Unconcluded(db, job.tx, job.inserted) && job.tx.id != 0
    && (job.verdict.Consult? || job.verdict.Settle? ==> job.wallet == Get(db.wallets, job.tx.business.wallet))
    && (job.verdict.Settle? && job.reference.Some? ==> job.reference.value.id !in db.reversals)
    && (job.verdict.Settle? && job.reference.None? ==> !job.tx.business.kind.RequiresReference())
  }

  lemma {:induction false} MoreStatements(locking: bool, db: Db, a: Session, next: nat, plan: Plan, n: nat, m: nat)
    requires Leads(locking, db, a, next, plan, n) && n <= m
    ensures Leads(locking, db, a, next, plan, m)
    decreases n
  {
    hide Statement, Concludes;
    if !a.pc.Ready? {
      match Statement(locking, db, a, next)
      case Fail(_) =>
      case To(b, _, draws) => MoreStatements(locking, db, b, if draws then next + 1 else next, plan, n - 1, m - 1);
    }
  }

  lemma SettlingPosts(t: Tx, inserted: bool, w: WalletRow, reference: Option<Tx>, now: int)
    requires Settling(t, inserted, w, reference, now).Writes? && w.version >= 1
    ensures var write := Settling(t, inserted, w, reference, now).write;
      && (write.posting.Some? ==>
            var p := write.posting.value;
            p.from == w && p.change.wallet == w.id && p.change.version == w.version + 1
              && WalletGuard(w, WalletAfter(w, p.change)))
      && (ReversalKey(write.tx).Some? ==> write.tx.referenceId == t.referenceId && t.business.kind.RequiresReference())
  {
    hide Rejecting;
    if MovementOf(t, reference).Ok? && MovementOf(t, reference).value.Some? {
      var d := MovementOf(t, reference).value.value;
      if MovementChange(w, d, t.business.money, now).Ok? {
        Service.MovementGoesThrough(w, d, t.business.money, now);
      }
    }
    RejectingHasNoKey(t, inserted, InsufficientFundsCodeOf(t.business.kind), now);
    hide MovementChange;
  }

  lemma RejectingHasNoKey(t: Tx, inserted: bool, code: FailureCode, now: int)
    ensures Rejecting(t, inserted, code, now).Writes? ==>
      Rejecting(t, inserted, code, now).write.posting.None?
        && ReversalKey(Rejecting(t, inserted, code, now).write.tx).None?
  {
  }

  /** What a current job writes moves its wallet from the current row, and reverses nothing twice. */
  ghost predicate Fresh(db: Db, w: Write, wallet: Id) {
    && !Taken(db.reversals, ReversalKey(w.tx))
    && (w.posting.Some? ==>
          var p := w.posting.value;
          && wallet in db.wallets && p.from == db.wallets[wallet] && p.from.id == wallet && p.change.wallet == wallet
          && p.change.version == p.from.version + 1 && WalletGuard(p.from, WalletAfter(p.from, p.change)))
  }

  lemma SettledIsFresh(db: Db, t: Tx, inserted: bool, reference: Option<Tx>, now: int)
    requires t.business.wallet in db.wallets && db.wallets[t.business.wallet].id == t.business.wallet
    requires db.wallets[t.business.wallet].version >= 1
    requires t.business.kind.RequiresReference() ==> t.referenceId !in db.reversals
    ensures var plan := Settling(t, inserted, db.wallets[t.business.wallet], reference, now);
      plan.Writes? ==> Fresh(db, plan.write, t.business.wallet)
  {
    if Settling(t, inserted, db.wallets[t.business.wallet], reference, now).Writes? {
      SettlingPosts(t, inserted, db.wallets[t.business.wallet], reference, now);
    }
    hide Settling, WalletGuard;
  }

  lemma ParkingIsFresh(db: Db, t: Tx, inserted: bool, now: int)
    ensures Parking(t, inserted, now).Writes? ==> Fresh(db, Parking(t, inserted, now).write, t.business.wallet)
  {
  }

  lemma JobIsFresh(db: Db, job: Job, now: int)
    requires Sound(db) && Current(db, job) && Finish(job, now).Writes?
    ensures Fresh(db, Finish(job, now).write, job.tx.business.wallet)
  {
    hide Sound, Settling, Rejecting, Parking, Fresh;
    match job.verdict
    case Wait => ParkingIsFresh(db, job.tx, job.inserted, now);
    case Refuse(code) => RefusalIsFresh(db, job.tx, job.inserted, code, now);
    case Settle =>
      Service.WalletOfInv(db, job.tx.business.wallet);
      if job.reference.None? {
        SettledIsFresh(db, job.tx, job.inserted, None, now);
      } else {
        SettledIsFresh(db, ReferenceResolved(job.tx, job.reference.value.id, now).value, job.inserted, job.reference,
                       now);
      }
    case Consult =>
  }

  lemma RefusalIsFresh(db: Db, t: Tx, inserted: bool, code: FailureCode, now: int)
    ensures Rejecting(t, inserted, code, now).Writes? ==>
      Fresh(db, Rejecting(t, inserted, code, now).write, t.business.wallet)
  {
    RejectingHasNoKey(t, inserted, code, now);
    hide Rejecting;
  }

  /** The writes of a current job meet no guard. */
  lemma NoGuardFires(db: Db, a: Session, job: Job)
    requires Sound(db) && Current(db, job) && Finish(job, a.now).Writes?
    ensures var w := Finish(job, a.now).write;
      var d := Decision(job, w, 0, Finish(job, a.now).answer);
      && RowStatement(db, a, d).To?
      && (w.posting.Some? ==>
            BalanceStatement(db, a, d).To? && !AlreadyPosted(db.ledger, w.posting.value.change.wallet, w.tx.id))
  {
    hide Sound, Finish, AlreadyPosted, WalletGuard, PostsFrom;
    FinishShape(job, a.now);
    JobIsFresh(db, job, a.now);
    Service.NotPostedYet(db, job.tx, job.inserted, job.tx.business.wallet);
  }

  /** A current job is decided and written as Finish says. */
  lemma DecideLeads(locking: bool, db: Db, a: Session, next: nat, job: Job, acquire: set<Resource>)
    requires Sound(db) && Current(db, job)
    ensures var m, plan := Decide(a, job, acquire), Finish(job, a.now);
      if m.Fail? then plan == Fails(m.error) else !m.draws && Leads(locking, db, m.session, next, plan, 5)
  {
    hide Sound, Current, Finish, RowStatement, BalanceStatement, AlreadyPosted, Statement;
    var plan := Finish(job, a.now);
    match plan
    case Fails(_) =>
    case Replies(answer) =>
      CompletingLeads(locking, db, a.(pc := Completing(Quiet(answer))), next, plan, Quiet(answer));
      MoreStatements(locking, db, a.(pc := Completing(Quiet(answer))), next, plan, 1, 5);
    case Writes(w, answer) =>
      var d := Decision(job, w, 0, answer);
      if w.posting.Some? {
        NoGuardFires(db, a.(pc := Moving(d)), job);
        MovingLeads(locking, db, a.(pc := Moving(d)), next, plan, d);
      } else {
        NoGuardFires(db, a.(pc := Updating(d)), job);
        UpdatingLeads(locking, db, a.(pc := Updating(d)), next, plan, d);
        MoreStatements(locking, db, a.(pc := Updating(d)), next, plan, 3, 5);
      }
  }

  // ---- The reads ----

  lemma CheckingLeads(locking: bool, db: Db, a: Session, next: nat, job: Job)
    requires Sound(db) && a.pc == Checking(job) && job.reference.Some?
    requires var decided := job.(verdict := JudgeReversal(job.reference.value.id in db.reversals));
      Current(db, decided)
    ensures Leads(locking, db, a, next,
                  Finish(job.(verdict := JudgeReversal(job.reference.value.id in db.reversals)), a.now), 6)
  {
    hide Sound, Current, Finish, Decide;
    DecideLeads(locking, db, a, next, job.(verdict := JudgeReversal(job.reference.value.id in db.reversals)), {});
  }

  /** From the read of the reference on, the session does what the job read from db says. */
  lemma ConsultingLeads(locking: bool, db: Db, a: Session, next: nat, job: Job)
    requires Sound(db) && a.pc == Consulting(job) && job.reference.None? && job.verdict.Consult?
    requires Current(db, job) && JudgeWallet(job.wallet, job.tx.business).Consult?
    ensures Leads(locking, db, a, next, Finish(JobOf(db, job.tx, job.inserted), a.now), 7)
  {
    var r := FindExternal(db, job.tx.business.provider, job.tx.business.reference);
    var job1 := job.(reference := r, verdict := JudgeReference(job.tx, r));
    hide Sound, Finish, FindExternal, Decide, JudgeWallet, Service.Unconcluded;
    if job1.verdict.Consult? {
      CheckingLeads(locking, db, a.(pc := Checking(job1)), next, job1);
    } else {
      DecideLeads(locking, db, a, next, job1, {});
      if Decide(a, job1, {}).To? {
        MoreStatements(locking, db, Decide(a, job1, {}).session, next, Finish(job1, a.now), 5, 6);
      }
    }
    hide Leads;
  }

  /** From the read of the wallet on. */
  lemma RecordingLeads(locking: bool, db: Db, a: Session, next: nat, t: Tx, inserted: bool)
    requires Sound(db) && a.pc == Recording(t, inserted) && Service.Unconcluded(db, t, inserted) && t.id != 0
    ensures Leads(locking, db, a, next, Finish(JobOf(db, t, inserted), a.now), 8)
  {
    var w := Get(db.wallets, t.business.wallet);
    var job := Job(t, inserted, w, None, JudgeWallet(w, t.business));
    var rs := WalletLocks(locking, t.business.wallet);
    NoReferenceNeeded(w, t.business);
    hide Sound, Finish, FindExternal, Decide, JudgeWallet, Service.Unconcluded;
    if job.verdict.Consult? {
      ConsultingLeads(locking, db, a.(pc := Consulting(job)), next, job);
    } else {
      DecideLeads(locking, db, a, next, job, rs);
      if Decide(a, job, rs).To? {
        MoreStatements(locking, db, Decide(a, job, rs).session, next, Finish(job, a.now), 5, 7);
      }
    }
    hide Leads;
  }

  lemma NoReferenceNeeded(w: Option<WalletRow>, b: Business)
    ensures JudgeWallet(w, b).Settle? ==> !b.kind.RequiresReference()
    ensures !JudgeWallet(w, b).Wait?
  {
  }

  /** From the insert on, for an external id that is not known. */
  lemma AbsentLeads(locking: bool, db: Db, a: Session, next: nat, cmd: Command)
    requires Sound(db) && a.pc.Absent? && a.task.Deliver? && a.task.cmd == cmd && ValidCommand(cmd) && a.id !in db.txs
    requires FindExternal(db, cmd.business.provider, cmd.business.externalId).None?
    ensures Leads(locking, db, a, next, ApplyPlan(db, cmd, a.id, a.now), 9)
  {
    hide Sound, Finish, FindExternal, JobOf, ValidCommand, NewExternal, InsertGuard, Service.Unconcluded;
    Service.PlanOfOpen(db, cmd, a.id, a.now);
    if NewExternal(cmd, a.id, a.now).Ok? {
      Service.NewIsUnconcluded(db, cmd, a.id, a.now, next);
      var t := NewExternal(cmd, a.id, a.now).value;
      if InsertGuard(db, t).Ok? {
        RecordingLeads(locking, db, a.(pc := Recording(t, true)), next, t, true);
      }
    }
  }

  /** Undisturbed, a delivery whose command is valid does what its plan says, in at most ten statements after it
      registered: it comes to commit exactly the planned writes and answer, or it fails with the planned error. */
  lemma DeliveryLeads(locking: bool, db: Db, a: Session, next: nat, cmd: Command)
    requires Sound(db) && a.pc.Registered? && a.task.Deliver? && a.task.cmd == cmd && ValidCommand(cmd)
    requires a.id !in db.txs
    ensures Leads(locking, db, a, next, ApplyPlan(db, cmd, a.id, a.now), 10)
  {
    hide Sound, Finish, FindExternal, JobOf, ValidCommand, RecordNew, Service.Unconcluded;
    var known := FindExternal(db, cmd.business.provider, cmd.business.externalId);
    var plan := ApplyPlan(db, cmd, a.id, a.now);
    if known.None? {
      AbsentLeads(locking, db, a.(pc := Absent), next, cmd);
    } else {
      var t := known.value;
      Service.FoundIsUnconcluded(db, cmd);
      Service.PlanOfOpen(db, cmd, a.id, a.now);
      if t.business == cmd.business && t.state.IsTerminal() {
        var b := a.(pc := Completing(Quiet(ReplayOf(t))));
        CompletingLeads(locking, db, b, next, plan, Quiet(ReplayOf(t)));
        MoreStatements(locking, db, b, next, plan, 1, 9);
      } else if t.business == cmd.business {
        RecordingLeads(locking, db, a.(pc := Recording(t, false)), next, t, false);
        MoreStatements(locking, db, a.(pc := Recording(t, false)), next, plan, 8, 9);
      }
    }
  }

  /** From its first statement on, so does a delivery over HTTP, and that of a message nobody handled yet. */
  lemma FirstDeliveryLeads(locking: bool, db: Db, a: Session, next: nat, cmd: Command)
    requires Sound(db) && a.pc.Begun? && a.task.Deliver? && a.task.cmd == cmd && a.id !in db.txs
    requires a.task.message.Some? ==> a.task.message.value.key !in db.inbox
    ensures Leads(locking, db, a, next,
                  if ValidCommand(cmd) then ApplyPlan(db, cmd, a.id, a.now) else Fails(InvalidCommand), 11)
  {
    hide Sound, ValidCommand, ApplyPlan, OpenPlan;
    if ValidCommand(cmd) {
      DeliveryLeads(locking, db, BeginStatement(db, a).session, next, cmd);
    }
  }

  /** A message handled before is answered Duplicate at once, or is a conflict when its payload is another. */
  lemma RedeliveryLeads(locking: bool, db: Db, a: Session, next: nat, cmd: Command, m: Message)
    requires InboxOk(db.inbox) && a.pc.Begun? && a.task == Deliver(cmd, Some(m)) && m.key in db.inbox
    ensures Leads(locking, db, a, next,
                  if !ValidCommand(cmd) then Fails(InvalidCommand)
                  else if db.inbox[m.key].hash != m.hash then Fails(MessageConflict)
                  else Replies(Duplicate), 1)
  {
    hide ValidCommand, OpenPlan;
    if ValidCommand(cmd) && db.inbox[m.key].hash == m.hash {
      assert Leads(locking, db, BeginStatement(db, a).session, next, Replies(Duplicate), 0);
    }
  }

  lemma WaitingIsCurrent(db: Db, id: Id)
    requires Sound(db) && id in db.txs && !db.txs[id].state.IsTerminal()
    ensures Current(db, Job(db.txs[id], false, None, None, Refuse(ReferenceNotFoundCode)))
  {
    hide WalletsOk, IndexesExact, OwnersExact, LedgerMatchesRows, ChainsOk, TransactionEventsExact;
    hide WalletEventsExact, ParkedOk;
    assert RowOk(db.wallets, db.txs, db.txs[id]);
  }

  /** Undisturbed, so does an expiry. */
  lemma ExpiryLeads(locking: bool, db: Db, a: Session, next: nat, id: Id)
    requires Sound(db) && a.pc.Begun? && a.task == Expire(id)
    ensures Leads(locking, db, a, next, ExpirePlan(db, id, a.now), 6)
  {
    hide Sound, Decide, Current;
    var plan := ExpirePlan(db, id, a.now);
    if id in db.txs && db.txs[id].state.IsTerminal() {
      var b := a.(pc := Completing(Quiet(ReplayOf(db.txs[id]))));
      CompletingLeads(locking, db, b, next, plan, Quiet(ReplayOf(db.txs[id])));
      MoreStatements(locking, db, b, next, plan, 1, 5);
    } else if id in db.txs {
      var job := Job(db.txs[id], false, None, None, Refuse(ReferenceNotFoundCode));
      WaitingIsCurrent(db, id);
      DecideLeads(locking, db, a, next, job, {});
    }
  }

  /** What an opening comes to: it is ready to install what OpenPlan says, or fails with its error. */
  ghost predicate LeadsToOpening(locking: bool, db: Db, a: Session, next: nat, plan: Result<Found>, statements: nat)
    decreases statements
  {
    if a.pc.Ready? then a.pc.conclusion.Founding? && plan == Ok(a.pc.conclusion.found)
    else
      statements > 0 &&
      match Statement(locking, db, a, next)
      case Fail(e) => plan == Err(e)
      case To(b, _, draws) => LeadsToOpening(locking, db, b, if draws then next + 1 else next, plan, statements - 1)
  }

  lemma CompletingOpens(locking: bool, db: Db, a: Session, next: nat, f: Found, sequence: nat, n: nat)
    requires a.pc == Completing(Founding(f, sequence)) && n >= 1
    ensures LeadsToOpening(locking, db, a, next, Ok(f), n)
  {
    assert LeadsToOpening(locking, db, CompleteStatement(a, a.pc.conclusion).session, next, Ok(f), n - 1);
  }

  lemma CreditingOpens(locking: bool, db: Db, a: Session, next: nat, f: Found)
    requires a.pc == Crediting(f)
    ensures LeadsToOpening(locking, db, a, next, Ok(f), 2)
  {
    CompletingOpens(locking, db, a.(pc := Completing(Founding(f, next))), next + 1, f, next, 1);
  }

  /** Undisturbed, so does an opening. */
  lemma OpeningLeads(locking: bool, db: Db, a: Session, next: nat, player: Id, initial: Money)
    requires a.pc.Begun? && a.task == OpenFor(player, initial)
    ensures LeadsToOpening(locking, db, a, next, OpenPlan(db, player, initial, a.walletId, a.id, a.now), 4)
  {
    hide OpenPlan;
    var plan := OpenPlan(db, player, initial, a.walletId, a.id, a.now);
    if plan.Ok? {
      var unowned := a.(pc := Unowned);
      var f := plan.value;
      if f.opening.Some? {
        CreditingOpens(locking, db, unowned.(pc := Crediting(f)), next, f);
      } else {
        CompletingOpens(locking, db, unowned.(pc := Completing(Founding(f, 0))), next, f, 0, 2);
      }
      assert LeadsToOpening(locking, db, unowned, next, plan, 3);
    }
  }
}
