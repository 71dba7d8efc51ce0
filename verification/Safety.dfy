/** The invariant of every run of the service, whatever sessions interleave, abort, crash or retry. */
module Safety {
  import opened Outcome
  import opened Monetary
  import opened Wager
  import opened Database
  import opened History
  import opened Openings
  import opened Protocol
  import opened Sessions
  import opened Decisions
  import opened Statements

  ghost predicate SessionsOk(locking: bool, s: Sys) {
    forall sid | sid in s.sessions :: SessionOk(locking, s.db, s.locks, s.next, sid, s.sessions[sid])
  }

  ghost predicate RepliesTruthful(db: Db, replies: seq<Reply>) {
    forall i | 0 <= i < |replies| :: Truthful(db, replies[i].task, replies[i].answer)
  }

  ghost predicate Inv(locking: bool, s: Sys) {
    DbInv(s.db) && SequencesBelow(s.db.ledger, s.next) && SessionsOk(locking, s) && RepliesTruthful(s.db, s.replies)
  }

  // ---- A commit advances the committed state ----

  lemma WalletsStep(db: Db, w: Write, sequence: nat)
    requires WriteOk(db, w, sequence)
    ensures WalletsAdvance(db.wallets, Install(db, w, sequence).wallets)
  {
    WriteFacts(db, w, sequence);
    hide WriteOk, InstallRow, EntryMatches, EventsOf;
  }

  lemma RowsStepAdvances(txs: map<Id, Tx>, t: Tx)
    requires Replaceable(txs, t) && (t.id in txs ==> t.state.IsTerminal())
    ensures RowsAdvance(txs, txs[t.id := t])
  {
  }

  lemma IndexExtends<K(!new)>(index: map<K, Id>, key: Option<K>, id: Id)
    requires Taken(index, key) ==> index[key.value] == id
    ensures Extends(index, Indexed(index, key, id))
  {
  }

  lemma WriteKeepsKeys(db: Db, w: Write, sequence: nat)
    requires WriteOk(db, w, sequence)
    requires IndexesExact(db.txs, db.externals, db.keys, db.openings, db.reversals)
    ensures var t := w.tx;
      && (Taken(db.externals, ExternalKey(t)) ==> !w.inserted && db.externals[ExternalKey(t).value] == t.id)
      && (Taken(db.keys, IdempotencyKey(t)) ==> !w.inserted && db.keys[IdempotencyKey(t).value] == t.id)
      && (!w.inserted ==> Taken(db.externals, ExternalKey(t)) && Taken(db.keys, IdempotencyKey(t)))
      && !Taken(db.reversals, ReversalKey(t)) && OpeningKey(t).None?
      && (t.id in db.txs ==> !w.inserted && t.state.IsTerminal()) && (t.id !in db.txs ==> w.inserted)
      && Replaceable(db.txs, t)
      && (ReversalKey(t).Some? ==> References(db.txs, t) && w.posting.Some?)
  {
    hide RowShape, PostingOk, FitsWallet;
    if !w.inserted {
      assert ExternalKey(db.txs[w.tx.id]) == ExternalKey(w.tx)
        && IdempotencyKey(db.txs[w.tx.id]) == IdempotencyKey(w.tx);
    }
    if ReversalKey(w.tx).Some? {
      ReversalShape(db, w, sequence);
    }
  }

  lemma ReversalShape(db: Db, w: Write, sequence: nat)
    requires WriteOk(db, w, sequence) && ReversalKey(w.tx).Some?
    ensures References(db.txs, w.tx) && w.posting.Some?
  {
  }

  /** A processed reversal moves the wallet of what it reverses. */
  lemma ReversalsStep(db: Db, w: Write, sequence: nat)
    requires WriteOk(db, w, sequence)
    ensures var d := Install(db, w, sequence);
      ReversalsAdvance(db.txs, db.reversals, Indexed(db.reversals, ReversalKey(w.tx), w.tx.id), db.wallets, d.wallets)
  {
    if ReversalKey(w.tx).Some? {
      ReversalShape(db, w, sequence);
      WriteFacts(db, w, sequence);
      PostingOnOwnWallet(db, w, sequence);
    }
    hide WriteOk, InstallRow, EventsOf;
  }

  lemma PostingOnOwnWallet(db: Db, w: Write, sequence: nat)
    requires WriteOk(db, w, sequence) && w.posting.Some?
    ensures w.posting.value.change.wallet == w.tx.business.wallet
  {
  }

  lemma InstallAdvances(db: Db, w: Write, sequence: nat)
    requires WriteOk(db, w, sequence)
    requires IndexesExact(db.txs, db.externals, db.keys, db.openings, db.reversals)
    ensures Advances(db, Install(db, w, sequence))
  {
    WriteKeepsKeys(db, w, sequence);
    WalletsStep(db, w, sequence);
    RowsStepAdvances(db.txs, w.tx);
    IndexExtends(db.externals, ExternalKey(w.tx), w.tx.id);
    IndexExtends(db.reversals, ReversalKey(w.tx), w.tx.id);
    ReversalsStep(db, w, sequence);
    hide WalletsAdvance, RowsAdvance, ReversalsAdvance, Extends, EventsOf, WalletsAfter, LedgerAfter;
  }

  // ---- A commit leaves alone what others hold ----

  /** The locks under which a write was prepared. */
  ghost predicate Covered(locks: map<Resource, Sid>, w: Write, holder: Sid) {
    var t := w.tx;
    && Mine(locks, RowLock(t.id), holder)
    && (w.posting.Some? ==> Mine(locks, WalletLock(t.business.wallet), holder))
    && (w.inserted ==>
          && Mine(locks, Identity(t.id), holder)
          && Mine(locks, ExternalLock((t.business.provider, t.business.externalId)), holder)
          && Mine(locks, KeyLock((t.business.provider, t.key)), holder))
    && (ReversalKey(t).Some? ==> Mine(locks, ReversalLock(t.referenceId), holder))
  }

  lemma IndexLeftAlone<K(!new)>(index: map<K, Id>, key: Option<K>, id: Id, lock: K -> Resource, locks: map<Resource,
                                Sid>, sid: Sid)
    requires key.Some? && key.value !in index ==> !Mine(locks, lock(key.value), sid)
    ensures KeysLeftAlone(index, Indexed(index, key, id), lock, locks, sid)
  {
  }

  lemma InstallLeavesLedger(db: Db, w: Write, sequence: nat, locks: map<Resource, Sid>, holder: Sid, sid: Sid)
    requires WriteOk(db, w, sequence) && Covered(locks, w, holder) && holder != sid
    ensures var d := Install(db, w, sequence);
      && RowsLeftAlone(db.wallets, d.wallets, LockOfWallet, locks, sid)
      && KeysLeftAlone(db.wallets, d.wallets, LockOfIdentity, locks, sid)
      && LedgerLeftAlone(db.wallets, db.ledger, d.ledger, locks, sid)
  {
    if w.posting.Some? {
      WriteFacts(db, w, sequence);
      PostingOnOwnWallet(db, w, sequence);
    }
    hide WriteOk, InstallRow, EventsOf, EntryMatches, LastInSequence;
  }

  lemma InstallUntouched(db: Db, w: Write, sequence: nat, locks: map<Resource, Sid>, holder: Sid, sid: Sid)
    requires WriteOk(db, w, sequence) && Covered(locks, w, holder) && holder != sid
    requires IndexesExact(db.txs, db.externals, db.keys, db.openings, db.reversals)
    ensures Untouched(db, Install(db, w, sequence), locks, sid)
  {
    hide WriteOk, IndexesExact, Replaceable, References, Install, InstallRow, LedgerLeftAlone;
    WriteKeepsKeys(db, w, sequence);
    InstallLeavesLedger(db, w, sequence, locks, holder, sid);
    var t := w.tx;
    assert RowsLeftAlone(db.txs, db.txs[t.id := t], LockOfRow, locks, sid);
    assert KeysLeftAlone(db.txs, db.txs[t.id := t], LockOfIdentity, locks, sid);
    IndexLeftAlone(db.externals, ExternalKey(t), t.id, LockOfExternal, locks, sid);
    IndexLeftAlone(db.keys, IdempotencyKey(t), t.id, LockOfKey, locks, sid);
    IndexLeftAlone(db.reversals, ReversalKey(t), t.id, LockOfReversal, locks, sid);
    InstallTables(db, w, sequence);
    InstallRowTables(db, t);
    InstallRowIndexes(db, t);
  }

  lemma InstallRowIndexes(db: Db, t: Tx)
    ensures var r := InstallRow(db, t);
      && r.externals == Indexed(db.externals, ExternalKey(t), t.id)
      && r.keys == Indexed(db.keys, IdempotencyKey(t), t.id)
      && r.reversals == Indexed(db.reversals, ReversalKey(t), t.id)
  {
  }

  // ---- The same for an opening ----

  /** The tables an opening leaves as they are, and those it extends. */
  lemma FoundLeaves(db: Db, f: Found, sequence: nat)
    requires FoundOk(db, f)
    ensures var d := InstallFound(db, f, sequence);
      && d.externals == db.externals && d.keys == db.keys && d.reversals == db.reversals
      && d.ledger == if f.opening.Some?
            then db.ledger + [EntryOf(OpeningChange(f.wallet), f.opening.value.id, sequence)] else db.ledger
  {
    hide InstallRow, WalletsAfter, EventsOf, OpeningChange, EntryOf;
    if f.opening.Some? {
      OpeningLeavesIndexes(InstallWallet(db, f.wallet), f.opening.value);
    }
  }

  lemma OpeningLeavesIndexes(db: Db, t: Tx)
    requires t.business.kind.Opening?
    ensures var r := InstallRow(db, t);
      r.externals == db.externals && r.keys == db.keys && r.reversals == db.reversals && r.ledger == db.ledger
  {
  }

  lemma FoundAdvances(db: Db, f: Found, sequence: nat)
    requires FoundOk(db, f)
    ensures Advances(db, InstallFound(db, f, sequence))
  {
    InstallFoundTables(db, f, sequence);
    FoundLeaves(db, f, sequence);
    hide InstallFound, OpeningRowOk, OpeningChange, EntryOf;
  }

  ghost predicate FoundCovered(locks: map<Resource, Sid>, f: Found, holder: Sid) {
    && Mine(locks, OwnerLock((f.wallet.player, f.wallet.balance.currency)), holder)
    && Mine(locks, Identity(f.wallet.id), holder)
    && (f.opening.Some? ==> Mine(locks, Identity(f.opening.value.id), holder))
  }

  lemma FoundUntouched(db: Db, f: Found, sequence: nat, locks: map<Resource, Sid>, holder: Sid, sid: Sid)
    requires FoundOk(db, f) && FoundCovered(locks, f, holder) && holder != sid
    ensures Untouched(db, InstallFound(db, f, sequence), locks, sid)
  {
    hide InstallFound, OpeningRowOk, OpeningChange, EntryOf;
    InstallFoundTables(db, f, sequence);
    FoundLeaves(db, f, sequence);
    FoundLeavesLedger(db, f, sequence, locks, sid);
    hide LedgerLeftAlone;
  }

  lemma FoundLeavesLedger(db: Db, f: Found, sequence: nat, locks: map<Resource, Sid>, sid: Sid)
    requires FoundOk(db, f)
    ensures LedgerLeftAlone(db.wallets, db.ledger, InstallFound(db, f, sequence).ledger, locks, sid)
  {
    hide InstallFound, OpeningRowOk;
    FoundLeaves(db, f, sequence);
  }

  // ---- A commit, whatever it concludes ----

  lemma InboxStep(db: Db, d: Db, k: MessageKey, row: InboxRow)
    requires Advances(db, d) && d.inbox == db.inbox && (k in db.inbox ==> CountsUp(db.inbox[k], row))
    ensures Advances(db, d.(inbox := d.inbox[k := row]))
  {
    hide WalletsAdvance, RowsAdvance, ReversalsAdvance, Extends;
  }

  lemma InboxLeftAlone(db: Db, d: Db, k: MessageKey, row: InboxRow, locks: map<Resource, Sid>, holder: Sid, sid: Sid)
    requires Untouched(db, d, locks, sid) && d.inbox == db.inbox && Mine(locks, InboxLock(k), holder) && holder != sid
    ensures Untouched(db, d.(inbox := d.inbox[k := row]), locks, sid)
  {
    hide LedgerLeftAlone;
  }

  lemma InboxKeepsInv(d: Db, k: MessageKey, row: InboxRow)
    requires DbInv(d) && row.completedAt.Some? && row.receivedAt <= row.completedAt.value && row.attempts >= 1
    ensures DbInv(d.(inbox := d.inbox[k := row]))
  {
    hide RowsOk, WalletsOk, IndexesExact, OwnersExact, LedgerMatchesRows, ChainsOk, TransactionEventsExact;
    hide WalletEventsExact, ParkedOk;
  }

  lemma DecisionCovered(locking: bool, db: Db, locks: map<Resource, Sid>, next: nat, sid: Sid, a: Session, d: Decision)
    requires Decisive(locking, db, locks, next, sid, a, d) && IdsHeld(db, locks, sid, a)
    ensures Covered(locks, d.write, sid)
    ensures a.task.Deliver? ==> d.write.tx.business == a.task.cmd.business && a.task.cmd.business.kind.IsExternal()
    ensures a.task.Expire? ==> d.write.tx.id == a.task.tx
    ensures !a.task.OpenFor?
  {
    hide Finish, VerdictSeen, WalletSeen, WaitingSeen, InsertGuard, Sequenced, NewExternal;
    FinishShape(d.job, a.now);
    if d.job.inserted && JobSeen(locking, db, locks, sid, a, d.job) {
      NewExternalIsWorkable(a.task.cmd, a.id, a.now);
      assert d.write.tx.business.kind.IsExternal();
    }
    hide Workable, Decisive, JobSeen, ExpirySeen;
  }

  /** What commits keeps the invariant of the committed state, and what other sessions rely on. */
  ghost predicate Harmless(db: Db, d: Db, locks: map<Resource, Sid>, next: nat, sid: Sid) {
    && DbInv(d) && SequencesBelow(d.ledger, next) && Advances(db, d)
    && forall other: Sid | other != sid :: Untouched(db, d, locks, other)
  }

  lemma DecisionHarmless(locking: bool, db: Db, locks: map<Resource, Sid>, next: nat, sid: Sid, a: Session, d: Decision)
    requires DbInv(db) && SequencesBelow(db.ledger, next)
    requires Decisive(locking, db, locks, next, sid, a, d) && IdsHeld(db, locks, sid, a)
    ensures Harmless(db, Install(db, d.write, d.sequence), locks, next, sid)
    ensures Truthful(Install(db, d.write, d.sequence), a.task, d.answer)
  {
    hide Decisive, Covered, WriteOk, DbInv, SequencesBelow, Finished, IdsHeld, Harmless, Install, InstallRow, EventsOf;
    DecisiveWritesOk(locking, db, locks, next, sid, a, d);
    DecisionCovered(locking, db, locks, next, sid, a, d);
    DecisiveSequence(locking, db, locks, next, sid, a, d);
    WriteHarmless(db, d.write, d.sequence, locks, next, sid);
    InstallTables(db, d.write, d.sequence);
    InstallRowTables(db, d.write.tx);
  }

  lemma DecisiveSequence(locking: bool, db: Db, locks: map<Resource, Sid>, next: nat, sid: Sid, a: Session, d: Decision)
    requires Decisive(locking, db, locks, next, sid, a, d)
    ensures d.write.posting.Some? ==> 0 < d.sequence < next
  {
    hide DecisionSeen;
  }

  lemma FoundLedgerBelow(db: Db, f: Found, sequence: nat, next: nat)
    requires FoundOk(db, f) && SequencesBelow(db.ledger, next) && (f.opening.Some? ==> 0 < sequence < next)
    ensures SequencesBelow(InstallFound(db, f, sequence).ledger, next)
  {
    FoundLeaves(db, f, sequence);
    hide FoundOk, InstallFound, OpeningChange;
  }

  lemma LedgerBelow(db: Db, w: Write, sequence: nat, next: nat)
    requires SequencesBelow(db.ledger, next) && (w.posting.Some? ==> 0 < sequence < next)
    ensures SequencesBelow(Install(db, w, sequence).ledger, next)
  {
    hide InstallRow, EventsOf, WalletsAfter;
  }

  lemma WriteHarmless(db: Db, w: Write, sequence: nat, locks: map<Resource, Sid>, next: nat, sid: Sid)
    requires DbInv(db) && SequencesBelow(db.ledger, next) && (w.posting.Some? ==> 0 < sequence < next)
    requires WriteOk(db, w, sequence) && Covered(locks, w, sid)
    ensures Harmless(db, Install(db, w, sequence), locks, next, sid)
  {
    hide Covered, WriteOk, Advances, Untouched, Install, SequencesBelow, IndexesExact;
    LedgerBelow(db, w, sequence, next);
    InstallKeepsInv(db, w, sequence);
    assert IndexesExact(db.txs, db.externals, db.keys, db.openings, db.reversals);
    hide DbInv;
    InstallAdvances(db, w, sequence);
    var d := Install(db, w, sequence);
    forall other: Sid | other != sid ensures Untouched(db, d, locks, other) {
      InstallUntouched(db, w, sequence, locks, sid, other);
    }
  }

  lemma FoundingCovered(db: Db, locks: map<Resource, Sid>, sid: Sid, a: Session, f: Found)
    requires FoundSeen(db, locks, sid, a, f) && IdsHeld(db, locks, sid, a)
    ensures FoundOk(db, f) && FoundCovered(locks, f, sid)
  {
    OpenPlanIsOk(db, a.task.player, a.task.initial, a.walletId, a.id, a.now);
  }

  lemma FoundingHarmless(db: Db, locks: map<Resource, Sid>, next: nat, sid: Sid, a: Session, f: Found, sequence: nat)
    requires DbInv(db) && SequencesBelow(db.ledger, next) && (f.opening.Some? ==> 0 < sequence < next)
    requires FoundSeen(db, locks, sid, a, f) && IdsHeld(db, locks, sid, a)
    ensures Harmless(db, InstallFound(db, f, sequence), locks, next, sid)
  {
    hide FoundOk, FoundCovered, Advances, Untouched, DbInv, InstallFound, FoundSeen, IdsHeld, SequencesBelow;
    FoundingCovered(db, locks, sid, a, f);
    FoundKeepsInv(db, f, sequence);
    FoundLedgerBelow(db, f, sequence, next);
    FoundAdvances(db, f, sequence);
    var d := InstallFound(db, f, sequence);
    forall other: Sid | other != sid ensures Untouched(db, d, locks, other) {
      FoundUntouched(db, f, sequence, locks, sid, other);
    }
  }

  lemma QuietHarmless(db: Db, locks: map<Resource, Sid>, next: nat, sid: Sid)
    requires DbInv(db) && SequencesBelow(db.ledger, next)
    ensures Harmless(db, db, locks, next, sid)
  {
    hide DbInv;
  }

  lemma EffectHarmless(locking: bool, db: Db, locks: map<Resource, Sid>, next: nat, sid: Sid, a: Session, o: Conclusion)
    requires DbInv(db) && SequencesBelow(db.ledger, next)
    requires ConclusionSeen(locking, db, locks, next, sid, a, o) && IdsHeld(db, locks, sid, a)
    ensures Harmless(db, Effect(db, o), locks, next, sid)
    ensures AnswerOfConclusion(o).Some? ==> Truthful(Effect(db, o), a.task, AnswerOfConclusion(o).value)
  {
    hide DbInv, Harmless, Decisive, FoundSeen, Truthful, Install, InstallFound, IdsHeld;
    match o
    case Quiet(_) => QuietHarmless(db, locks, next, sid);
    case Decided(d) => DecisionHarmless(locking, db, locks, next, sid, a, d);
    case Founding(f, sequence) => FoundingHarmless(db, locks, next, sid, a, f, sequence);
  }

  lemma EffectKeepsInbox(db: Db, o: Conclusion)
    ensures Effect(db, o).inbox == db.inbox
  {
    hide EventsOf, WalletsAfter, LedgerAfter, EntryOf, OpeningChange;
  }

  lemma CommitHarmless(locking: bool, db: Db, locks: map<Resource, Sid>, next: nat, sid: Sid, a: Session)
    requires DbInv(db) && SequencesBelow(db.ledger, next)
    requires SessionOk(locking, db, locks, next, sid, a) && a.pc.Ready?
    ensures Harmless(db, Apply(db, a, a.pc.conclusion), locks, next, sid)
    ensures AnswerOfConclusion(a.pc.conclusion).Some? ==>
      Truthful(Apply(db, a, a.pc.conclusion), a.task, AnswerOfConclusion(a.pc.conclusion).value)
  {
    hide DbInv, Decisive, FoundSeen, Advances, Untouched, IdsHeld, Effect;
    var o := a.pc.conclusion;
    EffectHarmless(locking, db, locks, next, sid, a, o);
    EffectKeepsInbox(db, o);
    var d := Effect(db, o);
    if a.inbox.Some? && a.task.Deliver? && a.task.message.Some? {
      var k := a.task.message.value.key;
      InboxKeepsInv(d, k, a.inbox.value);
      InboxStep(db, d, k, a.inbox.value);
      var d1 := d.(inbox := d.inbox[k := a.inbox.value]);
      forall other: Sid | other != sid ensures Untouched(db, d1, locks, other) {
        InboxLeftAlone(db, d, k, a.inbox.value, locks, sid, other);
      }
    }
  }

  // ---- The steps ----

  lemma UnlockedKeeps(locks: map<Resource, Sid>, sid: Sid)
    ensures forall other: Sid | other != sid :: SameLocks(locks, Unlocked(locks, sid), other)
  {
  }

  lemma LockedKeeps(locks: map<Resource, Sid>, rs: set<Resource>, sid: Sid)
    requires Free(locks, rs, sid)
    ensures forall other: Sid | other != sid :: SameLocks(locks, Locked(locks, rs, sid), other)
  {
  }

  /** The other sessions after a step that may have committed. */
  lemma OthersStable(locking: bool, s: Sys, t: Sys, sid: Sid)
    requires SessionsOk(locking, s) && Advances(s.db, t.db) && s.next <= t.next
    requires forall other: Sid | other != sid ::
      Untouched(s.db, t.db, s.locks, other) && SameLocks(s.locks, t.locks, other)
    requires forall other: Sid | other in t.sessions && other != sid ::
      other in s.sessions && t.sessions[other] == s.sessions[other]
    requires sid in t.sessions ==> SessionOk(locking, t.db, t.locks, t.next, sid, t.sessions[sid])
    ensures SessionsOk(locking, t)
  {
    hide SessionOk, Advances, Untouched, SameLocks;
    forall other | other in t.sessions && other != sid
      ensures SessionOk(locking, t.db, t.locks, t.next, other, t.sessions[other]) {
      SessionStable(locking, s.db, t.db, s.locks, t.locks, s.next, t.next, other, s.sessions[other]);
    }
  }

  lemma RepliesStable(db: Db, d: Db, replies: seq<Reply>)
    requires RepliesTruthful(db, replies) && Advances(db, d)
    ensures RepliesTruthful(d, replies)
  {
    hide Truthful, WalletsAdvance, RowsAdvance, ReversalsAdvance, InboxAdvances;
    forall i | 0 <= i < |replies| ensures Truthful(d, replies[i].task, replies[i].answer) {
      TruthfulStable(db, d, replies[i].task, replies[i].answer);
    }
  }

  lemma CommittedOk(locking: bool, db: Db, locks: map<Resource, Sid>, next: nat, sid: Sid, a: Session)
    requires a.attempt < MAX_ATTEMPTS && a.pc.Committed?
    requires (a.pc.answer.Some? ==> Truthful(db, a.task, a.pc.answer.value))
    ensures SessionOk(locking, db, locks, next, sid, a)
  {
  }

  lemma CommitKeeps(locking: bool, s: Sys, t: Sys, sid: Sid)
    requires Inv(locking, s) && StepCommit(s, t, sid)
    ensures Inv(locking, t) && Harmless(s.db, t.db, s.locks, s.next, sid)
  {
    hide DbInv, Advances, Untouched, SameLocks, SequencesBelow, Truthful, SessionOk, Apply;
    var a := s.sessions[sid];
    CommitHarmless(locking, s.db, s.locks, s.next, sid, a);
    AttemptBound(locking, s, sid);
    CommittedOk(locking, t.db, t.locks, t.next, sid, t.sessions[sid]);
    UnlockedKeeps(s.locks, sid);
    OthersStable(locking, s, t, sid);
    RepliesStable(s.db, t.db, s.replies);
  }

  lemma AttemptBound(locking: bool, s: Sys, sid: Sid)
    requires SessionsOk(locking, s) && sid in s.sessions
    ensures s.sessions[sid].attempt < MAX_ATTEMPTS
  {
  }

  lemma RunStepKeeps(locking: bool, s: Sys, t: Sys, sid: Sid)
    requires Inv(locking, s) && StepRun(locking, s, t, sid)
    ensures Inv(locking, t)
  {
    hide DbInv, Advances, Untouched, SameLocks, Gains, Truthful, SessionOk, Statement;
    var m := Statement(locking, s.db, s.sessions[sid], s.next);
    LockedGains(s.locks, m.acquire, sid);
    RunKeeps(locking, s.db, s.locks, t.locks, s.next, sid, s.sessions[sid]);
    LockedKeeps(s.locks, m.acquire, sid);
    Standing(s, t, sid);
    OthersStable(locking, s, t, sid);
  }

  /** Nothing is committed. */
  lemma Standing(s: Sys, t: Sys, sid: Sid)
    requires t.db == s.db && forall other: Sid | other != sid :: SameLocks(s.locks, t.locks, other)
    ensures Advances(s.db, t.db)
    ensures forall other: Sid | other != sid :: Untouched(s.db, t.db, s.locks, other)
  {
    hide Advances, Untouched, SameLocks;
    SameLocksRefl(s.locks, sid);
    StandingStill(s.db, s.locks, s.locks, sid);
    forall other: Sid | other != sid ensures Untouched(s.db, t.db, s.locks, other) {
      StandingStill(s.db, s.locks, t.locks, other);
    }
  }

  lemma SameLocksRefl(locks: map<Resource, Sid>, sid: Sid)
    ensures SameLocks(locks, locks, sid)
  {
  }

  lemma FreshSessionOk(locking: bool, db: Db, locks: map<Resource, Sid>, next: nat, sid: Sid, a: Session)
    requires a.attempt < MAX_ATTEMPTS && a.pc.Begun? && a.inbox.None? && IdsHeld(db, locks, sid, a)
    ensures SessionOk(locking, db, locks, next, sid, a)
  {
  }

  lemma StartKeeps(locking: bool, s: Sys, t: Sys, sid: Sid, a: Session)
    requires Inv(locking, s) && StepStart(s, t, sid, a)
    ensures Inv(locking, t)
  {
    hide DbInv, Advances, Untouched, SameLocks, SequencesBelow, Truthful, SessionOk;
    FreshSessionOk(locking, t.db, t.locks, t.next, sid, a);
    LockedKeeps(s.locks, Ids(a), sid);
    Standing(s, t, sid);
    OthersStable(locking, s, t, sid);
  }

  lemma RetryKeeps(locking: bool, s: Sys, t: Sys, sid: Sid, a: Session)
    requires Inv(locking, s) && StepRetry(locking, s, t, sid, a)
    ensures Inv(locking, t)
  {
    hide DbInv, Advances, Untouched, SequencesBelow, Truthful, SessionOk, Statement;
    FreshSessionOk(locking, t.db, t.locks, t.next, sid, a);
    UnlockedKeeps(s.locks, sid);
    LockedKeeps(Unlocked(s.locks, sid), Ids(a), sid);
    Standing(s, t, sid);
    OthersStable(locking, s, t, sid);
  }

  lemma StopKeeps(locking: bool, s: Sys, t: Sys, sid: Sid)
    requires Inv(locking, s) && StepStop(s, t, sid)
    ensures Inv(locking, t)
  {
    hide DbInv, Advances, Untouched, SameLocks, SequencesBelow, Truthful, SessionOk;
    UnlockedKeeps(s.locks, sid);
    Standing(s, t, sid);
    OthersStable(locking, s, t, sid);
  }

  lemma EndKeeps(locking: bool, s: Sys, t: Sys, sid: Sid)
    requires Inv(locking, s) && (StepAnswered(s, t, sid) || StepLost(s, t, sid))
    ensures Inv(locking, t)
  {
    hide DbInv, SequencesBelow, Truthful, IdsHeld, InboxSeen;
    assert SessionOk(locking, s.db, s.locks, s.next, sid, s.sessions[sid]);
    hide SessionOk;
  }

  lemma SkipKeeps(locking: bool, s: Sys, t: Sys, gap: nat)
    requires Inv(locking, s) && t == s.(next := s.next + gap)
    ensures Inv(locking, t)
  {
    hide DbInv, Advances, Untouched, SameLocks, Truthful, SessionOk;
    forall other: Sid ensures SameLocks(s.locks, t.locks, other) {
      SameLocksRefl(s.locks, other);
    }
    Standing(s, t, 0);
    if 0 in s.sessions {
      Standing(s, t, 1);
      SessionStable(locking, s.db, t.db, s.locks, t.locks, s.next, t.next, 0, s.sessions[0]);
    }
    OthersStable(locking, s, t, 0);
  }

  lemma StepKeeps(locking: bool, s: Sys, t: Sys, action: Action)
    requires Inv(locking, s) && Step(locking, s, t, action)
    ensures Inv(locking, t)
  {
    hide Inv, StepStart, StepRun, StepCommit, StepStop, StepRetry, StepAnswered, StepLost;
    match action
    case Start(sid, a) => StartKeeps(locking, s, t, sid, a);
    case Run(sid) => RunStepKeeps(locking, s, t, sid);
    case Commit(sid) => CommitKeeps(locking, s, t, sid);
    case Stop(sid) => StopKeeps(locking, s, t, sid);
    case Retry(sid, a) => RetryKeeps(locking, s, t, sid, a);
    case Answered(sid) => EndKeeps(locking, s, t, sid);
    case Lost(sid) => EndKeeps(locking, s, t, sid);
    case Skip(gap) => SkipKeeps(locking, s, t, gap);
  }

  lemma InitialInv(locking: bool)
    ensures Inv(locking, INIT)
  {
    EmptyInv();
    hide DbInv;
  }

  /** The invariant holds in every state of every run. */
  lemma {:induction false} RunsKeepInv(locking: bool, states: seq<Sys>, actions: seq<Action>, i: nat)
    requires IsRun(locking, states, actions) && i < |states|
    ensures Inv(locking, states[i])
  {
    hide Inv, Step;
    if i == 0 {
      InitialInv(locking);
    } else {
      RunsKeepInv(locking, states, actions, i - 1);
      assert Step(locking, states[i - 1], states[i - 1 + 1], actions[i - 1]);
      StepKeeps(locking, states[i - 1], states[i], actions[i - 1]);
    }
  }
}
