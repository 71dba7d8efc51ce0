/** What an open session knows about the committed state, and why no other session can make it false. */
module Sessions {
  import opened Outcome
  import opened Monetary
  import opened Wager
  import opened Database
  import opened History
  import opened Openings
  import opened Protocol

  // ---- Knowledge of a session ----

  ghost predicate TxSeen(db: Db, locks: map<Resource, Sid>, sid: Sid, a: Session, t: Tx, inserted: bool) {
    && a.task.Deliver? && t.business == a.task.cmd.business && ValidCommand(a.task.cmd)
    && (if inserted
        then && NewExternal(a.task.cmd, a.id, a.now) == Ok(t) && InsertGuard(db, t).Ok?
             && Mine(locks, ExternalLock((t.business.provider, t.business.externalId)), sid)
             && Mine(locks, KeyLock((t.business.provider, t.key)), sid)
        else && Get(db.externals, (t.business.provider, t.business.externalId)) == Some(t.id)
             && WaitingSeen(db, t))
  }

  /** The row was waiting when it was read; since then it has only possibly been concluded. */
  ghost predicate WaitingSeen(db: Db, t: Tx) {
    && t.state.PendingReference? && t.business.kind.RequiresReference()
    && t.id in db.txs && db.txs[t.id].business == t.business && (db.txs[t.id] == t || db.txs[t.id].state.IsTerminal())
  }

  /** The wallet row that was read is current as long as the version has not moved, and it is current while locked. */
  ghost predicate WalletSeen(db: Db, locks: map<Resource, Sid>, sid: Sid, w: WalletRow, id: Id) {
    && w.id == id && w.balance.Initialized() && w.balance.cents >= 0 && w.version >= 1 && w.updatedAt != ZERO_TIME
    && id in db.wallets && w.version <= db.wallets[id].version && w.player == db.wallets[id].player
    && (w.version == db.wallets[id].version ==> w == db.wallets[id])
    && (Mine(locks, WalletLock(id), sid) ==> w == db.wallets[id])
  }

  ghost predicate ReferenceSeen(db: Db, t: Tx, r: Tx) {
    && Get(db.externals, (t.business.provider, t.business.reference)) == Some(r.id)
    && r.id in db.txs && db.txs[r.id] == r && r.state.IsTerminal()
  }

  ghost predicate NotReversedSince(db: Db, w: WalletRow, r: Tx) {
    w.id in db.wallets && db.wallets[w.id].version == w.version ==> r.id !in db.reversals
  }

  ghost predicate VerdictSeen(db: Db, job: Job)
    requires job.wallet.Some?
  {
    var onWallet := JudgeWallet(job.wallet, job.tx.business);
    var onReference := JudgeReference(job.tx, job.reference);
    match job.verdict
    case Consult => onWallet.Consult?
          && (job.reference.Some? ==> onReference.Consult? && ReferenceSeen(db, job.tx, job.reference.value))
    case Wait => onWallet.Consult?
    case Settle =>
      if job.reference.None? then onWallet.Settle?
      else onWallet.Consult? && onReference.Consult? && ReferenceSeen(db, job.tx, job.reference.value)
           && NotReversedSince(db, job.wallet.value, job.reference.value)
    case Refuse(code) =>
      if job.reference.None? then onWallet == Refuse(code)
      else && onWallet.Consult? && ReferenceSeen(db, job.tx, job.reference.value)
           && (onReference == Refuse(code)
               || (onReference.Consult? && code == AlreadyReversedCode && job.reference.value.id in db.reversals))
  }

  ghost predicate JobSeen(locking: bool, db: Db, locks: map<Resource, Sid>, sid: Sid, a: Session, job: Job) {
    && TxSeen(db, locks, sid, a, job.tx, job.inserted)
    && job.wallet.Some? && WalletSeen(db, locks, sid, job.wallet.value, job.tx.business.wallet)
    && (locking ==> Mine(locks, WalletLock(job.tx.business.wallet), sid))
    && VerdictSeen(db, job)
  }

  ghost predicate ExpirySeen(db: Db, a: Session, job: Job) {
    a.task.Expire? && a.task.tx == job.tx.id && WaitingSeen(db, job.tx)
    && job == Job(job.tx, false, None, None, Refuse(ReferenceNotFoundCode))
  }

  ghost predicate DecisionSeen(locking: bool, db: Db, locks: map<Resource, Sid>, sid: Sid, a: Session, d: Decision) {
    && (JobSeen(locking, db, locks, sid, a, d.job) || ExpirySeen(db, a, d.job))
    && Finish(d.job, a.now) == Writes(d.write, d.answer)
  }

  /** The balance was updated: the wallet row is locked, and still the one that was read. */
  ghost predicate Held(db: Db, locks: map<Resource, Sid>, sid: Sid, d: Decision) {
    d.write.posting.Some? ==>
      Mine(locks, WalletLock(d.job.tx.business.wallet), sid) && d.job.tx.business.wallet in db.wallets
  }

  ghost predicate Sequenced(db: Db, next: nat, d: Decision) {
    d.write.posting.Some? ==> 0 < d.sequence < next && LastInSequence(db.ledger, d.job.tx.business.wallet, d.sequence)
  }

  /** The row was updated: it is locked, still the one that was read, and no reversal can be taken by another. */
  ghost predicate RowHeld(db: Db, locks: map<Resource, Sid>, sid: Sid, d: Decision) {
    && Mine(locks, RowLock(d.write.tx.id), sid)
    && (!d.write.inserted ==> d.write.tx.id in db.txs && db.txs[d.write.tx.id] == d.job.tx)
    && !Taken(db.reversals, ReversalKey(d.write.tx))
    && (ReversalKey(d.write.tx).Some? ==> Mine(locks, ReversalLock(d.write.tx.referenceId), sid))
  }

  ghost predicate Decisive(locking: bool, db: Db, locks: map<Resource, Sid>, next: nat, sid: Sid, a: Session,
                           d: Decision) {
    && DecisionSeen(locking, db, locks, sid, a, d)
    && Held(db, locks, sid, d) && Sequenced(db, next, d) && RowHeld(db, locks, sid, d)
  }

  ghost predicate FoundSeen(db: Db, locks: map<Resource, Sid>, sid: Sid, a: Session, f: Found) {
    && a.task.OpenFor?
    && OpenPlan(db, a.task.player, a.task.initial, a.walletId, a.id, a.now) == Ok(f)
    && Mine(locks, OwnerLock((a.task.player, a.task.initial.currency)), sid)
  }

  /** A terminal answer repeats the row it is about. */
  ghost predicate Truthful(db: Db, task: Task, answer: Answer) {
    match answer
    case Duplicate => true
    case Answer(id, state, balance, failure, replayed) =>
      && id in db.txs
      && (state.IsTerminal() ==>
            db.txs[id].state == state && db.txs[id].result == balance && db.txs[id].failure == failure)
      && match task
         case Deliver(cmd, _) => db.txs[id].business == cmd.business && cmd.business.kind.IsExternal()
         case Expire(tx) => id == tx
         case OpenFor(_, _) => false
  }

  ghost predicate ConclusionSeen(locking: bool, db: Db, locks: map<Resource, Sid>, next: nat, sid: Sid, a: Session,
                                 o: Conclusion) {
    match o
    case Quiet(answer) => Truthful(db, a.task, answer)
    case Decided(d) => Decisive(locking, db, locks, next, sid, a, d)
    case Founding(f, sequence) => FoundSeen(db, locks, sid, a, f) && (f.opening.Some? ==> 0 < sequence < next)
  }

  /** The row of a message that was delivered again: nothing but its number of deliveries moves. */
  ghost predicate CountsUp(was: InboxRow, row: InboxRow) {
    row == was.(attempts := row.attempts) && was.attempts <= row.attempts
  }

  /** The inbox row a delivery registered: of a message nobody handled yet, or counting a duplicate. */
  ghost predicate InboxSeen(db: Db, locks: map<Resource, Sid>, sid: Sid, a: Session) {
    && (a.inbox.Some? ==>
          && a.task.Deliver? && a.task.message.Some?
          && Mine(locks, InboxLock(a.task.message.value.key), sid)
          && a.inbox.value.hash == a.task.message.value.hash
          && var k, row := a.task.message.value.key, a.inbox.value;
          if k !in db.inbox then row.attempts == 1
          else a.pc == Ready(Quiet(Duplicate)) && row == db.inbox[k].(attempts := db.inbox[k].attempts + 1))
    && (a.inbox.None? && a.task.Deliver? && a.task.message.Some? ==> a.pc.Begun?)
    && (a.pc.Ready? && a.inbox.Some? ==>
          a.inbox.value.completedAt.Some? && a.inbox.value.receivedAt <= a.inbox.value.completedAt.value)
  }

  ghost predicate IdsHeld(db: Db, locks: map<Resource, Sid>, sid: Sid, a: Session) {
    && a.id != 0 && a.walletId != 0 && a.id !in db.txs && a.walletId !in db.wallets
    && Mine(locks, Identity(a.id), sid) && Mine(locks, Identity(a.walletId), sid)
  }

  ghost predicate PcOk(locking: bool, db: Db, locks: map<Resource, Sid>, next: nat, sid: Sid, a: Session) {
    match a.pc
    case Begun => true
    case Registered => a.task.Deliver? && ValidCommand(a.task.cmd)
    case Absent => a.task.Deliver? && ValidCommand(a.task.cmd)
    case Recording(t, inserted) => TxSeen(db, locks, sid, a, t, inserted)
    case Consulting(job) => JobSeen(locking, db, locks, sid, a, job) && job.verdict.Consult? && job.reference.None?
    case Checking(job) => JobSeen(locking, db, locks, sid, a, job) && job.verdict.Consult? && job.reference.Some?
    case Moving(d) => DecisionSeen(locking, db, locks, sid, a, d) && d.write.posting.Some?
    case Entering(d) => DecisionSeen(locking, db, locks, sid, a, d) && d.write.posting.Some? && Held(db, locks, sid, d)
    case Updating(d) => DecisionSeen(locking, db, locks, sid, a, d) && Held(db, locks, sid, d) && Sequenced(db, next, d)
    case Saving(d) => Decisive(locking, db, locks, next, sid, a, d)
    case Unowned => a.task.OpenFor?
    case Crediting(f) => FoundSeen(db, locks, sid, a, f)
    case Completing(o) => ConclusionSeen(locking, db, locks, next, sid, a, o)
    case Ready(o) => ConclusionSeen(locking, db, locks, next, sid, a, o)
    case Committed(answer) => answer.Some? ==> Truthful(db, a.task, answer.value)
  }

  ghost predicate SessionOk(locking: bool, db: Db, locks: map<Resource, Sid>, next: nat, sid: Sid, a: Session) {
    && a.attempt < MAX_ATTEMPTS && (a.pc.Begun? ==> a.inbox.None?)
    && (!a.pc.Committed? ==> IdsHeld(db, locks, sid, a) && InboxSeen(db, locks, sid, a))
    && PcOk(locking, db, locks, next, sid, a)
  }

  // ---- What every commit does to the committed state ----

  /** A wallet moves only together with its version. */
  ghost predicate WalletsAdvance(wallets: map<Id, WalletRow>, after: map<Id, WalletRow>) {
    forall id | id in wallets ::
      && id in after && wallets[id].version <= after[id].version
      && after[id].player == wallets[id].player && after[id].balance.currency == wallets[id].balance.currency
      && (wallets[id].version == after[id].version ==> after[id] == wallets[id])
  }

  /** A row stays as it is, or is concluded once and for all. */
  ghost predicate RowsAdvance(txs: map<Id, Tx>, after: map<Id, Tx>) {
    forall id | id in txs ::
      && id in after && after[id].business == txs[id].business
      && (after[id] == txs[id] || (!txs[id].state.IsTerminal() && after[id].state.IsTerminal()))
  }

  ghost predicate Extends<K(!new)>(index: map<K, Id>, after: map<K, Id>) {
    forall k | k in index :: k in after && after[k] == index[k]
  }

  /** A new reversal comes with a new version of the wallet of what it reverses. */
  ghost predicate ReversalsAdvance(txs: map<Id, Tx>, reversals: map<Id, Id>, reversals1: map<Id, Id>, wallets: map<Id,
                                   WalletRow>, wallets1: map<Id, WalletRow>) {
    forall r | r in reversals1 && r !in reversals && r in txs ::
      var w := txs[r].business.wallet;
      w in wallets && w in wallets1 && wallets[w].version < wallets1[w].version
  }

  ghost predicate InboxAdvances(inbox: map<MessageKey, InboxRow>, after: map<MessageKey, InboxRow>) {
    forall k | k in inbox :: k in after && CountsUp(inbox[k], after[k])
  }

  ghost predicate Advances(db: Db, d: Db) {
    && WalletsAdvance(db.wallets, d.wallets) && RowsAdvance(db.txs, d.txs)
    && Extends(db.externals, d.externals) && Extends(db.reversals, d.reversals)
    && ReversalsAdvance(db.txs, db.reversals, d.reversals, db.wallets, d.wallets)
    && InboxAdvances(db.inbox, d.inbox)
  }

  function LockOfWallet(id: Id): Resource { WalletLock(id) }
  function LockOfRow(id: Id): Resource { RowLock(id) }
  function LockOfExternal(k: (string, string)): Resource { ExternalLock(k) }
  function LockOfKey(k: (string, string)): Resource { KeyLock(k) }
  function LockOfReversal(id: Id): Resource { ReversalLock(id) }
  function LockOfOwner(k: (Id, Currency)): Resource { OwnerLock(k) }
  function LockOfMessage(k: MessageKey): Resource { InboxLock(k) }
  function LockOfIdentity(id: Id): Resource { Identity(id) }

  /** The other sessions insert no key that is held. */
  ghost predicate KeysLeftAlone<K(!new), V>(index: map<K, V>, after: map<K, V>, lock: K -> Resource,
                                            locks: map<Resource, Sid>, sid: Sid) {
    forall k | k in after && k !in index :: !Mine(locks, lock(k), sid)
  }

  /** The other sessions change no row that is held. */
  ghost predicate RowsLeftAlone<K(!new), V>(rows: map<K, V>, after: map<K, V>, lock: K -> Resource,
                                            locks: map<Resource, Sid>, sid: Sid) {
    forall k | k in rows && Mine(locks, lock(k), sid) :: Get(after, k) == Some(rows[k])
  }

  ghost predicate LedgerLeftAlone(wallets: map<Id, WalletRow>, ledger: seq<Entry>, after: seq<Entry>,
                                  locks: map<Resource, Sid>, sid: Sid) {
    && ledger <= after
    && forall i | |ledger| <= i < |after| && after[i].wallet in wallets ::
          !Mine(locks, WalletLock(after[i].wallet), sid)
  }

  /** A commit of another session leaves alone what this one holds. */
  ghost predicate Untouched(db: Db, d: Db, locks: map<Resource, Sid>, sid: Sid) {
    && RowsLeftAlone(db.wallets, d.wallets, LockOfWallet, locks, sid)
    && RowsLeftAlone(db.txs, d.txs, LockOfRow, locks, sid)
    && LedgerLeftAlone(db.wallets, db.ledger, d.ledger, locks, sid)
    && KeysLeftAlone(db.externals, d.externals, LockOfExternal, locks, sid)
    && KeysLeftAlone(db.keys, d.keys, LockOfKey, locks, sid)
    && KeysLeftAlone(db.reversals, d.reversals, LockOfReversal, locks, sid)
    && KeysLeftAlone(db.owners, d.owners, LockOfOwner, locks, sid)
    && KeysLeftAlone(db.inbox, d.inbox, LockOfMessage, locks, sid)
    && RowsLeftAlone(db.inbox, d.inbox, LockOfMessage, locks, sid)
    && KeysLeftAlone(db.txs, d.txs, LockOfIdentity, locks, sid)
    && KeysLeftAlone(db.wallets, d.wallets, LockOfIdentity, locks, sid)
  }

  /** The session keeps what it holds. */
  ghost predicate SameLocks(locks: map<Resource, Sid>, after: map<Resource, Sid>, sid: Sid) {
    forall r :: Mine(locks, r, sid) <==> Mine(after, r, sid)
  }

  ghost predicate Stable(db: Db, d: Db, locks: map<Resource, Sid>, after: map<Resource, Sid>, sid: Sid) {
    Advances(db, d) && Untouched(db, d, locks, sid) && SameLocks(locks, after, sid)
  }

  // ---- Stability, piece by piece ----

  lemma WaitingSeenStable(db: Db, d: Db, t: Tx)
    requires RowsAdvance(db.txs, d.txs) && WaitingSeen(db, t)
    ensures WaitingSeen(d, t)
  {
  }

  lemma InsertGuardStable(db: Db, d: Db, t: Tx, locks: map<Resource, Sid>, sid: Sid)
    requires t.business.kind.IsExternal() && InsertGuard(db, t).Ok? && WalletsAdvance(db.wallets, d.wallets)
    requires KeysLeftAlone(db.externals, d.externals, LockOfExternal, locks, sid)
    requires Mine(locks, ExternalLock((t.business.provider, t.business.externalId)), sid)
    requires KeysLeftAlone(db.keys, d.keys, LockOfKey, locks, sid)
    requires Mine(locks, KeyLock((t.business.provider, t.key)), sid)
    ensures InsertGuard(d, t).Ok?
  {
  }

  lemma TxSeenStable(db: Db, d: Db, locks: map<Resource, Sid>, after: map<Resource, Sid>, sid: Sid, a: Session, t: Tx,
                     inserted: bool)
    requires Stable(db, d, locks, after, sid) && TxSeen(db, locks, sid, a, t, inserted)
    ensures TxSeen(d, after, sid, a, t, inserted)
  {
    hide NewExternal, WaitingSeen, InsertGuard, WalletsAdvance, RowsAdvance, ReversalsAdvance, InboxAdvances;
    hide KeysLeftAlone, RowsLeftAlone, LedgerLeftAlone;
    if inserted {
      InsertGuardStable(db, d, t, locks, sid);
    } else {
      WaitingSeenStable(db, d, t);
    }
  }

  lemma WalletSeenStable(db: Db, d: Db, locks: map<Resource, Sid>, after: map<Resource, Sid>, sid: Sid, w: WalletRow,
                         id: Id)
    requires Stable(db, d, locks, after, sid) && WalletSeen(db, locks, sid, w, id)
    ensures WalletSeen(d, after, sid, w, id)
  {
    hide RowsAdvance, ReversalsAdvance, InboxAdvances, KeysLeftAlone, LedgerLeftAlone, Extends;
  }

  lemma ReferenceSeenStable(db: Db, d: Db, t: Tx, r: Tx)
    requires RowsAdvance(db.txs, d.txs) && Extends(db.externals, d.externals) && ReferenceSeen(db, t, r)
    ensures ReferenceSeen(d, t, r)
  {
  }

  /** As long as the version of the wallet has not moved, nobody reversed the reference. */
  lemma NotReversedStable(db: Db, d: Db, w: WalletRow, r: Tx)
    requires WalletsAdvance(db.wallets, d.wallets)
    requires ReversalsAdvance(db.txs, db.reversals, d.reversals, db.wallets, d.wallets)
    requires NotReversedSince(db, w, r) && w.id in db.wallets && w.version <= db.wallets[w.id].version
    requires r.id in db.txs && db.txs[r.id].business.wallet == w.id
    ensures NotReversedSince(d, w, r)
  {
  }

  lemma VerdictSeenStable(db: Db, d: Db, job: Job)
    requires Advances(db, d) && job.wallet.Some? && VerdictSeen(db, job)
    requires job.wallet.value.id == job.tx.business.wallet
    requires job.wallet.value.id in db.wallets && job.wallet.value.version <= db.wallets[job.wallet.value.id].version
    ensures VerdictSeen(d, job)
  {
    hide JudgeWallet, WalletsAdvance, RowsAdvance, ReversalsAdvance, InboxAdvances, ReferenceSeen, NotReversedSince;
    if job.reference.Some? && !job.verdict.Wait? {
      ReferenceSeenStable(db, d, job.tx, job.reference.value);
      if job.verdict.Settle? {
        assert job.reference.value.business.wallet == job.wallet.value.id;
        ReferenceOnWallet(db, job.tx, job.reference.value);
        NotReversedStable(db, d, job.wallet.value, job.reference.value);
      }
    }
  }

  lemma ReferenceOnWallet(db: Db, t: Tx, r: Tx)
    requires ReferenceSeen(db, t, r)
    ensures r.id in db.txs && db.txs[r.id] == r
  {
  }

  lemma JobSeenStable(locking: bool, db: Db, d: Db, locks: map<Resource, Sid>, after: map<Resource, Sid>, sid: Sid,
                      a: Session, job: Job)
    requires Stable(db, d, locks, after, sid) && JobSeen(locking, db, locks, sid, a, job)
    ensures JobSeen(locking, d, after, sid, a, job)
  {
    hide TxSeen, VerdictSeen, Advances, Untouched;
    TxSeenStable(db, d, locks, after, sid, a, job.tx, job.inserted);
    WalletSeenStable(db, d, locks, after, sid, job.wallet.value, job.tx.business.wallet);
    VerdictSeenStable(db, d, job);
  }

  lemma DecisionSeenStable(locking: bool, db: Db, d: Db, locks: map<Resource, Sid>, after: map<Resource, Sid>, sid: Sid,
                           a: Session, e: Decision)
    requires Stable(db, d, locks, after, sid) && DecisionSeen(locking, db, locks, sid, a, e)
    ensures DecisionSeen(locking, d, after, sid, a, e)
  {
    hide JobSeen, Finish, WaitingSeen, WalletsAdvance, RowsAdvance, ReversalsAdvance, InboxAdvances, Untouched;
    hide SameLocks;
    if JobSeen(locking, db, locks, sid, a, e.job) {
      JobSeenStable(locking, db, d, locks, after, sid, a, e.job);
    } else {
      WaitingSeenStable(db, d, e.job.tx);
    }
  }

  lemma HeldStable(db: Db, d: Db, locks: map<Resource, Sid>, after: map<Resource, Sid>, sid: Sid, e: Decision)
    requires WalletsAdvance(db.wallets, d.wallets) && SameLocks(locks, after, sid) && Held(db, locks, sid, e)
    ensures Held(d, after, sid, e)
  {
  }

  lemma SequencedStable(db: Db, d: Db, locks: map<Resource, Sid>, sid: Sid, next: nat, later: nat, e: Decision)
    requires LedgerLeftAlone(db.wallets, db.ledger, d.ledger, locks, sid) && next <= later
    requires Held(db, locks, sid, e) && Sequenced(db, next, e)
    ensures Sequenced(d, later, e)
  {
    if e.write.posting.Some? {
      forall i | 0 <= i < |d.ledger| && d.ledger[i].wallet == e.job.tx.business.wallet
        ensures d.ledger[i].sequence < e.sequence
      {
        assert i < |db.ledger| && d.ledger[i] == db.ledger[i];
      }
    }
  }

  lemma RowHeldStable(db: Db, d: Db, locks: map<Resource, Sid>, after: map<Resource, Sid>, sid: Sid, e: Decision)
    requires RowsLeftAlone(db.txs, d.txs, LockOfRow, locks, sid)
    requires KeysLeftAlone(db.reversals, d.reversals, LockOfReversal, locks, sid)
    requires SameLocks(locks, after, sid) && RowHeld(db, locks, sid, e)
    ensures RowHeld(d, after, sid, e)
  {
  }

  lemma DecisiveStable(locking: bool, db: Db, d: Db, locks: map<Resource, Sid>, after: map<Resource, Sid>, next: nat,
                       later: nat, sid: Sid, a: Session, e: Decision)
    requires Stable(db, d, locks, after, sid) && next <= later && Decisive(locking, db, locks, next, sid, a, e)
    ensures Decisive(locking, d, after, later, sid, a, e)
  {
    hide DecisionSeen, Held, Sequenced, RowHeld, WalletsAdvance, RowsAdvance, ReversalsAdvance, InboxAdvances;
    hide RowsLeftAlone, KeysLeftAlone, LedgerLeftAlone;
    DecisionSeenStable(locking, db, d, locks, after, sid, a, e);
    HeldStable(db, d, locks, after, sid, e);
    SequencedStable(db, d, locks, sid, next, later, e);
    RowHeldStable(db, d, locks, after, sid, e);
  }

  lemma FoundSeenStable(db: Db, d: Db, locks: map<Resource, Sid>, after: map<Resource, Sid>, sid: Sid, a: Session,
                        f: Found)
    requires KeysLeftAlone(db.owners, d.owners, LockOfOwner, locks, sid) && SameLocks(locks, after, sid)
    requires FoundSeen(db, locks, sid, a, f)
    ensures FoundSeen(d, after, sid, a, f)
  {
    hide FoundOf;
  }

  lemma TruthfulStable(db: Db, d: Db, task: Task, answer: Answer)
    requires RowsAdvance(db.txs, d.txs) && Truthful(db, task, answer)
    ensures Truthful(d, task, answer)
  {
  }

  lemma ConclusionStable(locking: bool, db: Db, d: Db, locks: map<Resource, Sid>, after: map<Resource, Sid>, next: nat,
                         later: nat, sid: Sid, a: Session, o: Conclusion)
    requires Stable(db, d, locks, after, sid) && next <= later && ConclusionSeen(locking, db, locks, next, sid, a, o)
    ensures ConclusionSeen(locking, d, after, later, sid, a, o)
  {
    hide Decisive, FoundSeen, Truthful, WalletsAdvance, RowsAdvance, ReversalsAdvance, InboxAdvances, RowsLeftAlone;
    hide KeysLeftAlone, LedgerLeftAlone;
    match o
    case Quiet(answer) => TruthfulStable(db, d, a.task, answer);
    case Decided(e) => DecisiveStable(locking, db, d, locks, after, next, later, sid, a, e);
    case Founding(f, _) => FoundSeenStable(db, d, locks, after, sid, a, f);
  }

  lemma InboxSeenStable(db: Db, d: Db, locks: map<Resource, Sid>, after: map<Resource, Sid>, sid: Sid, a: Session)
    requires KeysLeftAlone(db.inbox, d.inbox, LockOfMessage, locks, sid)
    requires RowsLeftAlone(db.inbox, d.inbox, LockOfMessage, locks, sid)
    requires SameLocks(locks, after, sid)
    requires InboxSeen(db, locks, sid, a)
    ensures InboxSeen(d, after, sid, a)
  {
  }

  lemma IdsHeldStable(db: Db, d: Db, locks: map<Resource, Sid>, after: map<Resource, Sid>, sid: Sid, a: Session)
    requires KeysLeftAlone(db.txs, d.txs, LockOfIdentity, locks, sid)
    requires KeysLeftAlone(db.wallets, d.wallets, LockOfIdentity, locks, sid)
    requires SameLocks(locks, after, sid) && IdsHeld(db, locks, sid, a)
    ensures IdsHeld(d, after, sid, a)
  {
  }

  lemma PcStable(locking: bool, db: Db, d: Db, locks: map<Resource, Sid>, after: map<Resource, Sid>, next: nat,
                 later: nat, sid: Sid, a: Session)
    requires Stable(db, d, locks, after, sid) && next <= later && PcOk(locking, db, locks, next, sid, a)
    ensures PcOk(locking, d, after, later, sid, a)
  {
    hide TxSeen, JobSeen, DecisionSeen, Decisive, FoundSeen, ConclusionSeen, Truthful, Held, Sequenced;
    hide WalletsAdvance, RowsAdvance, ReversalsAdvance, InboxAdvances, RowsLeftAlone, KeysLeftAlone, LedgerLeftAlone;
    match a.pc
    case Begun =>
    case Registered =>
    case Absent =>
    case Recording(t, inserted) => TxSeenStable(db, d, locks, after, sid, a, t, inserted);
    case Consulting(job) => JobSeenStable(locking, db, d, locks, after, sid, a, job);
    case Checking(job) => JobSeenStable(locking, db, d, locks, after, sid, a, job);
    case Moving(e) => DecisionSeenStable(locking, db, d, locks, after, sid, a, e);
    case Entering(e) =>
      DecisionSeenStable(locking, db, d, locks, after, sid, a, e);
      HeldStable(db, d, locks, after, sid, e);
    case Updating(e) =>
      DecisionSeenStable(locking, db, d, locks, after, sid, a, e);
      HeldStable(db, d, locks, after, sid, e);
      SequencedStable(db, d, locks, sid, next, later, e);
    case Saving(e) => DecisiveStable(locking, db, d, locks, after, next, later, sid, a, e);
    case Unowned =>
    case Crediting(f) => FoundSeenStable(db, d, locks, after, sid, a, f);
    case Completing(o) => ConclusionStable(locking, db, d, locks, after, next, later, sid, a, o);
    case Ready(o) => ConclusionStable(locking, db, d, locks, after, next, later, sid, a, o);
    case Committed(answer) => if answer.Some? { TruthfulStable(db, d, a.task, answer.value); }
  }

  /** Nothing another session does falsifies what this one relies on. */
  lemma SessionStable(locking: bool, db: Db, d: Db, locks: map<Resource, Sid>, after: map<Resource, Sid>, next: nat,
                      later: nat, sid: Sid, a: Session)
    requires Stable(db, d, locks, after, sid) && next <= later && SessionOk(locking, db, locks, next, sid, a)
    ensures SessionOk(locking, d, after, later, sid, a)
  {
    hide PcOk, IdsHeld, InboxSeen, WalletsAdvance, RowsAdvance, ReversalsAdvance, InboxAdvances, RowsLeftAlone;
    hide KeysLeftAlone, LedgerLeftAlone;
    PcStable(locking, db, d, locks, after, next, later, sid, a);
    if !a.pc.Committed? {
      IdsHeldStable(db, d, locks, after, sid, a);
      InboxSeenStable(db, d, locks, after, sid, a);
    }
  }

  /** Nothing changes in the committed state while no session commits. */
  lemma StandingStill(db: Db, locks: map<Resource, Sid>, after: map<Resource, Sid>, sid: Sid)
    requires SameLocks(locks, after, sid)
    ensures Stable(db, db, locks, after, sid)
  {
  }
}
