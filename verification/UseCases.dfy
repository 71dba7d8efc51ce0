/** The use cases over the unit of work: commit on success, roll back on any error, retry after a conflict
    (cmd/internal/usecase/, cmd/internal/infra/postgres/unit-of-work.go and inbox-repository.go). */
module UseCases {
  import opened Outcome
  import opened Monetary
  import opened Wager
  import opened Database
  import opened History
  import opened Openings
  import opened Reconciliation
  import opened Aggregates
  import opened Service
  import opened Outcomes
  import Protocol

  const MAX_CONFLICT_RETRIES := 3

  /** What a committed or rolled back unit of work that follows a plan leaves. */
  ghost predicate Executes(plan: Plan, r: Result<Answer>, db: Db, after: Db, sequence: nat) {
    Follows(plan, r, db, after, sequence) && (plan.Fails? ==> after == db)
  }

  /** The identifier each attempt would generate and the time it would read; a retry never reads the zero instant. */
  ghost predicate Attempts(db: Db, ids: seq<Id>, times: seq<int>) {
    && |ids| == |times| == MAX_CONFLICT_RETRIES
    && (forall i | 0 <= i < |ids| :: ids[i] !in db.txs)
    && (forall i | 0 < i < |ids| :: ids[i] != 0 && times[i] != ZERO_TIME)
  }

  // ---- A conflict does not depend on the attempt ----

  lemma SameGuard(db: Db, cmd: Command, id: Id, now: int, id1: Id, now1: int)
    requires NewExternal(cmd, id, now).Ok? && id1 != 0 && now1 != ZERO_TIME
    ensures NewExternal(cmd, id1, now1).Ok?
    ensures InsertGuard(db, NewExternal(cmd, id, now).value) == InsertGuard(db, NewExternal(cmd, id1, now1).value)
  {
    hide ValidateExternalMetadata, ValidateAmountForKind, ValidateReferenceForKind;
  }

  /** Run again on the same state, an operation that lost the race for a key loses it again. */
  lemma ConflictsAgain(db: Db, cmd: Command, id: Id, now: int, id1: Id, now1: int)
    requires id1 != 0 && now1 != ZERO_TIME && ApplyPlan(db, cmd, id, now) == Fails(ConcurrentUpdate)
    ensures ApplyPlan(db, cmd, id1, now1) == Fails(ConcurrentUpdate)
  {
    hide NewExternal, InsertGuard, Finish, JobOf, ValidCommand, FindExternal;
    if NewExternal(cmd, id, now).Ok? {
      SameGuard(db, cmd, id, now, id1, now1);
    }
    match Record(db, cmd, id, now)
    case Open(t, inserted) => FinishNeverConflicts(JobOf(db, t, inserted), now);
    case _ =>
  }

  // ---- HTTP, and the reference worker ----

  /** Within, around apply. */
  method ApplyWithin(store: Store, cmd: Command, id: Id, now: int) returns (r: Result<Answer>)
    requires DbInv(store.committed) && ValidCommand(cmd) && id !in store.committed.txs
    modifies store
    ensures Executes(ApplyPlan(old(store.committed), cmd, id, now), r, old(store.committed), store.committed,
                     old(store.next))
  {
    hide ApplyPlan, Install, ValidCommand, Sound;
    store.work := store.committed;
    r := Apply(store, cmd, id, now);
    if r.Ok? {
      store.committed := store.work;
    } else {
      store.work := store.committed;
    }
  }

  /** Execute: alone, it does what its plan says, whatever the retries. */
  method Execute(store: Store, cmd: Command, ids: seq<Id>, times: seq<int>) returns (r: Result<Answer>)
    requires DbInv(store.committed) && Attempts(store.committed, ids, times)
    modifies store
    ensures Executes(ApplyPlan(old(store.committed), cmd, ids[0], times[0]), r, old(store.committed), store.committed,
                     old(store.next))
  {
    ghost var db, plan, sequence := store.committed, ApplyPlan(store.committed, cmd, ids[0], times[0]), store.next;
    if !ValidCommand(cmd) {
      return Err(InvalidCommand);
    }
    hide ApplyPlan, DbInv, ValidCommand, Install;
    r := Err(ConcurrentUpdate);
    for attempt := 0 to MAX_CONFLICT_RETRIES
      invariant store.committed == db && (attempt == 0 ==> store.next == sequence)
      invariant attempt > 0 ==> r == Err(ConcurrentUpdate) && plan == Fails(ConcurrentUpdate)
    {
      if attempt > 0 {
        ConflictsAgain(db, cmd, ids[0], times[0], ids[attempt], times[attempt]);
      }
      r := ApplyWithin(store, cmd, ids[attempt], times[attempt]);
      if r != Err(ConcurrentUpdate) {
        return;
      }
    }
  }

  // ---- Messages ----

  /** The plan of an operation, and what it installs, do not depend on the deliveries registered. */
  lemma InboxIsApart(db: Db, inbox: map<MessageKey, InboxRow>, cmd: Command, id: Id, now: int)
    ensures ApplyPlan(db.(inbox := inbox), cmd, id, now) == ApplyPlan(db, cmd, id, now)
    ensures Sound(db.(inbox := inbox)) == Sound(db)
  {
    hide Finish, NewExternal, ValidCommand, JudgeWallet, JudgeReference, RowsOk, WalletsOk, IndexesExact;
    hide OwnersExact, LedgerMatchesRows, ChainsOk;
    hide TransactionEventsExact, WalletEventsExact, ParkedOk;
    var d := db.(inbox := inbox);
    assert FindExternal(d, cmd.business.provider, cmd.business.externalId) ==
      FindExternal(db, cmd.business.provider, cmd.business.externalId);
    assert RecordNew(d, cmd, id, now) == RecordNew(db, cmd, id, now);
    hide RecordNew;
    forall t, inserted ensures JobOf(d, t, inserted) == JobOf(db, t, inserted) {
      SameJob(db, inbox, t, inserted);
    }
    hide JobOf, FindExternal;
  }

  lemma SameJob(db: Db, inbox: map<MessageKey, InboxRow>, t: Tx, inserted: bool)
    ensures JobOf(db.(inbox := inbox), t, inserted) == JobOf(db, t, inserted)
  {
    hide JudgeWallet, JudgeReference;
  }

  lemma InboxKept(db: Db, inbox: map<MessageKey, InboxRow>, w: Write, sequence: nat)
    ensures Install(db.(inbox := inbox), w, sequence) == Install(db, w, sequence).(inbox := inbox)
  {
    hide EventsOf, EntryOf, WalletsAfter, LedgerAfter;
  }

  /** What the delivery of a message answers, and leaves: nothing when it is refused, one more attempt when it was
      already handled, and else the operation with its completed row. */
  ghost predicate Handles(plan: Plan, key: MessageKey, hash: Business, now: int, r: Result<Answer>, db: Db, after: Db,
                          sequence: nat) {
    var was := Get(db.inbox, key);
    var row := Registered(was, hash, now);
    if was.Some? && was.value.hash != hash then r == Err(MessageConflict) && after == db
    else if was.Some? && was.value.completedAt.Some? then r == Ok(Duplicate)
      && after == db.(inbox := db.inbox[key := row])
    else match plan
      case Fails(e) => r == Err(e) && after == db
      case Replies(answer) => r == Ok(answer) && after == db.(inbox := db.inbox[key := CompletedRow(row, now)])
      case Writes(write, answer) =>
        r == Ok(answer) && after == Install(db, write, sequence).(inbox := db.inbox[key := CompletedRow(row, now)])
  }

  /** The unit of work of one message: register, apply, complete. The handler and apply read the clock each. */
  method HandleWithin(store: Store, cmd: Command, key: MessageKey, hash: Business, id: Id, received: int, now: int)
    returns (r: Result<Answer>)
    requires DbInv(store.committed) && ValidCommand(cmd) && id !in store.committed.txs
    modifies store
    ensures Handles(ApplyPlan(old(store.committed), cmd, id, now), key, hash, received, r, old(store.committed),
                    store.committed, old(store.next))
  {
    ghost var db, sequence := store.committed, store.next;
    ghost var inbox := db.inbox[key := Registered(Get(db.inbox, key), hash, received)];
    hide ApplyPlan, ValidCommand, Sound, Install, Follows, Handles, CompletedRow;
    InboxIsApart(db, inbox, cmd, id, now);
    if Handled(db, key, hash) {
      NotApplied(ApplyPlan(db, cmd, id, now), key, hash, received, db, sequence);
    }
    store.work := store.committed;
    var registered := store.Register(key, hash, received);
    if registered.Err? {
      store.work := store.committed;
      return Err(registered.error);
    }
    if registered.value {
      store.committed := store.work;
      return Ok(Duplicate);
    }
    r := Apply(store, cmd, id, now);
    if r.Err? {
      FailedHandling(ApplyPlan(db, cmd, id, now), key, hash, received, r, db, store.work, sequence);
      store.work := store.committed;
      return;
    }
    DoneHandling(ApplyPlan(db, cmd, id, now), key, hash, received, r, db, store.work, sequence);
    store.Complete(key, received);
    store.committed := store.work;
  }

  ghost predicate Handled(db: Db, key: MessageKey, hash: Business) {
    key in db.inbox && (db.inbox[key].hash != hash || db.inbox[key].completedAt.Some?)
  }

  lemma NotApplied(plan: Plan, key: MessageKey, hash: Business, now: int, db: Db, sequence: nat)
    requires Handled(db, key, hash)
    ensures if db.inbox[key].hash != hash then Handles(plan, key, hash, now, Err(MessageConflict), db, db, sequence)
      else Handles(plan, key, hash, now, Ok(Duplicate), db,
                   db.(inbox := db.inbox[key := Registered(Some(db.inbox[key]), hash, now)]), sequence)
  {
  }

  lemma FailedHandling(plan: Plan, key: MessageKey, hash: Business, now: int, r: Result<Answer>, db: Db, work: Db,
                       sequence: nat)
    requires !Handled(db, key, hash) && r.Err?
    requires Follows(plan, r, db.(inbox := db.inbox[key := Registered(Get(db.inbox, key), hash, now)]), work, sequence)
    ensures Handles(plan, key, hash, now, r, db, db, sequence)
  {
    hide Install;
  }

  lemma DoneHandling(plan: Plan, key: MessageKey, hash: Business, now: int, r: Result<Answer>, db: Db, work: Db,
                     sequence: nat)
    requires !Handled(db, key, hash) && r.Ok?
    requires Follows(plan, r, db.(inbox := db.inbox[key := Registered(Get(db.inbox, key), hash, now)]), work, sequence)
    ensures key in work.inbox && work.inbox[key].completedAt.None?
    ensures Handles(plan, key, hash, now, r, db, work.(inbox := work.inbox[key := CompletedRow(work.inbox[key], now)]),
                    sequence)
  {
    hide Install;
    var inbox := db.inbox[key := Registered(Get(db.inbox, key), hash, now)];
    if plan.Writes? {
      InboxKept(db, inbox, plan.write, sequence);
    }
    assert inbox[key := CompletedRow(inbox[key], now)] == db.inbox[key := CompletedRow(inbox[key], now)];
  }

  /** ExecuteFromMessage. */
  method ExecuteFromMessage(store: Store, cmd: Command, key: MessageKey, hash: Business, ids: seq<Id>,
                            receipts: seq<int>, times: seq<int>)
    returns (r: Result<Answer>)
    requires DbInv(store.committed) && Attempts(store.committed, ids, times) && |receipts| == MAX_CONFLICT_RETRIES
    modifies store
    ensures if !ValidCommand(cmd) then r == Err(InvalidCommand) && store.committed == old(store.committed)
      else Handles(ApplyPlan(old(store.committed), cmd, ids[0], times[0]), key, hash, receipts[0], r,
                   old(store.committed), store.committed, old(store.next))
  {
    ghost var db, plan, sequence := store.committed, ApplyPlan(store.committed, cmd, ids[0], times[0]), store.next;
    if !ValidCommand(cmd) {
      return Err(InvalidCommand);
    }
    hide ApplyPlan, DbInv, ValidCommand, Install;
    r := Err(ConcurrentUpdate);
    for attempt := 0 to MAX_CONFLICT_RETRIES
      invariant store.committed == db && (attempt == 0 ==> store.next == sequence)
      invariant attempt > 0 ==>
        r == Err(ConcurrentUpdate) && Handles(plan, key, hash, receipts[0], r, db, db, sequence)
          && plan == Fails(ConcurrentUpdate)
    {
      if attempt > 0 {
        ConflictsAgain(db, cmd, ids[0], times[0], ids[attempt], times[attempt]);
      }
      r := HandleWithin(store, cmd, key, hash, ids[attempt], receipts[attempt], times[attempt]);
      if r != Err(ConcurrentUpdate) {
        return;
      }
    }
  }

  // ---- Expiry ----

  lemma WaitingIsUnconcluded(db: Db, id: Id)
    requires DbInv(db) && id in db.txs && !db.txs[id].state.IsTerminal()
    ensures db.txs[id].id == id && Unconcluded(db, db.txs[id], false)
  {
    hide WalletsOk, IndexesExact, OwnersExact, LedgerMatchesRows, ChainsOk, TransactionEventsExact;
    hide WalletEventsExact, ParkedOk, InboxOk;
    assert RowOk(db.wallets, db.txs, db.txs[id]);
  }

  /** Expire. */
  method Expire(store: Store, id: Id, now: int) returns (r: Result<Answer>)
    requires DbInv(store.committed)
    modifies store
    ensures Executes(ExpirePlan(old(store.committed), id, now), r, old(store.committed), store.committed,
                     old(store.next))
  {
    hide DbInv, Unconcluded, Rejecting, Install, Working, Carries;
    ghost var db := store.committed;
    store.work := store.committed;
    var found := store.FindById(id);
    if found.None? {
      return Err(TransactionNotFound);
    }
    var t := found.value;
    if t.state.IsTerminal() {
      return Ok(ReplayOf(t.Row()));
    }
    WaitingIsUnconcluded(db, id);
    NothingPostedYet(db);
    CarriesItself(t.Row());
    r := Reject(store, t, ReferenceNotFoundCode, now, db, t.Row(), false);
    if r.Ok? {
      store.committed := store.work;
    } else {
      store.work := store.committed;
    }
  }

  // ---- Opening ----

  lemma OpeningInserts(db: Db, w: WalletRow, t: Tx)
    requires OpeningRowOk(w, t) && w.id !in db.openings
    ensures var d := InstallWallet(db, w); !Taken(d.openings, OpeningKey(t)) && InsertGuard(d, t).Ok?
  {
  }

  lemma OpeningBuildsEntry(w: WalletRow, tx: Id, sequence: nat)
    requires w.id != 0 && tx != 0 && w.balance.Initialized() && w.balance.cents > 0 && w.createdAt != ZERO_TIME
    ensures BuildEntry(EntryOf(OpeningChange(w), tx, sequence)).Ok?
  {
  }

  lemma NewIdIsUnposted(db: Db, wallet: Id, tx: Id)
    requires LedgerMatchesRows(db.txs, db.ledger) && tx !in db.txs
    ensures !Protocol.AlreadyPosted(db.ledger, wallet, tx)
  {
    forall i | 0 <= i < |db.ledger| ensures db.ledger[i].tx != tx {
      assert EntryMatches(db.txs, db.ledger[i]);
    }
  }

  lemma OpeningGoesThrough(db: Db, w: WalletRow, t: Tx, sequence: nat)
    requires DbInv(db) && w.id !in db.wallets && t.id !in db.txs && OpeningRowOk(w, t)
    requires w.balance.cents > 0 && w.id != 0 && w.balance.Initialized() && w.createdAt != ZERO_TIME
    ensures var d := InstallWallet(db, w);
      && !Taken(d.openings, OpeningKey(t)) && InsertGuard(d, t).Ok?
      && !Protocol.AlreadyPosted(InstallRow(d, t).ledger, w.id, t.id)
    ensures BuildEntry(EntryOf(OpeningChange(w), t.id, sequence)).Ok?
  {
    assert t.id != 0;
    hide DbInv, RowsOk, LedgerMatchesRows, IndexExact, InsertGuard, BuildEntry, Protocol.AlreadyPosted, OpeningRowOk;
    InvParts(db);
    UnknownWalletHasNoOpening(db, w.id);
    OpeningInserts(db, w, t);
    OpeningBuildsEntry(w, t.id, sequence);
    NewIdIsUnposted(db, w.id, t.id);
  }

  lemma InvParts(db: Db)
    requires DbInv(db)
    ensures RowsOk(db.wallets, db.txs) && LedgerMatchesRows(db.txs, db.ledger)
    ensures IndexExact(db.txs, db.openings, OpeningKey)
  {
    hide RowsOk, LedgerMatchesRows, IndexExact, WalletsOk, OwnersExact, ChainsOk, TransactionEventsExact;
    hide WalletEventsExact, ParkedOk, InboxOk;
  }

  lemma OpeningInstalled(db: Db, f: Found, sequence: nat)
    requires f.opening.Some? && f.wallet.createdAt == f.wallet.updatedAt
    ensures var d, c := InstallRow(InstallWallet(db, f.wallet), f.opening.value), OpeningChange(f.wallet);
      d.(ledger := d.ledger + [EntryOf(c, f.opening.value.id, sequence)],
         outbox := d.outbox + EventsOf(OpeningWrite(f)))
      == InstallFound(db, f, sequence)
  {
    OpeningLeavesWallet(db.wallets, f);
    hide OpeningChange, EventsOf, WalletsAfter;
  }

  /** recordOpening: the wallet was born with the balance applied. */
  method RecordOpening(store: Store, w: Wallet, txId: Id, ghost db: Db) returns (r: Result<()>)
    requires DbInv(db) && store.work == InstallWallet(db, w.Row()) && w.id !in db.wallets && txId !in db.txs
    requires w.id != 0 && w.balance.Initialized() && w.balance.cents > 0 && w.version == 1 && w.createdAt == w.updatedAt
    modifies store
    ensures match NewOpening(txId, w.id, w.player, w.balance, w.createdAt)
      case Err(e) => r == Err(e)
      case Ok(t) => r == Ok(()) && store.work == InstallFound(db, Found(w.Row(), Some(t)), old(store.next))
    ensures store.committed == old(store.committed)
  {
    hide DbInv, BuildEntry, InsertGuard, InstallRow, InstallWallet, InstallFound, EventsOf, Protocol.AlreadyPosted;
    hide EntryOf;
    var built := NewOpening(txId, w.id, w.player, w.balance, w.createdAt);
    if built.Err? {
      return Err(built.error);
    }
    var opening := new WagerTransaction.Restored(built.value);
    OpeningGoesThrough(db, w.Row(), opening.Row(), store.next);
    OpeningInstalled(db, Found(w.Row(), Some(built.value)), store.next);
    var change := Change(w.id, Credit, w.balance, Money(0, w.balance.currency), w.balance, w.version, w.createdAt);
    ghost var events := EventsOf(OpeningWrite(Found(w.Row(), Some(built.value))));
    OpeningEvents(w.Row(), built.value);
    var inserted := store.Insert(opening);
    match BuildEntry(EntryOf(change, opening.id, store.next)) {
      case Err(error) => r := Err(error);
      case Ok(_) =>
        var posted := store.InsertEntry(change, opening.id);
        store.SaveEvents([TransactionProcessed(opening.Row()), BalanceChanged(change, opening.id)]);
        r := Ok(());
    }
  }

  lemma OpeningEvents(w: WalletRow, t: Tx)
    requires t.state.Processed?
    ensures EventsOf(OpeningWrite(Found(w, Some(t)))) ==
      [TransactionProcessed(t), BalanceChanged(OpeningChange(w), t.id)]
  {
  }

  /** OpenWallet.Execute. */
  method OpenWallet(store: Store, player: Id, initial: Money, walletId: Id, txId: Id,
                    now: int) returns (r: Result<WalletRow>)
    requires DbInv(store.committed) && walletId !in store.committed.wallets && txId !in store.committed.txs
    modifies store
    ensures match OpenPlan(old(store.committed), player, initial, walletId, txId, now)
      case Err(e) => r == Err(e) && store.committed == old(store.committed)
      case Ok(f) => r == Ok(f.wallet) && store.committed == InstallFound(old(store.committed), f, old(store.next))
  {
    hide DbInv, NewOpening, InstallWallet, Install;
    ghost var db := store.committed;
    if !initial.Initialized() {
      return Err(UninitializedMoney);
    }
    if initial.cents < 0 {
      return Err(NegativeInitialBalance);
    }
    store.work := store.committed;
    var existing := store.FindByPlayerAndCurrency(player, initial.currency);
    if existing {
      return Err(WalletAlreadyExists);
    }
    var built := NewWallet(walletId, player, initial, now);
    if built.Err? {
      return Err(built.error);
    }
    var w := new Wallet.Restored(built.value);
    var inserted := store.InsertWallet(w);
    if initial.cents > 0 {
      var recorded := RecordOpening(store, w, txId, db);
      if recorded.Err? {
        store.work := store.committed;
        return Err(recorded.error);
      }
    }
    store.committed := store.work;
    r := Ok(w.Row());
  }

  // ---- The same message again ----

  /** Once a message was handled, its row holds its hash and is complete; the first delivery leaves one attempt,
      received and completed then. */
  lemma HandledIsRecorded(plan: Plan, key: MessageKey, hash: Business, now: int, r: Result<Answer>, db: Db, after: Db,
                          sequence: nat)
    requires Handles(plan, key, hash, now, r, db, after, sequence) && r.Ok?
    ensures key in after.inbox && after.inbox[key].hash == hash && after.inbox[key].completedAt.Some?
    ensures key !in db.inbox ==> after.inbox[key] == InboxRow(hash, now, Some(now), 1)
  {
    hide Install;
    var was := Get(db.inbox, key);
    var row := Registered(was, hash, now);
    if was.Some? && was.value.completedAt.Some? {
      assert after.inbox == db.inbox[key := row];
    } else {
      assert after.inbox == db.inbox[key := CompletedRow(row, now)];
    }
    hide Handles;
  }

  /** And then every redelivery of it is answered Duplicate and only counted, whatever its command; another payload
      under its identifier is a conflict and leaves nothing. */
  lemma HandledAgain(plan: Plan, key: MessageKey, hash: Business, other: Business, now: int, r: Result<Answer>, db: Db,
                     after: Db, sequence: nat)
    requires key in db.inbox && db.inbox[key].hash == hash && db.inbox[key].completedAt.Some?
    requires Handles(plan, key, other, now, r, db, after, sequence)
    ensures if other == hash
      then
        && r == Ok(Duplicate)
        && after == db.(inbox := db.inbox[key := db.inbox[key].(attempts := db.inbox[key].attempts + 1)])
      else r == Err(MessageConflict) && after == db
  {
    hide Install;
  }
}
