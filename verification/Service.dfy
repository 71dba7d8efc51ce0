/** The use cases as they run: repositories over the working state of one SQL transaction, the flow of apply,
    and the unit of work that commits or rolls back (cmd/internal/usecase/, cmd/internal/infra/postgres/). */
module Service {
  import opened Outcome
  import opened Monetary
  import opened Wager
  import opened Database
  import opened History
  import opened Openings
  import opened Reconciliation
  import opened Aggregates
  import Protocol
  import Decisions

  // ---- The working state of a transaction ----

  /** The row a unit of work inserted or found, before it concludes it. */
  ghost predicate Unconcluded(db: Db, t: Tx, inserted: bool) {
    && !t.state.IsTerminal() && t.referenceId == 0 && t.business.kind.IsExternal()
    && (if inserted then t.state.Pending? && t.id !in db.txs
        && !Taken(db.externals, ExternalKey(t)) else Get(db.txs, t.id) == Some(t))
  }

  /** What the transaction sees after it recorded t and made its movement. */
  ghost function Working(db: Db, t: Tx, inserted: bool, posting: Option<Posting>, sequence: nat): Db {
    (if inserted then InstallRow(db, t) else db).(
    wallets := WalletsAfter(db.wallets, posting),
    ledger := LedgerAfter(db.ledger, Write(t, inserted, posting), sequence))
  }

  /** What a use case that follows a plan answers, and leaves of the state it started on. */
  ghost predicate Follows(plan: Plan, r: Result<Answer>, db: Db, after: Db, sequence: nat) {
    match plan
    case Fails(e) => r == Err(e)
    case Replies(answer) => r == Ok(answer) && after == db
    case Writes(write, answer) => r == Ok(answer) && after == Install(db, write, sequence)
  }

  lemma RowInPlace(db: Db, t: Tx, t1: Tx)
    requires t.state.Pending? && t1.id == t.id && t1.business == t.business && t1.key == t.key
    ensures InstallRow(InstallRow(db, t), t1) == InstallRow(db, t1)
  {
    IndexedTwice(db.externals, ExternalKey(t), t.id);
    IndexedTwice(db.keys, IdempotencyKey(t), t.id);
    IndexedTwice(db.openings, OpeningKey(t), t.id);
    assert ReversalKey(t).None? && ExternalKey(t1) == ExternalKey(t) && IdempotencyKey(t1) == IdempotencyKey(t)
      && OpeningKey(t1) == OpeningKey(t);
    assert db.txs[t.id := t][t.id := t1] == db.txs[t.id := t1];
    hide ExternalKey, IdempotencyKey, OpeningKey;
  }

  lemma IndexedTwice<K>(index: map<K, Id>, key: Option<K>, id: Id)
    ensures Indexed(Indexed(index, key, id), key, id) == Indexed(index, key, id)
  {
  }

  lemma RowApart(db: Db, t: Tx, wallets: map<Id, WalletRow>, ledger: seq<Entry>)
    ensures InstallRow(db.(wallets := wallets, ledger := ledger), t) ==
      InstallRow(db, t).(wallets := wallets, ledger := ledger)
  {
  }

  lemma ConcludedInPlace(db: Db, t: Tx, t1: Tx, inserted: bool, posting: Option<Posting>, sequence: nat)
    requires Unconcluded(db, t, inserted) && t1.id == t.id && t1.business == t.business && t1.key == t.key
    ensures var w := Write(t1, inserted, posting);
      InstallRow(Working(db, t, inserted, posting, sequence), t1).(outbox := db.outbox + EventsOf(w)) ==
        Install(db, w, sequence)
  {
    hide EventsOf, WalletsAfter, InstallRow;
    var wallets, ledger := WalletsAfter(db.wallets, posting), LedgerAfter(db.ledger, Write(t, inserted, posting),
          sequence);
    if inserted {
      RowInPlace(db, t, t1);
      RowApart(InstallRow(db, t), t1, wallets, ledger);
    } else {
      RowApart(db, t1, wallets, ledger);
    }
  }

  lemma NothingPostedYet(db: Db)
    ensures forall t, sequence :: Working(db, t, false, None, sequence) == db
  {
  }

  function Registered(was: Option<InboxRow>, hash: Business, now: int): InboxRow {
    if was.None? then InboxRow(hash, now, None, 1) else was.value.(attempts := was.value.attempts + 1)
  }

  function CompletedRow(row: InboxRow, now: int): InboxRow {
    row.(completedAt := Some(Later(now, row.receivedAt)))
  }

  class Store {
    /** What is committed, and what the open transaction sees. */
    var committed: Db
    var work: Db
    /** The sequence behind wallet_ledger.seq; a rollback does not take it back. */
    var next: nat

    constructor ()
      ensures committed == work == EMPTY_DB && next == 1
    {
      committed, work, next := EMPTY_DB, EMPTY_DB, 1;
    }

    method FindByProviderAndExternalId(provider: string, externalId: string) returns (found: Option<WagerTransaction>)
      ensures found.Some? <==> FindExternal(work, provider, externalId).Some?
      ensures found.Some? ==> fresh(found.value) && found.value.Row() == FindExternal(work, provider, externalId).value
    {
      found := None;
      if (provider, externalId) in work.externals && work.externals[(provider, externalId)] in work.txs {
        var t := new WagerTransaction.Restored(work.txs[work.externals[(provider, externalId)]]);
        found := Some(t);
      }
    }

    method Insert(t: WagerTransaction) returns (r: Result<()>)
      modifies this`work
      ensures r == if Taken(old(work).openings, OpeningKey(t.Row())) then Err(ConcurrentUpdate)
        else InsertGuard(old(work), t.Row())
      ensures work == if r.Ok? then InstallRow(old(work), t.Row()) else old(work)
    {
      if Taken(work.openings, OpeningKey(t.Row())) {
        return Err(ConcurrentUpdate);
      }
      r := InsertGuard(work, t.Row());
      if r.Ok? {
        work := InstallRow(work, t.Row());
      }
    }

    method Update(t: WagerTransaction) returns (r: Result<()>)
      modifies this`work
      ensures r == if t.id !in old(work).txs then Err(TransactionNotFound)
        else if !Protocol.RowGuard(old(work).txs[t.id], t.Row()) then Err(SchemaViolation)
        else if Taken(old(work).reversals, ReversalKey(t.Row())) then Err(ConcurrentUpdate)
        else Ok(())
      ensures work == if r.Ok? then InstallRow(old(work), t.Row()) else old(work)
    {
      if t.id !in work.txs {
        return Err(TransactionNotFound);
      }
      if !Protocol.RowGuard(work.txs[t.id], t.Row()) {
        return Err(SchemaViolation);
      }
      if Taken(work.reversals, ReversalKey(t.Row())) {
        return Err(ConcurrentUpdate);
      }
      work := InstallRow(work, t.Row());
      r := Ok(());
    }

    method LockById(id: Id) returns (found: Option<Wallet>)
      ensures found.Some? <==> id in work.wallets
      ensures found.Some? ==> fresh(found.value) && found.value.Row() == work.wallets[id]
    {
      found := None;
      if id in work.wallets {
        var w := new Wallet.Restored(work.wallets[id]);
        found := Some(w);
      }
    }

    method UpdateBalance(w: Wallet, expectedVersion: int64) returns (r: Result<()>)
      modifies this`work
      ensures r == if w.id !in old(work).wallets
        || old(work).wallets[w.id].version != expectedVersion then Err(ConcurrentUpdate)
        else if !Protocol.WalletGuard(old(work).wallets[w.id], w.Row()) || w.version < 1 then Err(SchemaViolation)
        else Ok(())
      ensures work == if r.Ok? then old(work).(wallets := old(work).wallets[w.id := w.Row()]) else old(work)
    {
      if w.id !in work.wallets || work.wallets[w.id].version != expectedVersion {
        return Err(ConcurrentUpdate);
      }
      if !Protocol.WalletGuard(work.wallets[w.id], w.Row()) || w.version < 1 {
        return Err(SchemaViolation);
      }
      work := work.(wallets := work.wallets[w.id := w.Row()]);
      r := Ok(());
    }

    method FindByPlayerAndCurrency(player: Id, currency: Currency) returns (found: bool)
      ensures found <==> (player, currency) in work.owners
    {
      found := (player, currency) in work.owners;
    }

    method InsertWallet(w: Wallet) returns (r: Result<()>)
      modifies this`work
      ensures r == if (w.player, w.balance.currency) in old(work).owners then Err(WalletAlreadyExists) else Ok(())
      ensures work == if r.Ok? then InstallWallet(old(work), w.Row()) else old(work)
    {
      if (w.player, w.balance.currency) in work.owners {
        return Err(WalletAlreadyExists);
      }
      work := InstallWallet(work, w.Row());
      r := Ok(());
    }

    method FindById(id: Id) returns (found: Option<WagerTransaction>)
      ensures found.Some? <==> id in work.txs
      ensures found.Some? ==> fresh(found.value) && found.value.Row() == work.txs[id]
    {
      found := None;
      if id in work.txs {
        var t := new WagerTransaction.Restored(work.txs[id]);
        found := Some(t);
      }
    }

    /** InboxRepository.Register: one upsert, and what was known before it. */
    method Register(key: MessageKey, hash: Business, now: int) returns (r: Result<bool>)
      modifies this`work
      ensures var was := Get(old(work).inbox, key);
        && work == old(work).(inbox := old(work).inbox[key := Registered(was, hash, now)])
        && r == if was.Some?
        && was.value.hash != hash then Err(MessageConflict) else Ok(was.Some? && was.value.completedAt.Some?)
    {
      if key !in work.inbox {
        work := work.(inbox := work.inbox[key := InboxRow(hash, now, None, 1)]);
        return Ok(false);
      }
      var row := work.inbox[key];
      work := work.(inbox := work.inbox[key := row.(attempts := row.attempts + 1)]);
      if row.hash != hash {
        return Err(MessageConflict);
      }
      r := Ok(row.completedAt.Some?);
    }

    /** InboxRepository.Complete: once. */
    method Complete(key: MessageKey, now: int)
      modifies this`work
      ensures work == if key in old(work).inbox && old(work).inbox[key].completedAt.None?
        then old(work).(inbox := old(work).inbox[key := CompletedRow(old(work).inbox[key], now)]) else old(work)
    {
      if key in work.inbox && work.inbox[key].completedAt.None? {
        work := work.(inbox := work.inbox[key := CompletedRow(work.inbox[key], now)]);
      }
    }

    /** LedgerRepository.Insert; the sequence is drawn either way. */
    method InsertEntry(change: Change, tx: Id) returns (r: Result<()>)
      modifies this`work, this`next
      ensures next == old(next) + 1
      ensures r == if Protocol.AlreadyPosted(old(work).ledger, change.wallet, tx) then Err(ConcurrentUpdate) else Ok(())
      ensures work == if r.Ok? then old(work).(ledger := old(work).ledger + [EntryOf(change, tx, old(next))])
        else old(work)
    {
      next := next + 1;
      for i := 0 to |work.ledger|
        invariant forall j | 0 <= j < i :: !(work.ledger[j].wallet == change.wallet && work.ledger[j].tx == tx)
      {
        if work.ledger[i].wallet == change.wallet && work.ledger[i].tx == tx {
          return Err(ConcurrentUpdate);
        }
      }
      work := work.(ledger := work.ledger + [EntryOf(change, tx, next - 1)]);
      r := Ok(());
    }

    /** saveEvents: in order. */
    method SaveEvents(events: seq<Event>)
      modifies this`work
      ensures work == old(work).(outbox := old(work).outbox + events)
    {
      for i := 0 to |events|
        invariant work == old(work).(outbox := old(work).outbox + events[..i])
      {
        assert events[..i + 1] == events[..i] + [events[i]];
        work := work.(outbox := work.outbox + [events[i]]);
      }
      assert events[..|events|] == events;
    }
  }

  // ---- Concluding ----

  /** The object holds the operation that the row found in the database is about. */
  ghost predicate Carries(t: Tx, found: Tx) {
    t.id == found.id && t.business == found.business && t.key == found.key && t.createdAt == found.createdAt
  }

  lemma CarriedId(t: Tx, found: Tx)
    requires Carries(t, found)
    ensures t.id == found.id
  {
  }

  lemma UpdateGoesThrough(db: Db, found: Tx, t: Tx, inserted: bool, posting: Option<Posting>, sequence: nat)
    requires Unconcluded(db, found, inserted) && Carries(t, found) && !Taken(db.reversals, ReversalKey(t))
    ensures var work := Working(db, found, inserted, posting, sequence);
      t.id in work.txs && Protocol.RowGuard(work.txs[t.id], t) && !Taken(work.reversals, ReversalKey(t))
      && InstallRow(work, t).outbox == db.outbox
  {
  }

  /** The update and the events that end every branch. */
  method Announce(store: Store, t: WagerTransaction, events: seq<Event>,
                  ghost db: Db, ghost found: Tx, ghost inserted: bool, ghost posting: Option<Posting>,
                  ghost sequence: nat) returns (r: Result<Answer>)
    requires Unconcluded(db, found, inserted) && store.work == Working(db, found, inserted, posting, sequence)
    requires Carries(t.Row(), found) && !Taken(db.reversals, ReversalKey(t.Row()))
    requires events == EventsOf(Write(t.Row(), inserted, posting))
    modifies store`work
    ensures r == Ok(AnswerOf(t.Row())) && store.work == Install(db, Write(t.Row(), inserted, posting), sequence)
  {
    ConcludedInPlace(db, found, t.Row(), inserted, posting, sequence);
    UpdateGoesThrough(db, found, t.Row(), inserted, posting, sequence);
    hide Working, Install, InstallRow, EventsOf;
    var updated := store.Update(t);
    store.SaveEvents(events);
    r := Ok(AnswerOf(t.Row()));
  }

  /** reject. */
  method Reject(store: Store, t: WagerTransaction, code: FailureCode, now: int,
                ghost db: Db, ghost found: Tx, ghost inserted: bool) returns (r: Result<Answer>)
    requires Unconcluded(db, found, inserted) && store.work == Working(db, found, inserted, None, store.next)
    requires Carries(t.Row(), found)
    modifies store`work, t
    ensures Follows(Rejecting(old(t.Row()), inserted, code, now), r, db, store.work, store.next)
  {
    hide Working, Unconcluded;
    var rejected := t.Reject(Some(code), now);
    if rejected.Err? {
      return Err(rejected.error);
    }
    r := Announce(store, t, [TransactionRejected(t.Row())], db, found, inserted, None, store.next);
  }

  /** park: a transaction that already waits is left as it is. */
  method Park(store: Store, t: WagerTransaction, now: int,
              ghost db: Db, ghost found: Tx, ghost inserted: bool) returns (r: Result<Answer>)
    requires Unconcluded(db, found, inserted) && store.work == Working(db, found, inserted, None, store.next)
    requires Carries(t.Row(), found)
    requires t.state == found.state
    modifies store`work, t
    ensures Follows(Parking(old(t.Row()), inserted, now), r, db, store.work, store.next)
  {
    if t.state.PendingReference? {
      NothingPostedYet(db);
      return Ok(Answer(t.id, t.state, None, None, false));
    }
    hide Working, Unconcluded;
    var parked := t.MarkAsPendingReference(now);
    if parked.Err? {
      return Err(parked.error);
    }
    r := Announce(store, t, [TransactionParked(t.Row())], db, found, inserted, None, store.next);
  }

  /** conclude. */
  method Conclude(store: Store, t: WagerTransaction, balance: Money, change: Option<Change>, now: int,
                  ghost db: Db, ghost found: Tx, ghost inserted: bool, ghost posting: Option<Posting>,
                  ghost sequence: nat) returns (r: Result<Answer>)
    requires Unconcluded(db, found, inserted) && store.work == Working(db, found, inserted, posting, sequence)
    requires Carries(t.Row(), found)
    requires t.referenceId !in db.reversals
    requires if posting.Some? then change == Some(posting.value.change) else change.None?
    modifies store`work, t
    ensures Follows(Concluding(old(t.Row()), inserted, balance, posting, now), r, db, store.work, sequence)
  {
    hide Working, Unconcluded;
    var processed := t.MarkAsProcessed(balance, now);
    if processed.Err? {
      return Err(processed.error);
    }
    var events := [TransactionProcessed(t.Row())];
    if change.Some? {
      events := events + [BalanceChanged(change.value, t.id)];
    }
    r := Announce(store, t, events, db, found, inserted, posting, sequence);
  }

  // ---- Moving money ----

  /** applyMovement: the wallet decides whether the movement is possible. */
  method ApplyMovement(w: Wallet, direction: Direction, amount: Money, now: int) returns (r: Result<Change>)
    modifies w
    ensures r == MovementChange(old(w.Row()), direction, amount, now)
    ensures w.Row() == if r.Ok? then WalletAfter(old(w.Row()), r.value) else old(w.Row())
  {
    if direction.Debit? {
      r := w.Debit(amount, now);
    } else {
      r := w.Credit(amount, now);
    }
  }

  lemma NotPostedYet(db: Db, t: Tx, inserted: bool, wallet: Id)
    requires Sound(db) && Unconcluded(db, t, inserted)
    ensures !Protocol.AlreadyPosted(db.ledger, wallet, t.id)
  {
    LedgerOfInv(db);
    hide Sound;
    forall i | 0 <= i < |db.ledger| ensures db.ledger[i].tx != t.id {
      assert EntryMatches(db.txs, db.ledger[i]);
    }
  }

  /** A movement goes through the version test and the trigger, unless the version wrapped around. */
  lemma MovementGoesThrough(w: WalletRow, d: Direction, amount: Money, now: int)
    requires MovementChange(w, d, amount, now).Ok? && w.version >= 1
    ensures var c := MovementChange(w, d, amount, now).value;
      && Wrap64(c.version - 1) == w.version && c.wallet == w.id
      && WalletAfter(w, c).version == c.version && WalletAfter(w, c).id == w.id
      && (c.version >= 1 ==> Protocol.WalletGuard(w, WalletAfter(w, c)))
  {
  }

  lemma MovementBuildsEntry(w: WalletRow, d: Direction, amount: Money, now: int, tx: Id, sequence: nat)
    requires MovementChange(w, d, amount, now).Ok? && w.id != 0 && tx != 0
    requires w.balance.cents >= 0 && w.updatedAt != ZERO_TIME
    ensures var e := EntryOf(MovementChange(w, d, amount, now).value, tx, sequence); BuildEntry(e) == Ok(e)
  {
  }

  function RowOf(t: Option<WagerTransaction>): Option<Tx>
    reads if t.Some? then {t.value} else {}
  {
    if t.Some? then Some(t.value.Row()) else None
  }

  lemma MovedWorking(db: Db, t: Tx, inserted: bool, w: WalletRow, c: Change, sequence: nat)
    requires c.wallet == w.id
    ensures var work := Working(db, t, inserted, None, sequence);
      work.(wallets := work.wallets[w.id := WalletAfter(w, c)], ledger := work.ledger + [EntryOf(c, t.id, sequence)])
      == Working(db, t, inserted, Some(Posting(w, c)), sequence)
    ensures Working(db, t, inserted, None, sequence).wallets == db.wallets
    ensures Working(db, t, inserted, None, sequence).ledger == db.ledger
  {
    hide InstallRow;
  }

  /** The balance and the ledger entry of a movement; a version that would wrap around is refused. */
  method Post(store: Store, w: Wallet, change: Change, tx: Id,
              ghost before: WalletRow, ghost direction: Direction, ghost amount: Money, ghost now: int,
              ghost db: Db, ghost found: Tx, ghost inserted: bool) returns (r: Result<()>)
    requires Sound(db) && Unconcluded(db, found, inserted) && found.id == tx && tx != 0
    requires store.work == Working(db, found, inserted, None, store.next)
    requires before.id in db.wallets && db.wallets[before.id] == before
    requires MovementChange(before, direction, amount, now) == Ok(change) && w.Row() == WalletAfter(before, change)
    modifies store`work, store`next
    ensures r == if change.version < 1 then Err(SchemaViolation) else Ok(())
    ensures r.Ok? ==> store.work == Working(db, found, inserted, Some(Posting(before, change)), old(store.next))
  {
    hide Sound, Working, Unconcluded, MovementChange, BuildEntry, Protocol.WalletGuard, Protocol.AlreadyPosted;
    hide WalletAfter, EntryOf;
    WalletOfInv(db, before.id);
    NotPostedYet(db, found, inserted, change.wallet);
    MovementGoesThrough(before, direction, amount, now);
    MovementBuildsEntry(before, direction, amount, now, tx, store.next);
    MovedWorking(db, found, inserted, before, change, store.next);
    var updated := store.UpdateBalance(w, Wrap64(change.version - 1));
    if updated.Err? {
      return updated;
    }
    match BuildEntry(EntryOf(change, tx, store.next)) {
      case Err(error) => r := Err(error);
      case Ok(_) => r := store.InsertEntry(change, tx);
    }
  }

  /** What settle plans once it knows the direction. */
  ghost function MovingPlan(t: Tx, inserted: bool, w: WalletRow, d: Direction, now: int): Plan {
    match MovementChange(w, d, t.business.money, now)
    case Err(e) => if e.InsufficientFunds? then Rejecting(t, inserted, InsufficientFundsCodeOf(t.business.kind), now)
          else Fails(e)
    case Ok(c) => if c.version < 1 then Fails(SchemaViolation)
          else Concluding(t, inserted, c.after, Some(Posting(w, c)), now)
  }

  lemma SettlingMoves(t: Tx, inserted: bool, w: WalletRow, reference: Option<Tx>, now: int)
    ensures Settling(t, inserted, w, reference, now) ==
      match MovementOf(t, reference)
      case Err(e) => Fails(e)
      case Ok(None) => Concluding(t, inserted, w.balance, None, now)
      case Ok(Some(d)) => MovingPlan(t, inserted, w, d, now)
  {
  }

  /** The part of settle after an accepted movement. */
  method PostAndConclude(store: Store, w: Wallet, t: WagerTransaction, change: Change, now: int,
                         ghost before: WalletRow, ghost direction: Direction,
                         ghost db: Db, ghost found: Tx, ghost inserted: bool) returns (r: Result<Answer>)
    requires Sound(db) && Unconcluded(db, found, inserted) && found.id != 0
    requires store.work == Working(db, found, inserted, None, store.next) && Carries(t.Row(), found)
    requires t.referenceId !in db.reversals
    requires before.id in db.wallets && db.wallets[before.id] == before
    requires MovementChange(before, direction, t.business.money, now) == Ok(change)
    requires w.Row() == WalletAfter(before, change)
    modifies store`work, store`next, t
    ensures Follows(if change.version < 1 then Fails(SchemaViolation)
                    else Concluding(old(t.Row()), inserted, change.after, Some(Posting(before, change)), now),
                    r, db, store.work, old(store.next))
  {
    hide Sound, Working, Unconcluded, MovementChange, Carries, Concluding, Install;
    CarriedId(t.Row(), found);
    ghost var sequence := store.next;
    var posted := Post(store, w, change, t.id, before, direction, t.business.money, now, db, found, inserted);
    if posted.Err? {
      return Err(posted.error);
    }
    r := Conclude(store, t, w.balance, Some(change), now, db, found, inserted, Some(Posting(before, change)), sequence);
  }

  /** The part of settle that moves money. */
  method Move(store: Store, w: Wallet, t: WagerTransaction, direction: Direction, now: int,
              ghost db: Db, ghost found: Tx, ghost inserted: bool) returns (r: Result<Answer>)
    requires Sound(db) && Unconcluded(db, found, inserted) && found.id != 0
    requires store.work == Working(db, found, inserted, None, store.next) && Carries(t.Row(), found)
    requires t.referenceId !in db.reversals
    requires w.id in db.wallets && db.wallets[w.id] == w.Row()
    modifies store`work, store`next, t, w
    ensures Follows(MovingPlan(old(t.Row()), inserted, old(w.Row()), direction, now), r, db, store.work,
                    old(store.next))
  {
    hide Sound, Working, Unconcluded, MovementChange, Carries, Concluding, Rejecting, Install, WalletAfter;
    ghost var before := w.Row();
    var moved := ApplyMovement(w, direction, t.business.money, now);
    if moved.Ok? {
      r := PostAndConclude(store, w, t, moved.value, now, before, direction, db, found, inserted);
    } else if moved.error.InsufficientFunds? {
      r := Reject(store, t, InsufficientFundsCodeOf(t.business.kind), now, db, found, inserted);
    } else {
      r := Err(moved.error);
    }
  }

  /** settle. LOSS goes through it as well, and concludes without a movement. */
  method Settle(store: Store, w: Wallet, t: WagerTransaction, reference: Option<WagerTransaction>, now: int,
                ghost db: Db, ghost found: Tx, ghost inserted: bool) returns (r: Result<Answer>)
    requires Sound(db) && Unconcluded(db, found, inserted) && found.id != 0
    requires store.work == Working(db, found, inserted, None, store.next) && Carries(t.Row(), found)
    requires t.referenceId !in db.reversals && (reference.Some? ==> reference.value != t)
    requires w.id in db.wallets && db.wallets[w.id] == w.Row()
    modifies store`work, store`next, t, w
    ensures Follows(Settling(old(t.Row()), inserted, old(w.Row()), old(RowOf(reference)), now), r, db, store.work,
                    old(store.next))
  {
    hide Sound, Working, Unconcluded, MovingPlan, Carries, MovementOf, Concluding, Settling, Install;
    SettlingMoves(t.Row(), inserted, w.Row(), RowOf(reference), now);
    var movement := MovementOf(t.Row(), RowOf(reference));
    if movement.Err? {
      return Err(movement.error);
    }
    if movement.value.None? {
      r := Conclude(store, t, w.balance, None, now, db, found, inserted, None, store.next);
      return;
    }
    r := Move(store, w, t, movement.value.value, now, db, found, inserted);
  }

  lemma WalletOfInv(db: Db, id: Id)
    requires Sound(db) && id in db.wallets
    ensures db.wallets[id].id == id && id != 0 && db.wallets[id].version >= 1 && db.wallets[id].balance.cents >= 0
    ensures db.wallets[id].updatedAt != ZERO_TIME
  {
    hide RowsOk, IndexesExact, OwnersExact, LedgerMatchesRows, ChainsOk, TransactionEventsExact, WalletEventsExact;
    hide ParkedOk;
  }

  lemma LedgerOfInv(db: Db)
    requires Sound(db)
    ensures LedgerMatchesRows(db.txs, db.ledger)
  {
    hide RowsOk, IndexesExact, OwnersExact, LedgerMatchesRows, ChainsOk, TransactionEventsExact, WalletEventsExact;
    hide ParkedOk;
  }

  // ---- Resolving the reference ----

  /** The transaction finds the same reference as the committed state, or its own new row, which waits as well. */
  lemma SeesReference(db: Db, t: Tx, inserted: bool, sequence: nat)
    requires Unconcluded(db, t, inserted)
    ensures var work, b := Working(db, t, inserted, None, sequence), t.business;
      var seen, committed := FindExternal(work, b.provider, b.reference), FindExternal(db, b.provider, b.reference);
      && JudgeReference(t, seen) == JudgeReference(t, committed)
      && (!JudgeReference(t, committed).Wait? ==> seen == committed)
      && work.reversals == db.reversals
  {
  }

  /** What the verdict on the reference makes of a job whose wallet passed. */
  lemma JobOnReference(db: Db, t: Tx, inserted: bool, now: int)
    requires JudgeWallet(Get(db.wallets, t.business.wallet), t.business).Consult?
    ensures var r := FindExternal(db, t.business.provider, t.business.reference);
      var plan := Finish(JobOf(db, t, inserted), now);
      match JudgeReference(t, r)
      case Wait => plan == Parking(t, inserted, now)
      case Refuse(code) => plan == Rejecting(t, inserted, code, now)
      case Settle => true
      case Consult =>
        if r.value.id in db.reversals then plan == Rejecting(t, inserted, AlreadyReversedCode, now)
        else match ReferenceResolved(t, r.value.id, now)
          case Err(e) => plan == Fails(e)
          case Ok(t1) => plan == Settling(t1, inserted, db.wallets[t.business.wallet], r, now)
  {
    hide Settling, Parking, Rejecting;
  }

  /** resolveReference, for the kinds that require one: either the operation is decided, or the reference is
      resolved and what is left is to settle. */
  method ResolveReference(store: Store, t: WagerTransaction, now: int, ghost db: Db, ghost inserted: bool)
    returns (reference: Option<WagerTransaction>, outcome: Option<Result<Answer>>)
    requires Sound(db) && Unconcluded(db, t.Row(), inserted)
    requires store.work == Working(db, t.Row(), inserted, None, store.next)
    requires JudgeWallet(Get(db.wallets, t.business.wallet), t.business).Consult?
    modifies store`work, t
    ensures var plan := Finish(JobOf(db, old(t.Row()), inserted), now);
      if outcome.Some? then Follows(plan, outcome.value, db, store.work, store.next)
      else
        && store.work == old(store.work) && Carries(t.Row(), old(t.Row()))
        && reference.Some? && fresh(reference.value) && t.referenceId !in db.reversals
        && plan == Settling(t.Row(), inserted, db.wallets[t.business.wallet], RowOf(reference), now)
  {
    hide Sound, Working, Unconcluded, Settling, Parking, Rejecting, JobOf, Finish, Agrees, FindExternal, Carries;
    hide Install;
    ghost var found := t.Row();
    CarriesItself(found);
    SeesReference(db, found, inserted, store.next);
    JobOnReference(db, found, inserted, now);
    reference := store.FindByProviderAndExternalId(t.business.provider, t.business.reference);
    if reference.None? || !reference.value.state.IsTerminal() {
      var parked := Park(store, t, now, db, found, inserted);
      outcome := Some(parked);
      return;
    }
    if !reference.value.state.Processed? {
      var rejected := Reject(store, t, ReferenceNotProcessedCode, now, db, found, inserted);
      outcome := Some(rejected);
      return;
    }
    if !Agrees(t.Row(), reference.value.Row()) {
      var rejected := Reject(store, t, ReferenceMismatchCode, now, db, found, inserted);
      outcome := Some(rejected);
      return;
    }
    if reference.value.id in store.work.reversals {
      var rejected := Reject(store, t, AlreadyReversedCode, now, db, found, inserted);
      outcome := Some(rejected);
      return;
    }
    var resolved := t.ResolveReference(reference.value.id, now);
    if resolved.Err? {
      return reference, Some(Err(resolved.error));
    }
    ResolvedCarries(found, reference.value.id, now);
    outcome := None;
  }

  lemma CarriesItself(t: Tx)
    ensures Carries(t, t)
  {
  }

  lemma ResolvedCarries(t: Tx, reference: Id, now: int)
    requires ReferenceResolved(t, reference, now).Ok?
    ensures Carries(ReferenceResolved(t, reference, now).value, t)
    ensures ReferenceResolved(t, reference, now).value.referenceId == reference
  {
  }

  // ---- Apply ----

  lemma FoundIsUnconcluded(db: Db, cmd: Command)
    requires Sound(db)
    ensures var r := FindExternal(db, cmd.business.provider, cmd.business.externalId);
      r.Some? && !r.value.state.IsTerminal() ==> Unconcluded(db, r.value, false) && r.value.id != 0
  {
    hide WalletsOk, OwnersExact, LedgerMatchesRows, ChainsOk, TransactionEventsExact, WalletEventsExact, ParkedOk;
    var key := (cmd.business.provider, cmd.business.externalId);
    if key in db.externals && db.externals[key] in db.txs {
      assert RowOk(db.wallets, db.txs, db.txs[db.externals[key]]);
    }
  }

  lemma NewIsUnconcluded(db: Db, cmd: Command, id: Id, now: int, sequence: nat)
    requires NewExternal(cmd, id, now).Ok? && id !in db.txs
    ensures var t := NewExternal(cmd, id, now).value;
      && t.business == cmd.business && t.id == id && id != 0 && OpeningKey(t).None?
      && (InsertGuard(db, t).Ok? ==>
            Unconcluded(db, t, true) && InstallRow(db, t) == Working(db, t, true, None, sequence))
  {
  }

  /** record: finds the operation, or creates its row. */
  method RecordOperation(store: Store, cmd: Command, id: Id, now: int, ghost db: Db)
    returns (r: Result<WagerTransaction>, replayed: bool, ghost inserted: bool)
    requires Sound(db) && store.work == db && id !in db.txs
    modifies store`work
    ensures r.Ok? ==> fresh(r.value)
    ensures match Record(db, cmd, id, now)
      case Unrecordable(e) => r == Err(e)
      case Concluded(t) => r.Ok? && r.value.Row() == t && replayed && store.work == db
      case Open(t, isNew) =>
        && r.Ok? && r.value.Row() == t && !replayed && inserted == isNew
        && t.id != 0 && t.business == cmd.business && Unconcluded(db, t, inserted)
        && store.work == Working(db, t, inserted, None, store.next)
  {
    hide Sound, Unconcluded, Working, NewExternal, FindExternal, InsertGuard, InstallRow;
    inserted := false;
    FoundIsUnconcluded(db, cmd);
    NothingPostedYet(db);
    var existing := store.FindByProviderAndExternalId(cmd.business.provider, cmd.business.externalId);
    if existing.Some? {
      if existing.value.business != cmd.business {
        return Err(PayloadConflict), false, false;
      }
      return Ok(existing.value), existing.value.state.IsTerminal(), false;
    }
    var built := NewExternal(cmd, id, now);
    if built.Err? {
      return Err(InvalidCommand), false, false;
    }
    NewIsUnconcluded(db, cmd, id, now, store.next);
    var t := new WagerTransaction.Restored(built.value);
    var stored := store.Insert(t);
    if stored.Err? {
      return Err(stored.error), false, false;
    }
    return Ok(t), false, true;
  }

  /** What the checks on the wallet make of a job. */
  lemma JobOnWallet(db: Db, t: Tx, inserted: bool, now: int)
    ensures var plan := Finish(JobOf(db, t, inserted), now);
      match JudgeWallet(Get(db.wallets, t.business.wallet), t.business)
      case Refuse(code) => plan == Rejecting(t, inserted, code, now)
      case Settle => plan == Settling(t, inserted, db.wallets[t.business.wallet], None, now)
      case _ => true
  {
    hide Settling, Rejecting;
  }

  lemma UnreversedWhenUnresolved(db: Db, t: Tx, inserted: bool)
    requires Sound(db) && Unconcluded(db, t, inserted)
    ensures t.referenceId !in db.reversals
  {
    hide RowsOk, WalletsOk, OwnersExact, LedgerMatchesRows, ChainsOk, TransactionEventsExact, WalletEventsExact;
    hide ParkedOk;
    if 0 in db.reversals {
      assert RowOk(db.wallets, db.txs, db.txs[db.reversals[0]]) by { RowIsOk(db, db.reversals[0]); }
      assert false;
    }
  }

  lemma RowIsOk(db: Db, id: Id)
    requires RowsOk(db.wallets, db.txs) && id in db.txs
    ensures RowOk(db.wallets, db.txs, db.txs[id])
  {
  }

  lemma PlanOfOpen(db: Db, cmd: Command, id: Id, now: int)
    requires ValidCommand(cmd)
    ensures match Record(db, cmd, id, now)
      case Unrecordable(e) => ApplyPlan(db, cmd, id, now) == Fails(e)
      case Concluded(t) => ApplyPlan(db, cmd, id, now) == Replies(ReplayOf(t))
      case Open(t, inserted) => ApplyPlan(db, cmd, id, now) == Finish(JobOf(db, t, inserted), now)
  {
    hide Record, Finish, JobOf, ValidCommand;
  }

  /** The part of apply after the operation was recorded. */
  method Carry(store: Store, t: WagerTransaction, now: int, ghost db: Db,
               ghost inserted: bool) returns (r: Result<Answer>)
    requires Sound(db) && Unconcluded(db, t.Row(), inserted) && t.id != 0
    requires store.work == Working(db, t.Row(), inserted, None, store.next)
    modifies store`work, store`next, t
    ensures Follows(Finish(JobOf(db, old(t.Row()), inserted), now), r, db, store.work, old(store.next))
  {
    hide Sound, Unconcluded, Working, Finish, JobOf, Settling, Rejecting, Carries, Install, Follows;
    ghost var found := t.Row();
    CarriesItself(found);
    WorkingWallets(db, found, inserted, store.next);
    JobOnWallet(db, found, inserted, now);
    UnreversedWhenUnresolved(db, found, inserted);
    var locked := store.LockById(t.business.wallet);
    if locked.None? {
      r := Reject(store, t, WalletNotFoundCode, now, db, found, inserted);
      return;
    }
    var w := locked.value;
    if w.player != t.business.player {
      r := Reject(store, t, WalletNotFoundCode, now, db, found, inserted);
      return;
    }
    if w.balance.currency != t.business.money.currency {
      r := Reject(store, t, CurrencyMismatchCode, now, db, found, inserted);
      return;
    }
    WalletOfInv(db, t.business.wallet);
    if !t.business.kind.RequiresReference() {
      r := Settle(store, w, t, None, now, db, found, inserted);
      return;
    }
    var reference, outcome := ResolveReference(store, t, now, db, inserted);
    if outcome.Some? {
      return outcome.value;
    }
    r := Settle(store, w, t, reference, now, db, found, inserted);
  }

  lemma WorkingWallets(db: Db, t: Tx, inserted: bool, sequence: nat)
    ensures Working(db, t, inserted, None, sequence).wallets == db.wallets
  {
    hide InstallRow;
  }

  lemma WithoutWriting(db: Db, sequence: nat)
    ensures forall e, after :: Follows(Fails(e), Err(e), db, after, sequence)
    ensures forall answer :: Follows(Replies(answer), Ok(answer), db, db, sequence)
  {
  }

  /** apply, in a transaction that just began: it does what its plan says. */
  method Apply(store: Store, cmd: Command, id: Id, now: int) returns (r: Result<Answer>)
    requires Sound(store.work) && ValidCommand(cmd) && id !in store.work.txs
    modifies store`work, store`next
    ensures Follows(ApplyPlan(old(store.work), cmd, id, now), r, old(store.work), store.work, old(store.next))
  {
    ghost var db := store.work;
    hide Sound, Unconcluded, Working, Record, Finish, JobOf, Follows, ApplyPlan, ValidCommand;
    PlanOfOpen(db, cmd, id, now);
    WithoutWriting(db, store.next);
    var recorded, replayed, inserted := RecordOperation(store, cmd, id, now, db);
    if recorded.Err? {
      return Err(recorded.error);
    }
    var t := recorded.value;
    if replayed {
      return Ok(ReplayOf(t.Row()));
    }
    r := Carry(store, t, now, db, inserted);
  }
}
