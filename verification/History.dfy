/** What every committed state keeps: rows, unique indexes, ledger chains and outbox. */
module History {
  import opened Outcome
  import opened Monetary
  import opened Wager
  import opened Database

  // ---- Rows ----

  ghost predicate ValidBusiness(b: Business, key: string) {
    && b.wallet != 0 && b.player != 0
    && ValidateAmountForKind(b.kind, b.money).Ok?
    && ValidateReferenceForKind(b.kind, b.reference).Ok?
    && (b.kind.IsExternal() ==> ValidateExternalMetadata(b, key).Ok?)
    && (b.kind.Opening? ==> b == OpeningBusiness(b.wallet, b.player, b.money) && key == "")
  }

  /** What a row says by itself. No committed row is PENDING or FAILED. */
  ghost predicate RowShape(t: Tx) {
    && t.id != 0 && ValidBusiness(t.business, t.key)
    && (t.state.PendingReference? || t.state.Processed? || t.state.Rejected?)
    && (t.failure.Some? <==> t.state.Rejected?)
    && (t.result.Some? <==> t.state.Processed?)
    && (t.result.Some? ==> t.result.value.currency == t.business.money.currency && t.result.value.cents >= 0)
    && (t.state.PendingReference? ==> t.business.kind.RequiresReference() && t.referenceId == 0)
    && (t.referenceId != 0 ==> t.business.kind.RequiresReference())
    && (IsReversal(t) ==> t.referenceId != 0)
    && (t.business.kind.Opening? ==> t.state.Processed?)
    && t.createdAt <= t.updatedAt && t.createdAt != ZERO_TIME && t.updatedAt != ZERO_TIME
  }

  /** What a resolved reference points at. */
  ghost predicate References(txs: map<Id, Tx>, t: Tx) {
    && t.referenceId in txs && t.referenceId != t.id
    && var r := txs[t.referenceId];
    && r.state.Processed? && Agrees(t, r)
    && r.business.provider == t.business.provider && r.business.externalId == t.business.reference
  }

  ghost predicate FitsWallet(wallets: map<Id, WalletRow>, b: Business) {
    b.wallet in wallets && wallets[b.wallet].balance.currency == b.money.currency
  }

  ghost predicate RowOk(wallets: map<Id, WalletRow>, txs: map<Id, Tx>, t: Tx) {
    && RowShape(t) && FitsWallet(wallets, t.business) && (t.referenceId != 0 ==> References(txs, t))
    && (t.state.Processed? ==> wallets[t.business.wallet].player == t.business.player)
  }

  ghost predicate RowsOk(wallets: map<Id, WalletRow>, txs: map<Id, Tx>) {
    forall id | id in txs :: txs[id].id == id && RowOk(wallets, txs, txs[id])
  }

  ghost predicate WalletsOk(wallets: map<Id, WalletRow>) {
    forall id | id in wallets ::
      var w := wallets[id];
      && w.id == id && id != 0 && w.player != 0 && w.balance.Initialized() && w.balance.cents >= 0
      && w.version >= 1 && w.createdAt <= w.updatedAt && w.createdAt != ZERO_TIME && w.updatedAt != ZERO_TIME
  }

  // ---- Unique indexes ----

  /** The index lists exactly the rows that have the key, so no two rows share one. */
  ghost predicate IndexExact<K(!new)>(txs: map<Id, Tx>, index: map<K, Id>, key: Tx -> Option<K>) {
    && (forall k | k in index :: index[k] in txs && key(txs[index[k]]) == Some(k))
    && (forall id | id in txs && key(txs[id]).Some? :: key(txs[id]).value in index && index[key(txs[id]).value] == id)
  }

  ghost predicate IndexesExact(txs: map<Id, Tx>, externals: map<(string, string), Id>, keys: map<(string, string), Id>,
                               openings: map<Id, Id>, reversals: map<Id, Id>) {
    && IndexExact(txs, externals, ExternalKey)
    && IndexExact(txs, keys, IdempotencyKey)
    && IndexExact(txs, openings, OpeningKey)
    && IndexExact(txs, reversals, ReversalKey)
  }

  ghost predicate OwnersExact(wallets: map<Id, WalletRow>, owners: map<(Id, Currency), Id>) {
    && (forall k | k in owners ::
          owners[k] in wallets && (wallets[owners[k]].player, wallets[owners[k]].balance.currency) == k)
    && (forall id | id in wallets ::
          var k := (wallets[id].player, wallets[id].balance.currency); k in owners && owners[k] == id)
  }

  // ---- Ledger ----

  /** How a committed transaction moves its wallet: a ROLLBACK moves against its reference. */
  function DirectionOf(txs: map<Id, Tx>, t: Tx): Option<Direction> {
    match MovementOf(t, Get(txs, t.referenceId))
    case Ok(d) => d
    case Err(_) => None
  }

  predicate Moves(t: Tx) {
    t.state.Processed? && !t.business.kind.Loss?
  }

  ghost predicate Posted(ledger: seq<Entry>, id: Id) {
    exists i :: 0 <= i < |ledger| && ledger[i].tx == id
  }

  /** The entries of a wallet in commit order. */
  ghost function EntriesOf(ledger: seq<Entry>, wallet: Id): (es: seq<Entry>)
    ensures forall i | 0 <= i < |es| :: es[i] in ledger && es[i].wallet == wallet
  {
    if ledger == [] then [] else
    var n := |ledger| - 1;
    EntriesOf(ledger[..n], wallet) + (if ledger[n].wallet == wallet then [ledger[n]] else [])
  }

  lemma EntriesOfAppend(ledger: seq<Entry>, e: Entry, wallet: Id)
    ensures EntriesOf(ledger + [e], wallet) ==
      if e.wallet == wallet then EntriesOf(ledger, wallet) + [e] else EntriesOf(ledger, wallet)
  {
    assert (ledger + [e])[..|ledger|] == ledger;
  }

  ghost predicate EntryMatches(txs: map<Id, Tx>, e: Entry) {
    && e.tx in txs
    && var t := txs[e.tx];
    && Moves(t) && e.wallet == t.business.wallet && e.amount == t.business.money
    && DirectionOf(txs, t) == Some(e.direction)
    && t.result == Some(e.after)
  }

  /** A transaction has an entry exactly when it is PROCESSED and not a LOSS, and then only one. */
  ghost predicate LedgerMatchesRows(txs: map<Id, Tx>, ledger: seq<Entry>) {
    && (forall i | 0 <= i < |ledger| :: EntryMatches(txs, ledger[i]))
    && (forall i, j | 0 <= i < j < |ledger| :: ledger[i].tx != ledger[j].tx)
    && (forall id | id in txs && Moves(txs[id]) :: Posted(ledger, id))
  }

  function EndOf(es: seq<Entry>, currency: Currency): Money {
    if es == [] then Money(0, currency) else es[|es| - 1].after
  }

  /** The i-th entry begins where the previous one ended, the first at zero, and its arithmetic holds. */
  ghost predicate Linked(es: seq<Entry>, i: nat, currency: Currency)
    requires i < |es|
  {
    && es[i].before == EndOf(es[..i], currency)
    && es[i].amount.currency == currency && es[i].amount.cents > 0
    && es[i].after.currency == currency && es[i].after.cents >= 0
    && es[i].after.cents == es[i].before.cents + Signed(es[i].direction, es[i].amount.cents)
    && es[i].createdAt != ZERO_TIME
  }

  ghost predicate Chain(es: seq<Entry>, currency: Currency) {
    && (forall i: nat | i < |es| :: Linked(es, i, currency))
    && (forall i, j | 0 <= i < j < |es| :: es[i].sequence < es[j].sequence)
  }

  function BaseVersion(opening: Option<Id>): nat {
    if opening.Some? then 0 else 1
  }

  /** The ledger of a wallet explains its row: it ends at the balance, and the version counts its entries. */
  ghost predicate WalletChain(w: WalletRow, es: seq<Entry>, opening: Option<Id>) {
    && Chain(es, w.balance.currency)
    && EndOf(es, w.balance.currency) == w.balance
    && w.version == BaseVersion(opening) + |es|
    && (opening.Some? ==> |es| > 0 && es[0].tx == opening.value)
  }

  ghost predicate ChainsOk(wallets: map<Id, WalletRow>, ledger: seq<Entry>, openings: map<Id, Id>) {
    forall id | id in wallets :: WalletChain(wallets[id], EntriesOf(ledger, id), Get(openings, id))
  }

  // ---- Outbox ----

  /** The events about a transaction, in commit order. */
  ghost function EventsAbout(outbox: seq<Event>, id: Id): seq<Event> {
    if outbox == [] then [] else
    var n := |outbox| - 1;
    EventsAbout(outbox[..n], id) + (if !outbox[n].BalanceChanged? && outbox[n].tx.id == id then [outbox[n]] else [])
  }

  /** The balance events of a wallet, in commit order. */
  ghost function BalanceEvents(outbox: seq<Event>, wallet: Id): seq<Event> {
    if outbox == [] then [] else
    var n := |outbox| - 1;
    BalanceEvents(outbox[..n], wallet)
      + (if outbox[n].BalanceChanged? && outbox[n].change.wallet == wallet then [outbox[n]] else [])
  }

  lemma OutboxAppend(outbox: seq<Event>, e: Event, id: Id)
    ensures EventsAbout(outbox + [e], id) ==
      EventsAbout(outbox, id) + (if !e.BalanceChanged? && e.tx.id == id then [e] else [])
    ensures BalanceEvents(outbox + [e], id) ==
      BalanceEvents(outbox, id) + (if e.BalanceChanged? && e.change.wallet == id then [e] else [])
  {
    assert (outbox + [e])[..|outbox|] == outbox;
  }

  /** The events a transaction must have: its wait, if it was ever parked, then its conclusion. */
  function EventsDue(parked: Option<Tx>, t: Option<Tx>): seq<Event> {
    (if parked.Some? then [TransactionParked(parked.value)] else [])
    + (if t.None? then []
       else if t.value.state.Processed? then [TransactionProcessed(t.value)]
       else if t.value.state.Rejected? then [TransactionRejected(t.value)]
       else [])
  }

  /** The balance event of the entry that brought a wallet to a version. */
  function BalanceEventOf(e: Entry, version: int64): Event {
    BalanceChanged(Change(e.wallet, e.direction, e.amount, e.before, e.after, version, e.createdAt), e.tx)
  }

  ghost predicate EventsMatchEntries(evs: seq<Event>, es: seq<Entry>, base: nat) {
    && |evs| == |es| && base + |es| <= MAX_INT64
    && forall i | 0 <= i < |es| :: evs[i] == BalanceEventOf(es[i], base + i + 1)
  }

  /** One event per fact about a transaction, and nothing else. */
  ghost predicate TransactionEventsExact(outbox: seq<Event>, parked: map<Id, Tx>, txs: map<Id, Tx>) {
    forall id :: EventsAbout(outbox, id) == EventsDue(Get(parked, id), Get(txs, id))
  }

  /** The balance events of a wallet have consecutive versions and rebuild its ledger. */
  ghost predicate WalletEventsExact(outbox: seq<Event>, wallets: map<Id, WalletRow>, ledger: seq<Entry>,
                                    openings: map<Id, Id>) {
    && (forall id | id in wallets ::
          EventsMatchEntries(BalanceEvents(outbox, id), EntriesOf(ledger, id), BaseVersion(Get(openings, id))))
    && (forall id | id !in wallets :: BalanceEvents(outbox, id) == [])
  }

  /** Every waiting row was parked as it is, and a row that was parked waits or has concluded. */
  ghost predicate ParkedOk(txs: map<Id, Tx>, parked: map<Id, Tx>) {
    && (forall id | id in txs && txs[id].state.PendingReference? :: id in parked && parked[id] == txs[id])
    && (forall id | id in parked ::
          id in txs && parked[id].state.PendingReference? && parked[id].business == txs[id].business)
  }

  /** No delivery is half handled. */
  ghost predicate InboxOk(inbox: map<MessageKey, InboxRow>) {
    forall k | k in inbox ::
      inbox[k].completedAt.Some? && inbox[k].receivedAt <= inbox[k].completedAt.value && inbox[k].attempts >= 1
  }

  /** What a transaction relies on, whatever deliveries it has registered. */
  ghost predicate Sound(db: Db) {
    && RowsOk(db.wallets, db.txs) && WalletsOk(db.wallets)
    && IndexesExact(db.txs, db.externals, db.keys, db.openings, db.reversals) && OwnersExact(db.wallets, db.owners)
    && LedgerMatchesRows(db.txs, db.ledger) && ChainsOk(db.wallets, db.ledger, db.openings)
    && TransactionEventsExact(db.outbox, db.parked, db.txs)
    && WalletEventsExact(db.outbox, db.wallets, db.ledger, db.openings)
    && ParkedOk(db.txs, db.parked)
  }

  ghost predicate DbInv(db: Db) {
    Sound(db) && InboxOk(db.inbox)
  }

  lemma RowsOfInv(db: Db)
    requires DbInv(db)
    ensures RowsOk(db.wallets, db.txs)
  {
    hide RowsOk, WalletsOk, IndexesExact, OwnersExact, LedgerMatchesRows, ChainsOk, TransactionEventsExact;
    hide WalletEventsExact, ParkedOk, InboxOk;
  }

  lemma EmptyInv()
    ensures DbInv(EMPTY_DB)
  {
  }

  // ---- Admissible writes ----

  /** A change that continues from the balance and version of its wallet. */
  ghost predicate ChangeOk(w: WalletRow, c: Change) {
    && c.wallet == w.id && c.before == w.balance && c.amount.currency == w.balance.currency && c.amount.cents > 0
    && c.after.currency == w.balance.currency && c.after.cents >= 0
    && c.after.cents == c.before.cents + Signed(c.direction, c.amount.cents)
    && c.version == w.version + 1 && c.at >= w.updatedAt && c.at != ZERO_TIME
  }

  ghost predicate LastInSequence(ledger: seq<Entry>, wallet: Id, sequence: nat) {
    forall i | 0 <= i < |ledger| :: ledger[i].wallet == wallet ==> ledger[i].sequence < sequence
  }

  ghost predicate PostingOk(db: Db, t: Tx, p: Posting, sequence: nat) {
    && Moves(t) && t.business.wallet in db.wallets && p.from == db.wallets[t.business.wallet]
    && p.change.wallet == t.business.wallet && p.change.amount == t.business.money
    && ChangeOk(p.from, p.change)
    && t.result == Some(p.change.after)
    && DirectionOf(db.txs, t) == Some(p.change.direction)
    && LastInSequence(db.ledger, t.business.wallet, sequence)
  }

  /** The row a write replaces, if any, still waits for its reference and describes the same operation. */
  ghost predicate Replaceable(txs: map<Id, Tx>, t: Tx) {
    t.id in txs ==> txs[t.id].state.PendingReference? && txs[t.id].business == t.business && txs[t.id].key == t.key
  }

  /** What a write must satisfy on the state it is installed on. */
  ghost predicate WriteOk(db: Db, w: Write, sequence: nat) {
    var t := w.tx;
    && RowOk(db.wallets, db.txs, t) && !t.business.kind.Opening?
    && (w.inserted <==> t.id !in db.txs)
    && (w.inserted ==> !Taken(db.externals, ExternalKey(t)) && !Taken(db.keys, IdempotencyKey(t)))
    && (!w.inserted ==> t.state.IsTerminal())
    && Replaceable(db.txs, t)
    && !Taken(db.reversals, ReversalKey(t))
    && (w.posting.Some? <==> Moves(t))
    && (w.posting.Some? ==> PostingOk(db, t, w.posting.value, sequence))
  }

  // ---- Preservation, table by table ----

  lemma RowsStep(wallets: map<Id, WalletRow>, txs: map<Id, Tx>, t: Tx)
    requires RowsOk(wallets, txs) && RowOk(wallets, txs, t) && Replaceable(txs, t)
    ensures RowsOk(wallets, txs[t.id := t])
  {
    hide RowShape, Agrees;
    var after := txs[t.id := t];
    forall id | id in after
      ensures after[id].id == id && RowOk(wallets, after, after[id])
    {
      assert RowOk(wallets, txs, after[id]);
      assert after[id].referenceId != 0 ==> References(after, after[id]);
    }
  }

  lemma RowsKeptByWallet(wallets: map<Id, WalletRow>, txs: map<Id, Tx>, id: Id, w: WalletRow)
    requires RowsOk(wallets, txs)
    requires id in wallets ==> wallets[id].balance.currency == w.balance.currency && wallets[id].player == w.player
    ensures RowsOk(wallets[id := w], txs)
  {
    forall i | i in txs
      ensures txs[i].id == i && RowOk(wallets[id := w], txs, txs[i])
    {
      assert RowOk(wallets, txs, txs[i]);
    }
  }

  /** A statement that gives row t its key keeps the index, when no other row has that key. */
  lemma IndexStep<K(!new)>(txs: map<Id, Tx>, index: map<K, Id>, key: Tx -> Option<K>, t: Tx)
    requires IndexExact(txs, index, key)
    requires t.id in txs && key(txs[t.id]).Some? ==> key(t) == key(txs[t.id])
    requires Taken(index, key(t)) ==> index[key(t).value] == t.id
    ensures IndexExact(txs[t.id := t], Indexed(index, key(t), t.id), key)
  {
  }

  lemma IndexesStep(db: Db, t: Tx)
    requires Replaceable(db.txs, t) && !Taken(db.reversals, ReversalKey(t))
    requires IndexesExact(db.txs, db.externals, db.keys, db.openings, db.reversals)
    requires t.id !in db.txs ==>
      !Taken(db.externals, ExternalKey(t)) && !Taken(db.keys, IdempotencyKey(t)) && !Taken(db.openings, OpeningKey(t))
    ensures var d := InstallRow(db, t); IndexesExact(d.txs, d.externals, d.keys, d.openings, d.reversals)
  {
    IndexStep(db.txs, db.externals, ExternalKey, t);
    IndexStep(db.txs, db.keys, IdempotencyKey, t);
    IndexStep(db.txs, db.openings, OpeningKey, t);
    IndexStep(db.txs, db.reversals, ReversalKey, t);
  }

  lemma OwnersKept(wallets: map<Id, WalletRow>, owners: map<(Id, Currency), Id>, id: Id, w: WalletRow)
    requires OwnersExact(wallets, owners) && id in wallets
    requires w.player == wallets[id].player && w.balance.currency == wallets[id].balance.currency
    ensures OwnersExact(wallets[id := w], owners)
  {
  }

  lemma ParkedRowsExist(txs: map<Id, Tx>, parked: map<Id, Tx>, id: Id)
    requires ParkedOk(txs, parked)
    ensures id in parked ==> id in txs
  {
  }

  lemma ParkedStep(txs: map<Id, Tx>, parked: map<Id, Tx>, t: Tx)
    requires ParkedOk(txs, parked) && Replaceable(txs, t)
    ensures ParkedOk(txs[t.id := t], if t.state.PendingReference? then parked[t.id := t] else parked)
  {
  }

  /** A processed rollback points at a processed transaction. */
  ghost predicate RollbacksResolved(txs: map<Id, Tx>) {
    forall id | id in txs && txs[id].state.Processed? && txs[id].business.kind.Rollback? ::
      txs[id].referenceId in txs && txs[txs[id].referenceId].state.Processed?
  }

  lemma RowsResolveRollbacks(wallets: map<Id, WalletRow>, txs: map<Id, Tx>)
    requires RowsOk(wallets, txs)
    ensures RollbacksResolved(txs)
  {
    forall id | id in txs && txs[id].state.Processed? && txs[id].business.kind.Rollback?
      ensures txs[id].referenceId in txs && txs[txs[id].referenceId].state.Processed?
    {
      assert RowOk(wallets, txs, txs[id]);
    }
  }

  /** A committed entry keeps matching: neither its transaction nor the reference of it can still change. */
  lemma EntryMatchStep(txs: map<Id, Tx>, t: Tx, e: Entry)
    requires Replaceable(txs, t) && RollbacksResolved(txs) && EntryMatches(txs, e)
    ensures EntryMatches(txs[t.id := t], e) && e.tx != t.id
  {
  }

  lemma EntriesMatchStep(txs: map<Id, Tx>, ledger: seq<Entry>, t: Tx)
    requires Replaceable(txs, t) && RollbacksResolved(txs) && LedgerMatchesRows(txs, ledger)
    ensures forall i | 0 <= i < |ledger| :: EntryMatches(txs[t.id := t], ledger[i]) && ledger[i].tx != t.id
  {
    forall i | 0 <= i < |ledger| {
      EntryMatchStep(txs, t, ledger[i]);
    }
  }

  lemma LedgerUnmoved(txs: map<Id, Tx>, ledger: seq<Entry>, t: Tx)
    requires Replaceable(txs, t) && RollbacksResolved(txs) && LedgerMatchesRows(txs, ledger) && !Moves(t)
    ensures LedgerMatchesRows(txs[t.id := t], ledger)
  {
    EntriesMatchStep(txs, ledger, t);
  }

  lemma LedgerStep(txs: map<Id, Tx>, ledger: seq<Entry>, t: Tx, e: Entry)
    requires Replaceable(txs, t) && RollbacksResolved(txs) && LedgerMatchesRows(txs, ledger)
    requires Moves(t) && e.tx == t.id && EntryMatches(txs[t.id := t], e)
    ensures LedgerMatchesRows(txs[t.id := t], ledger + [e])
  {
    EntriesMatchStep(txs, ledger, t);
    var after, longer, n := txs[t.id := t], ledger + [e], |ledger|;
    assert forall i | 0 <= i < n :: longer[i] == ledger[i];
    forall id | id in after && Moves(after[id])
      ensures Posted(longer, id)
    {
      if id == t.id {
        assert longer[n].tx == id;
      } else {
        assert Posted(ledger, id);
        var i :| 0 <= i < n && ledger[i].tx == id;
        assert longer[i].tx == id;
      }
    }
  }

  lemma ChainAppend(es: seq<Entry>, e: Entry, currency: Currency)
    requires Chain(es, currency)
    requires e.before == EndOf(es, currency) && e.amount.currency == currency && e.amount.cents > 0
    requires e.after.currency == currency && e.after.cents >= 0
    requires e.after.cents == e.before.cents + Signed(e.direction, e.amount.cents) && e.createdAt != ZERO_TIME
    requires forall i | 0 <= i < |es| :: es[i].sequence < e.sequence
    ensures Chain(es + [e], currency) && EndOf(es + [e], currency) == e.after
  {
    var longer := es + [e];
    forall i: nat | i < |longer|
      ensures Linked(longer, i, currency)
    {
      assert longer[..i] == es[..i];
      if i < |es| {
        assert Linked(es, i, currency);
      } else {
        assert es[..i] == es;
      }
    }
  }

  /** A movement extends the chain of its wallet by one entry and one version. */
  lemma WalletChainStep(w: WalletRow, ledger: seq<Entry>, opening: Option<Id>, c: Change, tx: Id, sequence: nat, id: Id)
    requires WalletChain(w, EntriesOf(ledger, id), opening)
    requires c.wallet == id ==> ChangeOk(w, c)
    requires LastInSequence(ledger, c.wallet, sequence)
    ensures WalletChain(if id == c.wallet then WalletAfter(w, c) else w,
                        EntriesOf(ledger + [EntryOf(c, tx, sequence)], id), opening)
  {
    EntriesOfAppend(ledger, EntryOf(c, tx, sequence), id);
    if id == c.wallet {
      var es := EntriesOf(ledger, id);
      assert forall i | 0 <= i < |es| :: es[i] in ledger;
      ChainAppend(es, EntryOf(c, tx, sequence), w.balance.currency);
    }
  }

  lemma ChainsStep(wallets: map<Id, WalletRow>, ledger: seq<Entry>, openings: map<Id, Id>, c: Change, tx: Id,
                   sequence: nat)
    requires ChainsOk(wallets, ledger, openings)
    requires c.wallet in wallets && ChangeOk(wallets[c.wallet], c)
    requires LastInSequence(ledger, c.wallet, sequence)
    ensures ChainsOk(wallets[c.wallet := WalletAfter(wallets[c.wallet], c)], ledger + [EntryOf(c, tx, sequence)],
                     openings)
  {
    forall id | id in wallets
      ensures WalletChain(if id == c.wallet then WalletAfter(wallets[id], c) else wallets[id],
                          EntriesOf(ledger + [EntryOf(c, tx, sequence)], id), Get(openings, id))
    {
      WalletChainStep(wallets[id], ledger, Get(openings, id), c, tx, sequence, id);
    }
  }

  lemma EventsAppend(outbox: seq<Event>, w: Write, id: Id)
    requires w.posting.Some? ==> w.tx.state.Processed?
    requires w.tx.state.Processed? || w.tx.state.Rejected? || w.tx.state.PendingReference?
    ensures EventsAbout(outbox + EventsOf(w), id) ==
      EventsAbout(outbox, id) + (if w.tx.id == id then [EventsOf(w)[0]] else [])
    ensures BalanceEvents(outbox + EventsOf(w), id) == BalanceEvents(outbox, id)
      + (if w.posting.Some? && w.posting.value.change.wallet == id
         then [BalanceChanged(w.posting.value.change, w.tx.id)]
         else [])
  {
    var evs := EventsOf(w);
    OutboxAppend(outbox, evs[0], id);
    if w.posting.Some? {
      OutboxAppend(outbox + [evs[0]], evs[1], id);
      assert outbox + evs == outbox + [evs[0]] + [evs[1]];
    } else {
      assert outbox + evs == outbox + [evs[0]];
    }
  }

  /** The events of a transaction stay exact when its row is inserted or concluded with its event. */
  lemma EventsDueStep(parked: Option<Tx>, was: Option<Tx>, t: Tx)
    requires t.state.PendingReference? || t.state.Processed? || t.state.Rejected?
    requires was.Some? ==> was.value.state.PendingReference? && t.state.IsTerminal()
    requires was.None? ==> parked.None?
    ensures EventsDue(if t.state.PendingReference? then Some(t) else parked, Some(t)) ==
      EventsDue(parked, was) + [EventsOf(Write(t, true, None))[0]]
  {
  }

  lemma TransactionEventsStep(outbox: seq<Event>, parked: map<Id, Tx>, txs: map<Id, Tx>, w: Write)
    requires w.tx.state.PendingReference? || w.tx.state.Processed? || w.tx.state.Rejected?
    requires w.posting.Some? ==> w.tx.state.Processed?
    requires w.tx.id in txs ==> txs[w.tx.id].state.PendingReference? && w.tx.state.IsTerminal()
    requires w.tx.id !in txs ==> w.tx.id !in parked
    requires TransactionEventsExact(outbox, parked, txs)
    ensures TransactionEventsExact(outbox + EventsOf(w),
                                   if w.tx.state.PendingReference? then parked[w.tx.id := w.tx] else parked,
                                   txs[w.tx.id := w.tx])
  {
    var parked1 := if w.tx.state.PendingReference? then parked[w.tx.id := w.tx] else parked;
    forall id
      ensures EventsAbout(outbox + EventsOf(w), id) == EventsDue(Get(parked1, id), Get(txs[w.tx.id := w.tx], id)) {
      EventsAppend(outbox, w, id);
      if id == w.tx.id {
        EventsDueStep(Get(parked, id), Get(txs, id), w.tx);
      }
    }
  }

  lemma EventsMatchAppend(evs: seq<Event>, es: seq<Entry>, base: nat, c: Change, tx: Id, sequence: nat)
    requires EventsMatchEntries(evs, es, base) && c.version == base + |es| + 1
    ensures EventsMatchEntries(evs + [BalanceChanged(c, tx)], es + [EntryOf(c, tx, sequence)], base)
  {
  }

  lemma WalletEventsStep(outbox: seq<Event>, wallets: map<Id, WalletRow>, ledger: seq<Entry>, openings: map<Id, Id>,
                         w: Write, row: WalletRow, sequence: nat)
    requires w.tx.state.Processed? && w.posting.Some?
    requires WalletEventsExact(outbox, wallets, ledger, openings)
    requires var c := w.posting.value.change;
      c.wallet in wallets && c.version == BaseVersion(Get(openings, c.wallet)) + |EntriesOf(ledger, c.wallet)| + 1
    ensures var c := w.posting.value.change;
      WalletEventsExact(outbox + EventsOf(w), wallets[c.wallet := row], ledger + [EntryOf(c, w.tx.id, sequence)],
                        openings)
  {
    hide EventsOf, EntriesOf, BalanceEvents, EventsMatchEntries;
    var c := w.posting.value.change;
    forall id
      ensures id in wallets ==>
        EventsMatchEntries(BalanceEvents(outbox + EventsOf(w), id),
                           EntriesOf(ledger + [EntryOf(c, w.tx.id, sequence)], id), BaseVersion(Get(openings, id)))
      ensures id !in wallets ==> BalanceEvents(outbox + EventsOf(w), id) == []
    {
      EventsAppend(outbox, w, id);
      EntriesOfAppend(ledger, EntryOf(c, w.tx.id, sequence), id);
      assert BalanceEvents(outbox, id) + [] == BalanceEvents(outbox, id);
      if c.wallet == id {
        EventsMatchAppend(BalanceEvents(outbox, id), EntriesOf(ledger, id), BaseVersion(Get(openings, id)), c, w.tx.id,
                          sequence);
      }
    }
  }

  lemma WalletEventsUnmoved(outbox: seq<Event>, wallets: map<Id, WalletRow>, ledger: seq<Entry>, openings: map<Id, Id>,
                            w: Write)
    requires w.tx.state.PendingReference? || w.tx.state.Processed? || w.tx.state.Rejected?
    requires w.posting.None? && WalletEventsExact(outbox, wallets, ledger, openings)
    ensures WalletEventsExact(outbox + EventsOf(w), wallets, ledger, openings)
  {
    forall id ensures BalanceEvents(outbox + EventsOf(w), id) == BalanceEvents(outbox, id) {
      EventsAppend(outbox, w, id);
    }
  }

  // ---- Preservation by a unit of work ----

  ghost predicate PostingFits(wallets: map<Id, WalletRow>, p: Posting) {
    p.change.wallet in wallets && p.from == wallets[p.change.wallet] && ChangeOk(p.from, p.change)
  }

  lemma InstallKeepsRows(db: Db, w: Write, sequence: nat)
    requires RowsOk(db.wallets, db.txs) && RowOk(db.wallets, db.txs, w.tx) && Replaceable(db.txs, w.tx)
    requires w.posting.Some? ==> PostingFits(db.wallets, w.posting.value)
    ensures var d := Install(db, w, sequence); RowsOk(d.wallets, d.txs)
  {
    RowsStep(db.wallets, db.txs, w.tx);
    if w.posting.Some? {
      var p := w.posting.value;
      RowsKeptByWallet(db.wallets, db.txs[w.tx.id := w.tx], p.change.wallet, WalletAfter(p.from, p.change));
    }
  }

  lemma InstallKeepsWallets(db: Db, w: Write, sequence: nat)
    requires WalletsOk(db.wallets) && OwnersExact(db.wallets, db.owners)
    requires w.posting.Some? ==> PostingFits(db.wallets, w.posting.value)
    ensures var d := Install(db, w, sequence); WalletsOk(d.wallets) && OwnersExact(d.wallets, d.owners)
  {
    if w.posting.Some? {
      var p := w.posting.value;
      OwnersKept(db.wallets, db.owners, p.change.wallet, WalletAfter(p.from, p.change));
    }
  }

  lemma NewEntryMatches(db: Db, t: Tx, p: Posting, sequence: nat)
    requires PostingOk(db, t, p, sequence) && (t.referenceId != 0 ==> t.referenceId != t.id)
    requires IsReversal(t) ==> t.referenceId != 0
    ensures EntryMatches(db.txs[t.id := t], EntryOf(p.change, t.id, sequence))
  {
  }

  lemma InstallKeepsLedger(db: Db, w: Write, sequence: nat)
    requires LedgerMatchesRows(db.txs, db.ledger) && RollbacksResolved(db.txs) && Replaceable(db.txs, w.tx)
    requires if w.posting.Some?
             then Moves(w.tx)
               && EntryMatches(db.txs[w.tx.id := w.tx], EntryOf(w.posting.value.change, w.tx.id, sequence))
             else !Moves(w.tx)
    ensures var d := Install(db, w, sequence); LedgerMatchesRows(d.txs, d.ledger)
  {
    if w.posting.Some? {
      LedgerStep(db.txs, db.ledger, w.tx, EntryOf(w.posting.value.change, w.tx.id, sequence));
    } else {
      LedgerUnmoved(db.txs, db.ledger, w.tx);
    }
  }

  lemma InstallKeepsChains(db: Db, w: Write, sequence: nat)
    requires ChainsOk(db.wallets, db.ledger, db.openings)
    requires w.posting.Some? ==>
      PostingFits(db.wallets, w.posting.value) && LastInSequence(db.ledger, w.posting.value.change.wallet, sequence)
    ensures var d := Install(db, w, sequence); ChainsOk(d.wallets, d.ledger, db.openings)
  {
    if w.posting.Some? {
      ChainsStep(db.wallets, db.ledger, db.openings, w.posting.value.change, w.tx.id, sequence);
    }
  }

  lemma InstallKeepsWalletEvents(db: Db, w: Write, sequence: nat)
    requires WalletEventsExact(db.outbox, db.wallets, db.ledger, db.openings)
    requires ChainsOk(db.wallets, db.ledger, db.openings)
    requires w.tx.state.PendingReference? || w.tx.state.Processed? || w.tx.state.Rejected?
    requires w.posting.Some? ==> w.tx.state.Processed? && PostingFits(db.wallets, w.posting.value)
    ensures var d := Install(db, w, sequence); WalletEventsExact(d.outbox, d.wallets, d.ledger, db.openings)
  {
    if w.posting.Some? {
      var p := w.posting.value;
      assert WalletChain(db.wallets[p.change.wallet], EntriesOf(db.ledger, p.change.wallet),
                         Get(db.openings, p.change.wallet));
      WalletEventsStep(db.outbox, db.wallets, db.ledger, db.openings, w, WalletAfter(p.from, p.change), sequence);
    } else {
      WalletEventsUnmoved(db.outbox, db.wallets, db.ledger, db.openings, w);
    }
  }

  lemma WriteFacts(db: Db, w: Write, sequence: nat)
    requires WriteOk(db, w, sequence)
    ensures w.posting.Some? ==>
      PostingFits(db.wallets, w.posting.value) && LastInSequence(db.ledger, w.posting.value.change.wallet, sequence)
    ensures w.posting.Some? ==>
      Moves(w.tx) && EntryMatches(db.txs[w.tx.id := w.tx], EntryOf(w.posting.value.change, w.tx.id, sequence))
    ensures w.posting.None? ==> !Moves(w.tx)
    ensures w.tx.state.PendingReference? || w.tx.state.Processed? || w.tx.state.Rejected?
    ensures ExternalKey(w.tx).Some? && OpeningKey(w.tx).None?
  {
    if w.posting.Some? {
      NewEntryMatches(db, w.tx, w.posting.value, sequence);
    }
  }

  lemma InstallTables(db: Db, w: Write, sequence: nat)
    ensures var d, r := Install(db, w, sequence), InstallRow(db, w.tx);
      && d.txs == r.txs && d.externals == r.externals && d.keys == r.keys && d.openings == r.openings
      && d.reversals == r.reversals
      && d.parked == r.parked && d.inbox == r.inbox && d.owners == r.owners && d.outbox == db.outbox + EventsOf(w)
  {
    hide InstallRow;
  }

  lemma InstallRowTables(db: Db, t: Tx)
    ensures var r := InstallRow(db, t);
      && r.txs == db.txs[t.id := t] && r.inbox == db.inbox && r.owners == db.owners
      && r.parked == (if t.state.PendingReference? then db.parked[t.id := t] else db.parked)
      && (OpeningKey(t).None? ==> r.openings == db.openings)
  {
  }

  /** Every admissible write keeps every invariant of the committed state. */
  lemma InstallKeepsInv(db: Db, w: Write, sequence: nat)
    requires DbInv(db) && WriteOk(db, w, sequence)
    ensures DbInv(Install(db, w, sequence))
  {
    hide RowsOk, WalletsOk, IndexesExact, OwnersExact, LedgerMatchesRows, ChainsOk, TransactionEventsExact;
    hide WalletEventsExact, ParkedOk, InboxOk, RowOk, ChangeOk, LastInSequence, EntryMatches;
    hide EventsOf, Install, InstallRow;
    InstallTables(db, w, sequence);
    InstallRowTables(db, w.tx);
    WriteFacts(db, w, sequence);
    RowsResolveRollbacks(db.wallets, db.txs);
    InstallKeepsRows(db, w, sequence);
    InstallKeepsWallets(db, w, sequence);
    InstallKeepsLedger(db, w, sequence);
    InstallKeepsChains(db, w, sequence);
    ParkedRowsExist(db.txs, db.parked, w.tx.id);
    TransactionEventsStep(db.outbox, db.parked, db.txs, w);
    InstallKeepsWalletEvents(db, w, sequence);
    IndexesStep(db, w.tx);
    ParkedStep(db.txs, db.parked, w.tx);
  }
}
