/** Opening a wallet keeps every invariant of the committed state (cmd/internal/usecase/open-wallet.go). */
module Openings {
  import opened Outcome
  import opened Monetary
  import opened Wager
  import opened Database
  import opened History

  ghost predicate OpeningRowOk(w: WalletRow, t: Tx) {
    t.id != 0
    && t == Tx(t.id, OpeningBusiness(w.id, w.player, w.balance), "", Processed, 0, None, Some(w.balance),
               w.createdAt, w.createdAt)
  }

  /** What an opening must satisfy on the state it is installed on. */
  ghost predicate FoundOk(db: Db, f: Found) {
    var w := f.wallet;
    && w.id !in db.wallets && (w.player, w.balance.currency) !in db.owners
    && w.id != 0 && w.player != 0 && w.balance.Initialized() && w.balance.cents >= 0
    && w.version == 1 && w.createdAt == w.updatedAt && w.createdAt != ZERO_TIME
    && (f.opening.Some? <==> w.balance.cents > 0)
    && (f.opening.Some? ==> f.opening.value.id !in db.txs && OpeningRowOk(w, f.opening.value))
  }

  lemma OpenPlanIsOk(db: Db, player: Id, initial: Money, walletId: Id, txId: Id, now: int)
    requires OpenPlan(db, player, initial, walletId, txId, now).Ok?
    requires walletId !in db.wallets && txId !in db.txs
    ensures FoundOk(db, OpenPlan(db, player, initial, walletId, txId, now).value)
  {
  }

  // ---- A wallet that is not there yet has no history ----

  lemma NoEntries(ledger: seq<Entry>, wallet: Id)
    requires forall i | 0 <= i < |ledger| :: ledger[i].wallet != wallet
    ensures EntriesOf(ledger, wallet) == []
  {
  }

  lemma UnknownWalletHasNoEntries(db: Db, id: Id)
    requires RowsOk(db.wallets, db.txs) && LedgerMatchesRows(db.txs, db.ledger) && id !in db.wallets
    ensures EntriesOf(db.ledger, id) == []
  {
    forall i | 0 <= i < |db.ledger| ensures db.ledger[i].wallet != id {
      assert EntryMatches(db.txs, db.ledger[i]);
      assert RowOk(db.wallets, db.txs, db.txs[db.ledger[i].tx]);
    }
    NoEntries(db.ledger, id);
  }

  lemma UnknownWalletHasNoOpening(db: Db, id: Id)
    requires RowsOk(db.wallets, db.txs) && IndexExact(db.txs, db.openings, OpeningKey) && id !in db.wallets
    ensures id !in db.openings
  {
    assert id in db.openings ==> RowOk(db.wallets, db.txs, db.txs[db.openings[id]]);
  }

  // ---- Preservation ----

  lemma OpeningRowIsOk(wallets: map<Id, WalletRow>, txs: map<Id, Tx>, w: WalletRow, t: Tx)
    requires OpeningRowOk(w, t) && w.id in wallets && wallets[w.id] == w
    requires w.id != 0 && w.player != 0 && w.balance.Initialized() && w.balance.cents > 0 && w.createdAt != ZERO_TIME
    ensures RowOk(wallets, txs, t)
  {
    assert Blank("");
  }

  lemma WalletKeepsTables(wallets: map<Id, WalletRow>, owners: map<(Id, Currency), Id>, w: WalletRow)
    requires WalletsOk(wallets) && OwnersExact(wallets, owners)
    requires w.id !in wallets && (w.player, w.balance.currency) !in owners
    requires w.id != 0 && w.player != 0 && w.balance.Initialized() && w.balance.cents >= 0 && w.version >= 1
    requires w.createdAt <= w.updatedAt
    requires w.createdAt != ZERO_TIME && w.updatedAt != ZERO_TIME
    ensures WalletsOk(wallets[w.id := w])
    ensures OwnersExact(wallets[w.id := w], owners[(w.player, w.balance.currency) := w.id])
  {
  }

  /** The row a wallet is born with already has its opening credit. */
  lemma OpeningLeavesWallet(wallets: map<Id, WalletRow>, f: Found)
    requires f.opening.Some? && f.wallet.createdAt == f.wallet.updatedAt
    ensures WalletsAfter(wallets[f.wallet.id := f.wallet], OpeningWrite(f).posting) == wallets[f.wallet.id := f.wallet]
  {
    assert WalletAfter(f.wallet, OpeningChange(f.wallet)) == f.wallet;
  }

  lemma InstallFoundTables(db: Db, f: Found, sequence: nat)
    requires f.opening.Some? ==> f.wallet.createdAt == f.wallet.updatedAt
    ensures var d, w := InstallFound(db, f, sequence), f.wallet;
      && d.wallets == db.wallets[w.id := w] && d.owners == db.owners[(w.player, w.balance.currency) := w.id]
      && d.inbox == db.inbox
      && d.txs == if f.opening.Some? then db.txs[f.opening.value.id := f.opening.value] else db.txs
  {
    hide WalletsAfter, OpeningChange;
    if f.opening.Some? {
      OpeningLeavesWallet(db.wallets, f);
      InstallRowTables(InstallWallet(db, f.wallet), f.opening.value);
    }
  }

  lemma FoundKeepsRows(db: Db, f: Found, sequence: nat)
    requires RowsOk(db.wallets, db.txs) && FoundOk(db, f)
    ensures var d := InstallFound(db, f, sequence); RowsOk(d.wallets, d.txs)
  {
    hide RowsOk, RowOk, InstallFound;
    var w := f.wallet;
    InstallFoundTables(db, f, sequence);
    RowsKeptByWallet(db.wallets, db.txs, w.id, w);
    if f.opening.Some? {
      OpeningRowIsOk(db.wallets[w.id := w], db.txs, w, f.opening.value);
      RowsStep(db.wallets[w.id := w], db.txs, f.opening.value);
    }
  }

  lemma FoundKeepsIndexes(db: Db, f: Found, sequence: nat)
    requires IndexesExact(db.txs, db.externals, db.keys, db.openings, db.reversals) && ParkedOk(db.txs, db.parked)
    requires FoundOk(db, f) && f.wallet.id !in db.openings
    ensures var d := InstallFound(db, f, sequence);
      IndexesExact(d.txs, d.externals, d.keys, d.openings, d.reversals) && ParkedOk(d.txs, d.parked)
  {
    hide IndexExact, ParkedOk;
    if f.opening.Some? {
      IndexesStep(db, f.opening.value);
      ParkedStep(db.txs, db.parked, f.opening.value);
    }
  }

  lemma FoundKeepsLedger(db: Db, f: Found, sequence: nat)
    requires LedgerMatchesRows(db.txs, db.ledger) && RollbacksResolved(db.txs) && FoundOk(db, f)
    ensures var d := InstallFound(db, f, sequence); LedgerMatchesRows(d.txs, d.ledger)
  {
    if f.opening.Some? {
      LedgerStep(db.txs, db.ledger, f.opening.value, EntryOf(OpeningChange(f.wallet), f.opening.value.id, sequence));
    }
  }

  /** The ledger of a new wallet starts with its opening credit, at version 1. */
  lemma FirstChain(w: WalletRow, tx: Id, sequence: nat)
    requires w.version == 1 && w.balance.cents > 0 && w.balance.Initialized() && w.createdAt != ZERO_TIME
    ensures WalletChain(w, [EntryOf(OpeningChange(w), tx, sequence)], Some(tx))
  {
    var es := [EntryOf(OpeningChange(w), tx, sequence)];
    assert es[..0] == [];
    assert Linked(es, 0, w.balance.currency);
  }

  lemma FirstChainStep(wallets: map<Id, WalletRow>, ledger: seq<Entry>, openings: map<Id, Id>, w: WalletRow, tx: Id,
                       sequence: nat)
    requires ChainsOk(wallets, ledger, openings) && EntriesOf(ledger, w.id) == []
    requires w.version == 1 && w.balance.cents > 0 && w.balance.Initialized() && w.createdAt != ZERO_TIME
    ensures ChainsOk(wallets[w.id := w], ledger + [EntryOf(OpeningChange(w), tx, sequence)], openings[w.id := tx])
  {
    var e := EntryOf(OpeningChange(w), tx, sequence);
    forall id | id in wallets[w.id := w]
      ensures WalletChain(wallets[w.id := w][id], EntriesOf(ledger + [e], id), Get(openings[w.id := tx], id))
    {
      EntriesOfAppend(ledger, e, id);
      if id == w.id {
        FirstChain(w, tx, sequence);
        assert [] + [e] == [e];
      }
    }
  }

  lemma EmptyChainStep(wallets: map<Id, WalletRow>, ledger: seq<Entry>, openings: map<Id, Id>, w: WalletRow)
    requires ChainsOk(wallets, ledger, openings) && EntriesOf(ledger, w.id) == [] && w.id !in openings
    requires w.version == 1 && w.balance.cents == 0
    ensures ChainsOk(wallets[w.id := w], ledger, openings)
  {
  }

  lemma FoundKeepsChains(db: Db, f: Found, sequence: nat)
    requires FoundOk(db, f) && ChainsOk(db.wallets, db.ledger, db.openings)
    requires EntriesOf(db.ledger, f.wallet.id) == [] && f.wallet.id !in db.openings
    ensures var d := InstallFound(db, f, sequence); ChainsOk(d.wallets, d.ledger, d.openings)
  {
    hide ChainsOk;
    if f.opening.Some? {
      FirstChainStep(db.wallets, db.ledger, db.openings, f.wallet, f.opening.value.id, sequence);
      assert InstallFound(db, f, sequence).wallets == db.wallets[f.wallet.id := f.wallet];
    } else {
      EmptyChainStep(db.wallets, db.ledger, db.openings, f.wallet);
    }
  }

  lemma FoundKeepsTransactionEvents(db: Db, f: Found, sequence: nat)
    requires FoundOk(db, f) && ParkedOk(db.txs, db.parked) && TransactionEventsExact(db.outbox, db.parked, db.txs)
    ensures var d := InstallFound(db, f, sequence); TransactionEventsExact(d.outbox, d.parked, d.txs)
  {
    hide ParkedOk, TransactionEventsExact;
    if f.opening.Some? {
      ParkedRowsExist(db.txs, db.parked, f.opening.value.id);
      TransactionEventsStep(db.outbox, db.parked, db.txs, OpeningWrite(f));
    }
  }

  lemma FirstEventsStep(outbox: seq<Event>, wallets: map<Id, WalletRow>, ledger: seq<Entry>, openings: map<Id, Id>,
                        f: Found, sequence: nat)
    requires WalletEventsExact(outbox, wallets, ledger, openings) && f.wallet.id !in wallets
    requires EntriesOf(ledger, f.wallet.id) == []
    requires f.opening.Some? && f.opening.value.state.Processed? && f.wallet.version == 1
    ensures var c := OpeningChange(f.wallet);
      WalletEventsExact(outbox + EventsOf(OpeningWrite(f)), wallets[f.wallet.id := f.wallet],
                        ledger + [EntryOf(c, f.opening.value.id, sequence)],
                        openings[f.wallet.id := f.opening.value.id])
  {
    var c, tx := OpeningChange(f.wallet), f.opening.value.id;
    forall id
      ensures id in wallets || id == f.wallet.id ==>
        EventsMatchEntries(BalanceEvents(outbox + EventsOf(OpeningWrite(f)), id),
                           EntriesOf(ledger + [EntryOf(c, tx, sequence)], id),
                           BaseVersion(Get(openings[f.wallet.id := tx], id)))
      ensures id !in wallets && id != f.wallet.id ==> BalanceEvents(outbox + EventsOf(OpeningWrite(f)), id) == []
    {
      EventsAppend(outbox, OpeningWrite(f), id);
      EntriesOfAppend(ledger, EntryOf(c, tx, sequence), id);
      if id == f.wallet.id {
        EventsMatchAppend([], [], 0, c, tx, sequence);
      }
    }
  }

  lemma FoundKeepsWalletEvents(db: Db, f: Found, sequence: nat)
    requires FoundOk(db, f) && WalletEventsExact(db.outbox, db.wallets, db.ledger, db.openings)
    requires EntriesOf(db.ledger, f.wallet.id) == [] && f.wallet.id !in db.openings
    ensures var d := InstallFound(db, f, sequence); WalletEventsExact(d.outbox, d.wallets, d.ledger, d.openings)
  {
    if f.opening.Some? {
      hide WalletEventsExact;
      FirstEventsStep(db.outbox, db.wallets, db.ledger, db.openings, f, sequence);
      assert InstallFound(db, f, sequence).wallets == db.wallets[f.wallet.id := f.wallet];
    }
  }

  lemma FoundKeepsInv(db: Db, f: Found, sequence: nat)
    requires DbInv(db) && FoundOk(db, f)
    ensures DbInv(InstallFound(db, f, sequence))
  {
    hide RowsOk, WalletsOk, OwnersExact, LedgerMatchesRows, ChainsOk, TransactionEventsExact;
    hide WalletEventsExact, ParkedOk, InboxOk, IndexExact, InstallFound;
    UnknownWalletHasNoEntries(db, f.wallet.id);
    UnknownWalletHasNoOpening(db, f.wallet.id);
    RowsResolveRollbacks(db.wallets, db.txs);
    WalletKeepsTables(db.wallets, db.owners, f.wallet);
    InstallFoundTables(db, f, sequence);
    FoundKeepsRows(db, f, sequence);
    FoundKeepsIndexes(db, f, sequence);
    FoundKeepsLedger(db, f, sequence);
    FoundKeepsChains(db, f, sequence);
    FoundKeepsTransactionEvents(db, f, sequence);
    FoundKeepsWalletEvents(db, f, sequence);
  }
}
