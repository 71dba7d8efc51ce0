# Verification of the distributed wallet

A Dafny model of a wallet service for betting providers, and proofs about it. Providers send BET, WIN, LOSS,
REFUND and ROLLBACK operations over HTTP or a queue, at least once and in any order. Each runs as one SQL
transaction at Read Committed over wallets, transactions, a ledger, an outbox and an inbox.

`dafny verify dfyconfig.toml` checks the whole project.

## How it is built

Three layers describe the money-moving core, and each is tied to the next by proof.

1. **Plans on a committed state** (`Wager`, `Database`). The entities as values, the tables and their unique indexes,
   and what each use case decides and writes when it runs alone: `ApplyPlan`, `ExpirePlan`, `OpenPlan`, `Install`.
   `History` and `Openings` define and keep the invariant of the committed state; `Outcomes`, `Reversals` and
   `Reconciliation` say what it means for players and providers.
2. **The code that runs alone** (`Aggregates`, `Service`, `UseCases`). The aggregates and repositories as objects that change
   in place, and the flow statement by statement with rollback and retries. Each method is proved against its plan.
3. **Any number of sessions** (`Protocol`). A state machine in which every session runs the same flow one SQL statement
   at a time, sees only what is committed, buffers its writes, waits for what another session holds, and may abort,
   crash, retry after a conflict, or lose its answer after the commit. `Sessions` says what an open session
   knows and why no other session can falsify it, `Decisions` and `Statements` that its writes stay admissible, `Safety` proves
   the invariant of every run, `Atomicity` and `Guarantees` what runs promise: in particular that commits have the effect of the
   plans, while `Alone` proves the converse, that an undisturbed session carries its plan out. The parameter `locking` chooses between
   the wallet row lock and a plain read in its place; the invariant holds either way.

Beside the core: `Paging` (walking a ledger by cursor during a run), `Delivery` (outbox leases and backoff), `Resolver` (retrying
parked reversals), `MoneyText` (decimal text of amounts), `CanonicalJson` and `JsonText` (the form idempotency compares), `Restore`
(rows written and read back).

## Hypotheses

- SHA-256 over canonical JSON is injective: the hash of an operation is the record `Business`, made of its business fields
  and of whatever else its payload holds, so equal hashes mean equal business fields, and the wallet and player a command
  names are those of the row it is found to be.
- Generated identifiers are fresh: in no committed row and held by no other open session.
- The database clock never goes back (`Delivery`, `Resolver`); the clock of the application may.
  Where an attempt is retried, the application clock does not read the zero instant (`UseCases.Attempts`).
- A wallet version that reached MaxInt64 wraps around and is refused by the schema, as in the code; the model includes it.
- `RetryMaxDelay` and claim leases are positive where a lemma says so.
- A claim with SKIP LOCKED may take any rows that are due and free, at most the limit.

## Where the code and its documentation differ

- The README of the repository promises a conflict for an idempotency key that is reused with another content. The code
  reports a payload conflict if and only if the external id is known with another payload; a key that belongs to another external id
  is a concurrent update (`Outcomes.ConflictsIff`).
- The refusals WALLET_NOT_FOUND for a missing wallet and CURRENCY_MISMATCH cannot be reached, because the foreign key on
  (wallet_id, currency) refuses the insert first (`Guarantees.ForeignKeyRefusesFirst`).
- The comment on `backoffDelay` says the cap on the shift keeps a long delay from overflowing. The 64-bit shift can still wrap
  around into the allowed range; `Delivery.BackoffIsCappedDoublingIff` says exactly when, `Delivery.BackoffCanWrap` gives an instance.
- The comment on `ReplayLedgerBalance` says order does not matter. It does for overflow: `Reconciliation.AnyOrderReconcilesOrOverflows` says
  exactly when, `Reconciliation.AnOrderThatOverflows` gives an instance.
- Below both transports, a BET or a LOSS with a blank reference that is not empty passes the validation of the use case and is refused
  by a CHECK of the schema (`Outcomes.BlankReferencePassesValidation`, `Outcomes.BlankReferenceIsRefusedIff`). HTTP trims the
  reference and the queue contract refuses it, so only another caller of the use case can meet this.
- The comment in `CanonicalJSON` says that anything after the value is refused. A closing bracket there counts as the end of the
  document, so a value with one behind it is accepted (`JsonText.TrailingIsRefusedIff`).
- The comment of the outbox repository says that publishers never take the same event twice. A release does not test who holds
  the event, and putting it off can expose it while another lease runs. `Delivery.ExclusionIffHarmless` says exactly when leases exclude: a late
  confirmation does no harm, nor does putting off a published event or one that no other lease covers beyond the delay. `Delivery.OneHolder`
  is the case of releases that come in time, `Delivery.LateReleaseBreaksExclusion` a run that fails.
- An event whose occurrence lies ahead of the database clock cannot be confirmed, because of a CHECK of the schema
  (`Delivery.OutboxStore.MarkPublished`).

## Model

| member | source | states |
|---|---|---|
| `Safety.RunsKeepInv` | cmd/internal/usecase/process-wager-transaction.go:112-345 | In every state of every interleaving of sessions, with statements, aborts, crashes, retries and lost answers, with the wallet lock or with a plain read in its place: the committed state is sound, what every open session relies on is true, and every answer given is true |
| `Safety.StepKeeps` | cmd/internal/infra/postgres/unit-of-work.go:58-79 | Every single step of any session keeps that invariant |
| `Statements.RunKeeps` | cmd/internal/usecase/process-wager-transaction.go:153-429 | Every statement of a use case leaves its session with true knowledge of the committed state it read, in either locking mode |
| `Sessions.SessionStable` | cmd/internal/infra/postgres/wallet-repository.go:49-61 | Nothing that another session commits, leaving alone what this one has locked, falsifies what this session has read: versions, unreversed references, untaken keys, waiting rows |
| `Safety.CommitHarmless` | cmd/internal/infra/postgres/unit-of-work.go:58-79 | A commit keeps the committed state sound, only advances it, and leaves alone what other sessions hold |
| `Decisions.DecisiveWritesOk` | cmd/internal/usecase/process-wager-transaction.go:312-372 | When a decided session commits, its writes are admissible on the state of that moment, whatever was committed since its reads |
| `Guarantees.DeliveriesAreAtomic` | cmd/internal/usecase/process-wager-transaction.go:153-345 | In every interleaving, the commit of a delivery that moves money, and under the wallet lock of every delivery that concludes its transaction, has the effect and the answer of running apply alone on the state it commits to |
| `Guarantees.ExpiriesAndOpeningsAreAtomic` | cmd/internal/usecase/resume-pending-reference.go:80-130 | The same for Expire, which takes no wallet lock, and for opening a wallet |
| `Guarantees.ParksAreAtomicIff` | cmd/internal/usecase/process-wager-transaction.go:406-429 | Parking a reversal is atomic at its commit if and only if the reference is still missing or unfinished then |
| `Atomicity.WaitsAsAloneAtTheRead` | cmd/internal/usecase/process-wager-transaction.go:251-277 | At the read that finds the reference missing or unfinished, parking does what apply alone does at that moment |
| `Atomicity.DecidedAsAlone` | cmd/internal/usecase/process-wager-transaction.go:153-345 | The reads a decided session made are those apply alone would make at its commit, so the plans are equal |
| `Guarantees.GuardsThatFire` | migrations/000002_create_wager_transactions.up.sql:155-184 | In every reachable state, after the version test passed, the ledger key is free and the one-reversal index does not fire; the row update is refused by the terminal-row trigger exactly when another session concluded the row; the version test refuses a movement exactly when the version of its wallet moved since the read, which under the wallet lock never happens |
| `Atomicity.VersionTestIsSilent` | cmd/internal/infra/postgres/wallet-repository.go:107-123 | Under the wallet lock, the version-conditioned update and the wallet trigger accept every decided movement |
| `Atomicity.VersionTestIsExact` | cmd/internal/infra/postgres/wallet-repository.go:107-123 | With the lock or with a plain read, the version-conditioned update refuses a decided movement if and only if the version of the wallet moved since it was read |
| `Atomicity.OneReversalIsSilent` | cmd/internal/infra/postgres/transaction-repository.go:171-188 | Once the balance update passed, with or without the lock, nobody has reversed the reference since it was checked |
| `Atomicity.UniqueEntryIsSilent` | cmd/internal/infra/postgres/ledger-repository.go:36-57 | A decided movement never meets a ledger entry of its own transaction |
| `Atomicity.OnlyTheTriggerRefuses` | cmd/internal/infra/postgres/transaction-repository.go:132-165 | The update of a row fails if and only if the row it would change was concluded by another session |
| `Guarantees.ForeignKeyRefusesFirst` | migrations/000002_create_wager_transactions.up.sql:46-47 | With a recorded transaction the wallet exists and has its currency, so the refusals for a missing wallet and for another currency cannot be reached |
| `Guarantees.OnlyCommitsAreSeen` | cmd/internal/infra/postgres/unit-of-work.go:58-79 | No step but a commit changes the committed state: failures, crashes, retries and lost answers leave no trace |
| `Guarantees.CommittedStatesAreSettled` | cmd/internal/usecase/process-wager-transaction.go:119-192 | No committed state holds a PENDING or FAILED transaction or an uncompleted inbox row |
| `Guarantees.NoDeliveryInProgress` | cmd/internal/infra/postgres/inbox-repository.go:45-83 | A registered message is always complete or conflicting: the in-progress branch is never taken |
| `Guarantees.MessageTakesEffectOnce` | cmd/internal/usecase/process-wager-transaction.go:112-150 | Once a delivery of a message committed, every later commit of the same message, however the two raced, answers Duplicate and changes nothing but the number of deliveries in its inbox row, which goes up by one |
| `Guarantees.CommitRecordsMessage` | cmd/internal/infra/postgres/inbox-repository.go:45-102 | The first commit of a message leaves its effect together with its completed row, under its hash |
| `Guarantees.RetriesAreBounded` | cmd/internal/usecase/process-wager-transaction.go:566-595 | In every reachable state no unit of work is past its third attempt |
| `Guarantees.RetriedIff` | cmd/internal/usecase/process-wager-transaction.go:566-595 | An attempt is made again if and only if it failed with a concurrent update and was not the third |
| `Guarantees.HistoryGrows` | migrations/000003_create_wallet_ledger.up.sql:61-79 | Over any run the ledger and the outbox are append-only, concluded rows never change, versions never go back |
| `Guarantees.AnswersAgree` | cmd/internal/usecase/process-wager-transaction.go:542-557 | All answers given in a run about one (provider, external id), by any entry, name one transaction, and the conclusive ones carry the same state, balance and failure code |
| `Guarantees.ConclusionsAreForever` | cmd/internal/usecase/process-wager-transaction.go:197-216 | A conclusion once told, to a delivery or by an expiry, is what every redelivery of that operation, under any key, is told in any later state, and it changes nothing |
| `Guarantees.OneEntryPerExternalId` | migrations/000002_create_wager_transactions.up.sql:52-55 | One (provider, external id) never has two ledger entries |
| `Guarantees.EntryExactlyWhenMoved` | cmd/internal/usecase/process-wager-transaction.go:312-345 | A transaction has a ledger entry if and only if it is PROCESSED and not a LOSS, in every run, Expire included |
| `Guarantees.MoneyIsConserved` | cmd/internal/domain/wallet.go:192-213 | In every reachable state a wallet's entries start at zero, each begins where the last ended, they end at the balance, the version counts them, replay finds the balance, and the balance is the sum of what every opening, bet and win nets |
| `Guarantees.ProcessedOnOwnWallet` | cmd/internal/usecase/process-wager-transaction.go:176-187 | In every reachable state whatever was processed belongs to the player of its wallet and is in its currency |
| `Guarantees.ReversalsNeverPayTwice` | cmd/internal/usecase/process-wager-transaction.go:285-304 | In every reachable state nothing is reversed twice, and a bet or win with its reversals moved all of its amount or nothing |
| `Guarantees.OutboxIsTheHistory` | cmd/internal/usecase/process-wager-transaction.go:349-429 | In every reachable state the outbox holds exactly the wait and the conclusion of each transaction, and for each wallet one event per entry with consecutive versions that rebuild its ledger |
| `Alone.DeliveryLeads` | cmd/internal/usecase/process-wager-transaction.go:112-345 | Undisturbed, a session of the state machine comes to commit exactly the writes and the answer of apply alone, or fails with its error, within ten statements: runs do make progress, and both descriptions are of the same code |
| `Alone.FirstDeliveryLeads` | cmd/internal/usecase/process-wager-transaction.go:112-150 | The same from the first statement on, for HTTP and for a message nobody handled yet; an invalid command fails before anything is read |
| `Alone.RedeliveryLeads` | cmd/internal/infra/postgres/inbox-repository.go:45-83 | A message that was handled is answered Duplicate at once, or is a conflict when its payload is another |
| `Alone.ExpiryLeads` | cmd/internal/usecase/resume-pending-reference.go:80-130 | The same for an expiry |
| `Alone.OpeningLeads` | cmd/internal/usecase/open-wallet.go:51-140 | The same for an opening |
| `Alone.NoGuardFires` | migrations/000002_create_wager_transactions.up.sql:155-184 | What is decided on the state it is written to meets no guard of the schema |
| `History.InstallKeepsInv` | cmd/internal/usecase/process-wager-transaction.go:312-429 | Every admissible write keeps rows, unique indexes, wallets, ledger chains, entries and outbox exact |
| `History.InstallKeepsLedger` | cmd/internal/infra/postgres/ledger-repository.go:36-57 | Entries stay in one-to-one correspondence with the transactions that moved money |
| `History.WalletChainStep` | cmd/internal/domain/wallet.go:192-213 | A movement extends the chain of its wallet by one entry and one version |
| `History.TransactionEventsStep` | cmd/internal/usecase/process-wager-transaction.go:349-429 | Each write adds exactly the event its transaction was due |
| `History.WalletEventsStep` | cmd/internal/usecase/process-wager-transaction.go:349-372 | Each movement adds exactly one balance event, with the next version |
| `History.IndexStep` | migrations/000002_create_wager_transactions.up.sql:52-59 | A unique index stays the exact inverse of its key when a row is written whose key is free or its own |
| `Openings.FoundKeepsInv` | cmd/internal/usecase/open-wallet.go:102-140 | Opening a wallet, with or without a balance, keeps the whole invariant |
| `Openings.OpenPlanIsOk` | cmd/internal/usecase/open-wallet.go:51-95 | What an opening decides is admissible on the state it sees |
| `Outcomes.OpenedIff` | cmd/internal/usecase/open-wallet.go:51-95 | A wallet is opened if and only if the balance is an initialised amount that is not negative, everything is identified and dated and the player has no wallet in that currency; it holds exactly the requested balance at version 1, and a positive one comes with an OPENING of that player and amount |
| `Outcomes.OpeningLeaves` | cmd/internal/usecase/open-wallet.go:102-140 | The wallet, the OPENING, the entry from zero to the balance and the two events, field by field |
| `Safety.InstallAdvances` | migrations/000001_create_wallets.up.sql:50-79 | A commit moves wallets only with their version, concludes rows once, extends indexes, and a new reversal always comes with a new version of the wallet of what it reverses |
| `Outcomes.PlainOutcome` | cmd/internal/usecase/process-wager-transaction.go:312-345 | A new BET takes its amount from the wallet if the balance covers it and is refused INSUFFICIENT_FUNDS otherwise, a WIN adds its amount, a LOSS moves nothing; errors only when a balance or version would leave int64. Stated by the rows of the tables, the new row field by field |
| `Outcomes.ReversalOutcome` | cmd/internal/usecase/process-wager-transaction.go:251-304 | A new reversal is parked exactly while its reference is missing or unfinished, and moves the whole amount the opposite way exactly when the reference is a processed operation it may undo that no processed reversal points at; each other case has its own code |
| `Outcomes.OperationOutcome` | cmd/internal/usecase/process-wager-transaction.go:153-345 | What any delivery comes to that works on a new row or on one that waits, by wallet, kind, reference and balance, without the decision functions of the model |
| `Outcomes.WaitingOutcome` | cmd/internal/usecase/process-wager-transaction.go:212-307 | A waiting reversal that is resumed or redelivered is answered PENDING_REFERENCE with nothing written exactly while its reference is missing or unfinished; then it is refused with the code of its case, or moves the whole amount from the current row of its wallet |
| `Outcomes.OtherPlayersWallet` | cmd/internal/usecase/process-wager-transaction.go:176-181 | An operation, new or waiting, on the wallet of another player is concluded REJECTED with WALLET_NOT_FOUND and moves nothing |
| `Outcomes.NoSuchWallet` | migrations/000002_create_wager_transactions.up.sql:46-47 | A new operation on a missing wallet or in another currency is an error of the foreign key and leaves no row |
| `Outcomes.TransferLeaves` | cmd/internal/domain/wallet.go:192-213 | The wallet, the row, the entry and the two events a movement leaves, field by field |
| `Outcomes.ExpiryOutcome` | cmd/internal/usecase/resume-pending-reference.go:80-130 | An expiry concludes a waiting reversal REJECTED with REFERENCE_NOT_FOUND and answers so, replays a concluded one, and fails for an unknown one |
| `Outcomes.AcceptedIff` | cmd/internal/domain/wager-transaction.go:280-302 | A new operation is accepted if and only if it is identified, its kind is external, a LOSS has amount zero and anything else a positive one, a reversal has a reference and a BET or LOSS has none; it starts PENDING |
| `Outcomes.InvalidIff` | cmd/internal/usecase/process-wager-transaction.go:444-463 | A delivery is refused as invalid if and only if its command is malformed, or names nothing known and is not acceptable |
| `Outcomes.FailedIs` | cmd/internal/domain/wager-transaction.go:634-646 | A permanent failure concludes exactly what has not concluded, with its code |
| `Outcomes.AgreesIffUndoes` | cmd/internal/usecase/process-wager-transaction.go:515-539 | A reversal agrees with its reference if and only if player, wallet, round and money are equal and the kind may be undone: a BET by both, a WIN or a REFUND by a ROLLBACK only |
| `Outcomes.ReversedIffIndexed` | cmd/internal/infra/postgres/transaction-repository.go:171-188 | The index lists a reference if and only if some processed reversal points at it |
| `Outcomes.ConflictsIff` | cmd/internal/usecase/process-wager-transaction.go:197-216 | A payload conflict is reported if and only if the external id is known with another payload; an idempotency key of another external id is a concurrent update |
| `Atomicity.RedeliveryReplays` | cmd/internal/usecase/process-wager-transaction.go:542-557 | On any sound state a redelivery of a concluded operation replays its outcome and writes nothing |
| `Decisions.FinishFacts` | cmd/internal/usecase/process-wager-transaction.go:312-429 | A decided job writes its own operation, concluded or parked, with the movement of its kind and amount and nothing else |
| `Outcomes.BlankReferencePassesValidation` | cmd/internal/domain/wager-transaction.go:280-302 | A BET with the reference of one space is a valid command that the constructor accepts and the CHECK does not |
| `Outcomes.BlankReferenceIsRefusedIff` | migrations/000002_create_wager_transactions.up.sql:104-108 | A new operation that its constructor accepts is refused by the CHECK on references if and only if it is a BET or LOSS with a blank reference that is not empty; with free keys and a fitting wallet nothing else refuses its row |
| `Reversals.ReversalMirrors` | cmd/internal/usecase/process-wager-transaction.go:469-539 | A processed reversal points at a processed transaction of the same wallet and money and moves it the other way |
| `Reversals.OneReversal` | migrations/000002_create_wager_transactions.up.sql:155-160 | Two processed reversals of one transaction are the same transaction |
| `Reversals.ChainsEndAtThree` | cmd/internal/usecase/process-wager-transaction.go:515-539 | A chain of reversals has at most three links: BET, REFUND, ROLLBACK |
| `Reversals.NetIsAllOrNothing` | cmd/internal/usecase/process-wager-transaction.go:285-304 | A BET of a and its chain net -a or 0, a WIN a or 0, an opening a, and which one follows from the chain |
| `Reversals.BalanceIsSumOfNets` | cmd/internal/usecase/process-wager-transaction.go:312-345 | Every balance is the sum of the nets of the openings, bets and wins on its wallet |
| `Aggregates.Wallet.Debit` | cmd/internal/domain/wallet.go:145-168 | Takes the amount and returns the change, or fails as specified and leaves the wallet as it was |
| `Aggregates.Wallet.Credit` | cmd/internal/domain/wallet.go:173-187 | Adds the amount and returns the change, or fails as specified and leaves the wallet as it was |
| `Aggregates.Wallet.Apply` | cmd/internal/domain/wallet.go:192-213 | The whole new state of the wallet, and the change that describes it |
| `Aggregates.WagerTransaction.MarkAsProcessed` | cmd/internal/domain/wager-transaction.go:592-613 | The transition takes effect or fails as specified, and a failure changes nothing |
| `Aggregates.WagerTransaction.Reject` | cmd/internal/domain/wager-transaction.go:618-630 | The same for a refusal |
| `Aggregates.WagerTransaction.Fail` | cmd/internal/domain/wager-transaction.go:634-646 | The same for a permanent failure |
| `Aggregates.WagerTransaction.MarkAsPendingReference` | cmd/internal/domain/wager-transaction.go:651-665 | The same for parking |
| `Aggregates.WagerTransaction.ResolveReference` | cmd/internal/domain/wager-transaction.go:672-692 | The same for resolving a reference, once |
| `Wager.MovementEffect` | cmd/internal/domain/wallet.go:145-187 | A movement is accepted if and only if the new balance is representable and not negative, and it moves the balance by the signed amount |
| `Service.Store.Insert` | cmd/internal/infra/postgres/transaction-repository.go:88-126 | The row and its unique keys appear, or the first violated constraint is reported and nothing changes |
| `Service.Store.Update` | cmd/internal/infra/postgres/transaction-repository.go:132-165 | The row is replaced, or is missing, terminal or a second reversal, and then nothing changes |
| `Service.Store.UpdateBalance` | cmd/internal/infra/postgres/wallet-repository.go:107-123 | The wallet row is replaced if the version matches and the trigger accepts it |
| `Service.Store.InsertEntry` | cmd/internal/infra/postgres/ledger-repository.go:36-57 | The entry is appended under the next sequence unless the transaction already posted to that wallet |
| `Service.Store.SaveEvents` | cmd/internal/usecase/open-wallet.go:154-166 | The events are appended in order |
| `Service.Store.Register` | cmd/internal/infra/postgres/inbox-repository.go:45-83 | One upsert: the attempt is counted, and a conflict or an earlier completion is reported |
| `Service.Store.Complete` | cmd/internal/infra/postgres/inbox-repository.go:90-102 | The row is completed once, never before its reception |
| `Service.RecordOperation` | cmd/internal/usecase/process-wager-transaction.go:197-244 | Finds the operation or inserts its row, or refuses it |
| `Service.ResolveReference` | cmd/internal/usecase/process-wager-transaction.go:251-307 | Decides the operation, or resolves the reference and leaves exactly the settling to do |
| `Service.Settle` | cmd/internal/usecase/process-wager-transaction.go:312-345 | Leaves exactly what its plan installs, or fails as planned |
| `Service.Post` | cmd/internal/usecase/process-wager-transaction.go:322-342 | The balance update and the ledger entry go through unless the version would wrap around |
| `Service.Conclude` | cmd/internal/usecase/process-wager-transaction.go:349-376 | The row, its event and the balance event are written, and the balance is answered |
| `Service.Reject` | cmd/internal/usecase/process-wager-transaction.go:380-403 | The refusal and its event are written, and the code is answered |
| `Service.Park` | cmd/internal/usecase/process-wager-transaction.go:406-429 | The wait and its event are written once; a row that waits already is left as it is |
| `Service.Apply` | cmd/internal/usecase/process-wager-transaction.go:153-192 | The flow, statement by statement on a working state, does what its plan says: the same error, or the same answer and exactly the planned writes |
| `UseCases.Execute` | cmd/internal/usecase/process-wager-transaction.go:85-106 | With commit, rollback and retries, alone, an execution does what its first plan says, and an error changes nothing |
| `UseCases.ConflictsAgain` | cmd/internal/usecase/process-wager-transaction.go:580-594 | An operation that lost the race for a key loses it again on the same state, so retrying alone never applies it |
| `UseCases.ExecuteFromMessage` | cmd/internal/usecase/process-wager-transaction.go:112-150 | A message is refused, counted as handled, or handled together with its completed inbox row |
| `UseCases.HandledIsRecorded` | cmd/internal/infra/postgres/inbox-repository.go:45-102 | A handled message leaves a complete row with its hash, the first time with one attempt, received and completed then |
| `UseCases.HandledAgain` | cmd/internal/infra/postgres/inbox-repository.go:45-83 | Handled again it is answered Duplicate and only counted; with another payload it is a conflict and changes nothing |
| `UseCases.Expire` | cmd/internal/usecase/resume-pending-reference.go:80-130 | Alone it does what its plan says: refuse a waiting reversal, or replay a concluded one |
| `UseCases.OpenWallet` | cmd/internal/usecase/open-wallet.go:51-140 | Alone it installs exactly the wallet, the OPENING, its entry and its events, or changes nothing |
| `Paging.WalkIsComplete` | cmd/internal/infra/http/wallet-handler.go:168-189 | Walking a wallet by cursor with any page sizes, while entries are committed between the pages, shows each entry once, in order, without gaps, and ends only when all committed by then were shown |
| `Paging.QueryReturnsNext` | cmd/internal/infra/postgres/query-repository.go:93-121 | After the cursor of a prefix the query returns exactly the entries that follow it, up to the limit |
| `Paging.LedgerPage` | cmd/internal/infra/http/wallet-handler.go:168-189 | One page of at most limit entries, and a cursor if and only if the query found one more |
| `Paging.ParseLimit` | cmd/internal/infra/http/wallet-handler.go:250-260 | A page size is always between 1 and 200: a valid one is kept, a missing, unreadable or too small one is 50, a larger one 200 |
| `Delivery.ExclusionIffHarmless` | cmd/internal/infra/postgres/outbox-repository.go:10-20 | The exact condition for leases to exclude: every postponement of an unpublished event outlasts the running leases of others on it, if and only if no way to go on harmlessly from any step of the run comes to two publishers that hold one event |
| `Delivery.HarmlessRunsAreExclusive` | cmd/internal/infra/postgres/outbox-repository.go:102-214 | In every run of such harmless steps, late ones included, no two publishers hold the same event at one database instant |
| `Delivery.HarmfulStepsBreakExclusion` | cmd/internal/infra/postgres/outbox-repository.go:200-214 | From a single step that is not harmless, time and one claim lead to two publishers that hold the event |
| `Delivery.OneHolder` | cmd/internal/infra/postgres/outbox-repository.go:102-214 | So in every run where publishers release an event only under their own running lease, no two hold the same event at one database instant |
| `Delivery.LateReleaseBreaksExclusion` | cmd/internal/infra/postgres/outbox-repository.go:183-214 | A run in which one late release leaves two holders: a release does not test its owner |
| `Delivery.SnapshotsAreForever` | migrations/000004_create_outbox.up.sql:75-109 | Whatever publishers do, snapshots never change and a publication mark never changes once set |
| `Delivery.ClaimableAgain` | cmd/internal/infra/postgres/outbox-repository.go:102-121 | Whatever publishers do, an unpublished event is claimable again within the longer of the lease and the longest delay after the last action on it |
| `Delivery.RunsKeepInv` | cmd/internal/infra/worker/outbox-publisher.go:112-147 | An event is marked only after it was sent and not before it occurred, and schedule and lease stay bounded |
| `Delivery.BackoffDelay` | cmd/internal/infra/worker/outbox-publisher.go:167-187 | The delay stays within (0, max] whatever the shift wraps around to |
| `Delivery.BackoffIsCappedDoublingIff` | cmd/internal/infra/worker/outbox-publisher.go:163-187 | The delay doubles up to the cap exactly when the shift does not wrap around into (0, max) and is not cut off below the cap |
| `Delivery.BackoffCanWrap` | cmd/internal/infra/worker/outbox-publisher.go:172-187 | A base and a cap for which the 33rd delay is 4.3 seconds instead of an hour |
| `Delivery.SmallBaseNeverWraps` | cmd/internal/infra/worker/outbox-publisher.go:167-187 | With a base below 2^31 nanoseconds every delay up to the 33rd is the capped doubling |
| `Delivery.OutboxStore.Save` | cmd/internal/infra/postgres/outbox-repository.go:45-66 | The event is appended as a row that is due at once, free and unpublished |
| `Delivery.OutboxStore.SelectDue` | cmd/internal/infra/postgres/outbox-repository.go:108-116 | The first rows that are unpublished, due, free and not locked by another statement, in due order: all of them, or limit of them |
| `Delivery.OutboxStore.ClaimPending` | cmd/internal/infra/postgres/outbox-repository.go:102-176 | Exactly those rows are leased and counted, and they are returned with their attempts |
| `Delivery.SelectionIs` | cmd/internal/infra/postgres/outbox-repository.go:108-116 | A claim takes only events that are unpublished, due and free, in due order, and leaves such an event out only at the limit and never one due earlier than one it took |
| `Delivery.RowStatements` | cmd/internal/infra/postgres/outbox-repository.go:117-220 | What claiming, confirming and putting off do to a row, field by field; a published row is never touched again |
| `Delivery.OutboxStore.MarkPublished` | cmd/internal/infra/postgres/outbox-repository.go:183-196 | The row is marked once; before the event occurred the CHECK refuses it |
| `Delivery.OutboxStore.Reschedule` | cmd/internal/infra/postgres/outbox-repository.go:200-220 | An unpublished row is put off and freed with its error recorded, whoever holds it |
| `Delivery.Deliver` | cmd/internal/infra/worker/outbox-publisher.go:112-147 | A sent event is confirmed, one that was not sent is put off by the backoff of its attempts |
| `Resolver.ResumesAreBounded` | cmd/internal/infra/worker/reference-resolver.go:103-175 | With a positive limit the workers resume one reversal at most maxAttempts times over all instances |
| `Resolver.ExpiredOnlyPastALimit` | cmd/internal/infra/worker/reference-resolver.go:169-175 | In every run a reversal is expired only when its claim counts more than a positive MaxAttempts or its age is above a positive TTL |
| `Resolver.ResumedOrExpired` | cmd/internal/infra/worker/reference-resolver.go:103-175 | An open claim can be resumed if and only if it is within both limits, and expired if and only if it is past one |
| `Resolver.TerminalWithinLimit` | cmd/internal/infra/worker/reference-resolver.go:103-196 | When workers are on time and expiries commit, a reversal is claimed at most maxAttempts + 1 times and is then terminal |
| `Resolver.ExpiryIsFinal` | cmd/internal/infra/worker/reference-resolver.go:178-196 | However late workers are, once an expiry committed the reversal is terminal in every later state and is claimed no more, and a claim past the limit leads to nothing but an expiry |
| `Resolver.TerminalIsFinal` | cmd/internal/infra/postgres/pending-reference-store.go:45-63 | A concluded reversal is never claimed again and its claim columns never change |
| `Resolver.PendingReferenceStore.SelectDue` | cmd/internal/infra/postgres/pending-reference-store.go:51-59 | The first rows that wait, are due, free and not locked by another statement, rows never tried first: all of them, or limit of them |
| `Resolver.PendingReferenceStore.ClaimDue` | cmd/internal/infra/postgres/pending-reference-store.go:45-92 | Exactly those rows are leased and counted, and reported with their attempts in order |
| `Resolver.SelectionIs` | cmd/internal/infra/postgres/pending-reference-store.go:51-59 | A claim takes only reversals that wait, are due and free, never-tried ones first, and leaves such a one out only at the limit and never one due earlier than one it took |
| `Resolver.RowStatements` | cmd/internal/infra/postgres/pending-reference-store.go:45-165 | What claiming, putting off and releasing do to a row, field by field; a concluded row is left alone |
| `Resolver.Load` | cmd/internal/infra/postgres/pending-reference-store.go:100-131 | Every row read is handed out with its attempts and a command rebuilt from it, or the first row that does not restore is reported |
| `Resolver.LoadedAsStored` | cmd/internal/infra/postgres/pending-reference-store.go:100-131 | Loading a committed row never fails, and its command does what redelivering the operation does |
| `Resolver.PendingReferenceStore.Reschedule` | cmd/internal/infra/postgres/pending-reference-store.go:134-148 | A waiting row is put off and freed, a concluded one is left alone |
| `Resolver.PendingReferenceStore.Release` | cmd/internal/infra/postgres/pending-reference-store.go:153-165 | A waiting row is freed, a concluded one is left alone |
| `Reconciliation.ReachableLedgerReconciles` | cmd/internal/usecase/queries.go:81-105 | In sequence order a sound ledger replays without overflow to the stored balance, and the difference is zero |
| `Reconciliation.AnyOrderReconcilesOrOverflows` | cmd/internal/domain/wallet-ledger-entry.go:172-199 | In any other order the replay gives the stored balance if and only if no partial sum leaves int64, and the overflow error otherwise |
| `Reconciliation.AnOrderThatOverflows` | cmd/internal/domain/wallet-ledger-entry.go:172-199 | A ledger and an order of it that overflows midway, although the documentation says that order does not matter |
| `Reconciliation.ReplayLedgerBalance` | cmd/internal/domain/wallet-ledger-entry.go:178-199 | The loop computes the replay, error cases included |
| `Reconciliation.ReplayIsSum` | cmd/internal/domain/wallet-ledger-entry.go:178-213 | A replay is the sum of the signed amounts, if and only if no partial sum overflows |
| `Reconciliation.Reconcile` | cmd/internal/usecase/queries.go:81-105 | The report compares the stored with the replayed balance, and is consistent if and only if they are equal |
| `Reconciliation.ReachableEntriesRestore` | cmd/internal/domain/wallet-ledger-entry.go:86-170 | Every entry of a sound ledger is accepted when it is read back |
| `Reconciliation.BuiltIff` | cmd/internal/domain/wallet-ledger-entry.go:93-170 | An entry is accepted if and only if it is identified and dated, in one currency, and goes by a positive amount from a balance that is not negative to another |
| `Monetary.Money.Add` | cmd/internal/domain/money.go:165-179 | Overflow is reported if and only if the unbounded sum leaves int64, although only the wrapped sum is tested |
| `Monetary.Money.Subtract` | cmd/internal/domain/money.go:183-197 | The same for the difference |
| `Monetary.Money.Negate` | cmd/internal/domain/money.go:202-214 | The same for the negation |
| `Monetary.Money.Compare` | cmd/internal/domain/money.go:218-231 | The sign orders the amounts, and fails if and only if they are not comparable |
| `MoneyText.ParseOfText` | cmd/internal/domain/money.go:71-99 | Every amount that is not negative is read back from its text; the text of a negative one is refused |
| `MoneyText.TextOfParse` | cmd/internal/domain/money.go:260-275 | Every accepted text is the text of its amount |
| `MoneyText.OneSpelling` | cmd/internal/domain/money.go:67-99 | No two accepted texts have the same amount |
| `MoneyText.TextOfAmount` | cmd/internal/domain/money.go:260-275 | An amount of u units and f hundredths reads as the digits of u, a dot and the two digits of f, with a minus sign below zero |
| `MoneyText.RefusedAs` | cmd/internal/domain/money.go:71-99 | A text is refused for its currency first, then as negative, then as malformed |
| `MoneyText.ParseMoney` | cmd/internal/domain/money.go:71-99 | The parser accepts exactly canonical amounts within int64, and reports each other case as specified |
| `MoneyText.AmountString` | cmd/internal/domain/money.go:260-275 | The padding loop prints the specified text, for negative amounts too |
| `MoneyText.IsDigits` | cmd/internal/domain/money.go:118-128 | True if and only if the text is a non-empty run of digits |
| `JsonText.SameTextIffSameOperation` | cmd/internal/pkg/idempotency/hash.go:73-104 | Two accepted objects have the same canonical text if and only if they agree after dropping nulls at every depth and transport names at the top |
| `JsonText.TransportIff` | cmd/internal/pkg/idempotency/hash.go:152-156 | The transport names are thirteen words, compared letter by letter whatever the case, the Kelvin sign and the dotted capital I included, which become letters of ASCII in lower case |
| `JsonText.EnvelopeIsIgnored` | cmd/internal/pkg/idempotency/hash.go:109-124 | Adding, changing or removing a top member whose name is one of the thirteen in any letter case, or a null member, leaves the canonical text as it is |
| `JsonText.BusinessMembersCount` | cmd/internal/pkg/idempotency/hash.go:109-124 | Two values of any other top member that differ beyond null members give two canonical texts |
| `JsonText.NestedMembersCount` | cmd/internal/pkg/idempotency/hash.go:128-149 | Below the top every member counts, those named like transport fields too |
| `JsonText.ItemsCount` | cmd/internal/pkg/idempotency/hash.go:140-146 | Items of an array count with their number, order and nulls |
| `JsonText.CanonicalErrors` | cmd/internal/pkg/idempotency/hash.go:73-104 | Exactly the objects with a member that is neither null nor transport have a canonical text; each other document has its own error |
| `JsonText.PrintedMembers` | cmd/internal/pkg/idempotency/hash.go:104-104 | Members are printed without spaces in the order of their keys |
| `JsonText.KeyOrder` | cmd/internal/pkg/idempotency/hash.go:104-104 | Keys are ordered by their first difference, a prefix first |
| `JsonText.TrailingIsRefusedIff` | cmd/internal/pkg/idempotency/hash.go:83-91 | Content after the value is refused if and only if it does not begin with a closing bracket; otherwise the value is taken alone |
| `CanonicalJson.CanonicalIffSame` | cmd/internal/pkg/idempotency/hash.go:109-149 | Canonical forms are equal if and only if the values agree but for null members, with array nulls kept |
| `CanonicalJson.MembersAreIdempotent` | cmd/internal/pkg/idempotency/hash.go:109-149 | Canonicalising twice changes nothing |
| `JsonText.CanonicalTextIsIdempotent` | cmd/internal/pkg/idempotency/hash.go:73-104 | The canonical text of a canonical form is the same text |
| `JsonText.PrintInjective` | cmd/internal/pkg/idempotency/hash.go:73-104 | No two value trees print the same text, whatever follows it |
| `CanonicalJson.CanonicalObject` | cmd/internal/pkg/idempotency/hash.go:109-124 | The loop over the members fills exactly the canonical members |
| `CanonicalJson.CanonicalValue` | cmd/internal/pkg/idempotency/hash.go:128-149 | The recursion computes the canonical form, array order and nulls kept |
| `Restore.EverythingMadeRestores` | cmd/internal/domain/wager-transaction.go:351-400 | Whatever a constructor and any accepted transitions make, in any order, written to its columns and read back, is accepted with equal fields |
| `Restore.ConstructorsMakeWell` | cmd/internal/domain/wager-transaction.go:228-316 | Every transaction that a constructor accepts meets the conditions that restoring one checks |
| `Restore.RestoredAsWritten` | cmd/internal/infra/postgres/transaction-repository.go:192-298 | A transaction that meets those conditions comes back from its nullable columns with equal fields |
| `Restore.RestoredIff` | cmd/internal/domain/wager-transaction.go:351-550 | A stored transaction is accepted if and only if its identity, origin, amount, reference, outcome and times fit its kind and state, spelled out field by field |
| `Restore.WalletRestoredIff` | cmd/internal/domain/wallet.go:101-142 | A stored wallet is accepted if and only if it is identified and dated in order, initialised, not negative and at version 1 or above |
| `Restore.TransitionsMakeWell` | cmd/internal/domain/wager-transaction.go:564-692 | Every transition refuses a concluded transaction, and otherwise keeps it restorable |
| `Restore.CommittedRowsRestore` | cmd/internal/infra/postgres/transaction-repository.go:192-258 | Every committed row of either table is accepted with equal fields when it is read |
| `Restore.ResumedAsRedelivered` | cmd/internal/infra/postgres/pending-reference-store.go:170-186 | The command rebuilt from a stored row does what redelivering the original command does |

## Left out

- HTTP routing, authentication, transfer objects, error-to-status tables, metrics, logging, configuration: plumbing.
- SQS and PostgreSQL clients: only the steps they cause (deliver, redeliver, crash, lose an answer) are modelled.
- SHA-256, UUID generation, base64 of cursors, the JSON text decoder, UTF-8 encoding: library code; value trees, identifiers and
  sequences stand for them.
- Correlation and causation metadata, envelope field validation, event and entry identifiers: an event is the snapshot its payload is
  built from, an entry is named by its sequence.
- The key-share lock a foreign key takes on the wallet row, and deadlock detection: they only remove interleavings or abort sessions.
- Column widths and time zones: a value too long aborts the unit of work; instants are integer ticks, 0 the zero instant.
- Unknown kinds, states and directions: the datatypes cannot hold them.
- RecordFailure of the inbox, outbox statistics: diagnosis only.
- Fairness between workers and progress while a dependency is down.
- Retries between attempts of different interleavings are steps of `Protocol`; `UseCases` runs them alone.
- Sequence numbers are unbounded; a BIGSERIAL ends at MaxInt64.
- Payloads stored as JSONB may be returned with other bytes; snapshots are compared as values.
- Delivery.OutboxStore.ClaimPending: the rows that SKIP LOCKED passes over are an argument, because they depend on other sessions.
- Resolver.PendingReferenceStore.ClaimDue: the rows passed over are an argument, for the same reason.
- Resolver.TerminalWithinLimit: needs workers that are on time, because late ones let others claim again; Resolver.ExpiryIsFinal
  and Resolver.ResumesAreBounded hold without.
- Atomicity.VersionTestIsSilent: only under the wallet lock, because with a plain read the version test is what keeps the ledger whole.
- Paging.LedgerPage: the rows of the query are an argument, specified by Paging.Selects.
