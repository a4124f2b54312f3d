# Gozon payment saga: a Dafny model

Gozon settles an order against a user's prepaid balance across two services, Orders and Payments. The services talk only through a message broker, and each has its own Postgres store. This project models the machinery that keeps that saga correct when delivery is at least once:

- **The Payments ledger** (`AccountBalanceService`). It covers the balance read that creates a zero row on first access. It also covers top-up and debit as read-modify-write loops of at most three attempts against a row-versioned balance, and the debit that stages without saving.
- **The Payments saga step** (`PaymentProcessor.ProcessAsync`), in both of the repository's variants. Both do inbox deduplication by MessageId, the account lookup, the debit, an `OrderPaymentStatusChanged` outbox row and the inbox mark.
  - The `src` variant runs everything in one transaction with one commit. Besides the final save there is one more: when the payer has no balance row yet, `GetBalanceAsync` creates it and saves inside the transaction, which also writes the staged inbox record.
  - The `Services` variant saves step by step and calls the retrying `TryDebitAsync`.
- **The Orders side**:
  - `OrderService.CreateAsync` commits an order together with its `OrderPaymentRequested` outbox row.
  - `PaymentStatusProcessor.HandleAsync` applies a payment result to an order and notifies the order's SignalR group.
- **The transactional outbox**. Both `OutboxRepository` files are modelled: fetch 50 unpublished rows oldest first, mark processed, record a failure. So is one cycle of each service's `OutboxDispatcher`.
- **The repositories and stores**: `AccountsRepository`, `InboxRepository`, `OrdersRepository` and `AccountService`. The stores carry the keys, unique indexes, numeric(18,2) and length limits, and row versions that `PaymentsDbContext` and `OrdersDbContext` configure.

Each `DbContext` is a class (`PaymentsDb`, `OrdersDb`) whose whole state is a datatype value, the unit of work:

- the committed tables, which queries read;
- the staged tables, which the next `SaveChanges` writes;
- the tracker's bookkeeping: the epoch that `ChangeTracker.Clear` advances (Payments), or the set of modified orders (Orders);
- a Guid counter and a save counter.

Every service operation is a method over that class. Its `ensures` ties the result and the new state to a specification function of the old state. Lemmas about those functions state what the source promises.

The database's answer to each save is a parameter: `conflict`, or a sequence `conflicts` with one entry per attempt. The broker's answer to each publish is a function `publish` from the row to `Published` or `PublishFailed(error)`. The clock is a parameter `now`.

Where the written design of the system and the code disagree, the model follows the code:

- **No terminal-state guard.** The design says New→Finished and New→Cancelled are terminal. `HandleAsync` has no guard, so a later result overwrites a final status. See `PaymentStatusHandling.LaterResultOverwritesFinalStatus`.
- **Notification on every delivery.** The design says a redelivered status event emits no duplicate notification. `HandleAsync` notifies the group every time the order exists. See the fourth `ensures` of `PaymentStatusHandling.HandleSpec`.
- **Debit idempotency by OrderId alone.** The check matches on OrderId and not on the account: a second debit of the same order from another account also reports success. See `LedgerFacts.DebitOncePerOrder`.
- **A conflict is not retried inside the step.** The design says the whole step is retried from scratch. In the `src` processor a version conflict rolls back and rethrows, so only a broker redelivery reruns it: no retrying execution strategy is configured. See `PaymentStepFacts.ProcessOutcome` (a throw commits nothing), `PaymentStepFacts.ProcessedMessageIsSkipped` (an unprocessed record is not skipped, so a redelivery reruns the step) and `PaymentStepFacts.RedeliveryIsSkipped` (after a call that did not throw, a redelivery changes nothing).

## Model

Source cells are relative to the repository root. The two `PaymentProcessor.cs` files are told apart by their directories.

| member | source | states |
|---|---|---|
| Query.FirstWhere | src/Gozon.PaymentsService/Infrastructure/Repositories/AccountsRepository.cs:10-14 | FirstOrDefault returns a row of the table that matches, and null exactly when no row matches |
| Query.Where | src/Gozon.OrdersService/Infrastructure/Repositories/OrdersRepository.cs:18-19 | the filter keeps exactly the rows that match, and no more rows than the table has |
| Query.WhereKeepsMatchingCopies | src/Gozon.OrdersService/Infrastructure/Repositories/OrdersRepository.cs:18-19 | every matching row occurs in the filter as often as in the table |
| Query.SortBy | Services/PaymentsService/Infrastructure/Repositories/OutboxRepository.cs:17 | OrderBy returns a permutation of its input, sorted by the key |
| Query.Take | Services/PaymentsService/Infrastructure/Repositories/OutboxRepository.cs:18 | Take(n) is a prefix of length n, or the whole sequence when it is shorter, and empty for n ≤ 0 |
| Query.FirstWhereAppend | Services/PaymentsService/Infrastructure/Repositories/InboxRepository.cs:10-14 | a row appended to a table where nothing matched is the first match exactly when it matches |
| PaymentsSchema.Commit | src/Gozon.PaymentsService/Infrastructure/Data/PaymentsDbContext.cs:16-52 | a save conflicts iff there is a conflict and a balance row (the only versioned row) is updated; a commit satisfies every key, unique index and numeric(18,2) limit and writes the staged rows with new versions |
| PaymentsSchema.StampVersions | src/Gozon.PaymentsService/Infrastructure/Data/PaymentsDbContext.cs:27 | a commit writes the staged rows; only the balance rows it changes can get a new version |
| PaymentsSchema.StampWithoutUpdate | src/Gozon.PaymentsService/Infrastructure/Data/PaymentsDbContext.cs:27 | when no balance row is updated, no version changes |
| PaymentsSchema.CommitWithoutUpdateWritesStaged | src/Gozon.PaymentsService/Infrastructure/Data/PaymentsDbContext.cs:16-52 | without a balance update a save cannot conflict: it writes exactly the staged tables or is rejected by a constraint |
| PaymentsSchema.FirstWriterWins | src/Gozon.PaymentsService/Infrastructure/Data/PaymentsDbContext.cs:25-27 | of two writers that read the same balance version, the first commit bumps the version, so the version the second writer read is no longer current: no lost update |
| PaymentsSchema.AtMostOneTransactionPerOrder | src/Gozon.PaymentsService/Infrastructure/Data/PaymentsDbContext.cs:35 | the filtered unique index allows at most one ledger row per order, and none iff no row names the order |
| PaymentsSchema.OneAccountPerUser | src/Gozon.PaymentsService/Infrastructure/Data/PaymentsDbContext.cs:19 | two accounts of the same user are the same account |
| PaymentsData.NewId | Services/PaymentsService/Features/Payments/PaymentProcessor.cs:27-39 | Guid.NewGuid returns the counter and advances it past that Id, so every stored and staged Id stays below the next one |
| PaymentsData.Save | src/Gozon.PaymentsService/Infrastructure/Data/PaymentsDbContext.cs:16-52 | SaveChanges conflicts iff an updated balance meets a conflict; success writes the stamped staged tables and leaves nothing staged; failure writes nothing |
| PaymentsData.Clear | Services/PaymentsService/Features/Accounts/AccountBalanceService.cs:49 | ChangeTracker.Clear drops every staged change, keeps the committed rows and detaches every handle taken before it |
| PaymentsData.UpdateInboxRow | Services/PaymentsService/Features/Payments/PaymentProcessor.cs:84-88 | an update by key replaces the row with that Id and no other |
| PaymentsData.SetInboxProcessed | Services/PaymentsService/Features/Payments/PaymentProcessor.cs:84-88 | setting ProcessedAtUtc through a detached entity stages nothing |
| PaymentsData.Track | Services/PaymentsService/Infrastructure/Repositories/InboxRepository.cs:13-14 | an entity just added is attached to the current tracker |
| PaymentsData.PaymentsDb.SaveChanges | src/Gozon.PaymentsService/Infrastructure/Data/PaymentsDbContext.cs:16-52 | the context's state after a save is PaymentsData.Save of the state before |
| PaymentsData.PaymentsDb.ClearTracker | Services/PaymentsService/Features/Accounts/AccountBalanceService.cs:49 | the context's state becomes PaymentsData.Clear of the state before |
| PaymentsData.PaymentsDb.MarkInboxProcessed | Services/PaymentsService/Features/Payments/PaymentProcessor.cs:84-88 | the mark is staged only through an attached handle |
| PaymentsRepositories.AccountByUserId | src/Gozon.PaymentsService/Infrastructure/Repositories/AccountsRepository.cs:10-11 | the user's account, or None exactly when the user has none |
| PaymentsRepositories.AccountById | src/Gozon.PaymentsService/Infrastructure/Repositories/AccountsRepository.cs:13-14 | the account with that Id, or None exactly when there is none |
| PaymentsRepositories.InboxByMessageId | Services/PaymentsService/Infrastructure/Repositories/InboxRepository.cs:10-11 | the inbox record of that message, or None exactly when there is none |
| PaymentsRepositories.AccountByUserIdIsUnambiguous | src/Gozon.PaymentsService/Infrastructure/Repositories/AccountsRepository.cs:10-11 | with the unique UserId index, the lookup returns the user's one account |
| PaymentsRepositories.InboxByMessageIdIsUnambiguous | Services/PaymentsService/Infrastructure/Repositories/InboxRepository.cs:10-11 | with the unique MessageId index, the lookup returns the message's one record |
| PaymentsRepositories.StagedInboxIsFoundOnlyAfterSave | Services/PaymentsService/Infrastructure/Repositories/InboxRepository.cs:13-17 | an added inbox record is not found before SaveChangesAsync; the save succeeds and the record is found afterwards |
| PaymentsRepositories.SavedAccountIsTheUsersAccount | src/Gozon.PaymentsService/Infrastructure/Repositories/AccountsRepository.cs:16-20 | an added account for a user without one is invisible until saved and is the user's account afterwards |
| PaymentsRepositories.StagedOutboxIsQueuedOnlyAfterSave | Services/PaymentsService/Infrastructure/Repositories/OutboxRepository.cs:10-11 | an added outbox row changes nothing committed until the save, which appends it; it is then in the unpublished backlog |
| OutboxStore.Backlog | Services/PaymentsService/Infrastructure/Repositories/OutboxRepository.cs:15-17 | the unprocessed rows, a permutation of the filter, sorted by CreatedAtUtc |
| OutboxStore.GetUnprocessed | Services/PaymentsService/Infrastructure/Repositories/OutboxRepository.cs:13-21 | at most `take` rows, exactly min(take, backlog) of them, all stored and unprocessed, oldest first, a prefix of the backlog |
| OutboxStore.FetchLeavesOnlyNewerRows | src/Gozon.OrdersService/Infrastructure/Repositories/OutboxRepository.cs:13-22 | an unprocessed row left out of a fetch is no older than any fetched row |
| OutboxStore.MarkProcessed | Services/PaymentsService/Infrastructure/Repositories/OutboxRepository.cs:23-29 | MarkAsProcessedAsync sets ProcessedAtUtc to now and counts the attempt, and changes nothing else |
| OutboxStore.RecordFailure | Services/PaymentsService/Infrastructure/Background/OutboxDispatcher.cs:39-44 | the catch block counts the attempt and keeps the error, and changes nothing else (the row stays unprocessed) |
| OutboxStore.UpdateRow | src/Gozon.OrdersService/Infrastructure/Repositories/OutboxRepository.cs:24-30 | DbSet.Update replaces the row with that Id and no other |
| OutboxStore.UpdateRowKeepsKeys | src/Gozon.OrdersService/Infrastructure/Repositories/OutboxRepository.cs:24-30 | updating a row by key keeps the Ids unique |
| OutboxStore.MarkedRowIsNotFetchedAgain | src/Gozon.OrdersService/Infrastructure/Repositories/OutboxRepository.cs:13-30 | after a row is marked processed, no fetch returns its Id |
| OutboxStore.FailedRowStaysInBacklog | Services/OrdersService/Infrastructure/Background/OutboxDispatcher.cs:39-44 | a row whose publish failed stays in the backlog, with its attempt counted |
| Ledger.FindBalance | Services/PaymentsService/Features/Accounts/AccountBalanceService.cs:15-16 | the balance row is found iff the account has one, and on a clean context it is the stored row |
| Ledger.TransactionForOrder | Services/PaymentsService/Features/Accounts/AccountBalanceService.cs:60-64 | the ledger row that names the order, or None exactly when no row names it |
| Ledger.GetBalanceSpec | Services/PaymentsService/Features/Accounts/AccountBalanceService.cs:13-24 | the read leaves a balance row for the account, or throws only on a store rejection; it never touches versioned rows |
| Ledger.GetBalance | Services/PaymentsService/Features/Accounts/AccountBalanceService.cs:13-24 | the method's result and new state are Ledger.GetBalanceSpec of the old state |
| Ledger.TopUp | Services/PaymentsService/Features/Accounts/AccountBalanceService.cs:26-54 | the loop of MaxRetry = 3 attempts computes Ledger.TopUpSpec, proved by loop invariant over the remaining attempts |
| Ledger.TryDebit | Services/PaymentsService/Features/Accounts/AccountBalanceService.cs:56-96 | the loop of MaxRetry = 3 attempts computes Ledger.TryDebitSpec, proved by loop invariant over the remaining attempts |
| Ledger.DebitWithoutSave | Services/PaymentsService/Features/Accounts/AccountBalanceService.cs:98-124 | the method computes Ledger.DebitWithoutSaveSpec: the checks and the staged debit, with no save |
| Ledger.DebitWithoutSaveSpec | Services/PaymentsService/Features/Accounts/AccountBalanceService.cs:98-124 | the only write that reaches the store is GetBalanceAsync's save of a missing zero balance row (with whatever was staged); an order already debited returns (true, null) and changes nothing; the result is (true, null), (false, "Insufficient funds") or the store's exception; the epoch is kept |
| Ledger.StageLedgerWrite | Services/PaymentsService/Features/Accounts/AccountBalanceService.cs:34-41 | the new balance and the transaction row are staged, not committed |
| Ledger.TopUpAttempt | Services/PaymentsService/Features/Accounts/AccountBalanceService.cs:30-50 | an attempt that retries leaves a clean tracker |
| Ledger.TryDebitAttempt | Services/PaymentsService/Features/Accounts/AccountBalanceService.cs:58-92 | an attempt that retries leaves a clean tracker |
| Ledger.DebitAfterRead | Services/PaymentsService/Features/Accounts/AccountBalanceService.cs:66-92 | a debit attempt after the balance read retries only with a clean tracker |
| Ledger.TopUpFromStep | Services/PaymentsService/Features/Accounts/AccountBalanceService.cs:28-50 | the retry loop unfolds one attempt at a time |
| Ledger.TryDebitFromStep | Services/PaymentsService/Features/Accounts/AccountBalanceService.cs:58-92 | the retry loop unfolds one attempt at a time |
| LedgerFacts.GetBalanceOnSettledStore | Services/PaymentsService/Features/Accounts/AccountBalanceService.cs:13-24 | the read returns the account's balance (0 for a new row) and changes nothing when the row exists |
| LedgerFacts.GetBalanceOnCleanStore | Services/PaymentsService/Features/Accounts/AccountBalanceService.cs:13-24 | on a fresh context the read commits a zero row when none exists and otherwise returns the stored row untouched |
| LedgerFacts.LedgerWriteFits | Services/PaymentsService/Features/Accounts/AccountBalanceService.cs:34-41 | the staged write adds the delta to the balance and appends one transaction, within every store constraint |
| LedgerFacts.LedgerWriteStaged | Services/PaymentsService/Features/Accounts/AccountBalanceService.cs:34-41 | staging changes only the account's balance and appends one transaction; other tables and the committed state are kept |
| LedgerFacts.LedgerWriteCommits | Services/PaymentsService/Features/Accounts/AccountBalanceService.cs:43-50 | the save conflicts iff a conflict meets a non-zero delta; on success only this balance and one new transaction are written |
| LedgerFacts.TopUpAttemptCommits | Services/PaymentsService/Features/Accounts/AccountBalanceService.cs:28-53 | from any attempt the loop ends with the top-up promise: committed balance + amount and one transaction, or the exhausted error |
| LedgerFacts.TopUpAttemptConflicts | Services/PaymentsService/Features/Accounts/AccountBalanceService.cs:46-50 | a conflicting attempt clears the tracker and leaves only the balance row it created |
| LedgerFacts.TopUpPromiseAfterConflict | Services/PaymentsService/Features/Accounts/AccountBalanceService.cs:46-53 | the promise of the next attempt carries over to the attempt that conflicted |
| LedgerFacts.TopUpFromClean | Services/PaymentsService/Features/Accounts/AccountBalanceService.cs:28-53 | the promise holds from any clean context at any attempt |
| LedgerFacts.TopUpOutcome | Services/PaymentsService/Features/Accounts/AccountBalanceService.cs:26-54 | TopUpAsync throws "Unable to top up balance after retries" iff the amount is non-zero and all 3 saves conflict; otherwise the balance is the old one + amount, with one new transaction |
| LedgerFacts.TopUpOverflowIsRejected | Services/PaymentsService/Features/Accounts/AccountBalanceService.cs:26-54 | a top-up whose new balance does not fit numeric(18,2) is refused by the store when the first save meets no conflict: the call throws the database exception and only the zero balance row is kept |
| LedgerFacts.TryDebitOverflowIsRejected | Services/PaymentsService/Features/Accounts/AccountBalanceService.cs:56-96 | a funded debit of an undebited order whose new balance does not fit numeric(18,2) is refused by the store when the first save meets no conflict: the exception leaves the loop and only the zero balance row is kept |
| LedgerFacts.DebitAttemptFinishes | Services/PaymentsService/Features/Accounts/AccountBalanceService.cs:56-96 | the debit promise holds from any attempt with the order undebited and funds sufficient |
| LedgerFacts.DebitAfterReadCommits | Services/PaymentsService/Features/Accounts/AccountBalanceService.cs:72-86 | a debit save without conflict commits balance − amount and one ledger row naming the order |
| LedgerFacts.DebitAttemptCommits | Services/PaymentsService/Features/Accounts/AccountBalanceService.cs:72-86 | an attempt whose save does not conflict succeeds with exactly that debit |
| LedgerFacts.DebitAttemptConflicts | Services/PaymentsService/Features/Accounts/AccountBalanceService.cs:88-92 | a conflicting debit attempt clears the tracker and leaves only the balance row it created |
| LedgerFacts.DebitPromiseAfterConflict | Services/PaymentsService/Features/Accounts/AccountBalanceService.cs:88-95 | the promise of the next attempt carries over to the attempt that conflicted |
| LedgerFacts.TryDebitFromClean | Services/PaymentsService/Features/Accounts/AccountBalanceService.cs:56-96 | the debit promise holds from any clean context at any attempt |
| LedgerFacts.TryDebitOutcome | Services/PaymentsService/Features/Accounts/AccountBalanceService.cs:56-96 | an order already debited returns success and writes nothing; short funds return "Insufficient funds" with no retry; otherwise it returns "Failed to debit after retries" iff the amount is non-zero and all 3 saves conflict, and else it commits exactly one debit |
| LedgerFacts.DebitOncePerOrder | Services/PaymentsService/Features/Accounts/AccountBalanceService.cs:60-64 | after a debit call, any further debit for the same order, from any account and of any amount, returns success and changes nothing |
| LedgerFacts.DebitWithoutSaveOutcome | Services/PaymentsService/Features/Accounts/AccountBalanceService.cs:98-124 | already debited means success with nothing staged; short funds return "Insufficient funds"; otherwise success; nothing but a balance row is committed |
| LedgerFacts.DebitWithoutSaveStages | Services/PaymentsService/Features/Accounts/AccountBalanceService.cs:112-121 | the staged debit lowers only this balance by the amount and appends one ledger row for the order, within the constraints |
| AccountService.RespondWithBalance | src/Gozon.PaymentsService/Features/Accounts/AccountService.cs:35-57 | no account means null and no change; the balance read never touches versioned rows |
| AccountService.Create | src/Gozon.PaymentsService/Features/Accounts/AccountService.cs:13-33 | the method computes AccountService.CreateSpec |
| AccountService.GetBalanceById | src/Gozon.PaymentsService/Features/Accounts/AccountService.cs:35-45 | the method computes AccountService.GetBalanceByIdSpec |
| AccountService.GetBalanceByUser | src/Gozon.PaymentsService/Features/Accounts/AccountService.cs:47-57 | the method computes AccountService.GetBalanceByUserSpec |
| AccountService.TopUpById | src/Gozon.PaymentsService/Features/Accounts/AccountService.cs:59-69 | the method computes AccountService.TopUpByIdSpec |
| AccountServiceFacts.CreateOutcome | src/Gozon.PaymentsService/Features/Accounts/AccountService.cs:13-33 | returns the user's existing account unchanged, or commits a new one with a fresh Id; either way it is then the user's account |
| AccountServiceFacts.CreateIsIdempotent | src/Gozon.PaymentsService/Features/Accounts/AccountService.cs:15-19 | creating the same user's account again returns the same account and changes nothing |
| AccountServiceFacts.RespondOutcome | src/Gozon.PaymentsService/Features/Accounts/AccountService.cs:35-57 | null iff no account was found; otherwise the account's Id, user and current balance |
| AccountServiceFacts.GetBalanceByIdOutcome | src/Gozon.PaymentsService/Features/Accounts/AccountService.cs:35-45 | null iff no account has the Id; otherwise the balance of that account and its user |
| AccountServiceFacts.GetBalanceByUserOutcome | src/Gozon.PaymentsService/Features/Accounts/AccountService.cs:47-57 | null iff the user has no account; otherwise the balance of the user's account |
| AccountServiceFacts.TopUpByIdOutcome | src/Gozon.PaymentsService/Features/Accounts/AccountService.cs:59-69 | unknown account means null and no change; otherwise it throws iff a non-zero amount meets 3 conflicts, and else returns the balance raised by the amount |
| PaymentStep.ReceiveInbox | src/Gozon.PaymentsService/Features/Payments/PaymentProcessor.cs:38-49 | the inbox record is tracked by the current context and nothing is committed |
| PaymentStep.ReportedStatus | src/Gozon.PaymentsService/Features/Payments/PaymentProcessor.cs:63-71 | Success iff the debit succeeded, with no reason; otherwise Failed with the debit's error or "Debit failed" |
| PaymentStep.Process | src/Gozon.PaymentsService/Features/Payments/PaymentProcessor.cs:21-106 | the method computes PaymentStep.ProcessSpec: dedup, inbox, debit, event, mark, the final save (plus the save that creates a missing balance row), one commit, and rollback on failure |
| PaymentStepFacts.ReceiveFacts | src/Gozon.PaymentsService/Features/Payments/PaymentProcessor.cs:38-49 | an unseen message gets a new unprocessed record with a fresh Id; a seen one reuses its record; nothing is committed |
| PaymentStepFacts.DecideWithoutDebit | src/Gozon.PaymentsService/Features/Payments/PaymentProcessor.cs:54-60 | without an account (or an already debited order) the verdict is computed and no balance is updated |
| PaymentStepFacts.StampedDebit | src/Gozon.PaymentsService/Features/Payments/PaymentProcessor.cs:62 | the staged debit updates a versioned row iff the amount is non-zero, and lowers that balance by the amount |
| PaymentStepFacts.DecideWithDebit | src/Gozon.PaymentsService/Features/Payments/PaymentProcessor.cs:54-72 | the debit is staged within the constraints, and it is a versioned update iff the amount is non-zero |
| PaymentStepFacts.DebitLedgerEffect | src/Gozon.PaymentsService/Features/Payments/PaymentProcessor.cs:62 | the staged ledger is the old one debited once for the order |
| PaymentStepFacts.MarkedInboxFits | src/Gozon.PaymentsService/Features/Payments/PaymentProcessor.cs:92 | marking the inbox record keeps the inbox constraints |
| PaymentStepFacts.MarkedInboxIsKept | src/Gozon.PaymentsService/Features/Payments/PaymentProcessor.cs:92 | the marked record is in the updated inbox |
| PaymentStepFacts.RecordedTablesFit | src/Gozon.PaymentsService/Features/Payments/PaymentProcessor.cs:74-92 | adding the event row and the mark keeps the constraints and does not change which versioned rows are updated |
| PaymentStepFacts.RecordFacts | src/Gozon.PaymentsService/Features/Payments/PaymentProcessor.cs:74-104 | the final save throws iff a conflict meets a versioned update, and then rolls back to the snapshot; otherwise the event, the outbox row, the ledger and the mark are committed together |
| PaymentStepFacts.LedgerAfterReadsLedgerOnly | src/Gozon.PaymentsService/Features/Payments/PaymentProcessor.cs:62 | the ledger effect depends on the balance and transaction tables only |
| PaymentStepFacts.ReceiveAndDecide | src/Gozon.PaymentsService/Features/Payments/PaymentProcessor.cs:38-72 | inbox and debit together stage the verdict's ledger effect, with the inbox record tracked |
| PaymentStepFacts.ProcessOutcome | src/Gozon.PaymentsService/Features/Payments/PaymentProcessor.cs:21-106 | the step throws iff a conflict meets a non-zero debit, and then commits nothing; otherwise one commit holds the debit (at most once per order), the status event in a new outbox row, and the inbox record marked processed |
| PaymentStepFacts.ProcessedMessageIsSkipped | src/Gozon.PaymentsService/Features/Payments/PaymentProcessor.cs:30-36 | the step returns without effect iff the message's inbox record is processed |
| PaymentStepFacts.RedeliveryIsSkipped | src/Gozon.PaymentsService/Features/Payments/PaymentProcessor.cs:30-36 | after a successful step, a redelivery of the same message changes nothing |
| PaymentStepStaged.Intake | Services/PaymentsService/Features/Payments/PaymentProcessor.cs:27-39 | receiving the message never introduces a versioned update |
| PaymentStepStaged.ProcessAsWritten | Services/PaymentsService/Features/Payments/PaymentProcessor.cs:18-88 | the method computes PaymentStepStaged.ProcessAsWrittenSpec, the step as written |
| PaymentStepStaged.ProcessReattached | Services/PaymentsService/Features/Payments/PaymentProcessor.cs:18-88 | the method computes PaymentStepStaged.ProcessReattachedSpec, the step with the inbox mark made by key |
| PaymentStepStagedFacts.DebitAttemptEpoch | Services/PaymentsService/Features/Accounts/AccountBalanceService.cs:88-92 | a debit attempt clears the tracker (new epoch) iff it retries |
| PaymentStepStagedFacts.TryDebitFromEpoch | Services/PaymentsService/Features/Accounts/AccountBalanceService.cs:58-95 | the retry loop never moves the epoch back; it keeps the epoch when the current attempt ends the loop and advances it when that attempt clears the tracker for another |
| PaymentStepStagedFacts.SettleEpoch | Services/PaymentsService/Features/Payments/PaymentProcessor.cs:41-55 | the settle step keeps the tracker iff the first debit attempt does not conflict |
| PaymentStepStagedFacts.SettleFacts | Services/PaymentsService/Features/Payments/PaymentProcessor.cs:41-55 | the account lookup and TryDebitAsync give the staged verdict and change only the ledger |
| PaymentStepStagedFacts.SettleLedger | Services/PaymentsService/Features/Payments/PaymentProcessor.cs:49 | the ledger is debited once for the order unless debits were exhausted |
| PaymentStepStagedFacts.PromisedLedger | Services/PaymentsService/Features/Accounts/AccountBalanceService.cs:56-96 | what TryDebitAsync promises for the payer's account is the debit exactly when it succeeds, and no ledger change otherwise |
| PaymentStepStagedFacts.BalanceRowKeepsBalances | Services/PaymentsService/Features/Accounts/AccountBalanceService.cs:13-24 | creating a zero balance row changes no balance and no ledger row |
| PaymentStepStagedFacts.IntakeFacts | Services/PaymentsService/Features/Payments/PaymentProcessor.cs:27-39 | an unseen message's inbox record is committed, unprocessed and tracked |
| PaymentStepStagedFacts.PublishFacts | Services/PaymentsService/Features/Payments/PaymentProcessor.cs:61-82 | PublishResult commits one outbox row carrying the event and nothing else |
| PaymentStepStagedFacts.MarkFacts | Services/PaymentsService/Features/Payments/PaymentProcessor.cs:84-88 | the mark commits ProcessedAtUtc iff the record's handle is still attached |
| PaymentStepStagedFacts.SameLedgerSameVerdict | Services/PaymentsService/Features/Payments/PaymentProcessor.cs:41-55 | the verdict depends on accounts, balances and transactions only |
| PaymentStepStagedFacts.IntakeAndSettle | Services/PaymentsService/Features/Payments/PaymentProcessor.cs:27-55 | after intake and settle the record is committed and stays attached iff the first debit did not conflict |
| PaymentStepStagedFacts.PublishOutcome | Services/PaymentsService/Features/Payments/PaymentProcessor.cs:27-82 | up to the mark: the event carries the verdict, the outbox gains one row, and the ledger is debited at most once |
| PaymentStepStagedFacts.AsWrittenOutcome | Services/PaymentsService/Features/Payments/PaymentProcessor.cs:18-88 | the step always reports the verdict and queues the event; the inbox record ends processed iff the first debit attempt did not conflict |
| PaymentStepStagedFacts.UnprocessedMessageIsRerun | Services/PaymentsService/Features/Payments/PaymentProcessor.cs:20-25 | a message whose record is unprocessed is not skipped |
| PaymentStepStagedFacts.DetachedInboxIsNotMarked | Services/PaymentsService/Features/Payments/PaymentProcessor.cs:49 | as written, after a first-attempt debit conflict the record stays unprocessed, so a redelivery runs the step again |
| PaymentStepStagedFacts.ReattachedProcessOutcome | Services/PaymentsService/Features/Payments/PaymentProcessor.cs:18-88 | corrected: the step reports the verdict, queues the event and always leaves the record processed |
| PaymentStepStagedFacts.ReattachedRedeliveryIsSkipped | Services/PaymentsService/Features/Payments/PaymentProcessor.cs:20-25 | corrected: a redelivery after a completed step changes nothing |
| OrdersSchema.StampOrders | Services/OrdersService/Infrastructure/Data/OrdersDbContext.cs:21 | exactly the modified orders get the next version; all else is written as staged |
| OrdersSchema.UpdateOrderRow | src/Gozon.OrdersService/Features/Payments/PaymentStatusProcessor.cs:29-30 | editing a tracked order replaces the row with that Id and no other |
| OrdersSchema.FirstOrderWriterWins | Services/OrdersService/Infrastructure/Data/OrdersDbContext.cs:21 | after one writer's update commits, the version another writer read is no longer current |
| OrdersData.NewId | src/Gozon.OrdersService/Features/Orders/OrderService.cs:26 | Guid.NewGuid returns the counter and advances it past that Id, keeping the context well formed |
| OrdersData.Save | Services/OrdersService/Infrastructure/Data/OrdersDbContext.cs:14-33 | the save conflicts iff there is a conflict and an order is modified; success writes the staged rows with new versions on the modified orders and leaves nothing staged; failure writes nothing |
| OrdersData.OrdersDb.SaveChanges | src/Gozon.OrdersService/Infrastructure/Repositories/OrdersRepository.cs:26-27 | the context's state after a save is OrdersData.Save of the state before |
| OrdersRepositories.OrderById | src/Gozon.OrdersService/Infrastructure/Repositories/OrdersRepository.cs:13-14 | the order with that Id, or None exactly when there is none |
| OrdersRepositories.OrdersOfUser | src/Gozon.OrdersService/Infrastructure/Repositories/OrdersRepository.cs:16-24 | exactly the user's orders, newest CreatedAtUtc first, a permutation of the filter |
| OrdersRepositories.OrdersOfUserIsExact | src/Gozon.OrdersService/Infrastructure/Repositories/OrdersRepository.cs:16-24 | each of the user's orders is listed as often as it is stored, and no other order is listed |
| OrdersRepositories.OrderByIdIsUnambiguous | src/Gozon.OrdersService/Infrastructure/Repositories/OrdersRepository.cs:13-14 | with Id as the key, the lookup returns the one order with that Id |
| OrdersRepositories.StagedOrderIsFoundOnlyAfterSave | src/Gozon.OrdersService/Infrastructure/Repositories/OrdersRepository.cs:10-14 | an added order is not found before the save; after it, it is found by Id and listed for its user |
| OrdersRepositories.StagedOutboxIsQueuedOnlyAfterSave | src/Gozon.OrdersService/Infrastructure/Repositories/OutboxRepository.cs:10-11 | an added outbox row is not committed before the save; the save appends it to the backlog |
| OrderService.PaymentRequestRow | src/Gozon.OrdersService/Features/Orders/OrderService.cs:43-49 | the queued row has type "OrderPaymentRequested", the request as payload, and is unpublished, with no attempts and no error |
| OrderService.CreateSpec | src/Gozon.OrdersService/Features/Orders/OrderService.cs:17-56 | a non-positive amount throws "Amount must be positive" and changes nothing; a returned order is New, with the request's user, amount and description; a positive amount saves once |
| OrderService.Create | src/Gozon.OrdersService/Features/Orders/OrderService.cs:17-56 | the method computes OrderService.CreateSpec |
| OrderService.StagedCreateFits | Services/OrdersService/Infrastructure/Data/OrdersDbContext.cs:14-33 | a new order and row with fresh Ids, an amount within numeric(18,2), a description of at most 512 characters and a Type of at most 256 keep the constraints |
| OrderService.CreateOutcome | src/Gozon.OrdersService/Features/Orders/OrderService.cs:17-56 | creation succeeds iff the amount is positive and the row fits; it then commits the order and one unpublished payment request for it in one save, and the order is found by Id; an order that does not fit is rejected and nothing is written |
| PaymentStatusHandling.TargetStatus | src/Gozon.OrdersService/Features/Payments/PaymentStatusProcessor.cs:23-25 | Finished iff the payment succeeded; Cancelled otherwise |
| PaymentStatusHandling.HandleSpec | src/Gozon.OrdersService/Features/Payments/PaymentStatusProcessor.cs:14-42 | an unknown order means nothing happens, and the handler notifies iff the order exists; the notice carries the order Id and the target status name, even when nothing changed; a save happens iff the status differs |
| PaymentStatusHandling.Handle | src/Gozon.OrdersService/Features/Payments/PaymentStatusProcessor.cs:14-42 | the method computes PaymentStatusHandling.HandleSpec |
| PaymentStatusHandling.StatusUpdateFits | Services/OrdersService/Infrastructure/Data/OrdersDbContext.cs:14-24 | rewriting status and UpdatedAtUtc keeps the Orders constraints |
| PaymentStatusHandling.HandleChangesStatus | src/Gozon.OrdersService/Features/Payments/PaymentStatusProcessor.cs:27-39 | a differing status either commits the new status, timestamp and version of that order alone and notifies, or on conflict throws without writing |
| PaymentStatusHandling.StatusAfterHandle | src/Gozon.OrdersService/Features/Payments/PaymentStatusProcessor.cs:23-32 | after a handled message the order is stored at the target status |
| PaymentStatusHandling.HandleTwiceIsIdempotent | src/Gozon.OrdersService/Features/Payments/PaymentStatusProcessor.cs:27-39 | handling the same message again writes nothing and sends the same notice |
| PaymentStatusHandling.LaterResultOverwritesFinalStatus | src/Gozon.OrdersService/Features/Payments/PaymentStatusProcessor.cs:23-32 | with no terminal-state guard, a failure cancels a Finished order and a success finishes a Cancelled one |
| OutboxDispatch.DeliveryOf | Services/PaymentsService/Infrastructure/Background/OutboxDispatcher.cs:35-36 | a publish goes to the service's exchange with an empty routing key, the row's Type and its payload |
| OutboxDispatch.Deliveries | Services/OrdersService/Infrastructure/Background/OutboxDispatcher.cs:30-36 | one publish per fetched row, in fetch order |
| OutboxDispatch.Settle | Services/OrdersService/Infrastructure/Background/OutboxDispatcher.cs:32-44 | a published row is marked processed; a failed one keeps ProcessedAtUtc and records the error; either way the attempt is counted and the content kept |
| OutboxDispatch.SettleAll | Services/OrdersService/Infrastructure/Background/OutboxDispatcher.cs:30-45 | settling the batch keeps the table's length, order and Ids |
| OutboxDispatch.SettledByOwnOutcome | Services/OrdersService/Infrastructure/Background/OutboxDispatcher.cs:30-45 | each fetched row is settled by its own publish outcome: a failure does not stop the rest of the batch |
| OutboxDispatch.UnbatchedRowKept | Services/OrdersService/Infrastructure/Background/OutboxDispatcher.cs:30-45 | rows outside the batch are left as they were |
| OutboxDispatch.KeyedRowsOccurOnce | Services/OrdersService/Infrastructure/Data/OrdersDbContext.cs:28 | with a key on Id, a row occurs at most once |
| OutboxDispatch.SameIdSameRow | Services/OrdersService/Infrastructure/Data/OrdersDbContext.cs:28 | with the key on Id, two outbox rows with the same Id are the same row |
| OutboxDispatch.FetchHasDistinctIds | Services/OrdersService/Infrastructure/Background/OutboxDispatcher.cs:23 | the fetched batch holds each Id once |
| OutboxDispatch.SettleAllKeepsTypeLimit | Services/OrdersService/Infrastructure/Data/OrdersDbContext.cs:29 | settling keeps every Type within its length limit |
| OutboxDispatch.SettleAllStep | Services/OrdersService/Infrastructure/Background/OutboxDispatcher.cs:30-45 | one loop iteration settles the next fetched row over the rows already handled |
| OutboxDispatch.PublishedRowLeavesBacklog | Services/PaymentsService/Infrastructure/Background/OutboxDispatcher.cs:36-37 | a row whose publish returned is never fetched again |
| OutboxDispatch.FailedRowStaysQueued | Services/PaymentsService/Infrastructure/Background/OutboxDispatcher.cs:39-44 | a row whose publish threw stays in the backlog with its attempt counted and its error kept |
| PaymentsOutboxDispatcher.PublishBatch | Services/PaymentsService/Infrastructure/Background/OutboxDispatcher.cs:30-45 | the foreach publishes every fetched row once, in order, to the payments exchange and stages exactly the settled batch (loop invariant) |
| PaymentsOutboxDispatcher.RunCycle | Services/PaymentsService/Infrastructure/Background/OutboxDispatcher.cs:20-48 | one loop iteration computes PaymentsOutboxDispatcher.CycleSpec: fetch, publish and settle each row in order, one save |
| PaymentsOutboxDispatcher.CycleOutcome | Services/PaymentsService/Infrastructure/Background/OutboxDispatcher.cs:20-48 | at most 50 distinct rows are fetched; an empty fetch publishes and saves nothing; otherwise each row is published once to "payments.exchange", and one save commits the settled batch with nothing else changed |
| OrdersOutboxDispatcher.PublishBatch | Services/OrdersService/Infrastructure/Background/OutboxDispatcher.cs:30-45 | the foreach publishes every fetched row once, in order, to the orders exchange and stages exactly the settled batch (loop invariant) |
| OrdersOutboxDispatcher.RunCycle | Services/OrdersService/Infrastructure/Background/OutboxDispatcher.cs:20-48 | one loop iteration computes OrdersOutboxDispatcher.CycleSpec |
| OrdersOutboxDispatcher.SettledBatchFits | Services/OrdersService/Infrastructure/Data/OrdersDbContext.cs:26-33 | settling fetched rows keeps the outbox key and Type-length constraints |
| OrdersOutboxDispatcher.CycleOutcome | Services/OrdersService/Infrastructure/Background/OutboxDispatcher.cs:20-48 | at most 50 distinct rows are fetched; an empty fetch does nothing; otherwise each row is published once to "orders.exchange", and one save commits the settled batch with the orders untouched |

## Left out

- The listeners (`PaymentRequestListener`, `PaymentStatusListener`), RabbitMQ connection and publisher classes, controllers, the SignalR hub transport, the API gateway and `Program.cs` are outside the model. The broker's answer to a publish is the `publish` function, and a hub send is the returned `Notification`.
- JSON serialization is not modelled. A payload is a datatype holding the message, and a `Guid.ToString()` MessageId is the Guid itself (an injective encoding).
- `Guid.NewGuid` is a per-context counter. The model assumes fresh Ids never collide with stored ones.
- `DateTime.UtcNow` is one `now` parameter per operation. Where the source reads the clock several times in one call (order creation, the event and the mark), all readings are the same instant.
- Decimal amounts are integer cents. numeric(18,2) is the bound |cents| < 10^18, which the store checks at commit. Decimal rounding and scale are not modelled.
- Row versions are natural-number counters. Postgres `xmin` and its 32-bit wrap-around are not modelled.
- Which rows another transaction commits is not modelled. A concurrent writer shows up only as the `conflict` / `conflicts` flag on each save. So where the source re-reads the balance after `ChangeTracker.Clear` and sees the other writer's commit (AccountBalanceService.cs:30,60,66), the model re-reads the balance of the call's start: in `LedgerFacts.TopUpOutcome`, `LedgerFacts.TryDebitOutcome` and `AccountServiceFacts.TopUpByIdOutcome`, "the old balance" is the balance read at the start of the call.
- The dispatcher's infinite `while` loop, its one-second `Task.Delay` and cancellation are not modelled. One iteration is `RunCycle`, and an empty fetch returns `Idle`.
- A non-conflict database exception (a constraint violation) is the fault `StoreRejected`. Which constraint refused the write, and the exception's message, are not modelled.
- The execution strategy's own retry is not modelled. No retrying strategy (`EnableRetryOnFailure`) is configured in the code modelled here, and the default strategy does not retry. Rerunning the `src` processor after a conflict is a redelivery of the message: `PaymentStepFacts.ProcessOutcome` states that the throw commits nothing, and `PaymentStepFacts.ProcessedMessageIsSkipped` that the still unprocessed record is then not skipped.
- The Orders store has no inbox, so deduplicating status events rests on the idempotence proved in `PaymentStatusHandling.HandleTwiceIsIdempotent`.
- `PaymentsOutboxDispatcher.CycleOutcome` and `OrdersOutboxDispatcher.CycleOutcome` are stated for a unit of work with nothing staged. A failed final save (conflict or rejection) is covered only by `CycleSpec`, where it keeps the committed rows.
- `OrderBy(x => x.CreatedAtUtc)` leaves the order of rows with equal CreatedAtUtc to the database. The model breaks such ties by storage order, which decides which of them fall inside `Take(50)` and the order they are published in (`OutboxStore.GetUnprocessed`, `OutboxDispatch.Deliveries`, the `CycleOutcome` lemmas).
- LedgerFacts.TopUpOutcome, LedgerFacts.TryDebitOutcome, PaymentStepFacts.ProcessOutcome and AccountServiceFacts.TopUpByIdOutcome assume the amount and the resulting balance fit numeric(18,2). When they do not, the spec functions make the save fail with `StoreRejected`, and the ledger call commits nothing beyond the zero balance row. Lemmas state this for the top-up and the debit when their first save meets no conflict (`LedgerFacts.TopUpOverflowIsRejected`, `LedgerFacts.TryDebitOverflowIsRejected`).
- PaymentStepStagedFacts.AsWrittenOutcome and PaymentStepStagedFacts.ReattachedProcessOutcome also assume the amounts fit. In the `Services` variant, an amount that does not fit makes `TryDebitAsync`'s save throw the store's exception (`StoreRejected`). By then `Intake` has already committed a new inbox record as unprocessed, and with the zero balance row it stays. No event is queued and the record is not marked, so a redelivery reruns the step. No lemma states this case for the step.
- Logging is left out.

## Findings

| source | as written | input that shows it | evidently intended | confidence | as-written member | corrected member |
|---|---|---|---|---|---|---|
| Services/PaymentsService/Features/Payments/PaymentProcessor.cs:49 | the inbox record is marked through the entity tracked before `TryDebitAsync`; a debit conflict runs `ChangeTracker.Clear()` (AccountBalanceService.cs:91), which detaches it, so the mark at lines 84-88 saves nothing and the record stays unprocessed | a new message whose first debit save meets a version conflict (the later attempts do not) | the record is marked processed once the event is queued, so a redelivery is skipped | not executed | PaymentStepStagedFacts.DetachedInboxIsNotMarked | PaymentStepStagedFacts.ReattachedProcessOutcome |
