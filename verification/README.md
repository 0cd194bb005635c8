# Verification of the payment engine

A Dafny model of the money-movement engine of the PSTU payment gateway: registration with seed funding, direct
transfers, money requests and payment links over one store of balances, an append-only double-entry ledger, a history
read model and idempotency keys; the reconciliation auditor beside it; and four self-contained parts of the service
(sliding-window limiter, PIN lockout, keyset pagination, money text).

Check everything with `dafny verify dfyconfig.toml`.

## How it is built

| layer | files | role |
|---|---|---|
| tables | `Model`, `Ledger` | rows, constants, prefix sums and the running-balance chain |
| books | `Books`, `Invariants`, `Guarantees` | the atomic machine: one event per committed effect, what every event keeps, what whole runs promise |
| running system | `Transactions`, `Locking`, `Simulation`, `Progress`, `DailyCap`, `Outcomes`, `Refusals`, `Served` | concurrent Postgres transactions that advance one statement at a time under row locks; they refine the books, and commit what the services one at a time would |
| races | `Schedules`, `LinkRace`, `KeyRace`, `AuditRace`, `HistoryPages`, `StatementRace` | what is not atomic in the running system: the unlocked expiry, overlapping duplicates, an audit and a page walk beside commits, timestamps against ids; for each, exactly when it goes wrong, and a run in which it does |
| services one at a time | `Services`, `Sequential`, `Retries`, `Replies`, `Effects`, `Stories`, `PaymentStore` | what each service commits and replies, and the class whose methods do it in place; when each reply is given, what is in the tables after it, and what that means to the people involved |
| auditor and reads | `Reconcile`, `Statements`, `Paging` | `run_reconciliation`, the statement, keyset pages |
| around it | `RateLimit`, `PinGuard`, `Money` | limiter, PIN lockout, amount text |

**Books.** `Books.Event` has one constructor per committed effect. `Books.Enabled` is what a service has checked when it
commits, `Books.Apply` what it writes. `Invariants.Inv` is inductive, so every theorem in `Guarantees` is about all
valid runs.

**Services one at a time.** `Services.Serve` gives a call's events and reply. The theorems of `Replies`, `Effects` and
`Stories` state what those amount to on the columns of the tables, with every limit written as a number: `Replies` when
each reply is given, `Effects` what every table holds after it, `Stories` who pays whom how much, from the text of a
request or a link to the balances after it is paid, with any calls in between.

**Running system.** A transaction is an operation, a program counter and the values it has read. Row locks and
uncommitted index entries are held to the end, a statement that needs a lock another transaction holds cannot run,
ledger and history rows take their id when they are inserted, and rows become visible when their writer commits. Any
transaction may abort before any statement. `Simulation.Refinement` shows that every interleaving is the run of its
committed events in commit order; `Outcomes` carries the invariants over to the visible tables; `Served` shows that a
transaction commits what its own service, called at that moment, commits. Theorems allow any clock readings; the
concrete runs have readings that never go back (`Schedules.By`).

Assumed of the environment: Postgres READ COMMITTED with locks held to commit; `SELECT ... ORDER BY user_id FOR UPDATE`
locks in that order; every Redis command answers, and the daily counter of a day is not evicted on that day; UUIDs
and generated references are fresh (a transaction of the running system is named by its position, and that number is
every id it generates; the services one at a time check the ids they are given).

Behaviours of the code that differ from its comments or from what one would expect; the model keeps them, says exactly
when they happen, and gives a reachable run or a concrete input for each.

* `get_link_by_token` reads a link without a lock and then writes `expired` unconditionally, so a link that was claimed
  in between ends `expired` (src/features/links/service.rs:126-133): `LinkRace.ClaimedIsTerminalIff`,
  `LinkRace.ClaimedIsNotTerminal`. `LinkRace.LinkSafe` shows that no money is affected.
* A retry of a recorded transfer changes nothing, but a duplicate whose key lookup ran before the first transfer
  committed still raises the daily counter and then fails (src/features/transfers/service.rs:49-58, 157):
  `KeyRace.DuplicateDrawsIff`, `KeyRace.DuplicateCounted`.
* `run_reconciliation` has no snapshot, so beside running transfers it reports sums that are not wrong
  (src/features/reconcile/service.rs:20-71): `AuditRace.AuditAmidIff`, `AuditRace.TransferInBetween`.
* A history row takes its id before it becomes visible, so a page walk can miss a row that commits late; a walk over
  completed rows alone cannot (src/features/history/service.rs:66-76): `HistoryPages.HistoryRowShownIff`,
  `HistoryPages.FlaggedRowMissed`, `HistoryPages.CompletedWalkExact`.
* The `created_at` cursor of links and requests loses rows when a page ends between two equal timestamps:
  `Paging.WalkCompleteIff`, `Paging.TieLosesARow`.
* The statement of a date window need not chain: `created_at` is when a transaction began, `id` follows the locks
  (src/features/transfers/service.rs:231, 363-396; src/features/history/service.rs:141-143). The statements of all
  windows chain exactly when no timestamp is a peak or a dip among the others: `Statements.StatementsChainIff`,
  `StatementRace.OvertakenWindow`.
* `Paisa`'s parser reads `120` as 120 paisa and `120.0` as 12000; the assistant's parser reads `120` as 12000:
  `Money.ParsersCompared`.

## Model

| member | source | states |
|---|---|---|
| Invariants.InvKept | src/features/transfers/service.rs:230-416 | every committed event keeps the whole invariant: accounts chained and funded, money conserved, history mirrored, index and double entry consistent, links and requests in order |
| Invariants.InvAlways | migrations/0001_init.sql:22-97 | the invariant holds after every valid run of events |
| Invariants.AccountsKeptByPay | src/features/transfers/service.rs:285-361 | a payment extends both accounts by one row that continues the chain, with balance and version in step |
| Invariants.ConservedByPay | src/features/requests/service.rs:256-270 | a payment keeps the sum of all balances and both parties' balances within the seed total |
| Invariants.BackedKeptByPay | src/features/transfers/service.rs:310-361 | after a payment every non-funding row still belongs to a completed transfer and every completed transfer has both rows |
| Invariants.TablesKeptByPay | src/features/links/service.rs:422-436 | a payment keeps the idempotency index, the transfer CHECKs, and links and requests tied to their transfers |
| Invariants.UniqueKeptByPay | migrations/0001_init.sql:62 | no two ledger rows share transaction and direction |
| Invariants.InvKeptByRegistration | src/features/auth/service.rs:103-145 | a registration adds one funded, chained account and ten million paisa to the total |
| Ledger.ChainedIffPrefixSum | src/features/reconcile/service.rs:77-94 | following the row before is equivalent to every running balance being the prefix sum |
| Guarantees.Accounting | src/features/auth/service.rs:103-130 | after every run balances are non-negative and sum to 10,000,000 per user, and every account is an exact chain from its funding row to its balance with version + 1 rows |
| Guarantees.DoubleEntry | src/features/transfers/service.rs:328-361 | every non-funding row has exactly one partner, equal and opposite, for its counterparty, and no third row carries the transaction |
| Guarantees.OneEntryPerKey | migrations/0001_init.sql:39-63 | an idempotency key names at most one transfer and at most one ledger row per direction |
| Guarantees.LinkPaysOnce | src/features/links/service.rs:186-436 | over any run a link pays at most once, exactly when its transfer is set, never returns to active, and writes claimer and transfer together once |
| Guarantees.RequestsSettle | src/features/requests/service.rs:250-366 | accepted requests correspond one to one with request_paid double entries of the same debtor, requester and amount |
| Guarantees.LinksSettle | src/features/links/service.rs:354-436 | links with a transfer correspond one to one with link_paid double entries |
| Locking.LockInvKept | src/features/transfers/service.rs:230-257 | every action keeps locks exclusive and everything read or checked under a lock true until its holder ends |
| Locking.Stable | src/features/requests/service.rs:172-248 | what a transaction relies on survives any change to rows it has not locked |
| Locking.EmitsAllowed | src/features/links/service.rs:162-455 | a commit is accepted by the tables' constraints and writes only behind the transaction's own locks |
| Locking.LocksTaken | src/features/links/service.rs:268-287 | a statement acquires no lock but the one it waited for |
| Simulation.ActSimulates | src/features/transfers/service.rs:230-416 | one action of the running system is at most one event of the books, enabled there, and leaves the books it shows |
| Simulation.Refinement | src/features/transfers/service.rs:230-416 | every interleaving ends with the tables and per-user ledger and history rows of its committed events replayed in commit order |
| Simulation.Interleavings | src/features/links/service.rs:160-455 | from the empty system the committed events are a valid run whose books satisfy the invariant and are what the system shows |
| Simulation.OneWriter | src/features/transfers/service.rs:239-251 | at most one transaction in flight has rows for a user |
| Simulation.PlacedCommit | migrations/0001_init.sql:46-61 | a commit leaves another transaction's uncommitted rows placed after all that is visible of a user, when the two do not both have rows for that user |
| Progress.LocksAscend | src/features/transfers/service.rs:233-251 | a waiting transaction holds only locks ranked below the one it waits for |
| Progress.NoWaitCycle | src/features/links/service.rs:268-287 | no reachable state has a cycle of waiting transactions |
| Progress.FindRunnable | src/features/requests/service.rs:207-226 | following lock holders from any transaction in flight ends at one that can run |
| Progress.NoDeadlock | src/features/requests/service.rs:207-226 | while anything is in flight some statement can run |
| Progress.RunsAreBounded | src/features/transfers/service.rs:230-416 | without new arrivals no schedule runs more actions than the transactions have statements left |
| Progress.StuckIsQuiet | src/features/transfers/service.rs:230-416 | a state where no statement can run has every transaction finished |
| Progress.Drains | src/features/transfers/service.rs:230-416 | from every state statements alone, without aborts, finish every transaction |
| DailyCap.DailyCapHolds | src/features/transfers/service.rs:152-228 | in every interleaving a sender's completed direct transfers counted under one day sum to at most 20,000,000 paisa |
| DailyCap.NothingAfterTheCap | src/features/transfers/service.rs:157-160 | once the counter has passed the cap no direct transfer that draws later under it ever completes |
| DailyCap.StepWithinCap | src/features/transfers/service.rs:157-228 | every statement keeps the passed draws within both the counter and the cap |
| Outcomes.ExactAccounts | src/features/transfers/service.rs:285-361 | in every reachable state each user's committed rows in id order are an exact chain from funding to balance, and the balances sum to the seed money |
| Outcomes.AuditAlwaysClean | src/features/reconcile/service.rs:28-107 | when its queries find the same committed tables, those of any reachable state, the auditor reports no error, reconciles every user and verifies every row; AuditRace states what happens when they do not |
| Outcomes.StatementMirrorsLedger | src/features/history/service.rs:133-189 | a user's completed history rows mirror the ledger rows one for one in amount, direction, balance, counterparty, reference and path, chain, and end at the balance |
| Outcomes.StatementLinesMirror | src/features/history/service.rs:128-192 | every line of a downloaded statement shows the amount, direction, running balance, counterparty and reference of the ledger row it stands for |
| Outcomes.StatementLinesChain | src/features/history/service.rs:160-189 | without a window the lines as printed chain from zero to the current balance |
| Outcomes.KeysUsedOnce | migrations/0001_init.sql:39-63 | whatever duplicates race, a key names one transfer and one committed row per direction across all three paths |
| Outcomes.DocumentsSettle | src/features/requests/service.rs:361-366 | in every reachable state accepted requests and claimed links match their double entries one to one |
| Outcomes.CommittedDoubleEntry | src/features/transfers/service.rs:328-361 | in every reachable state a committed payment row has exactly one partner, equal and opposite, for its counterparty, and no third committed row carries its transaction |
| Outcomes.RequestStaysSettled | src/features/requests/service.rs:192-205 | in every continuation of a reachable state a request that is not pending keeps its row, and no request changes its terms |
| Outcomes.UpdatesFit | src/features/transfers/service.rs:282-283 | with fewer than 2^63/10^7 users the debit and the credit a payment computes from its locked balances fit 64 bits in every interleaving |
| Outcomes.AuditFits | src/features/reconcile/service.rs:29-79 | with fewer than 2^63/10^7 users every delta, prefix sum, expected running balance and total of the auditor fits 64 bits on the committed tables of every reachable state |
| Outcomes.StatementGrows | src/features/history/service.rs:133-146 | whatever commits next, a user's committed ledger rows and completed history rows are only extended at the end |
| Refusals.RefusedRowsHaveNoLedger | src/features/transfers/service.rs:89-228 | a committed rejected or flagged history row belongs to the transfer recorded with that status, sender, amount and key, and no committed ledger row carries that transfer |
| Served.PaymentServed | src/features/requests/service.rs:192-366 | in every interleaving a committed payment is what its own service, called at that moment on what is committed, commits and replies: the debtor pays an accepted request, the actor is paid by a claimed link, a transfer pays on its own terms |
| Served.CommitServed | src/features/links/service.rs:160-455 | an event that an accept, claim, registration, cancellation or closing commits is the one event its service commits when called at that moment |
| Served.EndServed | src/features/requests/service.rs:192-248 | such a transaction, or a viewer, that ends with nothing committed ends where its service, called at that moment, commits nothing |
| Served.ViewerServedIff | src/features/links/service.rs:126-133 | a viewer about to expire a link does what the service would do now exactly when the link is still active |
| Served.TransferServed | src/features/transfers/service.rs:86-416 | stage by stage a direct transfer commits what its service commits there: the draw, then the payment or the refusal with the status the caps give it |
| Served.TransferEnds | src/features/transfers/service.rs:49-275 | and it ends with nothing but its draw where the service would go no further |
| Served.DrawDecides | src/features/transfers/service.rs:157-160 | a draw takes at most 5,000,000, adds it to the day's counter, and goes on to the money exactly when the total is within 20,000,000 |
| Served.RefusalShowsBalance | src/features/transfers/service.rs:103-144 | a rejected or flagged row shows the sender's balance at the moment it is written, and names the recipient |
| Served.MakeRequestServed | src/features/requests/service.rs:38-60 | in every interleaving making a request commits what its service commits, with the caller as requester and the named user as debtor |
| Served.MakeLinkServed | src/features/links/service.rs:51-80 | in every interleaving making a link commits what its service commits, and the link expires its time to live after the call |
| Served.ClosedByItsParty | src/features/requests/service.rs:446-545 | a committed rejection is the debtor's and a committed cancellation the requester's, from pending, in every interleaving |
| LinkRace.ClaimedIsTerminalIff | src/features/links/service.rs:126-133 | a claimed link can lose its status exactly when a viewer that read it active and lapsed is still in flight |
| LinkRace.ClaimOverwritten | src/features/links/service.rs:127-133 | such a viewer can write at once, and changes only the status |
| LinkRace.ClaimHolds | src/features/links/service.rs:186-259 | without such a viewer a claimed link keeps its row in every continuation |
| LinkRace.ClaimedIsNotTerminal | src/features/links/service.rs:126-133 | a concrete run reaches a claimed link whose status is then lost |
| LinkRace.LinkSafe | src/features/links/service.rs:186-455 | in every interleaving, the race included, a link pays at most once and writes claimer and transfer once, from active |
| KeyRace.LateLookup | src/features/transfers/service.rs:49-84 | in every interleaving a transfer that looks its key up after it was used never gets past the lookup |
| KeyRace.BeatenNeverCommits | migrations/0001_init.sql:39 | once a key is used, no other transfer under it ever commits, wherever it stands |
| KeyRace.DuplicateDraws | src/features/transfers/service.rs:157 | a duplicate past its lookup can draw at once, which changes its own daily counter by its amount and nothing else, and after that it changes nothing |
| KeyRace.DuplicateDrawsIff | src/features/transfers/service.rs:49-228 | once a key is used, a transfer under it can still change something visible exactly when it has passed its lookup and not drawn |
| KeyRace.DuplicateCounted | src/features/transfers/service.rs:49-228 | a reachable run in which one transfer of 100 paisa is committed and its duplicate takes the counter to 200 |
| AuditRace.AuditAmid | src/features/reconcile/service.rs:20-107 | whatever commits between its queries, the auditor completes, never reports a broken chain, and its errors are exactly those of the registrations and balance changes between the queries it compares |
| AuditRace.AuditAmidIff | src/features/reconcile/service.rs:20-107 | the report is clean exactly when nobody registers between the first two queries and no user's balance differs between the two queries about that user |
| AuditRace.TransferInBetween | src/features/reconcile/service.rs:57-106 | a reachable run in which a transfer commits after the first balance is read and a sum mismatch is reported |
| HistoryPages.ReachableInOrder | src/features/transfers/service.rs:328-396 | in every reachable state a user's ledger rows, and completed history rows, are in the order in which their writers finish, although ids are drawn at insertion |
| HistoryPages.HistoryRowShownIff | src/features/history/service.rs:58-125 | whatever the filter and whatever commits between the page queries, a row first visible to the j-th is shown exactly when the walk still stood above it then and has left it behind since, and no row is shown twice |
| HistoryPages.CompletedListExtends | src/features/history/service.rs:66-76 | the completed rows of a user only gain rows with larger ids |
| HistoryPages.CompletedWalkExact | src/features/history/service.rs:58-125 | a finished walk over completed rows shows exactly the rows visible to its first query |
| HistoryPages.FlaggedRowMissed | src/features/history/service.rs:66-76 | a reachable state and a run from it in which a flagged row becomes visible while a walk goes on and is never shown |
| Sequential.CallRuns | src/features/transfers/service.rs:25-464 | every service call commits a valid run of the books and keeps the invariant |
| Sequential.ServeAccepted | src/features/links/service.rs:151-498 | every service commits at most two events, each acceptable where it is committed |
| Sequential.SequentialAuditClean | src/features/reconcile/service.rs:64-107 | after any sequence of calls the three contracts hold |
| Retries.RetryOfRecordedKey | src/features/transfers/service.rs:49-84 | a retry that starts after its key was recorded changes no table and no counter, whatever happened in between, and returns the stored outcome or conflicts; KeyRace covers retries that overlap the first request |
| Retries.FirstRequestRecords | src/features/transfers/service.rs:86-416 | the first request under a key records exactly the receipt it returns, moved or flagged |
| Retries.ClaimRetry | src/features/links/service.rs:186-231 | the claimer's retry changes nothing and returns the original transfer id and stored reference, others conflict; the fallbacks are unreachable |
| Retries.ClaimStays | src/features/links/service.rs:233-259 | with calls one at a time a claimed link keeps its row for ever |
| Retries.AllOrNothing | src/features/requests/service.rs:250-254 | only a call that replies that money moved changes a balance or the ledger, and a failed accept changes nothing |
| Replies.TransferReplies | src/features/transfers/service.rs:86-275 | a transfer under a new key moves money, is held, is rejected or fails exactly under the stated tests on amount, counter, balance rows and funds |
| Replies.EarlyTransferReplies | src/features/transfers/service.rs:25-84 | bad text and a self-transfer are refused first; a used key answers the same transfer with its stored outcome and any other with a conflict, and commits nothing |
| Replies.ClosingReplies | src/features/requests/service.rs:446-545 | a pending request is rejected exactly by its debtor and cancelled exactly by its requester |
| Replies.ClaimReplies | src/features/links/service.rs:186-320 | a claim pays exactly when the link is active, not past its expiry, another user's and funded; otherwise which error |
| Effects.MovedParties | src/features/transfers/service.rs:442-464 | a reply that money moved names who paid whom: the sender, the request's debtor or the link's creator, and the amount of the text, the request or the link |
| Effects.MovedBalances | src/features/transfers/service.rs:282-308 | then the payer has exactly that much less, the payee that much more, both versions one step more, and nobody else anything different |
| Effects.MovedLedger | src/features/transfers/service.rs:328-361 | and the ledger gained exactly a debit and a credit that name each other's party, with the balances they leave |
| Effects.MovedHistory | src/features/transfers/service.rs:363-396 | and the history gained the matching two rows |
| Effects.MovedDocuments | src/features/requests/service.rs:361-366 | and transfer, key, request or link, and counter record it, every other row staying as it was |
| Effects.RefusalRecorded | src/features/transfers/service.rs:89-228 | a refused transfer records the transfer, its key and one history row with the sender's balance, and moves nothing |
| Effects.OtherwiseNothing | src/features/transfers/service.rs:49-84 | every other reply leaves all tables alone, but for a draw on the day's counter |
| Stories.TransferMovesPaisa | src/features/transfers/service.rs:25-464 | a transfer of the text of n paisa moves exactly n, exactly when n is within both caps and the funds |
| Stories.TransferMovesTaka | src/core/money.rs:21-61 | written in taka and poisha it moves a hundred paisa a taka |
| Stories.RequestKept | src/features/requests/service.rs:192-205 | through any calls a request keeps its parties and amount, and stays as it is until its debtor settles it or its requester cancels it |
| Stories.RequestPaidByDebtor | src/features/requests/service.rs:18-366 | when one user asked another for n, accepting moves exactly n from the other to the one, only the other can accept, and when that succeeds |
| Stories.RequestClosedByItsParties | src/features/requests/service.rs:426-545 | and the other alone can reject it, the one alone cancel it |
| Stories.LinkKept | src/features/links/service.rs:186-259 | through any calls a link keeps creator, amount and expiry, and stays as it is until a claim, its creator's cancellation or a view past its expiry |
| Stories.LinkPaysInTime | src/features/links/service.rs:27-455 | a link over n still active when another user claims it pays exactly n up to its time to live after it was made, and is gone after that |
| PaymentStore.Engine.ProcessTransfer | src/features/transfers/service.rs:25-464 | the statement-by-statement method commits exactly the events and gives exactly the reply of its specification |
| PaymentStore.Engine.TransferNew | src/features/transfers/service.rs:86-228 | caps and counter: rejected before the counter moves, counted before flagged, counted even when funds are short |
| PaymentStore.Engine.PayDirect | src/features/transfers/service.rs:230-396 | both balance rows, then funds, then the unique indexes, then the payment, or nothing |
| PaymentStore.Engine.MoveMoney | src/features/transfers/service.rs:282-396 | the eight writes of a payment equal the books' double entry, history pair, index entry and balances |
| PaymentStore.Engine.LockBalances | src/features/transfers/service.rs:233-275 | the loop over the locked rows finds both balances exactly when both rows exist, whichever order they are locked in |
| PaymentStore.Engine.RecordRefusal | src/features/transfers/service.rs:90-144 | a refused transfer uses its key and writes one history row, and no money moves |
| PaymentStore.Engine.AcceptRequest | src/features/requests/service.rs:161-424 | same branches and effects as the specification, request accepted with the money |
| PaymentStore.Engine.CloseRequest | src/features/requests/service.rs:426-545 | reject by the debtor and cancel by the requester, from pending only |
| PaymentStore.Engine.ClaimLink | src/features/links/service.rs:151-498 | replay, conflict, lapse before cancelled, self-claim, funds and payment in the code's order |
| PaymentStore.Engine.PayLink | src/features/links/service.rs:261-436 | the claim's payment closes the link with claimer and transfer together, or nothing changes |
| PaymentStore.Engine.CancelLink | src/features/links/service.rs:500-574 | the creator cancels an active or already cancelled link |
| PaymentStore.Engine.GetLinkByToken | src/features/links/service.rs:106-149 | lazy expiry when nothing comes between the read and the write |
| PaymentStore.Engine.CreateLink | src/features/links/service.rs:27-104 | amount and time-to-live checks, then an active link |
| PaymentStore.Engine.CreateRequest | src/features/requests/service.rs:18-82 | amount and self-request checks, then a pending request |
| PaymentStore.Engine.RegisterUser | src/features/auth/service.rs:103-145 | the registration transaction: one user, balance, funding row and history row |
| PaymentStore.ServedIsSound | src/features/transfers/service.rs:25-464 | carrying out a service's outcome keeps the store sound, so the theorems on call sequences are about the class |
| Reconcile.RunReconciliation | src/features/reconcile/service.rs:16-119 | the nested loops compute the report on what each query finds, and fail exactly when a listed user has no balance |
| Reconcile.ObservedStill | src/features/reconcile/service.rs:20-71 | when all queries find the same tables the report is the audit of those tables |
| Reconcile.AuditUser | src/features/reconcile/service.rs:64-107 | the tests on one user give the chain breaks and then the sum mismatch, and reconcile the user exactly when the sum is right |
| Reconcile.CheckUser | src/features/reconcile/service.rs:64-97 | the inner loop sums the rows, counts them and lists the chain breaks |
| Reconcile.AuditExact | src/features/reconcile/service.rs:34-107 | the report has no error exactly when the total is right, every running balance is its prefix sum and every balance its ledger sum |
| Reconcile.CorruptRunning | src/features/reconcile/service.rs:77-96 | corrupting one running balance of a consistent store gives exactly two chain errors, one if it is the user's last row, with the balance that should follow and the one found |
| Reconcile.CorruptAmount | src/features/reconcile/service.rs:74-107 | corrupting one amount gives exactly one chain error and one sum error, both off by the difference |
| Reconcile.CorruptBalance | src/features/reconcile/service.rs:34-107 | corrupting one balance gives exactly a total error and a sum error for its owner, both off by the difference, and every other user is reconciled |
| Reconcile.EntriesAreRows | src/features/reconcile/service.rs:67-68 | every ledger row is verified exactly once when every owner is a user |
| Statements.GenerateStatement | src/features/history/service.rs:128-192 | one line per completed row created in the window, in id order, refused exactly above ten thousand rows |
| Statements.ChainsIffContiguous | src/features/history/service.rs:141-146 | lines at given positions chain for every history of positive amounts exactly when the positions leave nothing out between two lines |
| Statements.WindowsContiguousIff | src/features/history/service.rs:141-143 | every window of a timestamp column selects neighbouring rows exactly when no timestamp lies strictly above, or strictly below, one before it and one after it |
| Statements.StatementsChainIff | src/features/history/service.rs:141-146 | the statements of all windows chain, for every history with these timestamps, exactly when no timestamp is such a peak or dip |
| Statements.OrderedWindowChains | src/features/history/service.rs:141-143 | with timestamps in id order it always chains |
| StatementRace.TimestampsStay | src/features/transfers/service.rs:363-396 | a history row is stamped with the time its writer's database transaction began, and no continuation of a reachable state changes that |
| StatementRace.OvertakenWindow | src/features/history/service.rs:141-146 | a reachable run, with a clock that never goes back, in which the transfer that began first gets its locks last, and a window of user 1's statement does not chain |
| Paging.GetPage | src/features/links/service.rs:581-639 | the page is the first rows below the cursor, with a next cursor exactly when more remain |
| Paging.WalkPages | src/features/links/service.rs:632-638 | following the next cursors to the end gathers the walk that the theorems are about |
| Paging.WalkCompleteIff | src/features/links/service.rs:581-639 | following the cursors returns every row once and in order exactly when no page ends between two equal keys |
| Paging.IdWalkComplete | src/features/history/service.rs:58-125 | the walk keyed by id is always complete, with no gap and no duplicate |
| Paging.SteadyRowShownIff | src/features/history/service.rs:66-76 | a row that every page query finds is shown exactly when the walk started above it and has left it behind, whatever other rows come and go |
| Paging.LateRowShownIff | src/features/history/service.rs:66-76 | a row that becomes visible during the walk is shown exactly when the walk was still above it then and has left it behind since |
| Paging.ShownOnce | src/features/history/service.rs:66-76 | whatever the table does, nothing is shown twice and everything in descending id order |
| Paging.IdWalkWhileGrowing | src/features/history/service.rs:66-76 | a finished walk over a table that gains only newer rows shows exactly the rows of its first query |
| Paging.TieLosesARow | src/features/links/service.rs:593-595 | a concrete list with equal timestamps at a page end loses a row |
| RateLimit.Limiter.CheckLimit | src/core/ratelimit.rs:7-54 | one call prunes, counts, and adds and refreshes the expiry only when there is room |
| RateLimit.LimiterIsReference | src/core/ratelimit.rs:24-46 | the pruned, expiring set admits exactly the calls the full log of admissions would |
| RateLimit.LimiterBound | src/core/ratelimit.rs:33-46 | every window of the given length holds at most the given number of admissions |
| RateLimit.LimiterExact | src/core/ratelimit.rs:17-46 | after any calls the next is admitted exactly when fewer than the maximum of the admissions lie within the window, and then keeps the key five seconds longer than the window |
| RateLimit.LiveTracks | src/core/ratelimit.rs:42 | the key's expiry never drops a member a later call could count |
| PinGuard.Guard.EnforcePin | src/core/pin.rs:31-90 | lock test, unknown user, wrong PIN with counter and restarted expiry, reset on success |
| PinGuard.EnforceTracks | src/core/pin.rs:39-90 | one call is refused unverified exactly when the log of verified attempts ends in five wrong ones within the lockout time of each other, and then changes nothing |
| PinGuard.GuardIsReference | src/core/pin.rs:39-90 | the counter agrees with that log after any calls, and a streak never exceeds five wrong attempts |
| PinGuard.GuardDecides | src/core/pin.rs:31-90 | after any calls the next is refused unverified, changing nothing, exactly when the last five verified attempts were wrong with less than 900 seconds from each to the next; otherwise it is verified, cleared or counted |
| PinGuard.LockedUntilExpiry | src/core/pin.rs:41-46 | while locked no call changes counter or expiry, and verification resumes at the expiry |
| Money.ParsePaisaExact | src/core/money.rs:21-52 | the parser accepts exactly well-formed text within the cap and returns its meaning; overflow and too many decimals are unreachable |
| Money.DisplayRoundTrip | src/core/money.rs:76-80 | rendering then parsing gives the amount back exactly for amounts from 0 to the cap |
| Money.ParsePositiveExact | src/core/money.rs:21-61 | the services accept exactly well-formed positive text within the cap, as its meaning in paisa |
| Money.PositiveRoundTrip | src/core/money.rs:55-80 | the text of n paisa is accepted as n exactly for n from 1 to 10,000,000,000 |
| Money.TakaRoundTrip | src/core/money.rs:21-61 | taka with a point and two digits of poisha is accepted as a hundred times the taka plus the poisha, exactly when that is from 1 to 10,000,000,000 |
| Money.ParsersCompared | src/features/ai/parser.rs:33-50 | on accepted text the taka parser agrees when there is a point and reads a hundred times as much when there is none |

## Left out

- HTTP routing, envelopes, DTO validation, telemetry, health, configuration: no effect on money.
- Emails, NATS messages and `process_events` rows: never read back by the engine.
- Names, account numbers, notes and their length CHECKs, timestamps on rows: carried along without being branched on; a constraint failure on them is an abort.
- Argon2, tokens, UUID and reference generation: verification is a boolean input, ids and references are fresh values. In the services one at a time, a clash of generated references is not modelled.
- `resolve_recipient`: transfers and requests take the resolved user id; the PIN check before a service is `PinGuard`.
- Redis outages, where the code fails open, and eviction of a counter: commands are taken to answer.
- Overlapping calls of the limiter and of the PIN guard: each makes several Redis commands, and both models run one call at a time.
- Search, direction and amount filters of the pages and their validation: a filter chooses the list a page query starts from.
- Sessions, login lockout and PIN changes (`login_user`, `logout_user`, `change_pin`, `reset_pin`): they do not touch money.
- `parse_intent` and its regular expressions, and non-ASCII digits and spaces in amount text.
- PaymentStore.Engine.RegisterUser: models the transaction; the lookup of the phone number before it, and the unique index on it, are not part of this model.
- Simulation.Refinement: rejected and flagged history rows are not ordered by the books, because they are written without a balance lock; `Refusals` covers them.
