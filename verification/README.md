# Order dispatch protocol: model and proofs

The platform books parcels with couriers. An order becomes a row of one table, a PENDING_DISPATCH row
is written before the courier is called, and a background worker dispatches rows that were left behind.
Five operations act on the same row (`createOrder`, bulk submission, the reconciliation worker,
`trackOrder`, `cancelOrder`); each is a chain of awaits at which the process may die, a statement may
fail, or another request may run. This project models that protocol and the engines under it (worker
pool, courier client, retry loop, cache and leader lock, status mapping) and proves what they keep.

## How it is built

Code between two awaits is one atomic step. `Lifecycle.Step` says what each of the twenty awaits of
the five operations does with its row, the event log and a ledger of what the courier really did. That
one function is used by every layer:

| module | what it is |
|---|---|
| `Orders`, `Lifecycle` | rows, events, requests; the step function; `bulkCreate` |
| `SerialRuns` | operations on one order do not overlap; any statement may fail, any operation may die at any await |
| `InterleavedRuns` | any number of handlers with stale row snapshots, in any interleaving, with crashes |
| `Handlers` | one operation run to its end against a script of outside answers: a run of `SerialRuns` |
| `Databases`, `OrderServices`, `TrackingServices`, `CancellationServices`, `ReconciliationWorkers`, `BulkOrderServices` | the services as classes that update the tables statement by statement, proved to compute exactly what `Handlers`, `Drain` and `Bulk` say |
| `Outcomes` | what every outcome of `createOrder`, `trackOrder`, `cancelOrder` and a worker pass means, under every script of answers |
| `ExactAnswers` | for each way an operation can go, the answers that lead there and its exact outcome, row, entry and bookkeeping |
| `Submissions`, `TrackingLog`, `Drain` | what clients may conclude, the deduplicated log as a set union, what repeated worker cycles achieve |
| `TrackingRuns` | the event log over whole serialised runs |
| `WorkerPool`, `Bulk` | the pool under every schedule, and bulk submission on top of it |
| `Client`, `Retry`, `SingleFlight` | nested retries and re-authentication, delay arithmetic, shared logins |
| `Cache`, `LeaderLock` | expiring map and ownerless lock |
| `LeaderRuns` | the lock and the worker passes together: exclusive leadership makes the orders' history a serialised run |
| `StatusMapping` | courier status texts to platform states |
| `Witnesses` | concrete runs showing that the hypotheses of the main results are needed |

The outside world is an oracle. A statement that fails may or may not have been applied, a courier call
that fails may or may not have taken effect, and both choices are explored. A booking always comes with a
non-empty waybill and status CREATED; a tracking report never says PENDING_DISPATCH (`StatusMapping.ToReport`
proves this of the UrbaneBolt mapper). Time is an integer clock; configuration values are integers.

## Where the code differs from its documents, or from what one may expect

The model follows the code.

- `DESIGN.md:201` promises `SKIPPED_IDEMPOTENT` for a repeated order; `src/services/bulk-order.service.ts:132` reports `SUCCESS`.
- `DESIGN.md:212-213` promises a distributed lock around token refresh; the client never takes one. Only logins inside one process are shared.
- `src/services/order.service.ts:130` looks the courier up outside the `try`, so an unknown courier leaves the row PENDING_DISPATCH instead of FAILED; the worker later fails it.
- Resubmitting a FAILED order keeps the row's `courier_partner` and `retry_count` (`src/services/order.service.ts:96-102`). A row whose retries were spent is then never selected again if that resubmission dies (`Witnesses.ResubmissionStrandsIff`, and a run for every retry limit in `Witnesses.SomeOrderIsStranded`).
- The leader lock does not exclude a second worker by itself: a cycle that outlives its TTL overlaps the next leader even though nobody has released late (`LeaderLock.OverrunBreaksExclusion`). `LeaderLock.LeaderExclusion` gives the exact condition for a whole run.
- A batch item can be reported FAILED although its order is booked: a database error on the read of a settled row, on a persist that was applied, or (sqlite) on the event makes `createOrder` throw (`Witnesses.ThrowsAlthoughBooked`). `Bulk.BatchAgreesWithTable` shows that these are the only cases and that the record's count is short by exactly their number.
- The deduplication of courier scans is a query and an insert, two awaits: two overlapping `trackOrder` calls can log one scan twice (`Witnesses.OverlapLogsTwice`). Without overlap it never happens (`TrackingRuns.ScansLoggedOnce`).
- The worker's row update and its event are two statements. When the second fails, the catch block puts a booked row back to PENDING_DISPATCH; the ledger's `reverted` counts this.

## Model

| member | source | states |
|---|---|---|
| `SerialRuns.BookingConservation` | src/services/order.service.ts:61-138 | In every run with crashes and database errors anywhere: bookings, plus one while the order is absent, PENDING_DISPATCH or FAILED, plus the times an open order was settled by cancellation or tracking, equal one plus bookings lost, reverted or reopened, plus one while a booking waits to be persisted, at every instant; hence at most one booking if none was lost, reverted or reopened |
| `SerialRuns.CancelConservation` | src/services/cancellation.service.ts:14-78 | Accepted courier cancellations, plus one while the row is not CANCELLED, plus tracking updates onto CANCELLED, equal one plus tracking updates off CANCELLED, cancellations lost and one while an accepted cancellation waits to be persisted; and no cancellation, accepted or not, is ever issued for a DELIVERED or CANCELLED order |
| `SerialRuns.NoStrandedOrder` | src/workers/order-reconciliation.worker.ts:87-98 | In every run every PENDING_DISPATCH row can still be selected by the worker, unless it was resubmitted with its retries already spent |
| `SerialRuns.BooksAtMostOnce` | src/services/order.service.ts:18-40 | Any number of create, bulk, worker, track and cancel operations book an order at most once when nothing fails and no courier reports failure |
| `SerialRuns.RunLawful` | src/workers/order-reconciliation.worker.ts:124-186 | The invariant behind these laws (balances, retry budget, freshness of every snapshot in flight) is kept by every move of every run |
| `SerialRuns.RunKeepsRows` | src/services/order.service.ts:92-121 | No operation, failure or crash removes a row or takes a waybill away from it |
| `InterleavedRuns.AwbSoundness` | src/services/order.service.ts:161-199 | Under any interleaving with stale snapshots and crashes: a row's waybill was issued by the courier for that very order, every CREATED, PICKED_UP, IN_TRANSIT or DELIVERED row has one, retry_count never exceeds the maximum, and the stored payload belongs to the order |
| `InterleavedRuns.IssuedByTheCourier` | src/services/order.service.ts:132-133 | A waybill counts as issued for an order exactly when the courier answers a booking call for that order with it |
| `InterleavedRuns.WaybillsSurvive` | src/services/order.service.ts:92-121 | Between any two instants of an interleaved run rows stay, a waybill once set stays set, and the event log only grows at its end |
| `InterleavedRuns.LogOnlyGrows` | src/services/tracking.service.ts:61-100 | The event log is append-only in every interleaved run from any state |
| `InterleavedRuns.SerialIsInterleaved` | src/services/order.service.ts:18-40 | Every run without overlap is one of the interleaved runs and ends with the same database |
| `Handlers.OperationIsSerial` | src/services/order.service.ts:18-40 | One operation run against any script of outside answers, crash included, is a run of the serialised machine |
| `Handlers.OperationKeepsBooks` | src/workers/order-reconciliation.worker.ts:124-186 | From any database whose books balance, any operation under any script ends in one whose books balance |
| `Handlers.HandleIsLocal` | src/models/order.model.ts:69-73 | An operation changes no row and no ledger entry but its own order's |
| `Lifecycle.BulkInsertOnlyAdds` | src/services/bulk-order.service.ts:77-103 | Bulk pre-persistence leaves existing rows as they are, adds exactly the missing ids, and each added row is a pending row of a request for that id |
| `OrderServices.OrderService.CreateOrder` | src/services/order.service.ts:18-40 | The method ends, under every script of answers, with exactly the tables, unused answers and outcome of the createOrder phases, and keeps the books balanced |
| `OrderServices.OrderService.PrePersistPendingOrder` | src/services/order.service.ts:92-121 | Writes the pending row (update, insert or duplicate-key error) as the step at that await says, and leaves createOrder at its registry lookup |
| `OrderServices.OrderService.DispatchWithFailureAudit` | src/services/order.service.ts:126-138 | Unknown courier thrown before the try; a courier error is audited and rethrown; a booking goes on to persistence |
| `OrderServices.OrderService.RecordFailureAudit` | src/services/order.service.ts:143-156 | Marks the row FAILED; a failing statement is swallowed and the caller still sees the courier's error |
| `OrderServices.OrderService.PersistOrderAndInitialTracking` | src/services/order.service.ts:161-199 | One transaction for row and event, or two separate statements on sqlite |
| `ReconciliationWorkers.OrderReconciliationWorker.ReconcilePendingOrders` | src/workers/order-reconciliation.worker.ts:70-119 | For any selection of at most 25 distinct eligible rows: skips exactly when it is processing or the lock is held; otherwise runs the cycle over the selection; every way out but a dying process clears the flag and frees the lock; the books stay balanced |
| `ReconciliationWorkers.OrderReconciliationWorker.ReconcileAll` | src/workers/order-reconciliation.worker.ts:108-116 | The loop over the selected rows counts recovered orders and stops at the first error thrown from a catch block |
| `ReconciliationWorkers.OrderReconciliationWorker.ReconcileSingleOrder` | src/workers/order-reconciliation.worker.ts:124-186 | One worker pass, including its catch block, ends as the worker phases say |
| `ReconciliationWorkers.OrderReconciliationWorker.FailUnsupported` | src/workers/order-reconciliation.worker.ts:132-139 | An unregistered courier fails the row and uses up a retry; a failing statement goes to the catch block |
| `ReconciliationWorkers.OrderReconciliationWorker.PersistRecovery` | src/workers/order-reconciliation.worker.ts:147-154 | The booked row is written before the event, so an error in between reaches the catch block |
| `ReconciliationWorkers.OrderReconciliationWorker.CatchError` | src/workers/order-reconciliation.worker.ts:168-185 | FAILED on the final attempt, PENDING_DISPATCH before; its own database error leaves the method |
| `TrackingServices.TrackingService.TrackOrder` | src/services/tracking.service.ts:13-26 | Ends as the trackOrder phases say under every script, and keeps the books balanced |
| `TrackingServices.TrackingService.FetchOrderWithHistory` | src/services/tracking.service.ts:31-46 | Missing row and missing waybill are errors; otherwise the row snapshot is what tracking goes on with |
| `TrackingServices.TrackingService.UpdateOrderStatusIfChanged` | src/services/tracking.service.ts:51-56 | Writes the reported status exactly when it differs from the snapshot's |
| `TrackingServices.TrackingService.AppendNewTrackingEvents` | src/services/tracking.service.ts:61-68 | The loop over the history, stopping at the first database error |
| `TrackingServices.TrackingService.PersistUniqueTrackingEvent` | src/services/tracking.service.ts:73-100 | Looks the scan up and appends it only if it is not logged |
| `CancellationServices.CancellationService.CancelOrder` | src/services/cancellation.service.ts:14-34 | Ends as the cancelOrder phases say under every script (missing, cancelled and delivered orders included), and keeps the books balanced |
| `CancellationServices.CancellationService.PersistCancelledState` | src/services/cancellation.service.ts:77-89 | Row first, event second, with the given or the default reason |
| `Outcomes.CreateOrderOutcomes` | src/services/order.service.ts:18-40 | Under every script, what each outcome says. For an open order: Booking means one rewritten row with that waybill, one event and a booking; CourierError a FAILED (or, if the audit failed, pending) row; UnknownCourier a pending row and no booking; a database error or a crash one of absent-as-before, pending, or booked. For a settled order nothing changes |
| `Outcomes.WorkerPassOutcomes` | src/workers/order-reconciliation.worker.ts:124-186 | Under every script, however the pass returns, throws or dies: the row is as it was, or has one retry more and is FAILED, PENDING_DISPATCH with retries left, or CREATED with a waybill; at most the recovery event of that waybill is logged. Recovery reported means CREATED, that event and a booking; no recovery reported means FAILED or selectable; only a database error is thrown |
| `Outcomes.CancelOrderOutcomes` | src/services/cancellation.service.ts:14-89 | Under every script: confirmation means the courier accepted exactly one cancellation, the row is CANCELLED and one entry is logged; a missing, cancelled or delivered order is answered from the row and changes nothing; any other outcome leaves the row as it was or CANCELLED |
| `Outcomes.TrackOrderOutcomes` | src/services/tracking.service.ts:13-100 | Under every script: without a courier report (untrackable order, failing fetch, courier error, crash) nothing changes; with one, some first n of its scans have been deduplicated into the log, the row has the reported status before any scan is, and an answer means all n |
| `Outcomes.TrackAnswerMeans` | src/services/tracking.service.ts:13-26 | Under every script, whenever trackOrder answers the row has the reported status and the log has gained exactly the scans that were new |
| `Outcomes.TrackingResumes` | src/services/tracking.service.ts:61-100 | A trackOrder that threw or died anywhere in its scans, and a next call that answers with the same report, together leave the row and log of one undisturbed call |
| `Outcomes.TrackOrderEffect` | src/services/tracking.service.ts:13-26 | When nothing fails trackOrder does answer, with the reported status on the row and the new scans in the log |
| `Outcomes.AnswerAgreesIff` | src/services/order.service.ts:18-40 | For every script: createOrder answers a booking exactly if the row ends settled, unless a database error hit the read of a settled row, an applied persist, or the event, and then it never does |
| `ExactAnswers.CreateOrderBooks` | src/services/order.service.ts:18-40 | An open order whose courier books it and whose statements succeed is answered with the waybill: one row, one entry with its waybill and text, one booking and those hidden behind HTTP errors, on sqlite and with transactions |
| `ExactAnswers.SettledIsAnswered` | src/services/order.service.ts:61-86 | A settled order is answered from its row with one read, and nothing changes |
| `ExactAnswers.ReadFails` | src/services/order.service.ts:23 | A failing read is thrown and changes nothing |
| `ExactAnswers.PendingFails` | src/services/order.service.ts:92-121 | A failing pre-persistence is thrown; the pending row is there exactly if the statement was applied |
| `ExactAnswers.UnknownCourierIsThrown` | src/services/order.service.ts:130 | An unregistered courier is thrown over a pending row, without a call |
| `ExactAnswers.RefusalIsAudited` | src/services/order.service.ts:132-156 | A refusal is thrown whatever becomes of its audit; the row is FAILED exactly if the audit was written and pending otherwise |
| `ExactAnswers.PersistFails` | src/services/order.service.ts:161-198 | A failing persist is thrown; applied, row (and in a transaction the entry) are written all the same, otherwise the booking is lost |
| `ExactAnswers.EventFails` | src/services/order.service.ts:178-195 | On sqlite a failing event is thrown over the booked row; the entry is there exactly if it was applied |
| `ExactAnswers.DiesWithBooking` | src/services/order.service.ts:33-36 | A process that dies with a booking in hand leaves a pending row and has lost that booking |
| `ExactAnswers.PassRecovers` | src/workers/order-reconciliation.worker.ts:141-167 | A pass over a row of a registered courier that books it ends recovered: waybill, CREATED, one retry more, the recovery entry and the booking |
| `ExactAnswers.PassRefused` | src/workers/order-reconciliation.worker.ts:168-185 | A refused pass uses a retry and leaves the row FAILED exactly if that was the last, else pending; its own failing statement is thrown |
| `ExactAnswers.PassUpdateFails` | src/workers/order-reconciliation.worker.ts:147-185 | A failing update goes to the catch block: the booking is lost, or if applied its waybill stays on a row that is put back |
| `ExactAnswers.PassEventFails` | src/workers/order-reconciliation.worker.ts:156-185 | A failing event puts the booked row back; the entry is there exactly if it was applied |
| `ExactAnswers.PassFailsUnsupported` | src/workers/order-reconciliation.worker.ts:132-139 | A row of an unregistered courier is FAILED with one retry more and no call |
| `ExactAnswers.PassUnsupportedFails` | src/workers/order-reconciliation.worker.ts:132-185 | Unless that statement fails: then the catch block decides |
| `ExactAnswers.CancelIsConfirmed` | src/services/cancellation.service.ts:14-89 | An accepted cancellation whose row is written: CANCELLED, one cancellation, and the entry with waybill and reason exactly if its statement was applied; confirmed exactly if it was acknowledged |
| `ExactAnswers.CancelIsRefused` | src/services/cancellation.service.ts:17-27 | The read alone answers exactly: missing, already cancelled, delivered, or cancellable with an unregistered courier; every other order goes on to its courier |
| `ExactAnswers.CancelReadFails` | src/services/cancellation.service.ts:39-45 | A failing read is thrown and changes nothing |
| `ExactAnswers.CancelCallFails` | src/services/cancellation.service.ts:27-28 | A courier error is thrown and changes nothing; a cancellation it hid is counted as lost |
| `ExactAnswers.CancelUpdateFails` | src/services/cancellation.service.ts:77-78 | A failing update after acceptance is thrown; the row is CANCELLED exactly if it was applied, otherwise the cancellation is lost |
| `ExactAnswers.TrackIsRefused` | src/services/tracking.service.ts:16-46 | The read alone answers exactly: not found without row or waybill, unknown courier for an unregistered one; every other order goes on to its courier |
| `ExactAnswers.TrackReadFails` | src/services/tracking.service.ts:31-35 | A failing read is thrown and changes nothing |
| `ExactAnswers.TrackCallFails` | src/services/tracking.service.ts:20 | A courier error is thrown and changes nothing |
| `ExactAnswers.TrackUpdateFails` | src/services/tracking.service.ts:51-56 | A failing status update is thrown, no scan is logged, and the row has the status exactly if it was applied |
| `ExactAnswers.LookupFails` | src/services/tracking.service.ts:80-87 | A failing lookup of a scan is thrown and logs nothing |
| `ExactAnswers.InsertStep` | src/services/tracking.service.ts:89-98 | An insert logs the scan with its own status, activity and time and the order's waybill exactly if applied, and tracking goes on exactly if acknowledged |
| `ExactAnswers.LateCreateStatements` | src/services/order.service.ts:92-176 | The updates of createOrder write their fields whatever the row has become meanwhile, and an insert beside an existing row is a duplicate-key error |
| `ExactAnswers.LateWorkerStatements` | src/workers/order-reconciliation.worker.ts:133-178 | The same for the worker's three updates |
| `ExactAnswers.LateStatusStatements` | src/services/tracking.service.ts:54 | The same for the updates of trackOrder and cancelOrder |
| `Submissions.BookingIsOnTheRow` | src/services/order.service.ts:33-39 | Under every script, whenever createOrder answers with a booking the row is settled and holds that waybill and status |
| `Submissions.WhatRemains` | src/services/order.service.ts:88-156 | Under every script, after a submission that died or threw the row is as before, pending, booked, or FAILED for a caller who saw the refusal; the worker can select it exactly if it is pending and had retries left |
| `Submissions.ResubmissionIsIdempotent` | src/services/order.service.ts:61-86 | Under every script, resubmitting a settled order changes neither tables nor courier; an answer is its waybill and status or a database error |
| `Submissions.SubmittedTwice` | src/services/order.service.ts:18-40 | Whatever happened on the way to a first booking answer and whatever happens on the second submission: no second booking, no write, and the same answer or a database error |
| `Submissions.CrashThenRecovery` | src/services/order.service.ts:88-91 | Under every script a new order is unwritten, booked, refused with the caller told so, or selectable by the worker; and however a pass over it returns, throws or dies, it is then booked, FAILED or selectable again, and booked on its row if the pass reports recovery |
| `TrackingLog.KeysAreUnion` | src/services/tracking.service.ts:73-100 | The keys logged afterwards are exactly those logged before and those reported |
| `TrackingLog.LogGrowsByNewScans` | src/services/tracking.service.ts:61-100 | The log grows only at its end, by each new scan once, in order of first occurrence |
| `TrackingLog.RepeatingAddsNothing` | src/services/tracking.service.ts:70-100 | Repeating a report or any part of it appends nothing |
| `TrackingLog.ReportOrderDoesNotMatter` | src/services/tracking.service.ts:61-100 | Two reports leave the same set of keys in either order |
| `TrackingLog.ResumingIsOneGo` | src/services/tracking.service.ts:61-100 | Taking a report up again from its start after any part of it leaves the log of one go |
| `TrackingRuns.ScansLoggedOnce` | src/services/tracking.service.ts:73-100 | At every instant of every serialised run, with failing statements and crashes anywhere, no two log entries of an order agree in status, activity and courier time |
| `Drain.BacklogDrains` | src/workers/order-reconciliation.worker.ts:87-114 | Whichever rows each query returns and whatever couriers answer, after floor(M/25) + max cycles without database errors nothing is eligible, where M sums the retries left |
| `Drain.TickLowers` | src/workers/order-reconciliation.worker.ts:87-111 | A cycle lowers M by the number of rows selected; one that selects fewer than 25 lowers every eligible row's retries left |
| `Drain.WorkerPass` | src/workers/order-reconciliation.worker.ts:124-186 | A pass uses one retry, touches no other row, and leaves the row CREATED exactly when it reports recovery, otherwise FAILED or PENDING_DISPATCH with retries left |
| `Drain.CycleKeepsBooks` | src/workers/order-reconciliation.worker.ts:106-118 | A cycle over distinct eligible rows keeps every order's books balanced under any script, crash and database errors included |
| `Drain.CycleOutcome` | src/workers/order-reconciliation.worker.ts:106-118 | Under every script: a cycle has handled a first part of its selection (each row one retry more and booked, FAILED or selectable), leaves everything behind the order where it broke off untouched, and reports as recovered exactly the number of its rows that are CREATED |
| `WorkerPool.PoolUnderEverySchedule` | src/utils/concurrency.ts:10-30 | Under every schedule each index is unclaimed, in one worker's hands or finished; tasks in flight equal min(max(1, limit), tasks left); resolved results are the tasks' |
| `WorkerPool.EveryResolutionCounts` | src/utils/concurrency.ts:16-22 | Each resolution of a busy worker finishes one more task, of at most n |
| `WorkerPool.FinishedPoolIsComplete` | src/utils/concurrency.ts:29-30 | When no worker is busy the results array has no holes and is the sequential map |
| `WorkerPool.RunWithConcurrency` | src/utils/concurrency.ts:5-31 | The loop over a shared index returns worker(items[i], i) at every index, whichever task resolves next, terminates, and after t resolutions has exactly min(max(1, limit), n - t) tasks in flight |
| `Bulk.BulkSerialisable` | src/services/bulk-order.service.ts:77-138 | For distinct order ids and any answers at every await of every item (failing statements, refusals and hidden bookings included), every interleaving of the pool ends with the table, the per-order events and the results of running createOrder one by one in index order |
| `Bulk.EveryResumeCounts` | src/utils/concurrency.ts:16-30 | Whatever the schedule, a busy worker can be resumed, and each resumption leaves fewer of at most 5 awaits per item |
| `Bulk.LimitIsKept` | src/services/bulk-order.service.ts:108-116 | Under every schedule of a batch min(max(1, limit), items left) workers are busy, and no more than max(1, limit) items are between their first and their last await |
| `Bulk.SoloIsHandle` | src/services/order.service.ts:18-40 | The createOrder that the pool interleaves is the createOrder of the service, with the same answers |
| `Orders.EventsOfIsFilter` | src/services/tracking.service.ts:80-87 | An order's entries are those of the log with its id, as often as they are there |
| `Bulk.SummaryMeaning` | src/services/bulk-order.service.ts:183-200 | successful + failed = total; COMPLETED exactly if all succeeded (an empty batch too), FAILED exactly if there are items and all failed |
| `Bulk.BatchAgreesWithTable` | src/services/bulk-order.service.ts:122-138 | An item's result agrees with its row (success exactly if it ends neither PENDING_DISPATCH nor FAILED) exactly if no database error misled it; a success carries the row's waybill; and the table's settled rows are the record's successes plus the misled items |
| `BulkOrderServices.BulkOrderService.CreateBulkOrders` | src/services/bulk-order.service.ts:19-50 | Whatever each item meets: one result per item in order, a final record whose totals add up and whose status means all, none or some; for distinct ids table, events and results are those of one-by-one creation after pre-persistence, and the record's count is the table's less the misled items |
| `BulkOrderServices.BulkOrderService.UpdateBatchRecord` | src/services/bulk-order.service.ts:205-218 | Writes totals that add up, the results, and COMPLETED, FAILED or PARTIAL_SUCCESS according to whether all, none or some items succeeded |
| `BulkOrderServices.BulkOrderService.PrePersistAllBatchOrders` | src/services/bulk-order.service.ts:77-103 | Inserts the missing pending rows, or nothing when the statement fails, and never fails itself |
| `BulkOrderServices.BulkOrderService.ExecuteConcurrentBatch` | src/services/bulk-order.service.ts:108-117 | Runs the pool with the configured limit under some schedule to its end: one result per item, and every distinct item at the fate it has alone |
| `Client.RequestBound` | src/adapters/urbanebolt/urbanebolt.client.ts:122-204 | For every sequence of answers, with N = max(1, retryAttempts): at most N(N+1) business calls, N*N - 1 sleeps, N(N+2) logins and N nested requests |
| `Client.RequestReplies` | src/adapters/urbanebolt/urbanebolt.client.ts:122-204 | For every world: a refused last login fails the request, otherwise its last answer decides; it succeeds exactly if the last call succeeded; it goes on only after 5xx, no response, 401 or 403; it ends on 401 or 403 only after a renewed login, and gives up on a transient failure only after N calls at least; sleeps are calls less one less nested requests |
| `Client.TokenIsFetched` | src/adapters/urbanebolt/urbanebolt.client.ts:30-44 | A login is made exactly if forced or no token is kept, and leaves a token exactly if granted |
| `Client.RetainedLogins` | src/adapters/urbanebolt/urbanebolt.client.ts:30-43 | At most N + 1 logins when the cache retains what it is given |
| `Client.BoundsAttained` | src/adapters/urbanebolt/urbanebolt.client.ts:184-203 | For every N one courier (401, then a run of 5xx, repeated) makes the client reach all these bounds exactly, with and without a retaining cache |
| `Client.OuterAttemptLogins` | src/adapters/urbanebolt/urbanebolt.client.ts:98-116 | Every retryable failure leaves a token in the cache |
| `Client.UrbaneBoltClient.Request` | src/adapters/urbanebolt/urbanebolt.client.ts:122-163 | The retry loop around the attempt reaches exactly the counters and reply of the recursive specification |
| `Client.UrbaneBoltClient.ExecuteCall` | src/adapters/urbanebolt/urbanebolt.client.ts:129-204 | One attempt, with its forced re-login and nested request after 401 or 403, likewise |
| `Client.UrbaneBoltClient.GetAuthToken` | src/adapters/urbanebolt/urbanebolt.client.ts:30-44 | Cached token unless forced, else one login; the flag is cleared again |
| `Client.UrbaneBoltClient.FetchAndStoreNewAuthToken` | src/adapters/urbanebolt/urbanebolt.client.ts:49-117 | Success stores a token; failure removes it and is not retryable; the flag is cleared either way |
| `SingleFlight.SingleLogin` | src/adapters/urbanebolt/urbanebolt.client.ts:38-43 | For any callers in any interleaving, one login is in flight exactly when isAuthenticating is set, and none otherwise |
| `SingleFlight.JoinersGetTheOutcome` | src/adapters/urbanebolt/urbanebolt.client.ts:38-40 | Whoever waited got the outcome of the login it joined, which settled after the call |
| `SingleFlight.ForcedRefreshIsFresh` | src/adapters/urbanebolt/urbanebolt.client.ts:30-44 | A forced refresh never yields a cached token nor one from a login that had settled before the call |
| `SingleFlight.LoginIsAnswered` | src/adapters/urbanebolt/urbanebolt.client.ts:49-117 | With no login in flight a forced refresh starts one; its outcome is the caller's reply and the cache's content, and the flag is cleared |
| `SingleFlight.LoginIsJoined` | src/adapters/urbanebolt/urbanebolt.client.ts:38-40 | With a login in flight neither a forced caller nor one that found no token starts another |
| `SingleFlight.CachedTokenIsUsed` | src/adapters/urbanebolt/urbanebolt.client.ts:31-36 | A caller that finds a token takes it and starts nothing; one that finds none starts a login if none runs |
| `SingleFlight.EveryCallerCanGoOn` | src/adapters/urbanebolt/urbanebolt.client.ts:38-43 | In every interleaving a caller without an answer, or the login it waits for, can go on |
| `SingleFlight.CachedTokensWereGranted` | src/adapters/urbanebolt/urbanebolt.client.ts:85-99 | In every interleaving a cached token of this process handed to a caller was granted by the courier |
| `Retry.RetryWithBackoff` | src/utils/retry.ts:29-62 | Ends at the first success, first non-retryable error or attempt max(1, maxAttempts), with exactly the specified sleep after each failed attempt |
| `Retry.SleepBounds` | src/utils/retry.ts:41-46 | A jittered sleep lies between round(0.8 m) and round(1.2 m) of its capped base m |
| `Retry.SleepIsSpread` | src/utils/retry.ts:41-46 | Before rounding a sleep moves evenly with the random number from 0.8 to 1.2 times the grown delay, capped |
| `Retry.SleepRespectsCap` | src/utils/retry.ts:41-46 | No sleep exceeds the cap, or with jitter round(1.2 cap) |
| `Retry.RoundIsNearest` | src/utils/retry.ts:45 | Rounding goes to a nearest integer, halves up |
| `Retry.SleepsNeverDecrease` | src/utils/retry.ts:41-60 | Before the cap and with a factor of at least 1.5, no jitter makes a sleep shorter than the one before |
| `Retry.SmallFactorCanShrink` | src/utils/retry.ts:41-60 | For every factor from 1 up to 1.5 some delay and jitter do, so 1.5 is the exact threshold |
| `Retry.TotalSleepBound` | src/utils/retry.ts:30-60 | With factor 2, n attempts sleep at most 1.2 * initial * (2^(n-1) - 1) + (n-1)/2 in all |
| `Cache.CacheRefinesHistory` | src/cache/memory.cache.ts:17-36 | get(k) at t returns v exactly if the last write of k is set(v, ttl) at some s with t <= s + 1000 ttl |
| `Cache.LazyDeletionUnobservable` | src/cache/memory.cache.ts:21-24 | Dropping any earlier get from the history changes no later answer |
| `Cache.MemoryCache.Read` | src/cache/memory.cache.ts:17-27 | Answers what the history of writes says, deleting an expired entry on the way |
| `Cache.MemoryCache.Write` | src/cache/memory.cache.ts:29-32 | The value can be read at once, and the storage stays the replay of the history |
| `Cache.MemoryCache.Delete` | src/cache/memory.cache.ts:34-36 | The key is gone and no other key's answer changes |
| `Cache.MemoryCache.AcquireLock` | src/cache/memory.cache.ts:38-48 | Granted exactly if no unexpired lock is stored, and then stored with its own expiry |
| `Cache.MemoryCache.ReleaseLock` | src/cache/memory.cache.ts:50-52 | Removes the lock, whoever holds it |
| `LeaderLock.OneLeaseAtATime` | src/workers/order-reconciliation.worker.ts:74-80 | For any workers in any interleaving, while nobody has released after its TTL, at most one cycle is within its TTL |
| `LeaderLock.LeaderExclusion` | src/workers/order-reconciliation.worker.ts:70-118 | For any workers in any interleaving: at every instant of a run at most one cycle is between acquire and release exactly if no cycle acquires at or after the expiry of one still active |
| `LeaderLock.ExclusionWithinLeases` | src/workers/order-reconciliation.worker.ts:70-118 | If nobody has released late and no active cycle is overrunning its TTL, at most one is active |
| `LeaderLock.SecondLeaderIff` | src/cache/memory.cache.ts:38-48 | After any run that was exclusive so far, another worker gets in beside the leader exactly from the instant the leader's TTL is over |
| `LeaderLock.OverrunBreaksExclusion` | src/workers/order-reconciliation.worker.ts:106-118 | A concrete run without late release in which two cycles are active |
| `LeaderLock.LateReleaseBreaksLeases` | src/workers/order-reconciliation.worker.ts:115-118 | A concrete run in which a late release frees another cycle's lock |
| `LeaderLock.TtlLeavesMargin` | src/workers/order-reconciliation.worker.ts:74 | The TTL ends 5 s before the next tick exactly if the interval is 15 s or more |
| `LeaderLock.TtlCoversInterval` | src/workers/order-reconciliation.worker.ts:74 | The TTL is 10 s at least and, above that, less than 6 s short of the interval |
| `LeaderLock.AtMostOneTickSkipped` | src/workers/order-reconciliation.worker.ts:74-80 | A crashed leader's lock never refuses two consecutive ticks of a live worker exactly if the interval is 10 s or more |
| `LeaderLock.SkippedTicks` | src/workers/order-reconciliation.worker.ts:74-80 | Which ticks after a crash are refused; from 15 s intervals on only the first can be |
| `LeaderRuns.LeadershipSerialises` | src/workers/order-reconciliation.worker.ts:70-119 | While no cycle acquires past another's TTL and no request runs on an order that another handler works on or a cycle has selected, every run of cycles, passes from their selected snapshots, requests and crashes ends with the database of a serialised run |
| `LeaderRuns.LedWorkersBookOnce` | src/workers/order-reconciliation.worker.ts:70-119 | In such runs an order is booked at most once if no booking was lost, reverted or reopened |
| `LeaderRuns.LeaderRecovers` | src/workers/order-reconciliation.worker.ts:70-118 | A leading cycle that selects a waiting order whose courier then books it leaves it CREATED and frees the lock |
| `StatusMapping.SurroundingTextOnlyRaisesPriority` | src/adapters/urbanebolt/urbanebolt.mapper.ts:270-318 | Text before or after a status moves it only to the same or an earlier-tried category |
| `StatusMapping.NormaliseIdempotent` | src/adapters/urbanebolt/urbanebolt.mapper.ts:271 | Normalising twice is normalising once |
| `StatusMapping.NormaliseConcat` | src/adapters/urbanebolt/urbanebolt.mapper.ts:271 | Normalisation distributes over concatenation |
| `StatusMapping.SeparatorsDoNotMatter` | src/adapters/urbanebolt/urbanebolt.mapper.ts:270-318 | Whitespace, hyphens and underscores may be added or dropped anywhere |
| `StatusMapping.CaseDoesNotMatter` | src/adapters/urbanebolt/urbanebolt.mapper.ts:270-318 | Texts that differ in letter case only map alike |
| `StatusMapping.MappingIgnoresNormalisation` | src/adapters/urbanebolt/urbanebolt.mapper.ts:270-271 | A text maps as its normal form does |
| `StatusMapping.FirstKeywordDecides` | src/adapters/urbanebolt/urbanebolt.mapper.ts:273-317 | The first of the eighteen keywords, in the order they are tried, that occurs in the normalised text decides the category |
| `StatusMapping.NoKeywordIsCreated` | src/adapters/urbanebolt/urbanebolt.mapper.ts:317 | A text without any keyword is CREATED |
| `StatusMapping.NormaliseOne` | src/adapters/urbanebolt/urbanebolt.mapper.ts:271 | What normalisation does to each character |
| `StatusMapping.MapTrackingTimeline` | src/adapters/urbanebolt/urbanebolt.mapper.ts:214-228 | One scan per raw event with its time; its status is mapped from the first non-empty of status, activity, action and IN_TRANSIT (upper-casing first makes no difference) and its text is the first non-empty of activity, action, status |
| `StatusMapping.ToReport` | src/adapters/urbanebolt/urbanebolt.mapper.ts:187-244 | Every courier answer becomes a report that trackOrder accepts, with the mapped current status, else status, else that of its last event, else CREATED |
| `Witnesses.CrashBooksTwice` | src/services/order.service.ts:33-36 | A crash between booking and persisting, then a resubmission: two bookings, one of them lost |
| `Witnesses.ResubmissionStrandsIff` | src/services/order.service.ts:96-102 | A resubmission that dies before its dispatch leaves a row the worker can select exactly if it had retries left |
| `Witnesses.SomeOrderIsStranded` | src/services/order.service.ts:96-102 | For every retry limit a run that leaves a pending row the worker will never select |
| `Witnesses.ThrowsAlthoughBooked` | src/services/order.service.ts:178-195 | On sqlite a failing event statement makes createOrder throw while the row is CREATED |
| `Witnesses.OverlapBooksTwice` | src/services/order.service.ts:23-30 | Two overlapping submissions of a pre-persisted order book it twice without any fault |
| `Witnesses.OverlapLogsTwice` | src/services/tracking.service.ts:80-98 | Two overlapping trackOrder calls log one scan twice without any fault |

## Left out

- Client.RetainedLogins: one request running alone; tokens shared by concurrent requests are in `SingleFlight`, which counts logins in flight but not requests.
- Bulk.BulkSerialisable: a process that dies during the pool run, and an outside world whose answers to one item depend on how the others are interleaved; the serialised and interleaved runs cover both order by order.
- The Redis cache and its fail-open lock; the lock is the in-memory set-if-absent with expiry.
- `createShipment`, `trackShipment` and `cancelShipment` are one oracle call each in the lifecycle; what happens inside, HTTP retries included, is in `Client`. One `createShipment` may book any number of times there without anyone learning it; the ledger counts these as lost.
- Token expiry inside the client: whether a cache read still finds the stored token is an oracle. A granted login has a non-empty token.
- The cache's treatment of an empty stored string as absent by its callers.
- Row fields no decision depends on: courier order id, failure reason, response payload, addresses, service type; and location and raw payload of events. Request details are one opaque string.
- Wall-clock time of events the platform writes (a symbolic server clock) and of scans without a time of their own.
- Staleness in the worker's query: which eligible rows are stale is left open for a cycle; `Drain.BacklogDrains` assumes that all are, as with a threshold shorter than the interval.
- `start`, `stop` and the interval timer of the worker, and the overlap of two ticks of one worker across the await between its check and its flag.
- Updates of a row that does not exist affect nothing; no operation removes rows, so this does not arise.
- Order lookup, batch lookup, and a database error while the batch record itself is inserted or updated.
- Non-ASCII upper-casing and Unicode whitespace in status texts and courier names.
- `runWithConcurrency` with workers that reject; bulk items never reject.
- The courier registry (a set of names), the mock adapter, manifest payload mapping, Express routes, authentication, validation schemas, logging, configuration and health checks.
