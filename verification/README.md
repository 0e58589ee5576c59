# Bulk service: a verified model

The service takes a spreadsheet, turns its rows into jobs, reserves billing transactions, publishes
jobs to Kafka, folds the results back into the batch, and exports. This project models that
behaviour in Dafny and proves properties of it. `dafny verify dfyconfig.toml` checks all of it.

## How it is modelled

`Domain` holds the records and `Backend` everything outside the process: the two database tables, the
refunds that billing accepted, and the messages handed to the two topics. Operations are methods on
that state (`Backend.Services`). Each takes the answers of the services it calls (which query fails,
which publication goes through, what billing replies) as parameters, so a contract speaks about every
combination of answers. Each method is proved to produce the state that a function of the old state
gives; runs and properties that span operations are stated about those functions.

* **Batch, job and billing life cycle**: `BatchManager` (recount, finalise, cancel), `ResultHandler`
  (one result message, and any stream of them), `RecountEffects`
  (counters and completion time after a stream), `Confirm` and `ConfirmEffects` (the confirmation saga
  and what it does to each job and message), `BatchHandlers` (the operators' requests), `Upload`,
  `Lifecycle` (any run of operations keeps the counters in bounds), `RefundLedger` (what billing is
  asked to give back over runs), `Completion` (when a batch completes), `GenerateValid` (that action
  after an upload), `FieldEffects` and `UploadEffects` (what the operations write, field by field).
* **Rate limiting**: `TokenBucket`, `TokenBucketExact`, `FixedWindow`, `RateLimit`. Time and tokens are reals.
* **Export queue**: `ExportQueue`, where each critical section and each channel operation is one
  atomic step and runs are arbitrary interleavings.
* **Kafka retries**: `Retry`, with 64-bit pauses.
* **Listing**: `BatchQuery` (the query as a small syntax tree with its meaning) and `Paging`.
* **Codec of `transaction_ids`**: `TransactionCodec`, on JSON values.
* **Upload pipeline**: `Columns`, `SheetParser`, `Numerals`, `Validation`, `Upload`, `BodyLimit`.

The listing of a batch's jobs has no ORDER BY, so a listing is any order of them; a map is visited in
any order. Identifiers are an abstract type, and `isUuid` tells which of them parse as UUIDs. Job ids
of an upload are whatever the generator returns: where a statement needs them to be new, it says so.

## Where the code does not do what one would expect

Each of these is a theorem about the code as it is.

* The service documents a cancellation that refunds the reserved transactions
  (internal/batch/manager.go:162-164). Only ids from the `blockFunc` hook are stored, and the HTTP
  handler passes no hook (internal/transport/http/handlers/batch.go:272), so a cancellation never
  returns the transactions reserved that way (`RefundLedger.CancelReturnsReservationIff`). Ids that are
  stored are not cleared by the compensation of a failed confirmation and can be refunded twice
  (`RefundLedger.RefundedAgainIff`), and a second reservation overwrites the first
  (`RefundLedger.EarlierReservationReturnedIff`).
* Compensation marks the last jobs of the listing, not the ones whose publication failed
  (`ConfirmEffects.CompensationExactIff`).
* A single reserved transaction is shared by all jobs and refunded once for each
  (`Confirm.AssignedIsPrefix`, `ConfirmEffects.NoSharedIdsIff`).
* A quote does not bind a confirmation when it is 0, when it covers all rows, or when a row was rejected
  (`Confirm.GateHonoursQuoteIff`).
* "Generate valid" publishes the first jobs, whichever rows they are (`GenerateValid.PublishesAcceptedIff`),
  and a batch with a rejected row whose jobs and count were stored never completes by it
  (`GenerateValid.RejectedRowBlocks`).
* Cancelled is not a final status (`ResultHandler.CancelledSurvivesIff`), and failed jobs count as
  completed (`BatchManager.CountJobs`).
* Priority and timeout are answered by the settings request but not stored
  (`BatchHandlers.SettingsAreNotKept`).
* An export that finds the queue full can never be requested again (`ExportQueue.TurnedAwayForGood`).
* A message that could not be handled is lost when the dead letter topic fails too (`Retry.LostIff`).
* Cursor paging loses rows without a sort key or with the same one (`Paging.CursorCompleteIff`), such as
  batches by completion time: it is NULL before the first update, and from then on the zero time until
  the batch completes (internal/repo/batch_repo.go:62-65).
* A lost EXPIRE locks a client out for good (`FixedWindow.LostExpireBlocks`).
* A mandatory field that has no column is not missed (`Validation.MandatoryFilledIff`).
* A body of exactly the permitted size may be refused (`BodyLimit.RefusedApartIff`).

## Model

| member | source | states |
|---|---|---|
| `Backend.Services.CreateBatch` | internal/adapters/postgres/batch_repo.go:42-60 | an insert fails on a taken key and stores neither completion time nor settings |
| `Backend.Services.UpdateBatch` | internal/repo/batch_repo.go:49-80 | an update of a missing row succeeds without effect; owner, revision and creation time stay; priority and timeout are lost |
| `Backend.PersistedIsReadBack` | internal/repo/batch_repo.go:58-80 | the settings of a stored record are those read back from a value written without any |
| `Backend.Services.CreateJob` | internal/adapters/postgres/job_repo.go:27-35 | a job row needs a new key and an existing batch |
| `Backend.Services.ListJobs` | internal/adapters/postgres/job_repo.go:37-52 | a listing holds every job of the batch once, in an order the database chooses |
| `Backend.Services.UpdateStatus` | internal/adapters/postgres/job_repo.go:54-57 | only the status of that row changes; a missing row is no error |
| `Backend.Services.UpdateBillingTransactionId` | internal/adapters/postgres/job_repo.go:72-82 | only the transaction of that row changes |
| `Backend.Services.UpdateStatusWithResult` | internal/adapters/postgres/job_repo.go:84-121 | one update overwrites status, transaction and every result column |
| `Backend.CountListing` | internal/batch/manager.go:233-245 | a count over a listing is the number of jobs of the batch with that property, whatever the order |
| `BatchManager.ProgressIsSound` | internal/batch/manager.go:46-61 | with counters in order the percentage is within 0 to 100, and the pending figure never overstates what is left, being exact just when nothing failed or nothing is left |
| `BatchManager.PublishStatus` | internal/batch/manager.go:40-66 | one progress message is added, the one the record implies |
| `FieldEffects.MessageTells` | internal/batch/manager.go:46-62 | a message carries the identity, status and counters of the record, and the exact percentage |
| `BatchManager.OnJobStatusChange` | internal/batch/manager.go:218-269 | the record becomes the tally of the job table (any listing order), or nothing changes when a query fails or the batch has no jobs; the error is reported exactly then |
| `BatchManager.CountJobs` | internal/batch/manager.go:230-245 | every job is either unfinished or finished; failed ones are among the finished; an unknown status is unfinished |
| `BatchManager.FinalizeAfterUpload` | internal/batch/manager.go:68-124 | the whole new state in the three outcomes and the error cases |
| `FieldEffects.FinalisationTells` | internal/batch/manager.go:76-122 | which of the three statuses a finalisation ends in, the allowance it stores, and the message it sends; nothing else changes |
| `FieldEffects.FinalisationSkips` | internal/batch/manager.go:72-86 | a failing read or write: nothing changes |
| `BatchManager.SetProcessing` | internal/batch/manager.go:126-141 | the whole new state and the error cases |
| `FieldEffects.ProcessingTells` | internal/batch/manager.go:130-139 | the batch becomes processing, which is announced; nothing else changes |
| `BatchManager.SetCancelled` | internal/batch/manager.go:143-213 | the whole new state for every combination of answers; the result counts refunded jobs however they became so |
| `BatchManager.MarkRefunded` | internal/batch/manager.go:172-178 | exactly the open jobs of the batch whose update succeeds become refunded |
| `BatchManager.RefundReserved` | internal/batch/manager.go:170-196 | the new state once billing has taken the transactions back |
| `BatchManager.CountRefunded` | internal/batch/manager.go:199-208 | the number of refunded jobs of the batch |
| `ResultHandler.HandleResult` | internal/di/di_handler.go:44-91 | job update, then recount of the named batch; success is reported whatever failed |
| `ResultHandler.JobAfterStream` | internal/di/di_handler.go:44-65 | after any stream a job row is its initial row overlaid with its last message |
| `ResultHandler.BatchAfterStream` | internal/batch/manager.go:218-269 | after any stream a named batch has the record its final jobs imply; a batch not named keeps its record and its jobs |
| `ResultHandler.StreamConfluence` | internal/di/di_handler.go:38-92 | streams that agree on each job's last message and on the batches named end alike (but for completion times) |
| `ResultHandler.ReorderAcrossJobs` | internal/di/di_handler.go:38-92 | messages of different jobs may change places anywhere |
| `ResultHandler.RedeliverLatest` | internal/di/di_handler.go:38-92 | delivering a job's latest message again changes nothing |
| `ResultHandler.CancelledSurvivesIff` | internal/batch/manager.go:252-262 | a cancelled mark survives a stream if and only if no message names the batch: cancelled is not final |
| `ResultHandler.MisroutedResultIff` | internal/di/di_handler.go:64-88 | a message naming another batch leaves its job's own batch with wrong counters unless the job neither opens, closes nor changes failing |
| `RecountEffects.RecountTells` | internal/batch/manager.go:229-262 | a recount sets the completed counter to the number of completed, refunded and failed jobs of the batch, the failed counter to that of failed ones, and status and completion time by whether any other job is left |
| `RecountEffects.RecountTouches` | internal/batch/manager.go:246-268 | nothing else changes but for one status message about the new record |
| `RecountEffects.RecountSkips` | internal/batch/manager.go:222-229 | a failing query, an unknown batch or one without jobs: nothing changes |
| `RecountEffects.CountsAfterStream` | internal/batch/manager.go:233-251 | after any stream that names a batch its counters are the numbers of its jobs by their last status |
| `RecountEffects.CompletedAtAfterStream` | internal/batch/manager.go:252-262 | the completion time after any stream is that of the last message that names the batch and finds all its jobs finished, or the earlier one |
| `FieldEffects.ResultTells` | internal/di/di_handler.go:44-65 | the columns a result message writes, for each answer; no other column or row changes |
| `Confirm.AssignTxIsPositional` | internal/usecase/bulk/service.go:340-355 | job i gets the i-th id or none; a single id is shared by all; the requested count plays no part; no index is out of range |
| `Confirm.AssignedIsPrefix` | internal/usecase/bulk/service.go:367-382 | the compensated ids are, in order, the well-formed members of the assigned prefix; a shared id appears once per job |
| `Confirm.GateHonoursQuoteIff` | internal/usecase/bulk/service.go:254-263 | a confirmation above the quote is answered as over the allowance if and only if no row was rejected and the quote is positive and less than the valid rows (with an earlier allowance, that one decides in the other cases) |
| `Confirm.GateRefuses` | internal/usecase/bulk/service.go:254-263 | a confirmation above a positive allowance, and no other, is refused for it, and does nothing at all |
| `Confirm.ReservationRefuses` | internal/usecase/bulk/service.go:264-328 | the hook decides the reservation, billing only without one; a refused reservation ends the confirmation before it does anything |
| `Confirm.ListingFails` | internal/usecase/bulk/service.go:334-338 | a failed listing leaves jobs, messages and refunds as they were |
| `Confirm.QuotesNotHonoured` | internal/batch/manager.go:76-113 | two confirmations above the quote that go through: one with a quote that covers all rows, one with a rejected row |
| `Confirm.ConfirmBatch` | internal/usecase/bulk/service.go:253-498 | new state and result of the whole saga for every count and every combination of answers |
| `Confirm.PublishOne` | internal/usecase/bulk/service.go:371-475 | one job: transaction stored, message published, marked queued, each as far as its call succeeds |
| `Confirm.PublishJobs` | internal/usecase/bulk/service.go:367-476 | rows, messages, queued count, failure flag and owed ids after the loop |
| `Confirm.Compensate` | internal/usecase/bulk/service.go:479-494 | refund of the owed ids, cancelled mark, and refunded jobs from the queued count on |
| `Confirm.MarkTail` | internal/usecase/bulk/service.go:490-493 | the rows from the queued count to the covered count are marked refunded |
| `Confirm.SaveIds` | internal/usecase/bulk/service.go:302-328 | only ids of the hook reach the batch record; those reserved with billing do not |
| `Confirm.ConfirmedValid` | internal/usecase/bulk/service.go:253-498 | a confirmation keeps keys and ownership of all rows |
| `ConfirmEffects.ConfirmedJob` | internal/usecase/bulk/service.go:367-494 | the final status of every job of the listing; jobs beyond the count keep their rows |
| `ConfirmEffects.ConfirmedJobRow` | internal/usecase/bulk/service.go:371-493 | transaction and status on the row of each job, by the answers for its position; no other column changes |
| `ConfirmEffects.ConfirmedRecord` | internal/usecase/bulk/service.go:302-328 | the record afterwards: cancelled exactly when a publication failed and that could be written, holding the ids of the hook if these could be stored |
| `ConfirmEffects.ConfirmedElsewhere` | internal/usecase/bulk/service.go:253-498 | other batches keep their records and no status message is sent |
| `ConfirmEffects.QueuedAnswered` | internal/usecase/bulk/service.go:458-461 | the answer is the number of covered jobs that were published and marked |
| `ConfirmEffects.ConfirmedOther` | internal/usecase/bulk/service.go:367-494 | jobs of other batches keep their rows |
| `ConfirmEffects.CompensationExactIff` | internal/usecase/bulk/service.go:478-494 | every covered job ends published and queued or unpublished and refunded if and only if no publication succeeds after a failed one |
| `ConfirmEffects.MisdirectedCompensation` | internal/usecase/bulk/service.go:490-493 | otherwise a published job is refunded and an unpublished one keeps its status |
| `ConfirmEffects.ConfirmedEvents` | internal/usecase/bulk/service.go:384-450 | exactly as many messages as successful publications are added |
| `ConfirmEffects.EventOf` | internal/usecase/bulk/service.go:397-422 | the message at a position belongs to the published job with that many before it and carries its row number and fields, the user and revision of the batch if these could be read, and its transaction; it is pre-approved just when it has one |
| `ConfirmEffects.NoSharedIdsIff` | internal/usecase/bulk/service.go:341-355 | for distinct reserved ids, no two messages share one if and only if there is not exactly one id or at most one message |
| `BatchHandlers.ConfirmCount` | internal/transport/http/handlers/batch.go:245-264 | the count for each action, and which requests are refused |
| `BatchHandlers.MessageIff` | internal/usecase/bulk/service.go:367-450 | a job has a message if and only if it is covered and its publication succeeded |
| `BatchHandlers.GenerateValidIff` | internal/transport/http/handlers/batch.go:254-260 | for any stored count and any notion of a valid job, exactly the valid jobs are published if and only if the listing has them first and the count covers just them |
| `BatchHandlers.RejectedRowPublished` | internal/usecase/bulk/service.go:196-233 | an input on which a rejected row is published although the valid one is listed first: a row whose job was not created is counted |
| `GenerateValid.StartIs` | internal/usecase/bulk/service.go:208-234 | what upload and finalisation leave for the request: the jobs, and the count if one of its two updates went through |
| `GenerateValid.AcceptedCount` | internal/usecase/bulk/service.go:172-196 | when every row got its job, the listing has as many jobs of accepted rows as the stored count |
| `GenerateValid.PublishesAcceptedIff` | internal/transport/http/handlers/batch.go:254-260 | after any upload, "generate valid" publishes exactly the rows it accepted if and only if their jobs are listed first and the stored count covers just them; the second holds when every job was created and the count stored |
| `GenerateValid.RejectedRowBlocks` | internal/transport/http/handlers/batch.go:254-260 | a batch with a rejected row is never completed by it |
| `Completion.CompletedIff` | internal/batch/manager.go:252-262 | after a confirmation and any results that name the batch, it is completed if and only if the last status of each of its jobs is closed |
| `Completion.CompletedAfterConfirmIff` | internal/batch/manager.go:252-262 | when the results of exactly the covered jobs are in, if and only if every other job was closed before |
| `Completion.UncoveredJobBlocks` | internal/batch/manager.go:252-262 | one open job beyond the count that gets no result keeps the batch from completing |
| `BatchHandlers.HandleCancel` | internal/transport/http/handlers/batch.go:375-429 | the report holds open jobs and transactions from before and refunded jobs from after |
| `BatchHandlers.CancelSettles` | internal/batch/manager.go:165-208 | an accepted refund turns exactly the open jobs refunded, and the count returned is the earlier refunded plus the pending ones; a failed one keeps jobs and transactions |
| `FieldEffects.CancellationMarks` | internal/batch/manager.go:155-160 | any batch that can be read and written is marked cancelled and announced, with or without transactions; without, that is all |
| `FieldEffects.CancellationRefunds` | internal/batch/manager.go:165-192 | when billing takes the transactions back, exactly the pending, queued and processing jobs that can be written become refunded |
| `FieldEffects.CancellationSkips` | internal/batch/manager.go:147-158 | otherwise nothing changes |
| `BatchHandlers.HandleRestart` | internal/transport/http/handlers/batch.go:686-730 | exactly the failed jobs whose publication and update succeed are queued; restarted and skipped add up to all jobs |
| `FieldEffects.RestartTells` | internal/transport/http/handlers/batch.go:697-728 | exactly the failed jobs that can be published and written become queued, and the batch processing |
| `FieldEffects.RestartPublishes` | internal/transport/http/handlers/batch.go:704-714 | one bare message for each failed job whose publication succeeds, and no other |
| `BatchHandlers.RestartJobs` | internal/transport/http/handlers/batch.go:697-723 | rows, messages and counts after the restart loop |
| `BatchHandlers.HandleUpdateConfig` | internal/transport/http/handlers/batch.go:754-777 | the answer is the record with the supplied settings, the others as they were |
| `FieldEffects.SettingsTell` | internal/transport/http/handlers/batch.go:764-770 | the supplied settings, and the earlier ones where none are supplied |
| `BatchHandlers.SettingsAreNotKept` | internal/repo/batch_repo.go:58-80 | an update that goes through stores neither new nor earlier priority and timeout |
| `Lifecycle.StepHolds` | internal/batch/manager.go:68-269 | every operation, with any answers, keeps failed <= completed <= jobs <= rows for every batch and publishes sound progress only |
| `Lifecycle.RunHolds` | internal/batch/manager.go:41-66 | so does every run of operations in any order |
| `RefundLedger.LedgerStep` | internal/batch/manager.go:165-197 | of all settling steps only an accepted cancellation moves the reserved transactions, to the ledger |
| `RefundLedger.CancelLedger` | internal/batch/manager.go:162-197 | over any run of cancellations, results, restarts and status changes the transactions stay stored until a refund is accepted and are in exactly one accepted refund |
| `RefundLedger.LostClearRefundsTwice` | internal/batch/manager.go:185-192 | when the update that clears them is lost, the next accepted cancellation refunds them again |
| `RefundLedger.ConfirmThenCancel` | internal/usecase/bulk/service.go:302-328 | exactly what a confirmation and a later accepted cancellation return together, whatever the record held |
| `RefundLedger.CancelReturnsReservationIff` | internal/usecase/bulk/service.go:309-328 | after a fully published confirmation, cancelling returns the reservation if and only if it came from the hook and was stored, or the record held the same ids before |
| `RefundLedger.EarlierReservationReturnedIff` | internal/usecase/bulk/service.go:303-308 | a transaction held before a confirmation is returned by a later cancellation if and only if the new reservation was not stored or has it too; otherwise it is lost |
| `RefundLedger.RefundedAgainIff` | internal/usecase/bulk/service.go:478-489 | confirmation and cancellation refund a transaction twice if and only if compensation returned it and it was on the record |
| `TokenBucket.RefillComposes` | internal/transport/http/middleware/ratelimit.go:118-122 | refilling in two goes under the cap is refilling in one |
| `TokenBucket.DeniedAreFree` | internal/transport/http/middleware/ratelimit.go:114-131 | removing any denied requests from a trace of many clients leaves every other decision as it was |
| `TokenBucket.KeysDoNotInterfere` | internal/transport/http/middleware/ratelimit.go:29-38 | the decisions for a client are those of a limiter that sees its requests only |
| `TokenBucket.TokensInRange` | internal/transport/http/middleware/ratelimit.go:118-130 | tokens stay within 0 and the rate |
| `TokenBucket.AdmittedBound` | internal/transport/http/middleware/ratelimit.go:114-131 | the admitted requests of a client stay within what its bucket holds plus what flows in |
| `TokenBucket.RateBound` | internal/transport/http/middleware/ratelimit.go:114-131 | from a request on until any later time at most rate * elapsed + rate requests of that client are admitted, whatever came before |
| `TokenBucket.Patience` | internal/transport/http/middleware/ratelimit.go:118-129 | with a rate of at least 1 a request 1/rate after the previous one is admitted; with a lower rate none ever is |
| `TokenBucketExact.AdmittedIff` | internal/transport/http/middleware/ratelimit.go:114-131 | a request is admitted if and only if, counted from the start of the trace and from each earlier request of the client, what the bucket held (a full bucket there) and what flowed in since pays for the admitted requests and one more |
| `TokenBucketExact.BurstAdmitted` | internal/transport/http/middleware/ratelimit.go:114-131 | a client with a full bucket has its next floor(rate) requests admitted, however close together |
| `TokenBucketExact.BurstIff` | internal/transport/http/middleware/ratelimit.go:114-131 | with no time passing it has these admitted and no other |
| `TokenBucket.Limiter.Take` | internal/transport/http/middleware/ratelimit.go:116-131 | decision and new state of one bucket |
| `TokenBucket.RateLimiter.GetLimiter` | internal/transport/http/middleware/ratelimit.go:29-38 | a key gets its own bucket, created full once |
| `TokenBucket.RateLimiter.Allow` | internal/transport/http/middleware/ratelimit.go:114-132 | a request is decided by its bucket and changes no other |
| `FixedWindow.LifetimeAdmitsFirst` | internal/transport/http/middleware/ratelimit.go:97-107 | each lifetime of a key admits exactly its first requests up to the limit |
| `FixedWindow.LivesOneSecond` | internal/transport/http/middleware/ratelimit.go:97-107 | a key lives for exactly one second from its EXPIRE |
| `FixedWindow.WindowBound` | internal/transport/http/middleware/ratelimit.go:93-110 | any interval one window long contains at most 2 * limit - 1 admitted requests |
| `FixedWindow.WindowBoundIsTight` | internal/transport/http/middleware/ratelimit.go:93-110 | that bound is met, for every limit |
| `FixedWindow.LostExpireBlocks` | internal/transport/http/middleware/ratelimit.go:99-107 | a lost EXPIRE leaves the client with its first requests only, for ever |
| `RateLimit.Middleware.Handle` | internal/transport/http/middleware/ratelimit.go:90-133 | each request is decided by exactly one limiter and the other does not see it |
| `ExportQueue.StepHolds` | internal/exporter/manager.go:61-140 | every atomic step keeps: accepted = finished + held + waiting in order, status tells where an id is, no id in two places |
| `ExportQueue.RunHolds` | internal/exporter/manager.go:61-140 | the invariant holds in every state of every interleaving |
| `ExportQueue.RunFacts` | internal/exporter/manager.go:87-140 | an id is sent at most once, at most one export runs, the worker always finds its entry, exports finish in order of acceptance |
| `ExportQueue.RunForward` | internal/exporter/manager.go:98-137 | over any run a status moves only from pending to running to done or failed, and a finished entry is final |
| `ExportQueue.FinishTells` | internal/exporter/manager.go:123-138 | from the end of an export on its entry is done with the storage id that was stored, or failed with the error |
| `ExportQueue.FinishedBy` | internal/exporter/manager.go:123-138 | every finished id was finished by one such step |
| `ExportQueue.RunFits` | internal/exporter/manager.go:67-137 | a pending or running entry never has a storage id or an error, a done one no error, a failed one no storage id |
| `ExportQueue.TurnedAwayForGood` | internal/exporter/manager.go:70-76 | an id that found the queue full stays pending for ever and is never exported |
| `ExportQueue.DrainStep` | internal/exporter/manager.go:88-139 | each worker step leaves less work, some worker step is possible while work is left, and with none left all accepted exports are finished |
| `ExportQueue.Manager.RegisterEntry` | internal/exporter/manager.go:62-69 | first half of Enqueue: a known id is refused, a new one is entered as pending |
| `ExportQueue.Manager.SendEntry` | internal/exporter/manager.go:70-76 | second half: accepted exactly when the channel has room |
| `ExportQueue.Manager.Get` | internal/exporter/manager.go:79-84 | the entry of an id, if any |
| `ExportQueue.Manager.ReceiveEntry` | internal/exporter/manager.go:88 | the worker takes the oldest id |
| `ExportQueue.Manager.StartEntry` | internal/exporter/manager.go:92-100 | the entry becomes running |
| `ExportQueue.Manager.FinishEntry` | internal/exporter/manager.go:123-138 | the entry becomes done with the storage id, or failed with the error |
| `ExportQueue.Manager.Drain` | internal/exporter/manager.go:87-140 | the worker alone empties the channel and finishes every accepted export in order, each with the outcome that generating it has; other entries stay |
| `Retry.PauseFitsIff` | internal/kafka/consumer.go:118-119 | a pause is 100 * 2^k milliseconds if and only if k is at most 36 |
| `Retry.AttemptsStopAtSuccess` | internal/kafka/consumer.go:113-120 | one to retries + 1 attempts, ending with the first success |
| `Retry.CallAt` | internal/kafka/consumer.go:113-114 | the attempts at a message are made in order |
| `Retry.DeadLetterAt` | internal/kafka/consumer.go:121-140 | the dead letters are the messages whose every attempt failed and whose publication there succeeded, once each and in order |
| `Retry.LostIff` | internal/kafka/consumer.go:121-140 | a decodable message is lost if and only if every attempt failed and there is no dead letter topic or that publication failed; it is never both processed and dead-lettered |
| `Retry.FailedMessagePause` | internal/kafka/consumer.go:118-119 | such a message waits 100 * (2^(r+1) - 1) milliseconds in all |
| `Retry.SilentHandler` | internal/di/di_handler.go:90 | with the result handler every decodable message is handled once, nothing is dead-lettered and nothing waits |
| `Retry.ResultConsumer.Start` | internal/kafka/consumer.go:86-159 | calls, pauses, dead letters and processed messages after any stream, for any retry count and any answers of both topics; a negative count skips the handler |
| `Retry.ResultConsumer.HandleMessage` | internal/kafka/consumer.go:111-120 | calls and pauses for one message |
| `Retry.ResultConsumer.Process` | internal/kafka/consumer.go:109-148 | one decodable message is counted as processed, dead-lettered, or lost with a failed publication |
| `Retry.Producer.WriterFor` | internal/kafka/producer.go:63-70 | one writer for each topic, created once |
| `Retry.Producer.Publish` | internal/kafka/producer.go:98-133 | the attempts at one message, on the writer of its topic only; failure exactly when all fail |
| `Retry.CopyAt` | internal/kafka/producer.go:111-118 | every attempt carries the same message |
| `Retry.FailedPublishPause` | internal/kafka/producer.go:114-117 | a failed publication waits 100 * (2^r - 1) milliseconds, 700 with three retries |
| `BatchQuery.BuildQuery` | internal/adapters/postgres/batch_repo.go:121-190 | for every combination of filters: placeholders 1 to k in order with their arguments, limit and offset k + 1 and k + 2, the count query binds the first k, and the rows selected are those that match the plain conjunction |
| `BatchQuery.Appended` | internal/adapters/postgres/batch_repo.go:125-167 | appending a clause with its argument adds exactly that condition |
| `BatchQuery.SortedBy` | internal/adapters/postgres/batch_repo.go:150-180 | which sort name means which column, and in which direction a cursor goes on |
| `Paging.List` | internal/repo/batch_repo.go:82-98 | on every table the answers are: filter, sort, drop (page - 1) * limit rows, take limit, with page 1 and limit 20 for numbers that are not positive, and an empty or unreadable cursor ignored; the count is that of matching rows |
| `Paging.OneOrdering` | internal/adapters/postgres/batch_repo.go:175-188 | with distinct keys there is one order |
| `Paging.NumberedPagesComplete` | internal/repo/batch_repo.go:90 | pages 1, 2, ... put together are the beginning of the one order, and all of it once there are enough |
| `Paging.RequestedPagesComplete` | internal/repo/batch_repo.go:84-90 | the answers to requests for pages 1, 2, ..., n put together are the first n * limit rows of the one order |
| `Paging.DefaultsOfRequest` | internal/repo/batch_repo.go:84-89 | a page number that is not positive is answered as page 1, such a limit as 20 |
| `Paging.CursorPagesComplete` | internal/adapters/postgres/batch_repo.go:150-167 | with distinct keys, following the cursor visits the order without gap or repetition, and a page is empty just when all rows were seen |
| `Paging.FinishChain` | internal/adapters/postgres/batch_repo.go:150-167 | any chain of pages can be followed to its end |
| `Paging.ChainIsShort` | internal/adapters/postgres/batch_repo.go:150-188 | every chain ends: it has no more pages than matching rows, but for an empty last one |
| `Paging.NoKeyOnFirstPageOnly` | internal/adapters/postgres/batch_repo.go:150-167 | a row without a sort key is shown on the first page or not at all |
| `Paging.TiesAreLost` | internal/adapters/postgres/batch_repo.go:150-167 | of two rows with equal keys, or one of which has none, a client reading row by row misses one |
| `Paging.CursorCompleteIff` | internal/adapters/postgres/batch_repo.go:150-188 | following the cursor to the end shows every row, for every page size and tie-breaking, if and only if any two rows have keys, and different ones |
| `TransactionCodec.ParseTransactionIds` | internal/adapters/postgres/batch_repo.go:286-325 | every JSON value, or text that is none, decodes |
| `TransactionCodec.CollectStrings` | internal/adapters/postgres/batch_repo.go:293-306 | the strings of an array |
| `TransactionCodec.LegacyArray` | internal/adapters/postgres/batch_repo.go:292-297 | an array decodes to its strings, all of them and in order |
| `TransactionCodec.Round53Exact` | internal/adapters/postgres/batch_repo.go:313-321 | a number survives exactly when it has 53 significant bits |
| `TransactionCodec.RoundTripIff` | internal/adapters/postgres/batch_repo.go:327-337 | ids and priority always come back; the timeout exactly when it is not negative or there is a priority, and it has 53 significant bits |
| `TransactionCodec.RoundTripSmall` | internal/adapters/postgres/batch_repo.go:286-337 | the round trip below 2^53 |
| `TransactionCodec.WrapperLayout` | internal/adapters/postgres/batch_repo.go:328-334 | the layout of the written value |
| `TransactionCodec.FirstLostTimeout` | internal/adapters/postgres/batch_repo.go:313-321 | 2^53 + 1 comes back as 2^53 |
| `Columns.BuildAliasMap` | internal/parser/column_detector.go:37-50 | the defaults, each list followed by the additions of the revision |
| `Columns.Extend` | internal/parser/column_detector.go:44-48 | each list followed by its additions; new codes are added |
| `Columns.DetectColumn` | internal/parser/column_detector.go:60-80 | a code whose list has the header, in whatever order the map is visited; else the header itself if it is a code; else none |
| `Columns.DetectColumns` | internal/parser/column_detector.go:55-84 | that for every header |
| `Columns.OrderIndependentIff` | internal/parser/column_detector.go:62-72 | detection does not depend on the order of visiting if and only if the lower-cased lists are disjoint |
| `Columns.ShippedTableDisjoint` | internal/parser/column_detector.go:7-24 | the shipped table of every revision is disjoint |
| `Columns.DetectedByText` | internal/parser/column_detector.go:59-82 | with a disjoint table a header is detected by its trimmed, lower-cased text, else as itself if it is a code, else not |
| `SheetParser.MapRow` | internal/parser/xls_parser.go:86-102 | each code gets the trimmed cell of its last column present in the row, `_row` the row number, and there are no other keys |
| `SheetParser.RowDataUnique` | internal/parser/xls_parser.go:86-102 | that determines the row |
| `SheetParser.MapRows` | internal/parser/xls_parser.go:85-103 | the map of every data row, numbered from 2 |
| `SheetParser.Parse` | internal/parser/xls_parser.go:40-106 | which files are refused and why, and the rows of the others |
| `SheetParser.LimitsMean` | internal/parser/xls_parser.go:46-70 | a positive limit may be met exactly but not exceeded |
| `SheetParser.ParseIsDetermined` | internal/parser/xls_parser.go:72-106 | a file has one parse |
| `Numerals.AtoiOfItoa` | internal/usecase/bulk/service.go:131-135 | the row number noted by the parser reads back |
| `Numerals.ItoaIsDecimal` | internal/parser/xls_parser.go:101 | a written row number is decimal |
| `Validation.ByteLengthIsLengthIff` | pkg/validation/shared.go:65-71 | length limits count bytes: characters only for ASCII |
| `Validation.FieldPassesIff` | pkg/validation/shared.go:51-73 | when a field passes; both length bounds may be met exactly |
| `Validation.FaultCodes` | pkg/validation/shared.go:57-71 | the code of each fault and the order in which they are found |
| `Validation.ValidateRow` | pkg/validation/shared.go:79-88 | one error for each failing field, none twice, in any order; valid exactly when there is none |
| `Validation.ReportSize` | pkg/validation/shared.go:79-88 | as many errors as failing fields |
| `Validation.MandatoryFilledIff` | pkg/validation/shared.go:76-88 | a row that passes has its mandatory fields filled if and only if it has them at all |
| `Validation.AbsentFieldsPass` | pkg/validation/shared.go:51-55 | a row with none of the ruled fields passes |
| `Upload.JudgeRow` | internal/usecase/bulk/service.go:129-166 | both stages on one row: verdict, errors, and whether the remote validator was called |
| `Upload.CreateRowJob` | internal/usecase/bulk/service.go:177-196 | the job of a row carries its fields and the number the parser noted |
| `Upload.ProcessRows` | internal/usecase/bulk/service.go:128-207 | counts, errors, remote calls and jobs after the row loop |
| `Upload.AccountTells` | internal/usecase/bulk/service.go:140-176 | the remote validator is called for exactly the locally valid rows, in order; errors are in row order; a locally rejected row has one error for each failing field and an accepted row none |
| `Upload.CreatedJobs` | internal/usecase/bulk/service.go:177-206 | at most one new job for each row, all of the new batch |
| `Upload.EveryRowHasItsJob` | internal/usecase/bulk/service.go:177-206 | when jobs can be created every row, valid or not, has its job, numbered from 2 |
| `UploadEffects.RecordTells` | internal/usecase/bulk/service.go:97-98 | the stored record: pending, of the revision, with its rows counted and the file if these could be stored |
| `UploadEffects.SettingsLimit` | internal/usecase/bulk/service.go:65-89 | the limits an upload must keep: an environment setting replaces the row limit, and can only lower the size limit |
| `UploadEffects.JobTells` | internal/usecase/bulk/service.go:177-196 | a new job is pending, numbered from 2, and has the fields of its row but the row number |
| `UploadEffects.AcceptedIff` | internal/usecase/bulk/service.go:139-172 | a row counts as valid if and only if no field fails a rule and the remote validator, if any, says so |
| `UploadEffects.RemoteErrorsTold` | internal/usecase/bulk/service.go:152-169 | the errors reported for a row that the local rules let through |
| `UploadEffects.LocalErrorsTold` | internal/usecase/bulk/service.go:143-148 | each error of a row that they reject is that of one of its failing fields |
| `Upload.UploadFitsRun` | internal/usecase/bulk/service.go:97-206 | an upload is a step of the runs above |
| `Upload.StoreBatch` | internal/usecase/bulk/service.go:96-249 | what is stored after parsing, in every outcome; when the file cannot be stored the batch stays with every row counted as valid |
| `Upload.CreateBatchFromFile` | internal/usecase/bulk/service.go:55-249 | which uploads fail and leave nothing, and state and account of the others; valid and invalid rows add up to the data rows, which are within a positive limit |
| `BodyLimit.MaxBytesReader.Read` | internal/transport/http/handlers/maxbytes_reader.go:24-43 | one read: size, error, remaining budget, and the bytes in the buffer |
| `BodyLimit.DeliveredIsPrefix` | internal/transport/http/handlers/maxbytes_reader.go:24-43 | for any sequence of reads the delivered bytes are the beginning of the body, no more than the budget |
| `BodyLimit.TooLargeIff` | internal/transport/http/handlers/maxbytes_reader.go:25-27 | a read raises the too-large error exactly when the reads before it used up the budget |
| `BodyLimit.TooLargeForGood` | internal/transport/http/handlers/maxbytes_reader.go:25-27 | and then so does every later read |
| `BodyLimit.RefusedApartIff` | internal/transport/http/handlers/maxbytes_reader.go:31-36 | when the end is reported on a read of its own, a body is refused if and only if it is at least as long as the budget |
| `BodyLimit.RefusedTogetherIff` | internal/transport/http/handlers/maxbytes_reader.go:31-36 | when it is reported with the last byte, if and only if it is longer |

## Left out

- Unconfigured dependencies: repositories, producer and status topic are taken to be there; the branch of the confirmation handler without a service is not modelled.
- Concurrency on one batch: the loads and stores of one operation are not interleaved with another operation; the consumer is serial.
- Export queue with an unbuffered channel: a capacity of 0 is taken as a channel that is always full; the service uses 10.
- Floating point: percentages, tokens and times are reals; only the rounding of a stored timeout is modelled.
- Width of counts and sizes: counters, limits and byte sizes are unbounded integers; the product of the size setting in megabytes is not wrapped.
- Fixed window: Redis expires a key exactly one second after EXPIRE; its clock and eviction are not modelled.
- SQL text: queries are syntax trees; `WHERE 1=1`, column lists and driver conversions are not rendered. A table does not change while a client pages through it.
- Date texts: parsing of the cursor is a parameter; a time that was never set is absent.
- JSON text, UUID syntax, regular expressions, case folding, trimming and the reading of spreadsheets are parameters; text is a sequence of characters, measured in UTF-8 bytes where length limits are.
- Rules of a revision: loading them from YAML is not modelled; they are a parameter.
- Message metadata: timestamps, trace and correlation ids, and the constant fields of an event.
- `AdminStats`: it joins two WHERE clauses, so its query has no meaning to preserve.
- Authentication, HTTP framing, OpenAPI, templates, XLSX writing, the storage client, quote decoding, barcode texts, history tags, logging, metrics and tracing: plumbing without a hard property.
- The limits store and the sniffing of uploads: they would add easy members only.
