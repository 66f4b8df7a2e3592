# Job delivery protocol

This project models how Aegis Workers delivers a job: the API service that writes job rows and
publishes messages (`app/services/job_service.py`), and the worker task wrapper that consumes them
(`workers/base_task.py`). The two sides meet only through shared stores: the `jobs` table with its
transactions and unique index, the Celery broker, the Redis idempotency cache, the DLQ, and the
Prometheus counters.

`Protocol.dfy` is the protocol as a state machine. Every step is one effect at a point where the
code has one: SELECT, flush, send and commit of a create; read, revoke and update of a cancel;
`before_start`'s write, the cache check, `execute()`, the three effects of `on_success`, the five
of `on_failure`, the retry's publication, the ack. The environment contributes requests, exceptions
with their rollback, crashes, redeliveries of unacknowledged messages, failing database writes and
DLQ sends, and the passage of time. `Step` is total (an event that is not enabled changes nothing),
so every sequence of events is a schedule and `Run(c, es)` ranges over all reachable states. What
`execute()` does is chosen by the schedule.

`Stores.dfy`, `BaseTask.dfy` and `JobService.dfy` are the same code in its own, imperative form:
objects that update their fields, hooks that act one effect after the other, a session that rolls
back. Their methods are proved against the state machine, `Uninterrupted.dfy` shows that what they
do is a run, and `System.dfy` drives an arbitrary schedule through the objects. The other files
prove what holds of every run.

Where the code and its documentation disagree the model follows the code:

- The order is flush, send, commit (`app/services/job_service.py:111-128`), not commit before send
  (`README.md:244`). No committed job lacks its message (`NoLostEnqueue`), but a rollback after the
  send leaves an orphan message, which can decide the result of a later job (`OrphanDecides`);
  `ResultsStayOwnIff` says exactly when it still can.
- Status writes are unconditional. The status column follows the lifecycle of
  `app/models/job.py:32-34` under the named conditions of `ColumnFollowsLifecycle`, except that a
  ValidationError always takes it from DLQ back to FAILED for a moment; seen at delivery boundaries
  there is no exception (`RefinesLifecycle`). A terminal status is final under the exact condition of
  `TerminalIsFinalIff`.
- A create that reads before another one with its key commits, and flushes after, fails instead of
  returning the original job (`DuplicateFails`, `FlushFailsIff`); `README.md:149` holds for every
  create that reads after the commit (`LaterCreateFinds`, `ReadAnswersIff`).
- A ValidationError reaches `on_failure` twice, from `run` and from Celery
  (`workers/base_task.py:394-395`), and is counted twice (`AttemptsConserved`).
- `estimated_next_run` is computed from `retry_count`, which counts DLQ retries. While a Celery retry
  waits, an estimate is given exactly for a DLQ retry that is still PENDING (`EstimateGivenIff`), and
  it can then name a time at which nothing is due (`EstimateForRetry`).

Assumptions about the infrastructure, all built into `Protocol.dfy`: a Celery retry publishes the
same id and arguments with `retries` + 1; acks are late and an unacknowledged message may come back
at any time, even while its worker lives; an ETA is honoured; revoked ids are durable and a revoked
message is acknowledged unexecuted; the unique index counts rows of open transactions, on which a
conflicting flush waits; the cache evicts only by TTL; a JSON result survives its round trip; a
fresh uuid has not been named by anyone before.

## Model

| member | source | states |
|---|---|---|
| Stores.Database.FindByIdempotencyKey | app/services/job_service.py:329-333 | the committed row under this key; rows of open transactions are invisible |
| Stores.Database.Insert | app/models/job.py:68-73 | a key that is indexed, committed or still open, is never inserted twice |
| Stores.Database.Update | workers/base_task.py:134-166 | an absent result leaves the column alone, the increment starts from the stored value, other rows stay |
| Stores.Cache.Get | workers/base_task.py:77-97 | an entry is served until it expires; a stored null is not a miss |
| BaseTaskModel.BaseTask.UpdateStatus | workers/base_task.py:111-177 | a failing write is swallowed and changes nothing |
| BaseTaskModel.BaseTask.BeforeStart | workers/base_task.py:209-224 | RUNNING and one more execution, whatever the status was |
| BaseTaskModel.BaseTask.OnSuccess | workers/base_task.py:226-257 | row, counter and cache entry are all written, the entry with the TTL from now |
| BaseTaskModel.BaseTask.OnFailure | workers/base_task.py:259-319 | DLQ report, FAILED, DLQ, counter, gauge; a failing send or write stops none of the others |
| BaseTaskModel.BaseTask.OnRetry | workers/base_task.py:321-346 | exactly the retry counter moves |
| BaseTaskModel.BaseTask.Run | workers/base_task.py:352-400 | hit, success, ValidationError, last failure and retry: what run returns or raises and what it leaves behind |
| BaseTaskModel.BaseTask.CallHook | workers/base_task.py:226-346 | which hook follows which end of run, with a hit counted as a success |
| BaseTaskModel.BaseTask.Trace | workers/base_task.py:209-400 | a whole attempt equals the state machine's steps for every outcome and every failing write |
| BaseTaskModel.TraceIsWork | workers/base_task.py:209-400 | the 14 single effects compose to the hooks' effects and end in an ack |
| AttemptOutcomes.AttemptEnds | workers/base_task.py:374-400 | an attempt returns, retries or fails exactly as the cache, execute() and the retries used decide, with on_failure twice exactly for a ValidationError |
| AttemptOutcomes.AttemptSends | workers/base_task.py:274-281 | it publishes a retry exactly when it retries, with one more retry and due 10 * 2^retries seconds on, and a DLQ report for each on_failure whose send goes through |
| AttemptOutcomes.AttemptCounts | workers/base_task.py:239-335 | one success, one retry, or a failure and a gauge step for each on_failure |
| AttemptOutcomes.AttemptCaches | workers/base_task.py:248-250 | it caches what it returns for one TTL from now, a hit included, and caches nothing otherwise |
| AttemptOutcomes.AttemptWrites | workers/base_task.py:151-177 | with working writes its row ends COMPLETED with the answer, RUNNING or DLQ and is counted once; with failing writes no row changes; no other row ever does |
| RowHistory.FailedWriteChangesNothing | workers/base_task.py:168-177 | at every phase a failing write leaves all rows as they were |
| RowHistory.RowIsLastWrite | workers/base_task.py:139-166 | in every run a row holds the status of its job's last successful write and its last result other than null |
| JobServiceModel.Session.Flush | app/services/job_service.py:111-112 | a flush that wins opens a transaction, one that loses changes nothing |
| JobServiceModel.Session.RollBack | app/db/session.py:57-61 | undoes exactly the open insert |
| JobServiceModel.JobService.CreateJob | app/services/job_service.py:60-155 | for an exception at any step or none, state and reply are those of the protocol's call steps |
| JobServiceModel.JobService.CancelJob | app/services/job_service.py:197-237 | the same for cancel; revoked before the row is written |
| JobServiceModel.JobService.RetryDlqJob | app/services/job_service.py:243-319 | the same for a DLQ retry, with the metric counted before the reply and an exception possible between them |
| JobServiceModel.JobService.GetJob | app/services/job_service.py:161-191 | not found exactly when there is no committed row; otherwise that row and its estimate |
| JobServiceModel.JobService.SendAndCommit | app/services/job_service.py:114-128 | an exception before the send leaves nothing, one after it leaves the message without its row |
| JobServiceModel.InsertFails | app/db/session.py:57-61 | a call whose flush loses leaves the stores untouched and sends nothing |
| Replies.RetryReadIff | app/services/job_service.py:253-262 | a DLQ retry goes on exactly for a row in DLQ, with that row; NotFound exactly without a row, otherwise a conflict naming the row's own status |
| Replies.CancelReadIff | app/services/job_service.py:205-213 | a cancel goes on exactly for a PENDING row, with its celery id; NotFound exactly without a row, otherwise a conflict naming the row's own status |
| Replies.CreateRefusedIff | app/services/job_service.py:70-74 | a create is answered NotAllowed exactly when its task is not whitelisted |
| Replies.RefusalsAreTrue | app/services/job_service.py:60-262 | every NotAllowed, NotFound, conflict and existing-job reply in a run was true of the rows when its call read them |
| Replies.RefusalsChangeNothing | app/services/job_service.py:60-262 | no step of a refused call ever changed a store |
| Replies.ExceptionsUndoOnlyInserts | app/db/session.py:57-61 | an exception takes back the call's own open insert and nothing else |
| Replies.NoTransactionLeaks | app/db/session.py:57-63 | in every run an open row belongs to a call still at work on it |
| Replies.CancelledIsTrue | app/services/job_service.py:215-237 | whoever is told "cancelled": the job is committed and revoked, and that call itself wrote CANCELLED after the revoke |
| Replies.OnlyCancelsAreCancelled | app/services/job_service.py:233-237 | no other request is ever answered "cancelled" |
| Replies.OnlyFailedJobsAreRetried | app/services/job_service.py:257-274 | in every reachable state the parent of a row is a job that some delivery tried to send to the DLQ |
| Uninterrupted.AttemptIsRun | workers/base_task.py:209-400 | delivering a message and letting its hooks run is a run, ending in an acknowledged delivery |
| Uninterrupted.RequestIsRun | app/services/job_service.py:60-319 | serving a request from arrival to reply or rollback is a run |
| SystemModel.System.Drive | workers/celery_app.py:68-69 | any schedule leaves the objects in the state of its run, with the global invariant and justified statuses after every event |
| ApiInvariant.StepInv | app/services/job_service.py:60-319 | every event keeps the invariant; rows, messages on record, revocations and time never go back |
| ApiInvariant.RunInv | app/services/job_service.py:60-319 | index, calls, rows, messages and lineage are consistent in every reachable state |
| ApiInvariant.EffectFrame | workers/base_task.py:151-165 | a worker step touches its own job's row only, and no identifying column of it |
| ApiInvariant.EffectPublishes | workers/base_task.py:179-203 | workers publish a retry or a DLQ report and nothing else, with the code's fields |
| CreateRace.OneJobPerKey | app/services/job_service.py:76-155 | all successful replies for a key, in a whole run, name one job |
| CreateRace.OneCreatorPerKey | app/models/job.py:68-73 | at most one call per key ever gets was_created = True |
| CreateRace.RepliesStay | app/services/job_service.py:136-155 | a reply once given is never changed by what follows |
| CreateRace.LaterCreateFinds | app/services/job_service.py:77-101 | once a row is committed, answered or not, every create with its key that reads later returns that job, whatever happened in between |
| CreateRace.ReadAnswersIff | app/services/job_service.py:77-101 | the read of a whitelisted create ends the call exactly when a row under its key is committed |
| CreateRace.FlushFailsIff | app/services/job_service.py:111-112 | after a read that found nothing the flush fails exactly when a row under the key has been committed since |
| CreateRace.SendsAreSenders | app/services/job_service.py:111-124 | sends with a key and calls that sent with it are equally many: a call that lost the race sent nothing |
| CreateRace.SendsPerKey | app/db/session.py:57-61 | sends per key = (0 or 1) + rollbacks after a send, in every run |
| Lineage.NoLostEnqueue | app/services/job_service.py:103-128 | every committed row, from create or retry, had a message published and carries its id, at every crash point |
| Lineage.MessageAgrees | workers/base_task.py:400 | every retry and redelivery keeps its row's id, key, task name and payload, with at most max_retries retries |
| Lineage.MessagesOfJobAgree | workers/base_task.py:400 | messages of one job differ in retry number and ETA only, even for a row that was rolled back |
| MessageHistory.MessagesDerive | workers/base_task.py:400 | in every run each message is the API's first one, the retry of an attempt with its countdown, or exactly the message of a delivery put back |
| MessageHistory.EachTakenOnce | workers/celery_app.py:68-69 | every copy of a message that was taken went to exactly one delivery |
| Lineage.DlqAgrees | workers/base_task.py:274-281 | what reaches the DLQ names its row's task and payload |
| Lineage.OnlyWhitelisted | app/services/job_service.py:71-74 | every message on the default queue names a whitelisted task, though DLQ retry never checks |
| Lineage.DepthIsRetryCount | app/services/job_service.py:264-274 | retry_count is the length of the path to the root, whose task and payload the job has |
| Lineage.NoCycle | app/models/job.py:110-115 | no job is its own ancestor |
| Lineage.LineageForest | app/models/job.py:110-115 | in every reachable state parent links form a forest with retry_count as depth |
| Attempts.OneSendPerJob | app/services/job_service.py:114-124 | the API publishes one message per job id, in any run |
| Attempts.AttemptBound | workers/base_task.py:380-400 | attempts of a job <= (max_retries + 1) * (1 + its redeliveries), under any schedule |
| Tightness.AttemptBoundIsTight | workers/base_task.py:218-223 | for every retry limit and every number of redeliveries some run of a committed job reaches that bound with its attempts and its execution_count |
| Termination.Pays | workers/base_task.py:383-400 | every delivery, worker step and crash strictly lowers the work left; other events add at most what they supply |
| Termination.Terminates | workers/base_task.py:383-400 | worker steps in a run <= 15 * (max_retries + 1) * (sends + redeliveries) |
| Backoff.ChainBackoff | workers/base_task.py:381 | the countdowns of a full chain add up to 10 * (2^m - 1) seconds for every m |
| Backoff.RealTimeBackoff | workers/base_task.py:380-400 | retry number r never starts earlier than 10 * (2^r - 1) seconds after the job's first attempt, redelivered copies included |
| Tightness.BackoffIsTight | workers/base_task.py:380-400 | for every r up to the limit some run starts retry r exactly then |
| JobStatusHistory.NoLostIncrements | workers/base_task.py:151-157 | execution_count = before_start writes that reached the row, under any interleaving |
| JobStatusHistory.ExecutionCountBound | workers/base_task.py:218-223 | execution_count is at most the attempts, and obeys their bound |
| JobStatusHistory.StatusJustified | workers/base_task.py:218-298 | PENDING never counted, RUNNING counted, COMPLETED returned, FAILED and DLQ tried a DLQ send, CANCELLED revoked, in every reachable state |
| Accounting.CountersExact | workers/base_task.py:239-305 | each counter and the gauge equal the hooks that got as far as incrementing them |
| Accounting.AttemptsConserved | workers/base_task.py:239-400 | attempts = executed + hits + retries + terminal + crashed + in flight; the counters match, ValidationErrors twice, up to hooks cut off midway |
| Accounting.CountersTellAttempts | workers/base_task.py:239-305 | once every delivery has ended, attempts = the three counters minus finished ValidationErrors |
| Accounting.RetriesExact | app/services/job_service.py:292-297 | the dlq_retry counter equals the retry calls that got as far as counting, whether their client was answered or not |
| DbIndependence.RunsIndistinguishable | workers/base_task.py:168-177 | two continuations that differ only in failing worker writes stay equal but for status columns |
| DbIndependence.DbFailuresInvisible | workers/base_task.py:168-177 | the same sends, retries, countdowns, DLQ messages, cache, metrics, replies and return values whatever writes fail |
| Idempotency.EntryIsLastStore | workers/base_task.py:99-109 | a key is cached exactly when a result was stored under it; its entry is the last one, expiring one TTL after it |
| Idempotency.HitWithinTtlIff | workers/base_task.py:85-97 | a check hits exactly within the TTL of the last store, and yields that result, null included |
| Idempotency.EffectsExact | workers/base_task.py:237-250 | serial deliveries checked in time: successful executions = (1 if cached) + crashes before the store + (1 if one is there now) |
| Idempotency.NoExecutionAfterStore | workers/base_task.py:375-385 | in such runs no delivery executes once the key is cached |
| Idempotency.SlidingWindow | workers/base_task.py:248-250 | once a key is cached and no other result is under way, while each check comes within the TTL of the last store: execute() is not called again and every later delivery that returns, returns that value, null included |
| CacheAgreement.CacheAndRowAgree | workers/base_task.py:237-250 | while a key's entry is live its row's result equals it, through crashes inside on_success and whatever happens to other keys |
| Provenance.RunProduced | workers/base_task.py:77-109 | every cached and every returned value is one that execute() returned in a delivery with the same key |
| Provenance.ResultsAreOwn | app/db/session.py:57-61 | if no call with its key was rolled back after its send, whatever is cached or returned for a committed job its own execute() produced |
| Provenance.RetryNeverSuppressed | app/services/job_service.py:264-287 | what is cached under a DLQ retry's key a delivery of that very job produced |
| Provenance.RetryFirstAttemptExecutes | workers/base_task.py:375-385 | until then every check of a DLQ retry goes on to execute() |
| KeyOwnership.RetryLeavesRows | app/services/job_service.py:264-290 | a retry call changes no existing row, its original included |
| KeyOwnership.KeyIsOwnIff | app/db/session.py:57-61 | no other job's message carries a committed job's key, exactly when no call with the key was rolled back after its send |
| ForeignResults.SecureForever | workers/base_task.py:375-378 | a secure job returns only its own values under every schedule |
| ForeignResults.InsecureActs | workers/base_task.py:375-378 | a job that is not secure returns another job's value under some schedule |
| ForeignResults.ResultsStayOwnIff | app/services/job_service.py:111-128 | a committed job returns only its own values in every continuation exactly when its results are its own so far and either it will not check again, or no foreign message with its key is left and any foreign entry expires before it can check |
| Cancellation.StaysCancelled | app/services/job_service.py:205-229 | CANCELLED with no writer at work stays, with its execution_count, in every continuation |
| Cancellation.CancelIsPermanent | app/services/job_service.py:205-229 | with no delivery in flight from the read to the reply: CANCELLED, execution_count 0 and no new attempt, for ever |
| Finality.FinalForever | workers/base_task.py:218-298 | a final status survives every schedule |
| Finality.NotFinalActs | workers/base_task.py:218-223 | a status that is not final is overwritten by some schedule |
| Finality.TerminalIsFinalIff | app/models/job.py:32-34 | COMPLETED, DLQ and CANCELLED are absorbing exactly when no delivery at work leads elsewhere, no message of the job can start, and no cancel is between read and write |
| Lifecycle.RunFits | app/models/job.py:32-34 | where the run was orderly for a job, its row, messages, attempts and cancels fit one another, whatever happens to other jobs |
| Lifecycle.OneTokenOrFinished | workers/base_task.py:209-400 | such a job, once committed, has one live message or attempt, or is finished |
| Lifecycle.DrainedIsFinished | workers/base_task.py:209-400 | once the broker is drained of such a job it is COMPLETED, DLQ or CANCELLED, orphans of other jobs or not |
| Lifecycle.RefinesLifecycle | app/models/job.py:32-34 | every event moves such a job along the documented lifecycle or not at all, seen at delivery boundaries: RUNNING while an attempt holds it |
| Lifecycle.ColumnFollowsLifecycle | app/models/job.py:32-34 | the status column itself makes only the documented moves, and DLQ to FAILED exactly when Celery's on_failure after a ValidationError writes |
| Estimate.EstimateGivenIff | app/services/job_service.py:172-175 | in every run, with a Celery retry among a job's messages: an estimate is given exactly when it is a DLQ retry and PENDING, and then no before_start write of it reached the row |
| Estimate.EstimateDoubles | app/services/job_service.py:172-175 | the first DLQ retry is put 20 seconds ahead and each further one twice as far |
| Estimate.EstimateExceedsBackoff | app/services/job_service.py:172-175 | the estimate for retry_count r lies 10 seconds beyond all the backoff that r Celery retries ask for |
| Estimate.EstimateMisses | app/services/job_service.py:172-175 | where the run was orderly for the job, a waiting Celery retry gets no estimate, and an estimate is only given to jobs whose messages are already due |
| Estimate.NoEstimateForRetry | app/services/job_service.py:172-175 | a reachable waiting retry without an estimate |
| Estimate.EstimateForRetry | app/services/job_service.py:172-175 | a reachable waiting retry with an estimate, 20 seconds ahead while the retry is due in 10 |
| AtLeastOnce.NeverDropped | workers/celery_app.py:68-69 | in every run a published job has a message waiting, a delivery the broker still answers for, or a concluded attempt |
| AtLeastOnce.DrainedIsConcluded | workers/celery_app.py:68-69 | once the broker holds no message of a committed job, it was revoked or an attempt returned or failed for good, under any crashes and redeliveries |
| Counterexamples.OrphanDecides | app/services/job_service.py:111-128 | a rolled-back create's result becomes the result of the repeated create, which never executes |
| Counterexamples.CompletedIsNotFinal | workers/base_task.py:218-223 | a reachable COMPLETED that a redelivered copy will overwrite |
| Counterexamples.CancelledIsNotFinal | app/services/job_service.py:209-228 | a reachable CANCELLED that an overlapping delivery will overwrite |
| Counterexamples.DuplicateFails | app/services/job_service.py:76-112 | two equal creates that both read first: one is created, the other fails and sends nothing |

## Left out

- Lifecycle.RefinesLifecycle: holds where the run was orderly for the job (no crash or redelivery of it, working status writes, a commit before its first delivery, no cancel overlapping its delivery or cut short); without that Finality.TerminalIsFinalIff and AtLeastOnce.NeverDropped say what remains.
- Lifecycle.ColumnFollowsLifecycle: under the same conditions.
- DbIndependence.DbFailuresInvisible: the continuations read no status, because cancel and DLQ retry decide by it; any such call may precede them.
- CacheAgreement.CacheAndRowAgree: assumes, for deliveries of the key, non-null results (a null result does not overwrite the result column), working status writes and a commit before delivery.
- The methods of `JobService` serve one request at a time; requests that interleave with each other and with workers are `SystemModel.System.Handle` and every theorem about `Run`.
- The UPDATE and the commit of a cancel are one step, and so is each worker UPDATE with its commit: row locks make the pair atomic to others.
- The `autoretry_for` wrapper (`workers/base_task.py:45-49`): library behaviour around `run`; the explicit retry and raise branches are modelled.
- Exceptions out of Redis calls and out of the publication of a retry; failures of the DLQ send and of status writes are modelled.
- The fallbacks of `job_id` and `idempotency_key` to the Celery id: every sender in the repository passes both.
- Stores.Database.Update: does not model `worker_id`, `error_detail` and the timestamps, which no other step reads.
- BaseTaskModel.BaseTask.UpdateStatus: the same columns.
- BaseTaskModel.BaseTask.BeforeStart: the same columns.
- BaseTaskModel.BaseTask.OnSuccess: does not model the duration histogram, nor an exception out of `setex`.
- BaseTaskModel.BaseTask.OnFailure: does not model the error text in the row and in the DLQ message.
- BaseTaskModel.BaseTask.Run: does not model exceptions out of the cache check and out of the publication of a retry.
- JobServiceModel.JobService.CreateJob: its reply carries the id and the key, not the other columns of the row.
- ForeignResults.ResultsStayOwnIff: assumes a positive result TTL, without which Redis refuses the store.
- Error text, `worker_id`, `updated_at` and the other timestamps, `dlq_message_id`, the per-row `max_retries` column, and the duration histogram.
- Identifiers, task names and payloads are opaque numbers that are only compared; a DLQ retry's key is a constructor of its own instead of a string prefix, so no client can spell one that has not been drawn.
- A blocked flush is modelled as a step that can be tried again; the order in which waiting transactions are woken is not.
- The beat job that overwrites the DLQ gauge (`workers/celery_app.py` schedules it), so the gauge here only counts `on_failure`.
- `workers/tasks/email_task.py`: its functions only forward to `run`, so `execute()` is an arbitrary outcome chosen by the schedule.
- Routes, rate limiting, CORS, health check, schema and settings validation, logging, tracing, metrics formatting, migrations and deployment files: no part of the protocol.
