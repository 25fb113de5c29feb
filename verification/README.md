# A model of the durable job pipeline

The repository is a background job pipeline: jobs and their dispatch requests are written to PostgreSQL in
one transaction, an outbox publisher hands the requests to a broker, workers run attempts under row locks,
and a sweeper, a dead-letter queue and idempotency keys deal with what goes wrong. This project models that
protocol and proves what it keeps over every run and every interleaving.

## Layers

| files | what they hold |
|---|---|
| `Rows.dfy`, `Pipeline.dfy`, `Outbox.dfy`, `Submission.dfy` | the four tables, and each operation as a function on the rows it touches |
| `Protocol.dfy`, `Chains.dfy`, `Steps.dfy` | the atomic machine: committed rows, broker messages `(job, retries)` and a history; every step is one whole transaction or one broker operation |
| `History.dfy`, `Safety.dfy`, `Delivery.dfy`, `Sums.dfy`, `Theorems.dfy`, `Quiescence.dfy` | invariants of the atomic machine, the theorems about all its runs, and where it comes to rest |
| `Effects.dfy` | what each step leaves in the rows and the broker, and which calls go through, with every status, column and comparison written out instead of named |
| `Transactions.dfy`, `Refinement.dfy`, `Concurrency.dfy`, `Alone.dfy` | the concurrent machine (in-flight transactions with locks, captured rows and split reads, inserts, re-reads, executor, finalization, commit, abort), its refinement to the atomic machine, what follows for everything in flight, and the other direction: undisturbed transactions perform every atomic step |
| `Publishers.dfy` | publishers that do not overlap on an event, and what an overlap can do |
| `UnitsOfWork.dfy`, `Worker.dfy`, `Services.dfy`, `Sweeper.dfy`, `PublisherLoop.dfy` | the code in its own imperative form, proved against the row functions, the atomic decisions and the drain function |
| `Drain.dfy`, `DrainRuns.dfy`, `DrainLaws.dfy` | the publisher's drain loop as a function: measure under the commits of others and database errors, batch-size independence, its being a serial run of the atomic machine, and which events it claims, when it claims one again, what it leaves and what it counts |
| `Ordering.dfy`, `Pagination.dfy`, `Backoff.dfy`, `Findings.dfy` | ordered queries, keyset pagination, delays, and where the code falls short of its documentation |

A transaction of the concurrent machine computes what it writes from the rows it captured when it read them,
never from the rows as they are when it commits. That its captured rows are still the committed ones is the
invariant `TxnsOk`, proved from the locks.

## Assumptions

- A unit of work commits on clean exit and rolls back on an exception. Services are modelled inside such a
  unit of work; the HTTP session dependency, which never commits, is not modelled.
- An executor does not commit the unit of work it is handed.
- A broker message disappears only after its handler has returned or its successor has been enqueued; an
  unhandled failure leaves it deliverable, and it may be delivered again or copied at any time.
- A message is in the hands of one worker at a time; a second delivery is a repeated or a copied message.
- A failed flush or commit aborts the whole transaction; inside a savepoint it undoes only the savepoint.
- Ids are fresh when drawn. An executor that looks up a missing report id holds that id: no later report
  is created with it while the attempt runs.
- One attempt has one start time and one finish time, and one sweep uses one clock reading for its rows.
- Job ids and event ids are numbers whose order stands for the order on the id strings.

## Findings

- **The sweeper does not recover every job left RUNNING.** docs/architecture.md:278 and 338-341 of the
  repository say it does. When the executor has completed the report and `finalize_attempt` then fails in its
  savepoint, READY is committed with the job left RUNNING. The sweeper resets the job, but every later attempt that
  gets to the report finds it not PENDING, raises an unclassified error and is rolled back. Exactly: of the report
  jobs left RUNNING, those whose report is still PENDING are recovered by a sweep, a dispatch and an attempt, and
  the others by nothing (`Findings.RecoverableIff`, `Findings.SweepRecovers`, `Theorems.OrphanNeverCompletes`;
  a run: `Findings.LostJobReachable`).
- **A report job is lost whenever its report is generated without it**, a swallowed finalization or not: another
  report.generate job for the report may complete it first, or the job may be submitted when the report is READY
  already. `Findings.OrphansAriseIff` lists every way, `Findings.LostToSiblingReachable` is a run in which all
  finalizations succeed. The messages of such a job are redelivered for ever (`Quiescence.StalledIff`); they are
  the only thing that can keep a system in which nothing fails from draining (`Quiescence.ComesToRest`,
  `Quiescence.RestingJobs`).
- **A worker crash never leaves RUNNING behind.** README.md:183 of the repository says it may. The RUNNING
  status is written in the same transaction as the outcome, so only a swallowed finalization commits it
  (`Theorems.RunningWasSwallowed`).
- **Overlapping publishers can undo a settled event.** After a failed dispatch the row lock is dropped and the
  row is fetched again without one (src/outbox/service.py:237-247). `Publishers.OverlapUnpublishes` is a run in
  which a PUBLISHED event returns to PENDING, or becomes FAILED if its retries are used up;
  `Publishers.OverlapRevives` one in which a FAILED event returns to PENDING. `Publishers.FailureUnpublishesIff` and
  `Publishers.FailureRevivesIff` say exactly when a recorded failure overwrites the row. Without overlap both
  outcomes are absorbing.
- **The empty idempotency key is not idempotent.** It is stored and unique-indexed, but the recovery code
  treats it as no key, so repeating a submission fails (`Findings.EmptyKeyRefusedReachable`), and only for that key
  (`Findings.RepeatAcceptedIff`).
- **A duplicate delivery is a no-op only for a COMPLETED, DEAD or missing job** (`Findings.DeliveryIsNoopIff`).
  README.md:180 of the repository says it is deduplicated; delivered to a job back in PENDING, or left RUNNING,
  it runs another attempt (`Findings.DuplicateRunsAgain`). `Theorems.AttemptsBounded` counts such deliveries.
- **The 600 second cap on publish retries** (docs/architecture.md:333) **is never reached**:
  `Backoff.OutboxDelayBelowCap`.
- **The duplicate branch of `begin_attempt` is unreachable**: `Worker.NeverDuplicate`,
  `Concurrency.AttemptInFlight`. So is `ReportJobAlreadyAttached`: `Concurrency.RecoveredCreateAttaches`.

## Model

| member | source | states |
|---|---|---|
| Refinement.RunRefines | src/jobs/runner.py:249-273 | any interleaving of in-flight attempts, sweeps, DLQ retries, submissions, report creations and publishers, projected to committed rows, messages and history, is a run of the atomic machine; an aborted transaction leaves no trace |
| Refinement.StepKeepsConcInv | src/jobs/pipeline.py:41-69 | every step keeps all invariants, and every row a transaction captured under lock is still the committed one |
| Refinement.CommitRefines | src/db/unit_of_work.py:46-55 | a transaction that commits what it computed from captured rows performs exactly one atomic step on the current rows |
| Refinement.TxnWritesLocked | src/jobs/repository.py:78-81 | a transaction writes only rows and unique-index entries it has locked, and only its own message |
| Alone.StepAlone | src/db/unit_of_work.py:46-55 | from any state with nothing in flight, one transaction, or the broker, performs each atomic step an undisturbed call can make, so the concurrent machine refuses nothing the atomic one does |
| Alone.RoundsAlone | src/jobs/runner.py:249-273 | whatever undisturbed calls, deliveries and publishers do in any order is a run of the concurrent machine |
| Alone.LateCreation | src/apps/reports/service.py:128-158 | of two simultaneous create_report calls with one new key that both miss it in the first read, one inserts and the other recovers with the same report and job |
| Concurrency.ReachableUnderConcurrency | src/db/unit_of_work.py:46-55 | the reachable committed states under concurrency are reachable states of the atomic machine |
| Concurrency.OneWriterPerJob | src/jobs/repository.py:78-81 | attempts, sweeps and DLQ retries in flight never share a job |
| Concurrency.SweeperSafe | src/jobs/repository.py:50-64 | a sweep in flight holds only jobs whose finalization was swallowed, and none with an attempt in flight |
| Concurrency.RecoveredCreateAttaches | src/apps/reports/service.py:42-64 | a create_report that recovered from a violation never meets a key conflict, and its job is the one attached to the report |
| Concurrency.AttemptInFlight | src/jobs/pipeline.py:63-67 | the row an attempt works on is still the committed one and its attempt number is free |
| Effects.DeliveryDecides | src/jobs/runner.py:46-86 | on the rows and message a finalized delivery leaves: PENDING with a successor exactly for a retryable error with retries left; DEAD without one exactly for a non-retryable error, no executor, or a retryable error with none left; COMPLETED exactly when the executor returned; the attempt row FAILED with that error or SUCCEEDED; any other exception leaves nothing |
| Effects.GenerateEnds | src/apps/reports/executors.py:22-63 | how the report executor ends for every payload and report row, with which error, and what it writes: a READY report and a result with its id, time and attempt number |
| Effects.AttemptReports | src/apps/reports/service.py:161-183 | an attempt changes at most the report its payload names, only when its executor returned, and only to READY with the result |
| Effects.FinishedStays | src/jobs/pipeline.py:24-46 | no step but a DLQ retry of it changes the row or the attempts of a COMPLETED or DEAD job, and none changes a COMPLETED one |
| Effects.FinishedStaysAlongRuns | src/jobs/pipeline.py:45-46 | along every run without a DLQ retry of it, a COMPLETED or DEAD job keeps its row and its attempts |
| Effects.DlqRetryLeaves | src/jobs/service.py:94-110 | a DLQ retry takes a DEAD job to PENDING without error and result, and keeps its attempts and their number |
| Effects.SweepChanges | src/jobs/repository.py:57-63 | a sweep changes only jobs that were RUNNING and last updated before its cutoff, to PENDING with the sweeper's note, and leaves every other job and all attempts as they are |
| Effects.SweptIsNotSweptAgain | src/jobs/pipeline.py:127-139 | a job a sweep has reset is not reset by a sweep whose cutoff is not past that reset |
| Effects.ServiceEventsDue | src/outbox/service.py:36-50 | every event that a submission, a report creation, a DLQ retry or a sweep inserts is PENDING with no next attempt time, hence due at every time |
| Effects.SubmitLeaves | src/jobs/service.py:22-53 | an accepted submission returns a job of its type, payload and key: a new PENDING row if no row had the key, else that row unchanged; with one due event |
| Effects.CreateReportLeaves | src/apps/reports/service.py:128-158 | the report returned has the key and a report.generate job of the same key whose payload names it; an existing report is left as it was |
| Effects.AcceptedIff | src/jobs/service.py:121-169 | exactly which submissions are accepted, on the keys, types and payloads of the committed jobs; the others are refused |
| Effects.CreationGoesThroughIff | src/apps/reports/service.py:80-158 | exactly which report creations past their first read go through, on the keys of reports and jobs |
| Effects.RetryIsDueIff | src/outbox/service.py:78-95 | after a transient failure with retries left the event is PENDING with one more retry and can be claimed at t exactly when now + delay <= t |
| Effects.OverwritesColumns | src/outbox/service.py:237-247 | a failure recorded over a row others changed overwrites exactly the columns whose value it changes from the row it fetched |
| Effects.MessageLife | src/jobs/runner.py:339-364 | from which phases a message can be acknowledged, followed by its retry, skipped, delivered again or copied, and what each leaves |
| Theorems.RunKeepsInv | src/jobs/models.py:68-75 | every run keeps every invariant, changes no attempt row, deletes nothing, and leaves COMPLETED jobs, report keys and attached job ids as they were |
| History.StepKeepsHistory | src/jobs/pipeline.py:48-69 | every atomic step keeps attempt numbers 1..attempts, at most one success, status coupling, and never rewrites an attempt row |
| Theorems.HistoryAgrees | src/jobs/pipeline.py:98-110 | COMPLETED, DEAD, RUNNING and PENDING each agree with the last attempt; a DEAD job carries that attempt's error |
| Theorems.OneRecordedSuccess | src/jobs/pipeline.py:45-46 | a job is COMPLETED if and only if it has a SUCCEEDED attempt, which is its last; a result exists only then |
| Theorems.NextAttemptNumberFree | src/jobs/models.py:72-75 | the next attempt number of a job is never taken |
| Theorems.RunningWasSwallowed | src/jobs/runner.py:120-141 | only a swallowed finalization leaves a committed job RUNNING |
| Theorems.AttemptsBounded | src/jobs/runner.py:67-84 | attempts plus those outstanding messages can still cause are at most (max_retries + 1) times the dispatches and repeated deliveries |
| Theorems.WorkersDrain | src/jobs/runner.py:339-364 | without new dispatches, repeats or rolled-back attempts, every worker step consumes a measure of the broker |
| Theorems.WorkersStopOnlyWhenDrained | src/jobs/runner.py:356-364 | no worker step is possible exactly when every message is acknowledged |
| Delivery.StepLosesNoJob | src/outbox/service.py:215-249 | every atomic step, crashes between dispatch, commit and retry included, keeps each PENDING job covered by an undispatched event or a live message |
| Theorems.NoJobLost | src/jobs/service.py:37-53 | a reachable PENDING job has an unpublished or FAILED event, or a message still to be handled or retried |
| Quiescence.QuiescentJobs | src/outbox/service.py:252-269 | with no worker step enabled, no PENDING event and no RUNNING job, every job is COMPLETED, DEAD or has a FAILED event |
| Quiescence.ComesToRest | src/jobs/runner.py:339-364 | from every state with the invariants, sweeps, publishers and workers in which nothing fails reach a state with no RUNNING job, no PENDING event and no message but those of jobs that can never complete |
| Quiescence.RestingJobs | src/jobs/pipeline.py:24-31 | in that state every job is COMPLETED or DEAD, has a FAILED event, or can never complete |
| Quiescence.StalledIff | src/apps/reports/service.py:177-178 | an attempt without faults goes through exactly for a job that is not one of those |
| Theorems.NamesExist | src/jobs/runner.py:316-319 | no event or message names a missing job, no message is past max_retries, no event past MAX_PUBLISH_RETRIES, every PUBLISHED event was dispatched |
| Theorems.EventsMatchCalls | src/jobs/service.py:44-51 | a job has as many dispatch events as submissions that returned it, DLQ retries of it and sweeper resets of it |
| Safety.StepKeepsKeys | src/jobs/models.py:37-44 | every step keeps idempotency keys unique in both tables |
| Theorems.SameKeySameJob | src/jobs/service.py:133-169 | all successful submissions with one key returned the same job and were the same request |
| Theorems.RefusalIsConflict | src/jobs/service.py:129-130 | a submission refused under a non-empty key that others got a job for differed from theirs |
| Safety.StepKeepsLinks | src/apps/reports/service.py:105-125 | every committed report names a report.generate job with its own key and a payload naming that report |
| Theorems.SameKeySameReport | src/apps/reports/service.py:138-158 | all successful create_report calls with one key returned one report and one job |
| Theorems.ReportJobInjective | src/apps/reports/service.py:53-64 | every committed report has a job and no two reports share one |
| Theorems.RepeatedCreateSucceeds | src/apps/reports/service.py:80-102 | a create that missed a committed report in its first read succeeds with that report and job, inserting neither |
| Safety.StepKeepsAgreement | src/apps/reports/executors.py:55-63 | every step keeps reports and report jobs in agreement |
| Theorems.ReportsAgree | src/apps/reports/service.py:169-183 | a COMPLETED report job's report is READY with the job's result, at most one such job per report; a READY report has a COMPLETED job or one with a swallowed finalization |
| Theorems.CompletesIff | src/apps/reports/executors.py:47-63 | an attempt of a report job commits COMPLETED exactly when its report is PENDING, an executor is registered, and neither the database nor the finalization fails |
| Theorems.OrphanNeverCompletes | src/apps/reports/service.py:177-178 | a report job that is not COMPLETED while its report is READY is never COMPLETED in any continuation |
| Findings.LostJobReachable | src/jobs/runner.py:120-141 | such a job, left RUNNING by a swallowed finalization, is reachable |
| Findings.LostToSiblingReachable | src/jobs/service.py:22-53 | such a job is reachable with every finalization successful |
| Findings.OrphansAriseIff | src/jobs/runner.py:199-219 | a step makes a report job one that can never complete exactly when it generates the PENDING report in an attempt of another job, or in the job's own attempt with its finalization swallowed, or inserts the job for a READY report |
| Findings.SweepRecovers | src/jobs/pipeline.py:136-147 | a job left RUNNING whose report, if it has one, is PENDING is COMPLETED after one sweep, one dispatch and one attempt |
| Findings.RecoverableIff | src/jobs/pipeline.py:113-149 | a report job left RUNNING is COMPLETED by some continuation exactly when its report is PENDING |
| Findings.DeliveryIsNoopIff | src/jobs/pipeline.py:41-46 | a delivery is a no-op exactly when its job is missing, COMPLETED or DEAD; otherwise it records one more attempt |
| Findings.DuplicateRunsAgain | src/jobs/pipeline.py:45-60 | one submission, one dispatch and one repeated delivery reach two attempts, without a retry message |
| Findings.RepeatAcceptedIff | src/jobs/service.py:144-169 | repeating a committed keyed submission succeeds, with the same job, exactly when the key is not empty |
| Findings.EmptyKeyRefusedReachable | src/jobs/service.py:160-169 | a reachable state in which the same call that created the only job, with the empty key, is refused |
| Publishers.SettledEventsAbsorbing | src/outbox/service.py:301-303 | while failures are recorded on the row as claimed, PUBLISHED and FAILED rows never change |
| Publishers.ExhaustedEvent | src/outbox/service.py:252-269 | an event FAILED by exhaustion has exactly MAX_PUBLISH_RETRIES + 1 recorded failures |
| Publishers.NonOverlappingIsSerial | src/outbox/service.py:299-316 | publishers that never work on one event at once record every failure on the row as claimed |
| Publishers.NonOverlappingAbsorbing | src/outbox/repository.py:40-43 | with such publishers PUBLISHED and FAILED are absorbing in every interleaving with everything else |
| Publishers.FailureUnpublishesIff | src/outbox/service.py:237-247 | a failure recorded over a PUBLISHED row leaves it PUBLISHED exactly when the status it decides is the one the row was re-fetched with |
| Publishers.FailureRevivesIff | src/outbox/service.py:237-247 | a failure recorded over a FAILED row leaves it FAILED exactly when it decides FAILED or the row was re-fetched PENDING |
| Publishers.OverlapUnpublishes | src/outbox/service.py:233-249 | from any quiet state with a PENDING event, two overlapping publishers can publish it and then put it back to PENDING, or to FAILED if its retries are used up |
| Publishers.OverlapRevives | src/outbox/service.py:233-249 | they can also fail it for good and then put it back to PENDING, while it has retries left |
| Drain.SettlingFalls | src/outbox/service.py:88-95 | every settled event lowers the measure, even if it is due again at once, and makes at most one dispatch |
| Drain.BatchFalls | src/outbox/service.py:291-323 | a full batch comes closer to the time others stop committing, and from then on strictly lowers the measure, so the drain loop terminates |
| Drain.DispatchesBounded | src/outbox/service.py:289-325 | an invocation makes at most as many dispatches as the measure it consumes and others add meanwhile, and one more if the database raises, for any clock, dispatcher, jitter and limit |
| Drain.DrainIsOnePass | src/outbox/service.py:289-325 | with a frozen clock and a reliable dispatcher, any limit >= 1 dispatches exactly the due supported events once each in (created_at, id) order and fails the unsupported ones |
| Drain.BatchSizeIrrelevant | src/outbox/service.py:320-323 | any two limits >= 1 give the same table, dispatches, order and count |
| Drain.ZeroLimitStops | src/outbox/service.py:296-297 | a limit of 0 reads the table once and processes nothing |
| Drain.DueAfterBatch | src/outbox/repository.py:72-85 | after a batch is settled, the due events are the rest of the ordered list |
| DrainLaws.BatchIsOldestDue | src/outbox/repository.py:72-85 | a batch is the `limit` oldest PENDING events whose next attempt is not set or not in the future, oldest first by (created_at, id), and nothing else |
| DrainLaws.NewWorkIsDispatched | src/outbox/service.py:289-325 | the event of any new work is due at every time, and the next invocation with a reliable dispatcher dispatches and publishes it, whatever the limit >= 1 |
| DrainLaws.FailureWaits | src/outbox/service.py:78-95 | the row an invocation leaves after a transient failure is PENDING, due exactly from the time of the failure plus the drawn wait on, the wait being at most 30, 60, 120, 240 or 480 seconds by retry |
| DrainLaws.RedispatchWaits | src/outbox/service.py:289-325 | an invocation dispatches an event whose dispatch failed in passing again only after a claim has read a time not before that, whatever else it meets |
| DrainLaws.SettledByOthersIsSkipped | src/outbox/service.py:301-303 | an event that others settle between its claim and its lock is neither dispatched nor changed nor counted |
| DrainLaws.CountIsPublished | src/outbox/service.py:289-325 | the count returned is the number of events the invocation made PUBLISHED, whatever fails |
| DrainRuns.InvocationIsSerialRun | src/outbox/service.py:299-316 | an invocation while no one else commits is a run of the atomic machine with failures recorded as claimed, database errors included, so all invariants hold throughout it |
| PublisherLoop.Publisher.HandlePublishFailure | src/outbox/service.py:149-196 | FAILED when the error is terminal or five retries are used up, else PENDING with one more retry and its next attempt the drawn wait after the failure |
| PublisherLoop.Publisher.PublishSingleEvent | src/outbox/service.py:199-249 | settles one claimed event; a failure after marking undoes the mark first; true exactly when published |
| PublisherLoop.Publisher.ProcessEvent | src/outbox/service.py:299-318 | locks, re-checks and settles one event and counts it; if its commit raises, the row is as it was and only the dispatch remains |
| PublisherLoop.Publisher.GetPendingBatchIds | src/outbox/repository.py:59-85 | the first `limit` PENDING events that are due, oldest first by (created_at, id) |
| PublisherLoop.Publisher.PublishPendingEvents | src/outbox/service.py:272-325 | the nested loops compute the drain function, end with its count or in the database's error, and terminate, with rows of others arriving before every query; without such rows the count is the number of events that became PUBLISHED |
| Ordering.KeysetIsOffset | src/jobs/repository.py:33-46 | the rows after the n-th in sort order are those its key precedes |
| Pagination.PageIsNewest | src/jobs/repository.py:31-47 | a page holds the `limit` newest jobs of the status older than the cursor's, newest first by created_at and then id, and leaves out only older ones |
| Pagination.PagesAreTheList | src/jobs/repository.py:18-47 | on a frozen table, pages of any size >= 1 concatenate to the full list sorted by (created_at, id) descending |
| Pagination.NoJobTwice | src/jobs/repository.py:33-44 | whatever changes between calls, no job is returned twice, and each has the status when it is returned |
| Pagination.NoJobMissed | src/jobs/repository.py:34-44 | every job in the status throughout is returned by the time a page is short, even when the cursor job has left the status |
| Pagination.ExtendsKeepsRows | src/db/mixins.py:29-31 | any two states of a run are snapshots as those results need them: no job deleted, created_at unchanged |
| Sweeper.ListStuckRunning | src/jobs/repository.py:50-64 | distinct unlocked RUNNING jobs last updated before the cutoff, at most `limit`, all of them if fewer |
| Sweeper.ResetStuckRunningJobs | src/jobs/pipeline.py:113-149 | one sweep is one Sweep step; every job it resets was RUNNING and last updated before the cutoff, every other row stays, none of those is left out if the count is below `limit`, and the count is the number of jobs moved to PENDING and of due events created |
| Sweeper.SweepsEmptyTheStuckSet | src/jobs/pipeline.py:127-149 | k full sweeps of n RUNNING jobs leave exactly n - k * limit, none once k * limit >= n |
| Backoff.RetryCeilingMonotone | src/jobs/utils.py:52-55 | for base >= 1 and cap >= 1 the delay ceiling never falls and stays within 1..cap |
| Backoff.RetryCeilingGrows | src/jobs/utils.py:52-55 | the ceiling is 1 before the first retry and each retry multiplies it by the base, up to the cap |
| Backoff.DefaultCeilings | src/jobs/utils.py:41-50 | with base 2 and cap 60 it is 1, 2, 4, 8, 16, 32 seconds and then 60 |
| Backoff.TotalCountdown | src/jobs/utils.py:52-55 | any draws for R retries add up to at most R * cap and at most the geometric sum |
| Backoff.OutboxDelayBelowCap | src/outbox/utils.py:52-55 | a retried failure leaves the event due after the drawn wait, at most 30, 60, 120, 240 or 480 seconds by retry, so the 600 second cap is never reached |
| Backoff.OutboxTotalDelay | src/outbox/service.py:88-94 | over the life of an event the waits its rows prescribe, from each failure to its next attempt time, are at most 930 seconds in all |
| UnitsOfWork.UnitOfWork.Exit | src/db/unit_of_work.py:46-55 | all of the session is committed or none of it |
| Worker.BeginAttempt | src/jobs/pipeline.py:34-69 | missing, COMPLETED, DEAD and duplicate jobs are left alone; otherwise the job is RUNNING with one more attempt and no error, with a RUNNING attempt row |
| Worker.FinalizeAttempt | src/jobs/pipeline.py:72-110 | raises exactly when the attempt row is missing or a flush fails; else both rows are finished |
| Worker.SafeFinalizeAttempt | src/jobs/runner.py:106-141 | finalization happens entirely or not at all, and its failure is swallowed |
| Worker.RunExecutor | src/jobs/runner.py:144-235 | the locals assigned through try, except and finally give the verdict of the atomic step, finalized on every outcome; a finalized job is COMPLETED exactly if the executor returned, PENDING exactly for a retryable error with retries left, else DEAD |
| Worker.ExecuteJobAttempt | src/jobs/runner.py:238-273 | an attempt commits exactly its write set, or nothing; Done, Noop and Raised each exactly when the rows and faults say so |
| Worker.RunProcessJob | src/jobs/runner.py:322-364 | the rows and the successor a committed delivery leaves are decided as in Effects.DeliveryDecides; it raises, and leaves nothing, exactly for an unclassified exception, a duplicate or a failed commit; a successor carries one more retry, never beyond max_retries |
| Worker.AttemptIsOneStep | src/jobs/runner.py:249-273 | a committed attempt is one RunAttempt step with the same decision to retry |
| Worker.NeverDuplicate | src/jobs/pipeline.py:65-67 | the duplicate branch is unreachable |
| Services.InsertJob | src/jobs/service.py:152-169 | insert in a savepoint, and re-read after a violation, decide as the atomic get-or-create does |
| Services.CreateJobRow | src/jobs/service.py:133-169 | with any rows committed between the optimistic read and the insert, the result is the atomic decision on the rows as they then are |
| Services.SubmitJob | src/jobs/service.py:22-53 | an accepted submission writes its job, if new, and exactly one event, due at once; a refused one inserts nothing |
| Services.RetryFromDlq | src/jobs/service.py:81-112 | JobNotFound, InvalidJobState, or the job back to PENDING with an event due at once and its history untouched |
| Services.CreateReportWithRecovery | src/apps/reports/service.py:80-102 | a report inserted, or the holder of its key, or IntegrityError for the empty key |
| Services.AttachJobToReport | src/apps/reports/service.py:42-64 | attaches once, accepts the same job again, refuses another |
| Services.MakeReportRows | src/apps/reports/service.py:145-158 | inserting the report, submitting its job and attaching it come to the one decision MakeReport, with rows of others arriving between the report insert and the job's lookup and between that and the job insert |
| Services.CreateReport | src/apps/reports/service.py:128-158 | a report the first read finds is returned; otherwise MakeReport on the rows committed when the job is resolved, whatever others commit before and between the inserts |

## Left out

- HTTP routers, schemas, middleware, exception mapping and the request session: plumbing, and that session does not commit.
- Celery and Redis internals, eager mode, prefetching, Beat scheduling and the no-op dispatcher: replaced by the abstract broker.
- SQLAlchemy's identity map, expiry and poisoned sessions: a failed statement outside a savepoint aborts the transaction.
- PostgreSQL's silent rollback when a transaction whose statement failed is committed: the model has the retry message sent only after a real commit.
- Event types other than job.dispatch.requested: nothing in the repository creates one, so in reachable states the RejectEvent step is never enabled; what the publisher does with one is covered by the drain function on arbitrary tables.
- Commits of others during a publisher invocation: finitely many, since with full batches arriving for ever the loop does not end.
- DrainRuns.InvocationIsSerialRun: while no one else commits; publishers among other transactions are the concurrent machine's.
- Deadlocks, lock timeouts, and the foreign key from attempts to jobs (jobs are never deleted).
- Request ids, logging, metrics, health probes, settings and migrations: no bearing on the rows modelled.
- The contents of report results beyond report id, time and attempt number, and Unicode whitespace in payload strings (space, tab and line ends only).
- Alone.StepAlone: a report creation that loses its first read to another (Alone.LateCreation), a failure recorded over a changed row (Publishers.OverlapUnpublishes) and the marking of an event apart from its dispatch need other transactions in flight.
- The escapes of Python's repr in the error for an unregistered job type: the type is quoted as it is.
- Payloads that are not string or number valued: two payloads are compared as finite maps of strings and numbers.
- Equality of created_at between a database default and the client clock: every time is one number.
- list_attempts, get_job, get_report and list_pending: reads of one row or one table, easy members.
- Theorems.NoJobLost: a FAILED event counts as cover, because the code gives up on it and nothing automatic revives the job.
- Drain.DrainIsOnePass: needs the frozen clock and the reliable dispatcher; with failures the order of later claims depends on the jitter.
