/** Row transitions of one job attempt (src/jobs/pipeline.py, src/jobs/runner.py) and the
    report executor (src/apps/reports/executors.py), as functions on the rows they touch. */
module Pipeline {
  import opened Rows

  const REPORT_GENERATE := "report.generate"
  const REPORT_RESULT_PERSIST_FAILED := "Failed to persist report result"
  const SWEEPER_ERROR := "Reset from RUNNING by sweeper"

  predicate Terminal(status: JobStatus) {
    status.JobCompleted? || status.JobDead?
  }

  /******* begin_attempt *******/

  function BegunJob(job: Job, now: Time): Job {
    job.(status := JobRunning, attempts := job.attempts + 1, lastError := None, updatedAt := now)
  }

  function BegunAttempt(now: Time): Attempt {
    Attempt(AttemptRunning, None, now, None)
  }

  /******* Executors *******/

  /** How the executor call ended: it returned, or which exception class left it. */
  datatype ExecOutcome =
    | Returned(result: Option<Doc>)
    | RaisedRetryable(error: string)
    | RaisedNonRetryable(error: string)
    | NotRegistered
    | RaisedOther(trace: string)

  /** What is outside the model's control in one execution: whether an executor is registered,
      what an executor other than the report executor does, and whether the database raises
      SQLAlchemyError inside complete_report. */
  datatype ExecInput = Unregistered | Registered(own: ExecOutcome, fault: bool)

  predicate Blank(s: string) {
    forall i :: 0 <= i < |s| ==> s[i] in {' ', '\t', '\n', '\r'}
  }

  function RequirePayloadStr(payload: Doc, name: string): Option<string> {
    if name in payload && payload[name].JString? && !Blank(payload[name].text)
    then Some(payload[name].text) else None
  }

  /** The report a job's executor looks up; None for other job types and bad payloads. */
  function TargetOf(job: Job): Option<ReportId> {
    if job.jobType == REPORT_GENERATE then RequirePayloadStr(job.payload, "report_id") else None
  }

  function BuildResult(report: ReportId, attemptNo: nat, now: Time): Doc {
    map["report_id" := JString(report), "generated_at" := JNumber(now), "attempt_no" := JNumber(attemptNo)]
  }

  datatype ReportCompletion = Completed(report: Report) | ReportNotFound | InvalidReportState

  function CompleteReport(found: Option<Report>, result: Doc): ReportCompletion {
    match found
    case None => ReportNotFound
    case Some(report) =>
      if !report.status.ReportPending? then InvalidReportState
      else Completed(report.(status := ReportReady, result := Some(result)))
  }

  datatype Execution = Execution(outcome: ExecOutcome, write: Option<Report>)

  /** generate_report on the report row it finds under FOR UPDATE. */
  function GenerateReport(payload: Doc, found: Option<Report>, attemptNo: nat, now: Time, fault: bool): Execution {
    match RequirePayloadStr(payload, "report_id")
    case None => Execution(RaisedNonRetryable("Missing/invalid 'report_id' in payload"), None)
    case Some(report) =>
      if fault then Execution(RaisedRetryable(REPORT_RESULT_PERSIST_FAILED), None)
      else
        var result := BuildResult(report, attemptNo, now);
        match CompleteReport(found, result)
        case ReportNotFound => Execution(RaisedNonRetryable("Report not found: " + report), None)
        case InvalidReportState => Execution(RaisedOther("InvalidReportState: " + report), None)
        case Completed(row) => Execution(Returned(Some(result)), Some(row))
  }

  function Execute(job: Job, found: Option<Report>, attemptNo: nat, now: Time, input: ExecInput): Execution {
    if input.Unregistered? then Execution(NotRegistered, None)
    else if job.jobType == REPORT_GENERATE then GenerateReport(job.payload, found, attemptNo, now, input.fault)
    else Execution(input.own, None)
  }

  /******* _classify_execution_error and _run_executor *******/

  datatype Verdict = Verdict(
    attempt: AttemptStatus, job: JobStatus, error: Option<string>, result: Option<Doc>,
    needRetry: bool, raises: bool)

  function NotRegisteredError(jobType: string): string {
    "No executor registered for job type: '" + jobType + "'"
  }

  function DlqMaxRetriesError(error: string): string {
    "DLQ: " + error + " (max retries exceeded)"
  }

  function Classify(outcome: ExecOutcome, jobType: string, retries: nat, maxRetries: nat): Verdict {
    match outcome
    case Returned(result) => Verdict(AttemptSucceeded, JobCompleted, None, result, false, false)
    case NotRegistered =>
      Verdict(AttemptFailed, JobDead, Some(NotRegisteredError(jobType)), None, false, false)
    case RaisedNonRetryable(error) => Verdict(AttemptFailed, JobDead, Some(error), None, false, false)
    case RaisedRetryable(error) =>
      if retries >= maxRetries
      then Verdict(AttemptFailed, JobDead, Some(DlqMaxRetriesError(error)), None, false, false)
      else Verdict(AttemptFailed, JobPending, Some(error), None, true, false)
    case RaisedOther(trace) => Verdict(AttemptFailed, JobDead, Some(trace), None, false, true)
  }

  /******* finalize_attempt *******/

  /** update_attempt leaves the error column alone when it is given None. */
  function FinishedAttempt(attempt: Attempt, v: Verdict, now: Time): Attempt {
    attempt.(status := v.attempt, finishedAt := Some(now),
             error := if v.error.Some? then v.error else attempt.error)
  }

  function FinishedJob(job: Job, v: Verdict, now: Time): Job {
    job.(status := v.job, lastError := v.error, updatedAt := now,
         result := if v.result.Some? then v.result else job.result)
  }

  /******* One whole attempt *******/

  /** Everything one attempt is decided by, besides the rows it locks. `finalized` is false
      when the savepoint around finalize_attempt fails and the failure is swallowed. */
  datatype AttemptInput = AttemptInput(input: ExecInput, finalized: bool, started: Time, finished: Time)

  function AttemptVerdict(job: Job, found: Option<Report>, retries: nat, maxRetries: nat, a: AttemptInput): Verdict {
    Classify(Execute(job, found, job.attempts + 1, a.started, a.input).outcome, job.jobType, retries, maxRetries)
  }

  function BeginWrites(id: JobId, job: Job, now: Time): Db {
    Db(map[id := BegunJob(job, now)], map[AttemptKey(id, job.attempts + 1) := BegunAttempt(now)], map[], map[])
  }

  function ReportWrites(target: Option<ReportId>, write: Option<Report>): map<ReportId, Report> {
    if target.Some? && write.Some? then map[target.value := write.value] else map[]
  }

  /** The write set of an attempt, given how the executor ended and what that means. */
  function WritesFor(id: JobId, job: Job, e: Execution, v: Verdict, a: AttemptInput): Db {
    var reports := ReportWrites(TargetOf(job), e.write);
    if !a.finalized then BeginWrites(id, job, a.started).(reports := reports)
    else
      Db(map[id := FinishedJob(BegunJob(job, a.started), v, a.finished)],
         map[AttemptKey(id, job.attempts + 1) := FinishedAttempt(BegunAttempt(a.started), v, a.finished)], map[], reports)
  }

  /** The rows an attempt leaves behind if its transaction commits. */
  function AttemptWrites(
    id: JobId, job: Job, found: Option<Report>, retries: nat, maxRetries: nat, a: AttemptInput): Db
  {
    WritesFor(id, job, Execute(job, found, job.attempts + 1, a.started, a.input),
      AttemptVerdict(job, found, retries, maxRetries, a), a)
  }

  /** The report row the executor of a job finds. */
  function FoundReport(reports: map<ReportId, Report>, job: Job): Option<Report> {
    if TargetOf(job).Some? then Lookup(reports, TargetOf(job).value) else None
  }

  /******* Sweeper and DLQ retry *******/

  function ResetJob(job: Job, now: Time): Job {
    job.(status := JobPending, lastError := Some(SWEEPER_ERROR), updatedAt := now)
  }

  function RunningJobs(jobs: map<JobId, Job>): set<JobId> {
    set j | j in jobs && jobs[j].status.JobRunning?
  }

  predicate Stuck(job: Job, stuckBefore: Time) {
    job.status.JobRunning? && job.updatedAt < stuckBefore
  }

  function RevivedJob(job: Job, now: Time): Job {
    job.(status := JobPending, lastError := None, result := None, updatedAt := now)
  }
}
