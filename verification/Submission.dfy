/** Idempotent submission of jobs and reports (src/jobs/service.py, src/apps/reports/service.py)
    as atomic decisions over the committed tables. */
module Submission {
  import opened Rows
  import opened Pipeline
  import opened Outbox

  datatype Request = Request(jobType: string, payload: Doc, key: Option<string>)

  function NewJob(req: Request, now: Time): Job {
    Job(req.jobType, req.key, req.payload, JobPending, None, 0, None, now, now)
  }

  function NewReport(key: Option<string>): Report {
    Report(key, ReportPending, None, None)
  }

  predicate Matches(job: Job, req: Request) {
    job.jobType == req.jobType && job.payload == req.payload
  }

  /** The empty key is stored like any other, but the code takes it for "no key". */
  predicate Falsy(key: Option<string>) {
    key.None? || key.value == ""
  }

  /** The two partial unique indexes on idempotency_key. */
  ghost predicate UniqueJobKeys(jobs: map<JobId, Job>) {
    forall a, b :: a in jobs && b in jobs && jobs[a].key.Some? && jobs[a].key == jobs[b].key ==> a == b
  }

  ghost predicate UniqueReportKeys(reports: map<ReportId, Report>) {
    forall a, b :: a in reports && b in reports && reports[a].key.Some? && reports[a].key == reports[b].key ==> a == b
  }

  ghost predicate JobHolds(jobs: map<JobId, Job>, key: string, id: JobId) {
    id in jobs && jobs[id].key == Some(key)
  }

  ghost predicate ReportHolds(reports: map<ReportId, Report>, key: string, id: ReportId) {
    id in reports && reports[id].key == Some(key)
  }

  ghost function JobHolder(jobs: map<JobId, Job>, key: string): (r: Option<JobId>)
    ensures r.Some? ==> JobHolds(jobs, key, r.value)
    ensures r.None? ==> forall id :: !JobHolds(jobs, key, id)
  {
    if id: JobId :| JobHolds(jobs, key, id) then Some(id) else None
  }

  ghost function ReportHolder(reports: map<ReportId, Report>, key: string): (r: Option<ReportId>)
    ensures r.Some? ==> ReportHolds(reports, key, r.value)
    ensures r.None? ==> forall id :: !ReportHolds(reports, key, id)
  {
    if id: ReportId :| ReportHolds(reports, key, id) then Some(id) else None
  }

  /** What submit_job decides: insert, reuse, IdempotencyKeyConflict, or IntegrityError (the
      empty key is stored and indexed but treated as "no key" by the code that recovers). */
  datatype Resolution = Fresh | Reuse(job: JobId) | KeyConflict | IntegrityFailure

  ghost function Resolve(jobs: map<JobId, Job>, req: Request): Resolution {
    if req.key.None? then Fresh
    else
      var holder := JobHolder(jobs, req.key.value);
      if holder.None? then Fresh
      else if req.key.value == "" then IntegrityFailure
      else if Matches(jobs[holder.value], req) then Reuse(holder.value)
      else KeyConflict
  }

  ghost predicate Accepted(r: Resolution) {
    r.Fresh? || r.Reuse?
  }

  ghost function ResolvedJob(r: Resolution, newJob: JobId): JobId
    requires Accepted(r)
  {
    if r.Reuse? then r.job else newJob
  }

  /** The rows of an accepted submission: the job, if new, and always one dispatch event. */
  ghost function SubmitWrites(r: Resolution, req: Request, newJob: JobId, event: EventId, now: Time, eventAt: Time): Db
    requires Accepted(r)
  {
    Db(if r.Fresh? then map[newJob := NewJob(req, now)] else map[], map[],
       map[event := NewEvent(ResolvedJob(r, newJob), eventAt)], map[])
  }

  /******* create_report *******/

  datatype ReportResolution = FreshReport | ReuseReport(report: ReportId) | ReportIntegrityFailure

  ghost function ResolveReport(reports: map<ReportId, Report>, key: Option<string>): ReportResolution {
    if key.None? then FreshReport
    else
      var holder := ReportHolder(reports, key.value);
      if holder.None? then FreshReport
      else if key.value == "" then ReportIntegrityFailure
      else ReuseReport(holder.value)
  }

  function ReportRequest(report: ReportId, key: Option<string>): Request {
    Request(REPORT_GENERATE, map["report_id" := JString(report)], key)
  }

  ghost function ResolvedReport(r: ReportResolution, newReport: ReportId): ReportId
    requires !r.ReportIntegrityFailure?
  {
    if r.ReuseReport? then r.report else newReport
  }

  /** create_report past its optimistic read. The last two outcomes raise, so the whole unit of
      work is rolled back. */
  datatype ReportOutcome =
    | ReportMade(writes: Db, report: ReportId, job: JobId)
    | ReportRejected(why: Resolution)
    | ReportJobAlreadyAttached

  ghost function MakeReport(
    db: Db, key: Option<string>, newReport: ReportId, newJob: JobId, event: EventId, now: Time, eventAt: Time): ReportOutcome
  {
    var rr := ResolveReport(db.reports, key);
    if rr.ReportIntegrityFailure? then ReportRejected(IntegrityFailure)
    else
      var report := ResolvedReport(rr, newReport);
      var req := ReportRequest(report, key);
      var jr := Resolve(db.jobs, req);
      if !Accepted(jr) then ReportRejected(jr)
      else
        var job := ResolvedJob(jr, newJob);
        var writes := SubmitWrites(jr, req, newJob, event, now, eventAt);
        if rr.FreshReport? then
          ReportMade(writes.(reports := map[report := NewReport(key).(jobId := Some(job))]), report, job)
        else if db.reports[report].jobId.None? then
          ReportMade(writes.(reports := map[report := db.reports[report].(jobId := Some(job))]), report, job)
        else if db.reports[report].jobId.value != job then ReportJobAlreadyAttached
        else ReportMade(writes, report, job)
  }
}
