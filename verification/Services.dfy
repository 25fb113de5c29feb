/** The services as they run inside a unit of work (src/jobs/service.py, src/jobs/pipeline.py,
    src/apps/reports/service.py): they look rows up, insert behind savepoints and assign fields. */
module Services {
  import opened Rows
  import opened Pipeline
  import opened Outbox
  import opened Submission
  import opened Protocol
  import opened Effects
  import opened Steps
  import opened UnitsOfWork

  datatype ServiceError =
    | JobNotFound | InvalidJobState | IdempotencyKeyConflict | IntegrityError | ReportMissing | JobAlreadyAttached

  datatype Outcome<+T> = Ok(value: T) | Err(error: ServiceError)

  method JobByKey(uow: UnitOfWork, key: string) returns (r: Option<JobId>)
    requires UniqueJobKeys(uow.session.jobs)
    ensures r == JobHolder(uow.session.jobs, key)
  {
    if id :| id in uow.session.jobs && uow.session.jobs[id].key == Some(key) {
      assert JobHolds(uow.session.jobs, key, id);
      return Some(id);
    }
    return None;
  }

  method ReportByKey(uow: UnitOfWork, key: string) returns (r: Option<ReportId>)
    requires UniqueReportKeys(uow.session.reports)
    ensures r == ReportHolder(uow.session.reports, key)
  {
    if id :| id in uow.session.reports && uow.session.reports[id].key == Some(key) {
      assert ReportHolds(uow.session.reports, key, id);
      return Some(id);
    }
    return None;
  }

  function ResolutionOutcome(r: Resolution, newJob: JobId): Outcome<JobId> {
    match r
    case Fresh => Ok(newJob)
    case Reuse(job) => Ok(job)
    case KeyConflict => Err(IdempotencyKeyConflict)
    case IntegrityFailure => Err(IntegrityError)
  }

  method ValidateIdempotentMatch(existing: Job, req: Request) returns (ok: bool)
    ensures ok == Matches(existing, req)
  {
    return !(existing.jobType != req.jobType || existing.payload != req.payload);
  }

  ghost predicate OnlyInserts(jobs: map<JobId, Job>, arrivals: map<JobId, Job>) {
    arrivals.Keys !! jobs.Keys && UniqueJobKeys(jobs + arrivals)
  }

  lemma HolderPersists(jobs: map<JobId, Job>, arrivals: map<JobId, Job>, key: string)
    requires OnlyInserts(jobs, arrivals) && JobHolder(jobs, key).Some?
    ensures JobHolder(jobs + arrivals, key) == JobHolder(jobs, key)
    ensures (jobs + arrivals)[JobHolder(jobs, key).value] == jobs[JobHolder(jobs, key).value]
  {
    assert JobHolds(jobs + arrivals, key, JobHolder(jobs, key).value);
  }

  predicate KeyTaken(jobs: map<JobId, Job>, key: Option<string>) {
    exists j :: j in jobs && jobs[j].key == key
  }

  /** Get or create, on the rows: what a submission that sees `jobs` returns and leaves, in each of its outcomes. */
  predicate GotOrCreated(jobs: map<JobId, Job>, later: map<JobId, Job>, req: Request, newJob: JobId, now: Time, r: Outcome<JobId>) {
    match r
    case Ok(job) =>
      if job in jobs
      then later == jobs && req.key.Some? && req.key.value != "" && jobs[job].key == req.key
           && jobs[job].jobType == req.jobType && jobs[job].payload == req.payload
      else job == newJob && job in later && later == jobs[job := later[job]] && NewRow(later[job], req, now)
           && (req.key.Some? ==> !KeyTaken(jobs, req.key))
    case Err(IdempotencyKeyConflict) =>
      && later == jobs && req.key.Some? && req.key.value != ""
      && exists j :: j in jobs && jobs[j].key == req.key && (jobs[j].jobType != req.jobType || jobs[j].payload != req.payload)
    case Err(IntegrityError) => later == jobs && req.key == Some("") && KeyTaken(jobs, req.key)
    case _ => false
  }

  lemma ResolutionMeans(jobs: map<JobId, Job>, req: Request, newJob: JobId, now: Time)
    requires newJob !in jobs
    ensures var resolution := Resolve(jobs, req);
            GotOrCreated(jobs, if resolution.Fresh? then jobs[newJob := NewJob(req, now)] else jobs, req, newJob, now,
              ResolutionOutcome(resolution, newJob))
  {
    if req.key.Some? && JobHolder(jobs, req.key.value).None? {
      forall j | j in jobs ensures jobs[j].key != req.key {
        assert !JobHolds(jobs, req.key.value, j);
      }
    }
  }

  /** The rows after a job is resolved: inserted when it is new. */
  ghost function WithJob(db: Db, resolution: Resolution, req: Request, newJob: JobId, now: Time): Db {
    if resolution.Fresh? then db.(jobs := db.jobs[newJob := NewJob(req, now)]) else db
  }

  /** The insert in its savepoint, and the re-read after a uniqueness violation. */
  method InsertJob(uow: UnitOfWork, req: Request, newJob: JobId, now: Time) returns (r: Outcome<JobId>)
    requires UniqueJobKeys(uow.session.jobs) && newJob !in uow.session.jobs
    modifies uow`session
    ensures r == ResolutionOutcome(Resolve(old(uow.session.jobs), req), newJob)
    ensures uow.session == WithJob(old(uow.session), Resolve(old(uow.session.jobs), req), req, newJob, now)
  {
    var violated := false;
    if req.key.Some? {
      var holder := JobByKey(uow, req.key.value);
      violated := holder.Some?;
    }
    if !violated {
      uow.session := uow.session.(
        jobs := uow.session.jobs[newJob := Job(req.jobType, req.key, req.payload, JobPending, None, 0, None, now, now)]);
      return Ok(newJob);
    }
    if !Falsy(req.key) {
      var existing := JobByKey(uow, req.key.value);
      if existing.Some? {
        var matches := ValidateIdempotentMatch(uow.session.jobs[existing.value], req);
        return if matches then Ok(existing.value) else Err(IdempotencyKeyConflict);
      }
    }
    return Err(IntegrityError);
  }

  /** The rows a transaction sees after `arrivals` were committed by others. */
  function Seen(db: Db, arrivals: map<JobId, Job>): Db {
    db.(jobs := db.jobs + arrivals)
  }

  /** The optimistic read, the rows `arrivals` that others commit before the insert, the insert in a savepoint
      and the re-read after a violation come to one atomic decision on the rows as they then are. */
  method CreateJobRow(
    uow: UnitOfWork, req: Request, newJob: JobId, now: Time, arrivals: map<JobId, Job>)
    returns (r: Outcome<JobId>)
    requires OnlyInserts(uow.session.jobs, arrivals) && newJob !in uow.session.jobs + arrivals
    modifies uow`session, uow`committed
    ensures var view := Seen(old(uow.session), arrivals);
            && r == ResolutionOutcome(Resolve(view.jobs, req), newJob)
            && uow.session == WithJob(view, Resolve(view.jobs, req), req, newJob, now)
    ensures GotOrCreated(old(uow.session.jobs) + arrivals, uow.session.jobs, req, newJob, now, r)
    ensures uow.committed == Seen(old(uow.committed), arrivals)
  {
    ResolutionMeans(uow.session.jobs + arrivals, req, newJob, now);
    if !Falsy(req.key) {
      var existing := JobByKey(uow, req.key.value);
      if existing.Some? {
        HolderPersists(uow.session.jobs, arrivals, req.key.value);
        var matches := ValidateIdempotentMatch(uow.session.jobs[existing.value], req);
        uow.ArriveJobs(arrivals);
        return if matches then Ok(existing.value) else Err(IdempotencyKeyConflict);
      }
    }
    uow.ArriveJobs(arrivals);
    r := InsertJob(uow, req, newJob, now);
  }

  method CreateEvent(uow: UnitOfWork, job: JobId, event: EventId, now: Time)
    modifies uow`session
    ensures uow.session == old(uow.session).(events := old(uow.session.events)[event := NewEvent(job, now)])
  {
    uow.session := uow.session.(
      events := uow.session.events[event := Event(JOB_DISPATCH_REQUESTED, job, EventPending, None, 0, None, None, now)]);
  }

  lemma SubmitRowsAre(db: Db, r: Resolution, req: Request, newJob: JobId, event: EventId, now: Time, eventAt: Time)
    requires Accepted(r)
    ensures var with := WithJob(db, r, req, newJob, now);
            Apply(db, SubmitWrites(r, req, newJob, event, now, eventAt))
            == with.(events := with.events[event := NewEvent(ResolvedJob(r, newJob), eventAt)])
  {
    NothingAdded(db.jobs);
    NothingAdded(db.attempts);
    NothingAdded(db.reports);
    OneAdded(db.jobs, newJob, NewJob(req, now));
    OneAdded(db.events, event, NewEvent(ResolvedJob(r, newJob), eventAt));
  }

  /** submit_job is one atomic get-or-create plus one dispatch event; when it fails it has inserted nothing. */
  method SubmitJob(
    uow: UnitOfWork, req: Request, newJob: JobId, event: EventId, now: Time, eventAt: Time, arrivals: map<JobId, Job>)
    returns (r: Outcome<JobId>)
    requires OnlyInserts(uow.session.jobs, arrivals) && newJob !in uow.session.jobs + arrivals
    modifies uow`session, uow`committed
    ensures var view := Seen(old(uow.session), arrivals);
            var resolution := Resolve(view.jobs, req);
            && r == ResolutionOutcome(resolution, newJob)
            && uow.session == if Accepted(resolution) then Apply(view, SubmitWrites(resolution, req, newJob, event, now, eventAt)) else view
    ensures GotOrCreated(old(uow.session.jobs) + arrivals, uow.session.jobs, req, newJob, now, r)
    ensures r.Ok? ==>
      event in uow.session.events && DueAlways(uow.session.events[event], r.value, eventAt)
      && uow.session.events == old(uow.session.events)[event := uow.session.events[event]]
    ensures r.Err? ==> uow.session.events == old(uow.session.events)
    ensures uow.committed == Seen(old(uow.committed), arrivals)
  {
    ghost var view := Seen(uow.session, arrivals);
    r := CreateJobRow(uow, req, newJob, now, arrivals);
    if r.Ok? {
      SubmitRowsAre(view, Resolve(view.jobs, req), req, newJob, event, now, eventAt);
      CreateEvent(uow, r.value, event, eventAt);
    }
  }

  /** A job leaves the DLQ exactly when it is DEAD, with a new dispatch event and its history untouched. */
  method RetryFromDlq(uow: UnitOfWork, id: JobId, event: EventId, now: Time, eventAt: Time) returns (r: Outcome<JobId>)
    modifies uow`session
    ensures r == if id !in old(uow.session.jobs) then Err(JobNotFound)
                 else if !old(uow.session.jobs)[id].status.JobDead? then Err(InvalidJobState) else Ok(id)
    ensures uow.session ==
      if r.Ok? then Apply(old(uow.session), RetryWrites(old(uow.session.jobs)[id], id, event, now, eventAt)) else old(uow.session)
    ensures r.Ok? ==>
      && uow.session == old(uow.session).(
           jobs := old(uow.session.jobs)[id :=
             old(uow.session.jobs)[id].(status := JobPending, lastError := None, result := None, updatedAt := now)],
           events := old(uow.session.events)[event := uow.session.events[event]])
      && DueAlways(uow.session.events[event], id, eventAt)
  {
    if id !in uow.session.jobs {
      return Err(JobNotFound);
    }
    var job := uow.session.jobs[id];
    if job.status != JobDead {
      return Err(InvalidJobState);
    }
    job := job.(status := JobPending);
    job := job.(lastError := None);
    job := job.(result := None);
    job := job.(updatedAt := now);
    uow.session := uow.session.(jobs := uow.session.jobs[id := job]);
    CreateEvent(uow, id, event, eventAt);
    return Ok(id);
  }

  /******* create_report *******/

  /** The report insert in its savepoint, and the re-read after a uniqueness violation. */
  method CreateReportWithRecovery(
    uow: UnitOfWork, key: Option<string>, newReport: ReportId)
    returns (r: Outcome<ReportId>)
    requires UniqueReportKeys(uow.session.reports) && newReport !in uow.session.reports
    modifies uow`session
    ensures var resolution := ResolveReport(old(uow.session.reports), key);
            && (r == if resolution.ReportIntegrityFailure? then Err(IntegrityError) else Ok(ResolvedReport(resolution, newReport)))
            && uow.session == old(uow.session).(reports :=
                 if resolution.FreshReport? then old(uow.session.reports)[newReport := NewReport(key)] else old(uow.session.reports))
  {
    var violated := false;
    if key.Some? {
      var holder := ReportByKey(uow, key.value);
      violated := holder.Some?;
    }
    if !violated {
      uow.session := uow.session.(reports := uow.session.reports[newReport := Report(key, ReportPending, None, None)]);
      return Ok(newReport);
    }
    if Falsy(key) {
      return Err(IntegrityError);
    }
    var existing := ReportByKey(uow, key.value);
    return Ok(existing.value);
  }

  method AttachJobToReport(uow: UnitOfWork, id: ReportId, job: JobId) returns (r: Outcome<ReportId>)
    modifies uow`session
    ensures r == if id !in old(uow.session.reports) then Err(ReportMissing)
                 else if old(uow.session.reports)[id].jobId in {None, Some(job)} then Ok(id) else Err(JobAlreadyAttached)
    ensures uow.session == old(uow.session).(reports :=
      if r.Ok? then old(uow.session.reports)[id := old(uow.session.reports)[id].(jobId := Some(job))] else old(uow.session.reports))
  {
    if id !in uow.session.reports {
      return Err(ReportMissing);
    }
    var report := uow.session.reports[id];
    if report.jobId.Some? {
      return if report.jobId.value == job then Ok(id) else Err(JobAlreadyAttached);
    }
    report := report.(jobId := Some(job));
    uow.session := uow.session.(reports := uow.session.reports[id := report]);
    return Ok(id);
  }

  function ReportOutcomeOf(made: ReportOutcome): Outcome<ReportId> {
    match made
    case ReportMade(_, report, _) => Ok(report)
    case ReportRejected(why) => if why.KeyConflict? then Err(IdempotencyKeyConflict) else Err(IntegrityError)
    case ReportJobAlreadyAttached => Err(JobAlreadyAttached)
  }

  /** The report rows once the report is resolved, and once its job is attached. */
  ghost function WithReport(
    reports: map<ReportId, Report>, rr: ReportResolution, key: Option<string>, newReport: ReportId): map<ReportId, Report> {
    if rr.FreshReport? then reports[newReport := NewReport(key)] else reports
  }

  function WithAttached(reports: map<ReportId, Report>, id: ReportId, job: JobId): map<ReportId, Report> {
    if id in reports then reports[id := reports[id].(jobId := Some(job))] else reports
  }

  lemma MadeReportsAre(
    db: Db, key: Option<string>, newReport: ReportId, newJob: JobId, event: EventId, now: Time, eventAt: Time)
    requires MakeReport(db, key, newReport, newJob, event, now, eventAt).ReportMade?
    ensures var made, rr := MakeReport(db, key, newReport, newJob, event, now, eventAt), ResolveReport(db.reports, key);
            db.reports + made.writes.reports == WithAttached(WithReport(db.reports, rr, key, newReport), made.report, made.job)
  {
  }

  lemma MadeRowsAre(
    db: Db, key: Option<string>, newReport: ReportId, newJob: JobId, event: EventId, now: Time, eventAt: Time)
    requires MakeReport(db, key, newReport, newJob, event, now, eventAt).ReportMade?
    ensures var made, rr := MakeReport(db, key, newReport, newJob, event, now, eventAt), ResolveReport(db.reports, key);
            var req := ReportRequest(made.report, key);
            var submitted := SubmitWrites(Resolve(db.jobs, req), req, newJob, event, now, eventAt);
            Apply(db, made.writes)
            == Apply(db, submitted).(reports := WithAttached(WithReport(db.reports, rr, key, newReport), made.report, made.job))
  {
    MadeReportsAre(db, key, newReport, newJob, event, now, eventAt);
  }

  method SubmitReportGenerationJob(
    uow: UnitOfWork, report: ReportId, key: Option<string>, newJob: JobId, event: EventId, now: Time, eventAt: Time,
    arrivals: map<JobId, Job>)
    returns (r: Outcome<JobId>)
    requires OnlyInserts(uow.session.jobs, arrivals) && newJob !in uow.session.jobs + arrivals
    modifies uow`session, uow`committed
    ensures var req, view := ReportRequest(report, key), Seen(old(uow.session), arrivals);
            var resolution := Resolve(view.jobs, req);
            && r == ResolutionOutcome(resolution, newJob)
            && (r.Ok? ==> uow.session == Apply(view, SubmitWrites(resolution, req, newJob, event, now, eventAt)))
    ensures uow.session.reports == old(uow.session.reports) && uow.committed == Seen(old(uow.committed), arrivals)
  {
    NothingAdded(uow.session.reports);
    r := SubmitJob(uow, ReportRequest(report, key), newJob, event, now, eventAt, arrivals);
  }

  lemma ReportsApart(db: Db, reports: map<ReportId, Report>, w: Db, later: map<ReportId, Report>)
    ensures Apply(db.(reports := reports), w).(reports := later) == Apply(db, w).(reports := later)
  {
  }

  /** What submitting and attaching returns, on these job and report rows. */
  ghost function Attachment(
    jobs: map<JobId, Job>, reports: map<ReportId, Report>, report: ReportId, key: Option<string>, newJob: JobId): Outcome<ReportId> {
    var resolution := Resolve(jobs, ReportRequest(report, key));
    if !Accepted(resolution) then
      if resolution.KeyConflict? then Err(IdempotencyKeyConflict) else Err(IntegrityError)
    else if report !in reports then Err(ReportMissing)
    else if reports[report].jobId in {None, Some(ResolvedJob(resolution, newJob))} then Ok(report)
    else Err(JobAlreadyAttached)
  }

  method SubmitAndAttach(
    uow: UnitOfWork, report: ReportId, key: Option<string>, newJob: JobId, event: EventId, now: Time, eventAt: Time,
    arrivals: map<JobId, Job>)
    returns (r: Outcome<ReportId>)
    requires OnlyInserts(uow.session.jobs, arrivals) && newJob !in uow.session.jobs + arrivals
    modifies uow`session, uow`committed
    ensures r == Attachment(Seen(old(uow.session), arrivals).jobs, old(uow.session.reports), report, key, newJob)
    ensures var req, view := ReportRequest(report, key), Seen(old(uow.session), arrivals);
            var resolution := Resolve(view.jobs, req);
            r.Ok? ==>
              uow.session == Apply(view, SubmitWrites(resolution, req, newJob, event, now, eventAt)).(
                reports := WithAttached(old(uow.session.reports), report, ResolvedJob(resolution, newJob)))
    ensures uow.committed == Seen(old(uow.committed), arrivals)
  {
    var job := SubmitReportGenerationJob(uow, report, key, newJob, event, now, eventAt, arrivals);
    if job.Err? {
      return Err(job.error);
    }
    r := AttachJobToReport(uow, report, job.value);
  }

  lemma AttachmentIsMade(
    db: Db, reports: map<ReportId, Report>, key: Option<string>, newReport: ReportId, newJob: JobId, event: EventId, now: Time, eventAt: Time)
    requires var rr := ResolveReport(db.reports, key);
             !rr.ReportIntegrityFailure? && reports == WithReport(db.reports, rr, key, newReport)
    ensures var report := ResolvedReport(ResolveReport(db.reports, key), newReport);
            var made := MakeReport(db, key, newReport, newJob, event, now, eventAt);
            && ReportOutcomeOf(made) == Attachment(db.jobs, reports, report, key, newJob)
            && (made.ReportMade? ==>
                  && made.report == report
                  && made.job == ResolvedJob(Resolve(db.jobs, ReportRequest(report, key)), newJob))
  {
  }

  /** Rows that others commit after this transaction has resolved its report: they may change any row and insert
      others, but the unique index, in which an uncommitted insert counts, holds throughout. */
  ghost predicate LateRows(db: Db, late: Db, arrivals: map<JobId, Job>, key: Option<string>, newReport: ReportId) {
    && newReport !in db.reports + late.reports
    && (forall r :: r in db.reports && r in late.reports ==> late.reports[r].key == db.reports[r].key)
    && UniqueReportKeys(WithReport(db.reports, ResolveReport(db.reports, key), key, newReport) + late.reports)
    && OnlyInserts(db.jobs + late.jobs, arrivals)
  }

  lemma ResolutionStays(db: Db, late: Db, arrivals: map<JobId, Job>, key: Option<string>, newReport: ReportId)
    requires LateRows(db, late, arrivals, key, newReport)
    ensures ResolveReport(db.reports + late.reports, key) == ResolveReport(db.reports, key)
    ensures WithReport(db.reports, ResolveReport(db.reports, key), key, newReport) + late.reports
            == WithReport(db.reports + late.reports, ResolveReport(db.reports, key), key, newReport)
  {
    var rr := ResolveReport(db.reports, key);
    var reports := WithReport(db.reports, rr, key, newReport) + late.reports;
    if key.Some? && ReportHolder(db.reports, key.value).Some? {
      assert ReportHolds(db.reports + late.reports, key.value, ReportHolder(db.reports, key.value).value);
      assert forall r :: r in db.reports + late.reports ==> reports[r].key == (db.reports + late.reports)[r].key;
    } else if key.Some? {
      assert newReport in reports && reports[newReport].key == key;
      forall r | r in db.reports + late.reports ensures (db.reports + late.reports)[r].key != key {
        assert r != newReport && reports[r].key == (db.reports + late.reports)[r].key;
      }
    }
  }

  /** The rows create_report decides on: everything committed by the time its job is resolved. */
  function Settled(db: Db, late: Db, arrivals: map<JobId, Job>): Db {
    Seen(Apply(db, late), arrivals)
  }

  lemma MadeFromAttachment(
    db: Db, inserted: map<ReportId, Report>, key: Option<string>, newReport: ReportId, newJob: JobId, event: EventId,
    now: Time, eventAt: Time, later: Db)
    requires var rr := ResolveReport(db.reports, key);
             && !rr.ReportIntegrityFailure? && inserted == WithReport(db.reports, rr, key, newReport)
             && var report := ResolvedReport(rr, newReport);
                var req := ReportRequest(report, key);
                var resolution := Resolve(db.jobs, req);
                && Accepted(resolution)
                && later == Apply(db.(reports := inserted), SubmitWrites(resolution, req, newJob, event, now, eventAt)).(
                     reports := WithAttached(inserted, report, ResolvedJob(resolution, newJob)))
    requires MakeReport(db, key, newReport, newJob, event, now, eventAt).ReportMade?
    ensures later == Apply(db, MakeReport(db, key, newReport, newJob, event, now, eventAt).writes)
  {
    var req := ReportRequest(ResolvedReport(ResolveReport(db.reports, key), newReport), key);
    ReportsApart(db, inserted, SubmitWrites(Resolve(db.jobs, req), req, newJob, event, now, eventAt), later.reports);
    AttachmentIsMade(db, inserted, key, newReport, newJob, event, now, eventAt);
    MadeRowsAre(db, key, newReport, newJob, event, now, eventAt);
  }

  method ResolveThenArrive(uow: UnitOfWork, key: Option<string>, newReport: ReportId, late: Db, ghost arrivals: map<JobId, Job>)
    returns (r: Outcome<ReportId>)
    requires UniqueReportKeys(uow.session.reports) && LateRows(uow.session, late, arrivals, key, newReport)
    modifies uow`session, uow`committed
    ensures var view := Apply(old(uow.session), late);
            var resolution := ResolveReport(view.reports, key);
            && r == (if resolution.ReportIntegrityFailure? then Err(IntegrityError) else Ok(ResolvedReport(resolution, newReport)))
            && uow.session == view.(reports := WithReport(view.reports, resolution, key, newReport))
    ensures uow.committed == Apply(old(uow.committed), late)
  {
    ResolutionStays(uow.session, late, arrivals, key, newReport);
    r := CreateReportWithRecovery(uow, key, newReport);
    uow.Arrive(late);
  }

  predicate GeneratesReport(job: Job, report: ReportId, key: Option<string>) {
    job.jobType == "report.generate" && job.payload == map["report_id" := JString(report)] && job.key == key
  }

  /** A report that create_report returned: it holds the key, is attached to a report.generate job of the same key
      whose payload names it, and the job's new event is due. */
  predicate ReportReturned(db: Db, report: ReportId, event: EventId, key: Option<string>, eventAt: Time) {
    && report in db.reports && db.reports[report].key == key && db.reports[report].jobId.Some?
    && db.reports[report].jobId.value in db.jobs && GeneratesReport(db.jobs[db.reports[report].jobId.value], report, key)
    && event in db.events && DueAlways(db.events[event], db.reports[report].jobId.value, eventAt)
  }

  lemma MadeJob(db: Db, key: Option<string>, newReport: ReportId, newJob: JobId, event: EventId, now: Time, eventAt: Time)
    requires MakeReport(db, key, newReport, newJob, event, now, eventAt).ReportMade?
    ensures var made := MakeReport(db, key, newReport, newJob, event, now, eventAt);
            && made.job in db.jobs + made.writes.jobs
            && GeneratesReport((db.jobs + made.writes.jobs)[made.job], made.report, key)
            && made.writes.events == map[event := NewEvent(made.job, eventAt)]
  {
  }

  lemma MadeReport(db: Db, key: Option<string>, newReport: ReportId, newJob: JobId, event: EventId, now: Time, eventAt: Time)
    requires MakeReport(db, key, newReport, newJob, event, now, eventAt).ReportMade?
    ensures var made := MakeReport(db, key, newReport, newJob, event, now, eventAt);
            && made.report in db.reports + made.writes.reports
            && (db.reports + made.writes.reports)[made.report].key == key
            && (db.reports + made.writes.reports)[made.report].jobId == Some(made.job)
  {
  }

  lemma MadeIsReturned(db: Db, key: Option<string>, newReport: ReportId, newJob: JobId, event: EventId, now: Time, eventAt: Time)
    requires MakeReport(db, key, newReport, newJob, event, now, eventAt).ReportMade?
    ensures var made := MakeReport(db, key, newReport, newJob, event, now, eventAt);
            ReportReturned(Apply(db, made.writes), made.report, event, key, eventAt)
  {
    MadeJob(db, key, newReport, newJob, event, now, eventAt);
    MadeReport(db, key, newReport, newJob, event, now, eventAt);
  }

  /** Inserting the report, submitting its job and attaching it, with rows of others arriving after the report
      is resolved and again between the job's optimistic read and its insert. */
  method MakeReportRows(
    uow: UnitOfWork, key: Option<string>, newReport: ReportId, newJob: JobId, event: EventId, now: Time, eventAt: Time,
    late: Db, arrivals: map<JobId, Job>)
    returns (r: Outcome<ReportId>)
    requires UniqueReportKeys(uow.session.reports) && LateRows(uow.session, late, arrivals, key, newReport)
    requires newJob !in uow.session.jobs + late.jobs + arrivals
    modifies uow`session, uow`committed
    ensures var view := Settled(old(uow.session), late, arrivals);
            var made := MakeReport(view, key, newReport, newJob, event, now, eventAt);
            r == ReportOutcomeOf(made) && (made.ReportMade? ==> uow.session == Apply(view, made.writes))
    ensures r.Ok? ==> ReportReturned(uow.session, r.value, event, key, eventAt)
    ensures uow.committed == Settled(old(uow.committed), late, arrivals)
  {
    ghost var db := uow.session;
    ghost var view := Settled(db, late, arrivals);
    var report := ResolveThenArrive(uow, key, newReport, late, arrivals);
    if report.Err? {
      uow.ArriveJobs(arrivals);
      return report;
    }
    ghost var inserted := uow.session.reports;
    assert Seen(uow.session, arrivals) == view.(reports := inserted);
    AttachmentIsMade(view, inserted, key, newReport, newJob, event, now, eventAt);
    r := SubmitAndAttach(uow, report.value, key, newJob, event, now, eventAt, arrivals);
    if r.Ok? {
      MadeFromAttachment(view, inserted, key, newReport, newJob, event, now, eventAt, uow.session);
      MadeIsReturned(view, key, newReport, newJob, event, now, eventAt);
    }
  }

  /** create_report is the atomic decision MakeReport on the rows as they are when its job is resolved, whatever
      others commit before its first insert, before its job is looked up and before the job is inserted; only a
      report found by the first read is returned as it is. */
  method CreateReport(
    uow: UnitOfWork, key: Option<string>, newReport: ReportId, newJob: JobId, event: EventId, now: Time, eventAt: Time,
    others: Db, late: Db, arrivals: map<JobId, Job>)
    returns (r: Outcome<ReportId>)
    requires UniqueReportKeys(uow.session.reports) && UniqueReportKeys(Apply(uow.session, others).reports)
    requires LateRows(Apply(uow.session, others), late, arrivals, key, newReport)
    requires newJob !in Apply(uow.session, others).jobs + late.jobs + arrivals
    modifies uow`session, uow`committed
    ensures if !Falsy(key) && ReportHolder(old(uow.session.reports), key.value).Some? then
              && r == Ok(ReportHolder(old(uow.session.reports), key.value).value)
              && uow.session == old(uow.session) && uow.committed == old(uow.committed)
            else
              var view := Settled(Apply(old(uow.session), others), late, arrivals);
              var made := MakeReport(view, key, newReport, newJob, event, now, eventAt);
              && r == ReportOutcomeOf(made) && (made.ReportMade? ==> uow.session == Apply(view, made.writes))
              && (r.Ok? ==> ReportReturned(uow.session, r.value, event, key, eventAt))
              && uow.committed == Settled(Apply(old(uow.committed), others), late, arrivals)
  {
    if !Falsy(key) {
      var existing := ReportByKey(uow, key.value);
      if existing.Some? {
        return Ok(existing.value);
      }
    }
    uow.Arrive(others);
    r := MakeReportRows(uow, key, newReport, newJob, event, now, eventAt, late, arrivals);
  }
}
