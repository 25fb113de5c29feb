/** Attempt history of a job: dense, append-only, with at most one success, and in
    agreement with the job's status in every committed state. */
module History {
  import opened Rows
  import opened Pipeline
  import opened Outbox
  import opened Submission
  import opened Protocol

  /** The attempt numbers of `id` are exactly 1..job.attempts, and its last attempt agrees with the job row. */
  ghost predicate JobOk(id: JobId, job: Job, attempts: map<AttemptKey, Attempt>) {
    && (forall k: nat :: AttemptKey(id, k) in attempts <==> 1 <= k <= job.attempts)
    && (forall k: nat ::
          AttemptKey(id, k) in attempts && attempts[AttemptKey(id, k)].status.AttemptSucceeded? ==>
            job.status.JobCompleted? && k == job.attempts)
    && (job.result.Some? ==> job.status.JobCompleted?)
    && (job.attempts == 0 ==> job.status.JobPending?)
    && (job.attempts > 0 ==> LastAttemptAgrees(job, attempts[AttemptKey(id, job.attempts)]))
  }

  predicate LastAttemptAgrees(job: Job, last: Attempt) {
    match job.status
    case JobCompleted => last.status.AttemptSucceeded? && job.lastError.None? && last.error.None?
    case JobDead => last.status.AttemptFailed? && last.error.Some? && job.lastError == last.error
    case JobRunning => last.status.AttemptRunning?
    case JobPending => !last.status.AttemptSucceeded?
  }

  ghost predicate JobsOk(jobs: map<JobId, Job>, attempts: map<AttemptKey, Attempt>) {
    forall id :: id in jobs ==> JobOk(id, jobs[id], attempts)
  }

  ghost predicate HistoryOk(db: Db) {
    && JobsOk(db.jobs, db.attempts)
    && (forall k :: k in db.attempts ==> k.job in db.jobs)
  }

  /** What no later transaction can undo. */
  ghost predicate Extends(db: Db, later: Db) {
    && (forall k :: k in db.attempts ==> k in later.attempts && later.attempts[k] == db.attempts[k])
    && (forall id :: id in db.jobs ==> id in later.jobs && JobExtends(db.jobs[id], later.jobs[id]))
    && (forall e :: e in db.events ==> e in later.events && SameEventIdentity(db.events[e], later.events[e]))
    && (forall r :: r in db.reports ==> r in later.reports && ReportExtends(db.reports[r], later.reports[r]))
  }

  predicate JobExtends(job: Job, later: Job) {
    && SameIdentity(job, later) && job.attempts <= later.attempts
    && (job.status.JobCompleted? ==> later == job)
  }

  predicate ReportExtends(report: Report, later: Report) {
    && report.key == later.key && (report.jobId.Some? ==> later.jobId == report.jobId)
    && (!report.status.ReportPending? ==> later.status == report.status && later.result == report.result)
  }

  lemma ExtendsTransitive(a: Db, b: Db, c: Db)
    requires Extends(a, b) && Extends(b, c)
    ensures Extends(a, c)
  {
  }

  /******* One attempt *******/

  /** A new attempt row and the job row it leaves behind. */
  predicate NextRows(job: Job, later: Job, attempt: Attempt) {
    && SameIdentity(job, later) && later.attempts == job.attempts + 1
    && (attempt.status.AttemptSucceeded? ==> later.status.JobCompleted?)
    && (later.result.Some? ==> later.status.JobCompleted?)
    && LastAttemptAgrees(later, attempt)
  }

  lemma AttemptRows(id: JobId, job: Job, found: Option<Report>, retries: nat, maxRetries: nat, a: AttemptInput)
    requires job.result.None?
    requires !AttemptVerdict(job, found, retries, maxRetries, a).raises
    ensures var w := AttemptWrites(id, job, found, retries, maxRetries, a);
            var key := AttemptKey(id, job.attempts + 1);
            && w.jobs.Keys == {id} && w.attempts.Keys == {key} && w.events == map[]
            && NextRows(job, w.jobs[id], w.attempts[key])
  {
  }

  lemma AttemptReportRow(id: JobId, job: Job, found: Option<Report>, retries: nat, maxRetries: nat, a: AttemptInput)
    ensures var w := AttemptWrites(id, job, found, retries, maxRetries, a);
            && w.events == map[] && w.jobs.Keys == {id} && w.jobs[id].attempts == job.attempts + 1
            && forall r :: r in w.reports ==>
                 TargetOf(job) == Some(r) && found.Some? && ReportExtends(found.value, w.reports[r])
  {
  }

  lemma OtherJobOk(other: JobId, job: Job, attempts: map<AttemptKey, Attempt>, key: AttemptKey, row: Attempt)
    requires JobOk(other, job, attempts) && key.job != other
    ensures JobOk(other, job, attempts[key := row])
  {
  }

  lemma NextJobOk(id: JobId, job: Job, later: Job, attempts: map<AttemptKey, Attempt>, row: Attempt)
    requires JobOk(id, job, attempts) && !Terminal(job.status) && NextRows(job, later, row)
    ensures JobOk(id, later, attempts[AttemptKey(id, job.attempts + 1) := row])
    ensures AttemptKey(id, job.attempts + 1) !in attempts
  {
  }

  lemma NewAttemptKeepsJobs(jobs: map<JobId, Job>, attempts: map<AttemptKey, Attempt>, id: JobId, later: Job, row: Attempt)
    requires JobsOk(jobs, attempts) && id in jobs && !Terminal(jobs[id].status) && NextRows(jobs[id], later, row)
    ensures AttemptKey(id, jobs[id].attempts + 1) !in attempts
    ensures JobsOk(jobs[id := later], attempts[AttemptKey(id, jobs[id].attempts + 1) := row])
  {
    NextJobOk(id, jobs[id], later, attempts, row);
    forall other | other in jobs && other != id
      ensures JobOk(other, jobs[other], attempts[AttemptKey(id, jobs[id].attempts + 1) := row])
    {
      OtherJobOk(other, jobs[other], attempts, AttemptKey(id, jobs[id].attempts + 1), row);
    }
  }

  lemma NewAttemptKeepsHistory(db: Db, id: JobId, w: Db)
    requires HistoryOk(db) && id in db.jobs && !Terminal(db.jobs[id].status)
    requires var key := AttemptKey(id, db.jobs[id].attempts + 1);
             && w.jobs.Keys == {id} && w.attempts.Keys == {key}
             && NextRows(db.jobs[id], w.jobs[id], w.attempts[key])
    ensures HistoryOk(Apply(db, w))
    ensures w.attempts.Keys !! db.attempts.Keys
  {
    var key := AttemptKey(id, db.jobs[id].attempts + 1);
    NewAttemptKeepsJobs(db.jobs, db.attempts, id, w.jobs[id], w.attempts[key]);
    assert db.attempts + w.attempts == db.attempts[key := w.attempts[key]];
    assert db.jobs + w.jobs == db.jobs[id := w.jobs[id]];
  }

  /******* Writes that leave job_attempts alone *******/

  predicate ReturnsToPending(job: Job, later: Job) {
    && (job.status.JobRunning? || job.status.JobDead?) && later.status.JobPending?
    && later.attempts == job.attempts && SameIdentity(job, later)
    && (later.result.None? || later.result == job.result)
  }

  predicate FirstRow(job: Job) {
    job.status.JobPending? && job.attempts == 0 && job.result.None?
  }

  lemma PendingJobOk(id: JobId, job: Job, later: Job, attempts: map<AttemptKey, Attempt>)
    requires JobOk(id, job, attempts) && ReturnsToPending(job, later)
    ensures JobOk(id, later, attempts)
  {
  }

  lemma JobWritesKeepHistory(db: Db, w: Db)
    requires HistoryOk(db) && w.attempts == map[]
    requires forall id :: id in w.jobs ==>
      if id in db.jobs then ReturnsToPending(db.jobs[id], w.jobs[id]) else FirstRow(w.jobs[id])
    ensures HistoryOk(Apply(db, w))
  {
    var later := Apply(db, w);
    assert later.attempts == db.attempts;
    forall id | id in later.jobs ensures JobOk(id, later.jobs[id], db.attempts) {
      if id !in db.jobs {
        assert forall k: nat :: AttemptKey(id, k) in db.attempts ==> id in db.jobs;
      } else if id in w.jobs {
        PendingJobOk(id, db.jobs[id], w.jobs[id], db.attempts);
      }
    }
  }

  /******* Every step *******/

  /** Writes that only insert rows or move existing ones forward. */
  ghost predicate Advances(db: Db, w: Db) {
    && w.attempts.Keys !! db.attempts.Keys
    && (forall id :: id in w.jobs && id in db.jobs ==> JobExtends(db.jobs[id], w.jobs[id]))
    && (forall e :: e in w.events && e in db.events ==> SameEventIdentity(db.events[e], w.events[e]))
    && (forall r :: r in w.reports && r in db.reports ==> ReportExtends(db.reports[r], w.reports[r]))
  }

  lemma AdvancesExtends(db: Db, w: Db)
    requires Advances(db, w)
    ensures Extends(db, Apply(db, w))
  {
  }

  lemma AttemptAdvances(db: Db, id: JobId, w: Db)
    requires HistoryOk(db) && id in db.jobs && !Terminal(db.jobs[id].status)
    requires var key := AttemptKey(id, db.jobs[id].attempts + 1);
             && w.jobs.Keys == {id} && w.attempts.Keys == {key} && w.events == map[]
             && NextRows(db.jobs[id], w.jobs[id], w.attempts[key])
    requires forall r :: r in w.reports ==> r in db.reports && ReportExtends(db.reports[r], w.reports[r])
    ensures HistoryOk(Apply(db, w)) && Advances(db, w)
  {
    NewAttemptKeepsHistory(db, id, w);
  }

  lemma AttemptStep(s: Sys, a: Action)
    requires HistoryOk(s.db) && EnabledBroker(s, a) && a.RunAttempt?
    ensures HistoryOk(Apply(s.db, WritesOf(s, a))) && Advances(s.db, WritesOf(s, a))
  {
    var m := s.broker[a.msg];
    var job, found := s.db.jobs[m.job], FoundReport(s.db.reports, s.db.jobs[m.job]);
    assert JobOk(m.job, job, s.db.attempts);
    AttemptRows(m.job, job, found, m.retries, s.maxRetries, a.attempt);
    AttemptReportRow(m.job, job, found, m.retries, s.maxRetries, a.attempt);
    AttemptAdvances(s.db, m.job, WritesOf(s, a));
  }

  /** A service inserts rows, moves jobs back to PENDING and attaches jobs to reports. */
  ghost predicate ServiceWrites(db: Db, w: Db) {
    && w.attempts == map[] && w.events.Keys !! db.events.Keys
    && (forall id :: id in w.jobs ==> if id in db.jobs then ReturnsToPending(db.jobs[id], w.jobs[id]) else FirstRow(w.jobs[id]))
    && (forall r :: r in w.reports && r in db.reports ==> ReportExtends(db.reports[r], w.reports[r]))
  }

  lemma CreateReportRows(s: Sys, a: Action)
    requires EnabledService(s.db, a) && a.CreateReport?
    ensures ServiceWrites(s.db, WritesOf(s, a))
  {
  }

  lemma JobServiceRows(s: Sys, a: Action)
    requires EnabledService(s.db, a) && !a.CreateReport?
    ensures ServiceWrites(s.db, WritesOf(s, a))
  {
  }

  lemma ServiceRows(s: Sys, a: Action)
    requires EnabledService(s.db, a)
    ensures ServiceWrites(s.db, WritesOf(s, a))
  {
    if a.CreateReport? {
      CreateReportRows(s, a);
    } else {
      JobServiceRows(s, a);
    }
  }

  lemma ServiceStep(s: Sys, a: Action)
    requires HistoryOk(s.db) && EnabledService(s.db, a)
    ensures HistoryOk(Apply(s.db, WritesOf(s, a))) && Advances(s.db, WritesOf(s, a))
  {
    ServiceRows(s, a);
    JobWritesKeepHistory(s.db, WritesOf(s, a));
  }

  lemma PublisherStep(s: Sys, a: Action)
    requires HistoryOk(s.db) && EnabledPublisher(s, a)
    ensures HistoryOk(Apply(s.db, WritesOf(s, a))) && Advances(s.db, WritesOf(s, a))
  {
    JobWritesKeepHistory(s.db, WritesOf(s, a));
  }

  /** Every step of the atomic machine keeps the history well formed and undoes nothing. */
  lemma StepKeepsHistory(s: Sys, a: Action)
    requires HistoryOk(s.db) && Enabled(s, a)
    ensures HistoryOk(Next(s, a).db) && Extends(s.db, Next(s, a).db)
  {
    var w := WritesOf(s, a);
    if a.RunAttempt? {
      AttemptStep(s, a);
    } else if EnabledService(s.db, a) {
      ServiceStep(s, a);
    } else if EnabledPublisher(s, a) {
      PublisherStep(s, a);
    } else {
      JobWritesKeepHistory(s.db, NO_ROWS);
    }
    AdvancesExtends(s.db, w);
  }
}
