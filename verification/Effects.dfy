/** What each step leaves in the rows, column by column. The statements here write the statuses, columns and
    comparisons out: they do not use the functions that compute the rows. */
module Effects {
  import opened Rows
  import opened Pipeline
  import opened Outbox
  import opened Submission
  import opened Protocol
  import opened History
  import opened Safety
  import opened Delivery
  import opened Steps

  predicate Kept(job: Job, later: Job) {
    later.jobType == job.jobType && later.key == job.key && later.payload == job.payload && later.createdAt == job.createdAt
  }

  /******* What a delivery decides *******/

  /** How the executor ends when the attempt of this delivery runs. */
  function OutcomeOn(db: Db, id: JobId, a: AttemptInput): ExecOutcome
    requires id in db.jobs
  {
    Execute(db.jobs[id], FoundReport(db.reports, db.jobs[id]), db.jobs[id].attempts + 1, a.started, a.input).outcome
  }

  /** The error text recorded for a failed attempt. */
  function FailureText(outcome: ExecOutcome, jobType: string, retries: nat, maxRetries: nat): Option<string> {
    match outcome
    case Returned(_) => None
    case RaisedNonRetryable(error) => Some(error)
    case NotRegistered => Some("No executor registered for job type: '" + jobType + "'")
    case RaisedRetryable(error) =>
      Some(if retries < maxRetries then error else "DLQ: " + error + " (max retries exceeded)")
    case RaisedOther(trace) => Some(trace)
  }

  /** The job row, the attempt row and the successor message that a finalized, committed attempt leaves. */
  predicate Decided(
    outcome: ExecOutcome, retries: nat, maxRetries: nat, job: Job, a: AttemptInput, later: Job, row: Attempt, successor: bool)
  {
    && (later.status.JobPending? <==> outcome.RaisedRetryable? && retries < maxRetries)
    && (successor <==> outcome.RaisedRetryable? && retries < maxRetries)
    && (later.status.JobDead?
        <==> || outcome.RaisedNonRetryable? || outcome.NotRegistered?
             || (outcome.RaisedRetryable? && retries >= maxRetries))
    && (later.status.JobCompleted? <==> outcome.Returned?)
    && (row.status.AttemptSucceeded? <==> outcome.Returned?)
    && (row.status.AttemptFailed? <==> !outcome.Returned?)
    && row.error == later.lastError == FailureText(outcome, job.jobType, retries, maxRetries)
    && later.result == (if outcome.Returned? && outcome.result.Some? then outcome.result else job.result)
    && later.attempts == job.attempts + 1 && later.updatedAt == a.finished && Kept(job, later)
    && row.startedAt == a.started && row.finishedAt == Some(a.finished)
  }

  /** The rows of an attempt whose finalization was swallowed. */
  predicate LeftRunning(job: Job, a: AttemptInput, later: Job, row: Attempt) {
    && later.status.JobRunning? && later.attempts == job.attempts + 1 && later.lastError.None? && later.result == job.result
    && later.updatedAt == a.started && Kept(job, later)
    && row == Attempt(AttemptRunning, None, a.started, None)
  }

  lemma VerdictDecides(id: JobId, job: Job, found: Option<Report>, retries: nat, maxRetries: nat, a: AttemptInput)
    requires a.finalized && !AttemptVerdict(job, found, retries, maxRetries, a).raises
    ensures var w, key := AttemptWrites(id, job, found, retries, maxRetries, a), AttemptKey(id, job.attempts + 1);
            && w.jobs.Keys == {id} && w.attempts.Keys == {key}
            && Decided(Execute(job, found, job.attempts + 1, a.started, a.input).outcome, retries, maxRetries, job, a,
                 w.jobs[id], w.attempts[key], AttemptVerdict(job, found, retries, maxRetries, a).needRetry)
  {
  }

  lemma SwallowedLeavesRunning(id: JobId, job: Job, found: Option<Report>, retries: nat, maxRetries: nat, a: AttemptInput)
    requires !a.finalized
    ensures var w, key := AttemptWrites(id, job, found, retries, maxRetries, a), AttemptKey(id, job.attempts + 1);
            w.jobs.Keys == {id} && w.attempts.Keys == {key} && LeftRunning(job, a, w.jobs[id], w.attempts[key])
  {
  }

  lemma RaisesIff(job: Job, found: Option<Report>, retries: nat, maxRetries: nat, a: AttemptInput)
    ensures AttemptVerdict(job, found, retries, maxRetries, a).raises
            <==> Execute(job, found, job.attempts + 1, a.started, a.input).outcome.RaisedOther?
  {
  }

  lemma RetriesIff(job: Job, found: Option<Report>, retries: nat, maxRetries: nat, a: AttemptInput)
    ensures AttemptVerdict(job, found, retries, maxRetries, a).needRetry
            <==> Execute(job, found, job.attempts + 1, a.started, a.input).outcome.RaisedRetryable? && retries < maxRetries
  {
  }

  /** Which deliveries are retried, which go to the DLQ and which complete, on the rows and the message they leave;
      one whose executor raises any other exception leaves nothing. */
  lemma DeliveryDecides(s: Sys, i: nat, a: AttemptInput)
    requires i < |s.broker| && s.broker[i].phase.Ready? && s.broker[i].job in s.db.jobs
    requires !s.db.jobs[s.broker[i].job].status.JobCompleted? && !s.db.jobs[s.broker[i].job].status.JobDead?
    ensures Enabled(s, RunAttempt(i, a)) <==> !OutcomeOn(s.db, s.broker[i].job, a).RaisedOther?
    ensures Enabled(s, RunAttempt(i, a)) ==>
      var m, t := s.broker[i], Next(s, RunAttempt(i, a));
      var job, key := s.db.jobs[m.job], AttemptKey(m.job, s.db.jobs[m.job].attempts + 1);
      && m.job in t.db.jobs && key in t.db.attempts
      && (forall j :: j in s.db.jobs && j != m.job ==> t.db.jobs[j] == s.db.jobs[j])
      && (t.broker[i].phase == Handled(true) <==> OutcomeOn(s.db, m.job, a).RaisedRetryable? && m.retries < s.maxRetries)
      && if a.finalized
         then Decided(OutcomeOn(s.db, m.job, a), m.retries, s.maxRetries, job, a, t.db.jobs[m.job], t.db.attempts[key],
                t.broker[i].phase == Handled(true))
         else LeftRunning(job, a, t.db.jobs[m.job], t.db.attempts[key])
  {
    var m := s.broker[i];
    var job, found := s.db.jobs[m.job], FoundReport(s.db.reports, s.db.jobs[m.job]);
    RaisesIff(job, found, m.retries, s.maxRetries, a);
    RetriesIff(job, found, m.retries, s.maxRetries, a);
    if !OutcomeOn(s.db, m.job, a).RaisedOther? {
      RunsAttempt(s, i, m, job, found, a);
      if a.finalized {
        VerdictDecides(m.job, job, found, m.retries, s.maxRetries, a);
      } else {
        SwallowedLeavesRunning(m.job, job, found, m.retries, s.maxRetries, a);
      }
    }
  }

  /******* What the report executor does *******/

  predicate Whitespace(c: char) {
    c == ' ' || c == '\t' || c == '\n' || c == '\r'
  }

  /** The payload names a report: a string with something other than white space in it. */
  predicate NamesReport(payload: Doc) {
    && "report_id" in payload && payload["report_id"].JString?
    && exists i :: 0 <= i < |payload["report_id"].text| && !Whitespace(payload["report_id"].text[i])
  }

  /** How a registered report executor ends on each payload and report, and what it writes. */
  lemma GenerateEnds(job: Job, reports: map<ReportId, Report>, no: nat, now: Time, own: ExecOutcome, fault: bool)
    requires job.jobType == "report.generate"
    ensures var e := Execute(job, FoundReport(reports, job), no, now, Registered(own, fault));
            var named := NamesReport(job.payload);
            && (e.outcome.RaisedNonRetryable?
                <==> !named || (!fault && job.payload["report_id"].text !in reports))
            && (e.outcome.RaisedRetryable? <==> named && fault)
            && (e.outcome.RaisedOther?
                <==> named && !fault && job.payload["report_id"].text in reports
                     && !reports[job.payload["report_id"].text].status.ReportPending?)
            && (e.outcome.Returned?
                <==> named && !fault && job.payload["report_id"].text in reports
                     && reports[job.payload["report_id"].text].status.ReportPending?)
            && (e.outcome.RaisedNonRetryable? ==>
                  e.outcome.error == if named then "Report not found: " + job.payload["report_id"].text
                                     else "Missing/invalid 'report_id' in payload")
            && (e.outcome.RaisedRetryable? ==> e.outcome.error == "Failed to persist report result")
            && (e.write.Some? <==> e.outcome.Returned?)
            && (e.outcome.Returned? ==>
                  var id := job.payload["report_id"].text;
                  && e.outcome.result.Some? && {"report_id", "generated_at", "attempt_no"} == e.outcome.result.value.Keys
                  && e.outcome.result.value["report_id"] == JString(id) && e.outcome.result.value["attempt_no"] == JNumber(no)
                  && e.outcome.result.value["generated_at"] == JNumber(now)
                  && e.write.value.status.ReportReady? && e.write.value.result == e.outcome.result
                  && e.write.value.key == reports[id].key && e.write.value.jobId == reports[id].jobId)
  {
    if "report_id" in job.payload && job.payload["report_id"].JString? {
      assert Blank(job.payload["report_id"].text) <==> !NamesReport(job.payload);
    }
  }

  lemma OtherExecutorsDecide(job: Job, found: Option<Report>, no: nat, now: Time, own: ExecOutcome, fault: bool)
    requires job.jobType != "report.generate"
    ensures Execute(job, found, no, now, Registered(own, fault)) == Execution(own, None)
    ensures Execute(job, found, no, now, Unregistered) == Execution(NotRegistered, None)
  {
  }

  /** `later` differs from `reports` at most in the report the payload names, which became READY with the result. */
  predicate OnlyGenerated(reports: map<ReportId, Report>, later: map<ReportId, Report>, job: Job, outcome: ExecOutcome) {
    && later.Keys == reports.Keys
    && forall r :: r in reports && later[r] != reports[r] ==>
         && job.jobType == "report.generate" && NamesReport(job.payload) && job.payload["report_id"].text == r
         && outcome.Returned? && later[r] == reports[r].(status := ReportReady, result := outcome.result)
  }

  lemma ExecutionReports(job: Job, reports: map<ReportId, Report>, no: nat, now: Time, input: ExecInput)
    ensures var e := Execute(job, FoundReport(reports, job), no, now, input);
            OnlyGenerated(reports, reports + ReportWrites(TargetOf(job), e.write), job, e.outcome)
  {
    if input.Registered? && job.jobType == "report.generate" {
      GenerateEnds(job, reports, no, now, input.own, input.fault);
    }
  }

  lemma AttemptWritesReports(id: JobId, job: Job, found: Option<Report>, retries: nat, maxRetries: nat, a: AttemptInput)
    ensures AttemptWrites(id, job, found, retries, maxRetries, a).reports
            == ReportWrites(TargetOf(job), Execute(job, found, job.attempts + 1, a.started, a.input).write)
  {
  }

  /** The only report row an attempt changes is the one its payload names, and only when the executor returned. */
  lemma AttemptReports(s: Sys, i: nat, a: AttemptInput)
    requires EnabledBroker(s, RunAttempt(i, a))
    ensures OnlyGenerated(s.db.reports, Next(s, RunAttempt(i, a)).db.reports, s.db.jobs[s.broker[i].job],
              OutcomeOn(s.db, s.broker[i].job, a))
  {
    var m := s.broker[i];
    var job, found := s.db.jobs[m.job], FoundReport(s.db.reports, s.db.jobs[m.job]);
    RunsAttempt(s, i, m, job, found, a);
    AttemptWritesReports(m.job, job, found, m.retries, s.maxRetries, a);
    ExecutionReports(job, s.db.reports, job.attempts + 1, a.started, a.input);
  }

  /******* Jobs nobody runs *******/

  /** The attempt rows of a job. */
  function AttemptRowsOf(db: Db, id: JobId): map<AttemptKey, Attempt> {
    map k | k in db.attempts && k.job == id :: db.attempts[k]
  }

  lemma FinishedJobWritten(s: Sys, a: Action, id: JobId)
    requires Enabled(s, a) && id in s.db.jobs && s.db.jobs[id].status in {JobCompleted, JobDead} && id in WritesOf(s, a).jobs
    ensures a.RetryDead? && a.job == id && s.db.jobs[id].status == JobDead
  {
    if a.RunAttempt? {
      var m := s.broker[a.msg];
      AttemptReportRow(m.job, s.db.jobs[m.job], FoundReport(s.db.reports, s.db.jobs[m.job]), m.retries, s.maxRetries, a.attempt);
    }
  }

  lemma AttemptsWritten(s: Sys, a: Action, k: AttemptKey)
    requires Enabled(s, a) && k in WritesOf(s, a).attempts
    ensures a.RunAttempt? && s.broker[a.msg].job == k.job && s.db.jobs[k.job].status !in {JobCompleted, JobDead}
  {
  }

  lemma OthersWritten(db: Db, w: Db, id: JobId)
    requires id in db.jobs && forall k :: k in w.attempts ==> k.job != id
    ensures AttemptRowsOf(Apply(db, w), id) == AttemptRowsOf(db, id)
    ensures id !in w.jobs ==> id in Apply(db, w).jobs && Apply(db, w).jobs[id] == db.jobs[id]
  {
  }

  /** A COMPLETED or DEAD job keeps its row and its attempt rows through every step but a DLQ retry of it. */
  lemma FinishedStays(s: Sys, a: Action, id: JobId)
    requires Enabled(s, a) && id in s.db.jobs && s.db.jobs[id].status in {JobCompleted, JobDead}
    ensures var t := Next(s, a);
            && id in t.db.jobs && AttemptRowsOf(t.db, id) == AttemptRowsOf(s.db, id)
            && (t.db.jobs[id] != s.db.jobs[id] ==> a.RetryDead? && a.job == id && s.db.jobs[id].status == JobDead)
  {
    forall k | k in WritesOf(s, a).attempts ensures k.job != id {
      AttemptsWritten(s, a, k);
    }
    OthersWritten(s.db, WritesOf(s, a), id);
    if id in WritesOf(s, a).jobs {
      FinishedJobWritten(s, a, id);
    }
  }

  /** No delivery, sweep or submission takes a job out of the dead-letter queue, or touches a COMPLETED one: without
      a DLQ retry of the job, every run leaves its row and its attempts as they were. */
  lemma {:induction false} FinishedStaysAlongRuns(s: Sys, actions: seq<Action>, t: Sys, id: JobId)
    requires Run(s, actions, t) && id in s.db.jobs && s.db.jobs[id].status in {JobCompleted, JobDead}
    requires forall i :: 0 <= i < |actions| ==> !(actions[i].RetryDead? && actions[i].job == id)
    ensures id in t.db.jobs && t.db.jobs[id] == s.db.jobs[id] && AttemptRowsOf(t.db, id) == AttemptRowsOf(s.db, id)
    decreases |actions|
  {
    RunOfNone(s, t);
    if actions != [] {
      RunHead(s, actions, t);
      FinishedStays(s, actions[0], id);
      FinishedStaysAlongRuns(Next(s, actions[0]), actions[1..], t, id);
    }
  }

  /** A DLQ retry clears the error and the result, keeps the history, and inserts an event that is due. */
  lemma DlqRetryLeaves(s: Sys, a: Action)
    requires Enabled(s, a) && a.RetryDead?
    ensures a.job in s.db.jobs && s.db.jobs[a.job].status == JobDead
    ensures var before, t := s.db.jobs[a.job], Next(s, a);
            && a.job in t.db.jobs && t.db.attempts == s.db.attempts
            && var later := t.db.jobs[a.job];
               && later.status == JobPending && later.lastError.None? && later.result.None? && later.attempts == before.attempts
               && later.updatedAt == a.now && Kept(before, later)
  {
  }

  /******* The sweeper *******/

  /** What a sweep makes of one job: if it was RUNNING and last updated before the cutoff it may become PENDING with
      the sweeper's note, and nothing else of it changes but updated_at; otherwise it stays as it is. */
  predicate SweptRow(before: Job, later: Job, reset: bool, stuckBefore: Time, now: Time) {
    && (reset ==>
          && before.status == JobRunning && before.updatedAt < stuckBefore
          && later.status == JobPending && later.lastError == Some("Reset from RUNNING by sweeper") && later.updatedAt == now
          && later.result == before.result && later.attempts == before.attempts && Kept(before, later))
    && (!reset ==> later == before)
    && (before.updatedAt >= stuckBefore || before.status != JobRunning ==> later == before)
  }

  /** The jobs a sweep resets were RUNNING and last updated before its cutoff. */
  lemma SweepGuard(db: Db, resets: map<EventId, JobId>, stuckBefore: Time, limit: nat, now: Time)
    requires EnabledService(db, Sweep(resets, stuckBefore, limit, now))
    ensures |resets| <= limit
    ensures forall e :: e in resets ==>
      resets[e] in db.jobs && db.jobs[resets[e]].status == JobRunning && db.jobs[resets[e]].updatedAt < stuckBefore
  {
  }

  lemma SweptJob(jobs: map<JobId, Job>, resets: map<EventId, JobId>, now: Time, id: JobId)
    requires id in jobs && forall e :: e in resets ==> resets[e] in jobs
    ensures var later := jobs + SweepWrites(jobs, resets, now).jobs;
            && id in later
            && later[id] == if id in resets.Values
                            then jobs[id].(status := JobPending, lastError := Some("Reset from RUNNING by sweeper"), updatedAt := now)
                            else jobs[id]
  {
  }

  lemma SweptRows(db: Db, resets: map<EventId, JobId>, stuckBefore: Time, limit: nat, now: Time, id: JobId)
    requires EnabledService(db, Sweep(resets, stuckBefore, limit, now)) && id in db.jobs
    ensures var t := Apply(db, SweepWrites(db.jobs, resets, now));
            && id in t.jobs && t.attempts == db.attempts
            && SweptRow(db.jobs[id], t.jobs[id], id in resets.Values, stuckBefore, now)
  {
    SweepGuard(db, resets, stuckBefore, limit, now);
    SweptJob(db.jobs, resets, now, id);
    NothingAdded(db.attempts);
    if id in resets.Values {
      var e :| e in resets && resets[e] == id;
    }
  }

  lemma SweepChanges(s: Sys, a: Action, id: JobId)
    requires EnabledService(s.db, a) && a.Sweep? && id in s.db.jobs
    ensures id in Next(s, a).db.jobs && Next(s, a).db.attempts == s.db.attempts
    ensures SweptRow(s.db.jobs[id], Next(s, a).db.jobs[id], id in a.resets.Values, a.stuckBefore, a.now)
  {
    SweptRows(s.db, a.resets, a.stuckBefore, a.limit, a.now, id);
  }

  /** A job reset at `now`, or begun at `started`, is safe from any sweep whose cutoff is not past that time. */
  lemma RecentIsNotSwept(s: Sys, a: Action, id: JobId)
    requires EnabledService(s.db, a) && a.Sweep? && id in s.db.jobs && s.db.jobs[id].updatedAt >= a.stuckBefore
    ensures id !in a.resets.Values && id in Next(s, a).db.jobs && Next(s, a).db.jobs[id] == s.db.jobs[id]
  {
    SweepChanges(s, a, id);
  }

  lemma SweptIsNotSweptAgain(s: Sys, first: Action, second: Action, id: JobId)
    requires EnabledService(s.db, first) && first.Sweep? && id in first.resets.Values && id in s.db.jobs
    requires EnabledService(Next(s, first).db, second) && second.Sweep? && second.stuckBefore <= first.now
    ensures id in Next(s, first).db.jobs && id !in second.resets.Values
  {
    SweepChanges(s, first, id);
    RecentIsNotSwept(Next(s, first), second, id);
  }

  /******* New work is due *******/

  /** The event of a job, created at `at`, that can be claimed at every time. */
  predicate DueAlways(event: Event, job: JobId, at: Time) {
    && event.eventType == "job.dispatch.requested" && event.jobId == job && event.status == EventPending
    && event.retryCount == 0 && event.nextAttemptAt == None && event.publishedAt == None && event.error == None && event.createdAt == at
  }

  /** Every event a service inserts, on submission, report creation, DLQ retry or sweep, can be claimed at every
      time. */
  lemma ServiceEventsDue(s: Sys, a: Action, e: EventId)
    requires LinksOk(s.db) && EnabledService(s.db, a) && e in WritesOf(s, a).events
    ensures e !in s.db.events && DueAlways(Next(s, a).db.events[e], Next(s, a).db.events[e].jobId, if a.Sweep? then a.now else a.eventAt)
  {
    match a
    case CreateReport(key, newReport, newJob, event, now, eventAt) =>
      MadeReportRows(s.db, key, newReport, newJob, event, now, eventAt);
    case Submit(req, newJob, event, now, eventAt) => SubmitRows(s.db, req, newJob, event, now, eventAt);
    case RetryDead(_, _, _, _) =>
    case Sweep(_, _, _, _) =>
  }

  /** A new job is PENDING, with its request and no history. */
  predicate NewRow(job: Job, req: Request, now: Time) {
    && job.jobType == req.jobType && job.payload == req.payload && job.key == req.key && job.status == JobPending
    && job.result == None && job.attempts == 0 && job.lastError == None && job.createdAt == now && job.updatedAt == now
  }

  /** An accepted submission returns a job with its type, payload and key: a new row if no row had the key, and
      otherwise the row that had it, unchanged. */
  lemma SubmitLeaves(s: Sys, a: Action)
    requires Enabled(s, a) && a.Submit?
    ensures var t, job := Next(s, a), ResolvedJob(Resolve(s.db.jobs, a.req), a.newJob);
            && job in t.db.jobs && a.event in t.db.events && DueAlways(t.db.events[a.event], job, a.eventAt)
            && t.log == s.log + [Submitted(a.req, job)]
            && (if job in s.db.jobs
                then t.db.jobs == s.db.jobs && s.db.jobs[job].jobType == a.req.jobType && s.db.jobs[job].payload == a.req.payload
                     && s.db.jobs[job].key == a.req.key && a.req.key.Some?
                else t.db.jobs == s.db.jobs[job := t.db.jobs[job]] && NewRow(t.db.jobs[job], a.req, a.now)
                     && (a.req.key.Some? ==> forall j :: j in s.db.jobs ==> s.db.jobs[j].key != a.req.key))
  {
    SubmitRows(s.db, a.req, a.newJob, a.event, a.now, a.eventAt);
    if a.req.key.Some? {
      forall j | j in s.db.jobs && s.db.jobs[j].key == a.req.key ensures !Resolve(s.db.jobs, a.req).Fresh? {
        assert JobHolds(s.db.jobs, a.req.key.value, j);
      }
    }
    if Resolve(s.db.jobs, a.req).Reuse? {
      assert s.db.jobs + map[] == s.db.jobs;
    }
  }

  /** A report creation that goes through returns a report attached to a report.generate job of the same key whose
      payload names it; a report that existed is left as it was. */
  lemma CreateReportLeaves(s: Sys, a: Action)
    requires LinksOk(s.db) && EnabledService(s.db, a) && a.CreateReport?
    ensures var t, made := Next(s, a), MakeReport(s.db, a.key, a.newReport, a.newJob, a.event, a.now, a.eventAt);
            && made.report in t.db.reports && made.job in t.db.jobs && a.event in t.db.events
            && DueAlways(t.db.events[a.event], made.job, a.eventAt)
            && t.db.reports[made.report].jobId == Some(made.job) && t.db.reports[made.report].key == a.key
            && t.db.jobs[made.job].key == a.key && t.db.jobs[made.job].jobType == "report.generate"
            && t.db.jobs[made.job].payload == map["report_id" := JString(made.report)]
            && (made.report !in s.db.reports ==>
                  t.db.reports[made.report].status == ReportPending && t.db.reports[made.report].result == None)
            && (made.report in s.db.reports ==> t.db.reports == s.db.reports)
  {
    MadeReportRows(s.db, a.key, a.newReport, a.newJob, a.event, a.now, a.eventAt);
    assert s.db.reports + map[] == s.db.reports;
  }

  /******* Publishers *******/

  lemma PublishedLeaves(s: Sys, a: Action)
    requires EnabledPublisher(s, a) && a.MarkPublished?
    ensures var before, later := s.db.events[a.event], WritesOf(s, a).events[a.event];
            && a.event in Next(s, a).db.events && Next(s, a).db.events[a.event] == later
            && later == before.(status := EventPublished, error := None, publishedAt := Some(a.now), nextAttemptAt := None)
  {
  }

  /** A failure recorded on the row as claimed: FAILED if the error is terminal or MAX_PUBLISH_RETRIES retries are used
      up, and otherwise PENDING with one more retry, to be claimed `delay` after `now`. */
  predicate FailureLeaves(before: Event, later: Event, error: string, terminal: bool, now: Time, delay: nat) {
    && later.eventType == before.eventType && later.jobId == before.jobId && later.createdAt == before.createdAt
    && later.error == Some(error) && later.publishedAt == None
    && (later.status == EventFailed <==> terminal || before.retryCount >= 5)
    && (later.status == EventPending <==> !terminal && before.retryCount < 5)
    && later.retryCount == (if !terminal && before.retryCount < 5 then before.retryCount + 1 else before.retryCount)
    && later.nextAttemptAt == (if !terminal && before.retryCount < 5 then Some(now + delay) else None)
  }

  lemma FailedPublishLeaves(before: Event, error: string, terminal: bool, now: Time, delay: nat)
    ensures FailureLeaves(before, FailedPublish(before, error, terminal, now, delay), error, terminal, now, delay)
    ensures OrmUpdate(before, before, FailedPublish(before, error, terminal, now, delay))
            == FailedPublish(before, error, terminal, now, delay)
  {
  }

  /** After a transient failure with retries left, the event can be claimed at `t` exactly from `now + delay` on. */
  lemma RetryIsDueIff(before: Event, error: string, now: Time, delay: nat, t: Time)
    requires before.retryCount < 5
    ensures var later := FailedPublish(before, error, false, now, delay);
            && later.status == EventPending && later.retryCount == before.retryCount + 1
            && ((later.nextAttemptAt.None? || later.nextAttemptAt.value <= t) <==> now + delay <= t)
  {
    FailedPublishLeaves(before, error, false, now, delay);
  }

  /** With overlap, the columns the failure leaves alone keep what others committed; the others are overwritten. */
  lemma OverwritesColumns(current: Event, loaded: Event, modified: Event)
    requires SameEventIdentity(current, loaded) && SameEventIdentity(loaded, modified)
    ensures var later := OrmUpdate(current, loaded, modified);
            && SameEventIdentity(current, later)
            && later.status == (if modified.status == loaded.status then current.status else modified.status)
            && later.error == (if modified.error == loaded.error then current.error else modified.error)
            && later.retryCount == (if modified.retryCount == loaded.retryCount then current.retryCount else modified.retryCount)
            && later.nextAttemptAt
               == (if modified.nextAttemptAt == loaded.nextAttemptAt then current.nextAttemptAt else modified.nextAttemptAt)
            && later.publishedAt == (if modified.publishedAt == loaded.publishedAt then current.publishedAt else modified.publishedAt)
  {
  }

  /******* Which calls go through *******/

  predicate SameCall(job: Job, req: Request) {
    job.key == req.key && job.jobType == req.jobType && job.payload == req.payload
  }

  /** A submission is accepted exactly when it has no key, a key no job has, or one other than the empty key whose
      job is of the same type and payload; otherwise it is refused. */
  lemma AcceptedIff(db: Db, req: Request, newJob: JobId, event: EventId, now: Time, eventAt: Time)
    requires KeysOk(db) && newJob !in db.jobs && event !in db.events
    ensures EnabledService(db, Submit(req, newJob, event, now, eventAt))
            <==> || req.key == None || (forall j :: j in db.jobs ==> db.jobs[j].key != req.key)
                 || (req.key != Some("") && exists j :: j in db.jobs && SameCall(db.jobs[j], req))
    ensures EnabledService(db, Refuse(req)) <==> !EnabledService(db, Submit(req, newJob, event, now, eventAt))
  {
    if req.key.Some? {
      var holder := JobHolder(db.jobs, req.key.value);
      forall j | j in db.jobs && db.jobs[j].key == req.key ensures holder == Some(j) {
        assert JobHolds(db.jobs, req.key.value, j);
      }
    }
  }

  /** A DLQ retry goes through exactly for a DEAD job. */
  lemma RetryGoesThroughIff(db: Db, id: JobId, event: EventId, now: Time, eventAt: Time)
    requires event !in db.events
    ensures EnabledService(db, RetryDead(id, event, now, eventAt)) <==> id in db.jobs && db.jobs[id].status == JobDead
  {
  }

  /** A sweep may reset any at most `limit` RUNNING jobs last updated before its cutoff, and no others. */
  lemma SweepGoesThroughIff(db: Db, resets: map<EventId, JobId>, stuckBefore: Time, limit: nat, now: Time)
    requires |resets| <= limit && resets.Keys !! db.events.Keys
    requires forall e, f :: e in resets && f in resets && e != f ==> resets[e] != resets[f]
    ensures EnabledService(db, Sweep(resets, stuckBefore, limit, now))
            <==> forall e :: e in resets ==>
                   resets[e] in db.jobs && db.jobs[resets[e]].status == JobRunning && db.jobs[resets[e]].updatedAt < stuckBefore
  {
  }

  /** Under a new report id, create_report goes past its first read exactly when it has no key, a key that neither a
      report nor a job has, a key other than the empty one that a report has, or one that only a job has that generates
      this very report. */
  lemma CreationGoesThroughIff(db: Db, key: Option<string>, report: ReportId, newJob: JobId, event: EventId, now: Time, eventAt: Time)
    requires KeysOk(db) && LinksOk(db) && report !in db.reports && !Blank(report) && newJob !in db.jobs && event !in db.events
    ensures EnabledService(db, CreateReport(key, report, newJob, event, now, eventAt))
            <==> || key == None
                 || (if exists r :: r in db.reports && db.reports[r].key == key then key != Some("")
                     else (forall j :: j in db.jobs ==> db.jobs[j].key != key)
                          || (key != Some("") && exists j :: j in db.jobs && SameCall(db.jobs[j], ReportRequest(report, key))))
  {
    if key.Some? {
      forall r | r in db.reports && db.reports[r].key == key ensures ReportHolder(db.reports, key.value) == Some(r) {
        assert ReportHolds(db.reports, key.value, r);
      }
      forall j | j in db.jobs && db.jobs[j].key == key ensures JobHolder(db.jobs, key.value) == Some(j) {
        assert JobHolds(db.jobs, key.value, j);
      }
    }
  }

  /******* What the history records *******/

  /** The entries a step adds to the history, which is what theorems on calls, dispatches and failures count. */
  lemma HistoryRecords(s: Sys, a: Action, x: Entry)
    requires Enabled(s, a)
    ensures s.log <= Next(s, a).log
    ensures var recorded := x in Next(s, a).log[|s.log|..];
            match x
            case Swallowed(j) => recorded <==> a.RunAttempt? && !a.attempt.finalized && s.broker[a.msg].job == j
            case Repeated(j) => recorded <==> (a.Redeliver? || a.CopyMessage?) && s.broker[a.msg].job == j
            case Dispatched(e, j) => recorded <==> a.Dispatch? && a.event == e && s.db.events[e].jobId == j
            case FailureRecorded(e, terminal) => recorded <==> a.RecordFailure? && a.event == e && a.terminal == terminal
            case DlqRetried(j) => recorded <==> a.RetryDead? && a.job == j
            case Swept(jobs) => recorded <==> a.Sweep? && a.resets.Values == jobs
            case Refused(req) => recorded <==> a.Refuse? && a.req == req
            case _ => recorded ==> a.Submit? || a.CreateReport? || a.ServeReport?
  {
    assert Next(s, a).log[|s.log|..] == NewEntries(s, a);
  }

  /******* Messages *******/

  /** A message handled is acknowledged, or first followed by its retry, but may at any time before that be delivered
      again; one ready may be copied; an acknowledged one is gone. */
  lemma MessageLife(s: Sys, i: nat)
    requires i < |s.broker|
    ensures var m := s.broker[i];
            && (Enabled(s, SendRetry(i)) <==> m.phase == Handled(true)) && (Enabled(s, Ack(i)) <==> m.phase == Handled(false))
            && (Enabled(s, Redeliver(i)) <==> m.phase in {Handled(true), Handled(false)})
            && (Enabled(s, CopyMessage(i)) <==> m.phase == Ready)
            && (Enabled(s, SkipAttempt(i))
                <==> m.phase == Ready && (m.job in s.db.jobs ==> s.db.jobs[m.job].status in {JobCompleted, JobDead}))
            && (Enabled(s, Redeliver(i)) ==> Next(s, Redeliver(i)).broker == s.broker[i := Msg(m.job, m.retries, Ready)])
            && (Enabled(s, CopyMessage(i)) ==> Next(s, CopyMessage(i)).broker == s.broker + [m])
            && (Enabled(s, Ack(i)) ==> Next(s, Ack(i)).broker == s.broker[i := Msg(m.job, m.retries, Acked)])
            && (Enabled(s, SkipAttempt(i)) ==> Next(s, SkipAttempt(i)).broker == s.broker[i := Msg(m.job, m.retries, Handled(false))])
  {
  }

  /** A dispatch sends the event's job with no retries used, whoever claimed it, and changes no row. */
  lemma DispatchSends(s: Sys, e: EventId)
    requires Enabled(s, Dispatch(e))
    ensures e in s.db.events && s.db.events[e].status == EventPending
    ensures var t := Next(s, Dispatch(e));
            t.broker == s.broker + [Msg(s.db.events[e].jobId, 0, Ready)] && t.db == s.db
  {
    assert Apply(s.db, NO_ROWS) == s.db;
  }

  /** The successor of a delivery carries one more retry, and is sent once. */
  lemma RetryMessage(s: Sys, a: Action)
    requires Enabled(s, a) && a.SendRetry?
    ensures s.broker[a.msg].phase == Handled(true)
    ensures var t := NextBroker(s, a);
            && |t| == |s.broker| + 1 && t[|s.broker|] == Msg(s.broker[a.msg].job, s.broker[a.msg].retries + 1, Ready)
            && t[a.msg] == Msg(s.broker[a.msg].job, s.broker[a.msg].retries, Handled(false))
            && forall i :: 0 <= i < |s.broker| && i != a.msg ==> t[i] == s.broker[i]
  {
  }
}
