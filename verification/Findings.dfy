/** Where the code falls short of what is said about it: a state that shows it, and the exact condition. */
module Findings {
  import opened Rows
  import opened Pipeline
  import opened Outbox
  import opened Submission
  import opened Protocol
  import opened History
  import opened Safety
  import opened Theorems
  import opened Delivery
  import opened Sums
  import opened Steps

  /******* Report jobs that can never complete *******/

  /** `id` is a report job that is not COMPLETED, on a report still PENDING. */
  ghost predicate AwaitsReport(db: Db, id: JobId, report: ReportId) {
    && id in db.jobs && db.jobs[id].jobType == REPORT_GENERATE && TargetOf(db.jobs[id]) == Some(report)
    && !db.jobs[id].status.JobCompleted? && report in db.reports && db.reports[report].status.ReportPending?
  }

  /** The step runs the executor of some job of this report, and it succeeds. */
  ghost predicate Generates(s: Sys, a: Action, report: ReportId)
    requires Enabled(s, a)
  {
    && a.RunAttempt? && a.attempt.input.Registered? && !a.attempt.input.fault
    && s.db.jobs[s.broker[a.msg].job].jobType == REPORT_GENERATE
    && TargetOf(s.db.jobs[s.broker[a.msg].job]) == Some(report)
  }

  lemma AttemptOrphansIff(db: Db, job: JobId, retries: nat, maxRetries: nat, a: AttemptInput, id: JobId, report: ReportId)
    requires AwaitsReport(db, id, report) && job in db.jobs && !Terminal(db.jobs[job].status)
    ensures var w := AttemptWrites(job, db.jobs[job], FoundReport(db.reports, db.jobs[job]), retries, maxRetries, a);
            Orphaned(Apply(db, w), id, report)
            <==> (&& a.input.Registered? && !a.input.fault && TargetOf(db.jobs[job]) == Some(report)
                  && (job == id ==> !a.finalized))
  {
  }

  lemma QuietOrphansNone(s: Sys, a: Action, id: JobId, report: ReportId)
    requires LinksOk(s.db) && Enabled(s, a) && !a.RunAttempt? && AwaitsReport(s.db, id, report)
    ensures !Orphaned(Next(s, a).db, id, report)
  {
    QuietRows(s, a);
  }

  /** A step orphans a report job exactly when it generates the job's report, as the attempt of another job of
      that report or as an attempt of the job itself whose finalization is swallowed. */
  lemma OrphansIff(s: Sys, a: Action, id: JobId, report: ReportId)
    requires LinksOk(s.db) && Enabled(s, a) && AwaitsReport(s.db, id, report)
    ensures Orphaned(Next(s, a).db, id, report)
            <==> Generates(s, a, report) && (s.broker[a.msg].job == id ==> !a.attempt.finalized)
  {
    if a.RunAttempt? {
      var m := s.broker[a.msg];
      AttemptOrphansIff(s.db, m.job, m.retries, s.maxRetries, a.attempt, id, report);
    } else {
      QuietOrphansNone(s, a, id, report);
    }
  }

  /** The step inserts `id` as a job of a report that is READY already. */
  ghost predicate SubmitsTooLate(s: Sys, a: Action, id: JobId, report: ReportId)
    requires Enabled(s, a)
  {
    && a.Submit? && Resolve(s.db.jobs, a.req).Fresh? && a.newJob == id && a.req.jobType == REPORT_GENERATE
    && TargetOf(NewJob(a.req, a.now)) == Some(report) && report in s.db.reports && s.db.reports[report].status.ReportReady?
  }

  lemma AttemptInsertsNothing(s: Sys, a: Action)
    requires EnabledBroker(s, a) && a.RunAttempt?
    ensures WritesOf(s, a).jobs.Keys <= s.db.jobs.Keys
    ensures forall r :: r in WritesOf(s, a).reports ==> r in s.db.reports
  {
    var m := s.broker[a.msg];
    AttemptReportRow(m.job, s.db.jobs[m.job], FoundReport(s.db.reports, s.db.jobs[m.job]), m.retries, s.maxRetries, a.attempt);
  }

  lemma CreatedIsNotOrphaned(
    db: Db, key: Option<string>, newReport: ReportId, newJob: JobId, event: EventId, now: Time, eventAt: Time, report: ReportId)
    requires LinksOk(db) && FreshReportIds(db, key, newReport, newJob) && newJob !in db.jobs
    requires MakeReport(db, key, newReport, newJob, event, now, eventAt).ReportMade?
    ensures !Orphaned(Apply(db, MakeReport(db, key, newReport, newJob, event, now, eventAt).writes), newJob, report)
  {
    MadeReportRows(db, key, newReport, newJob, event, now, eventAt);
  }

  lemma SubmitOrphansIff(s: Sys, a: Action, id: JobId, report: ReportId)
    requires EnabledService(s.db, a) && a.Submit? && id !in s.db.jobs
    ensures Orphaned(Apply(s.db, WritesOf(s, a)), id, report) <==> SubmitsTooLate(s, a, id, report)
  {
    SubmitRows(s.db, a.req, a.newJob, a.event, a.now, a.eventAt);
  }

  lemma OnlyNewJobInserted(s: Sys, a: Action, id: JobId)
    requires Enabled(s, a) && id !in s.db.jobs && !a.RunAttempt? && id in WritesOf(s, a).jobs
    ensures (a.Submit? || a.CreateReport?) && a.newJob == id
  {
  }

  lemma InsertOrphansIff(s: Sys, a: Action, id: JobId, report: ReportId)
    requires LinksOk(s.db) && Enabled(s, a) && id !in s.db.jobs
    ensures Orphaned(Next(s, a).db, id, report) <==> SubmitsTooLate(s, a, id, report)
  {
    if a.RunAttempt? {
      AttemptInsertsNothing(s, a);
    } else if a.Submit? {
      SubmitOrphansIff(s, a, id, report);
    } else if id in WritesOf(s, a).jobs {
      OnlyNewJobInserted(s, a, id);
      CreatedIsNotOrphaned(s.db, a.key, a.newReport, a.newJob, a.event, a.now, a.eventAt, report);
    }
  }

  lemma SafeWrites(db: Db, w: Db, id: JobId, report: ReportId)
    requires Extends(db, Apply(db, w)) && id in db.jobs
    requires !AwaitsReport(db, id, report) && !Orphaned(db, id, report)
    requires forall r :: r in w.reports && r !in db.reports ==> w.reports[r].status.ReportPending?
    ensures !Orphaned(Apply(db, w), id, report)
  {
  }

  lemma OthersStaySafe(s: Sys, a: Action, id: JobId, report: ReportId)
    requires HistoryOk(s.db) && LinksOk(s.db) && Enabled(s, a) && id in s.db.jobs
    requires !AwaitsReport(s.db, id, report) && !Orphaned(s.db, id, report)
    ensures !Orphaned(Next(s, a).db, id, report)
  {
    StepKeepsHistory(s, a);
    if a.RunAttempt? {
      AttemptInsertsNothing(s, a);
    } else {
      QuietRows(s, a);
    }
    SafeWrites(s.db, WritesOf(s, a), id, report);
  }

  /** Every way a report job becomes one that can never complete: its report is generated without it, or it is
      submitted for a report that is READY already. */
  lemma OrphansAriseIff(s: Sys, a: Action, id: JobId, report: ReportId)
    requires HistoryOk(s.db) && LinksOk(s.db) && Enabled(s, a) && !Orphaned(s.db, id, report)
    ensures Orphaned(Next(s, a).db, id, report)
            <==> || SubmitsTooLate(s, a, id, report)
                 || (&& AwaitsReport(s.db, id, report) && Generates(s, a, report)
                     && (s.broker[a.msg].job == id ==> !a.attempt.finalized))
  {
    if id !in s.db.jobs {
      InsertOrphansIff(s, a, id, report);
    } else if AwaitsReport(s.db, id, report) {
      OrphansIff(s, a, id, report);
    } else {
      OthersStaySafe(s, a, id, report);
    }
  }

  const GENERATED := AttemptInput(Registered(Returned(None), false), true, 0, 0)
  const SWALLOWED := AttemptInput(Registered(Returned(None), false), false, 0, 0)
  const UNKEYED := ReportRequest("r", None)

  lemma NotBlank()
    ensures !Blank("r")
  {
    assert "r"[0] == 'r';
  }

  const CREATED_DB := Db(map[0 := NewJob(UNKEYED, 0)], map[], map[0 := NewEvent(0, 0)], map["r" := NewReport(None).(jobId := Some(0))])

  /** A report "r" was created with job 0 and event 0. */
  ghost predicate Created(s: Sys) {
    s == Sys(CREATED_DB, [], [Submitted(UNKEYED, 0), ReportServed(None, "r", 0)], 0) && Reachable(s)
  }

  lemma CreateStep(start: Sys, create: Action)
    requires start == Init(0) && create == CreateReport(None, "r", 0, 0, 0, 0)
    ensures Enabled(start, create)
    ensures Next(start, create) == Sys(CREATED_DB, [], [Submitted(UNKEYED, 0), ReportServed(None, "r", 0)], 0)
  {
    NotBlank();
    assert FreshReportIds(start.db, None, "r", 0);
    assert MakeReport(start.db, None, "r", 0, 0, 0, 0).ReportMade?;
  }

  lemma CreatedReachable() returns (s: Sys)
    ensures Created(s)
  {
    var start, create := Init(0), CreateReport(None, "r", 0, 0, 0, 0);
    InitReachable(0);
    CreateStep(start, create);
    ReachableNext(start, create);
    s := Next(start, create);
  }

  /** Two report.generate jobs of "r" may exist; the delivery of job `j` comes next. */
  ghost predicate Delivered(s: Sys, j: JobId) {
    && Reachable(s) && s.maxRetries == 0 && s.broker == [Msg(j, 0, Ready)] && s.db.reports == CREATED_DB.reports
    && j in s.db.jobs && s.db.jobs[j] == NewJob(UNKEYED, 0) && 0 in s.db.jobs && s.db.jobs[0] == NewJob(UNKEYED, 0)
  }

  lemma GeneratedRows(s: Sys, j: JobId, a: AttemptInput)
    requires Delivered(s, j) && (a == GENERATED || a == SWALLOWED)
    ensures AwaitsReport(s.db, 0, "r") && TargetOf(NewJob(UNKEYED, 0)) == Some("r")
    ensures !AttemptVerdict(s.db.jobs[j], FoundReport(s.db.reports, s.db.jobs[j]), 0, 0, a).raises
  {
    NotBlank();
    assert TargetOf(NewJob(UNKEYED, 0)) == Some("r");
  }

  lemma DeliveredGenerates(s: Sys, j: JobId, a: AttemptInput) returns (t: Sys)
    requires Delivered(s, j) && a == if j == 0 then SWALLOWED else GENERATED
    ensures Reachable(t) && Orphaned(t.db, 0, "r") && t.log == s.log + if j == 0 then [Swallowed(j)] else []
    ensures j == 0 ==> t.db.jobs[0].status.JobRunning?
  {
    var job, found := s.db.jobs[j], FoundReport(s.db.reports, s.db.jobs[j]);
    GeneratedRows(s, j, a);
    RunsAttempt(s, 0, Msg(j, 0, Ready), job, found, a);
    AttemptOrphansIff(s.db, j, 0, 0, a, 0, "r");
    ReachableNext(s, RunAttempt(0, a));
    t := Next(s, RunAttempt(0, a));
  }

  /** The sweeper does not recover every swallowed finalization: a report is created, dispatched, and generated
      by an attempt whose finalization is swallowed. */
  lemma LostJobReachable()
    ensures exists s, id, report ::
      Reachable(s) && Orphaned(s.db, id, report) && s.db.jobs[id].status.JobRunning?
  {
    var s := CreatedReachable();
    s := Sends(s, 0);
    var t := DeliveredGenerates(s, 0, SWALLOWED);
    assert Reachable(t) && Orphaned(t.db, 0, "r");
  }

  lemma Submits(s: Sys, req: Request, job: JobId, event: EventId) returns (t: Sys)
    requires Reachable(s) && Resolve(s.db.jobs, req).Fresh? && job !in s.db.jobs && event !in s.db.events
    ensures Reachable(t)
    ensures t == Sys(s.db.(jobs := s.db.jobs[job := NewJob(req, 0)], events := s.db.events[event := NewEvent(job, 0)]),
                   s.broker, s.log + [Submitted(req, job)], s.maxRetries)
  {
    SubmitFresh(s, req, job, event);
    ReachableNext(s, Submit(req, job, event, 0, 0));
    t := Next(s, Submit(req, job, event, 0, 0));
  }

  lemma Sends(s: Sys, e: EventId) returns (t: Sys)
    requires Reachable(s) && EnabledPublisher(s, Dispatch(e))
    ensures Reachable(t)
    ensures t == Sys(s.db, s.broker + [Msg(s.db.events[e].jobId, 0, Ready)], s.log + [Dispatched(e, s.db.events[e].jobId)], s.maxRetries)
  {
    DispatchEvent(s, e);
    ReachableNext(s, Dispatch(e));
    t := Next(s, Dispatch(e));
  }

  lemma SiblingSubmitted() returns (s: Sys)
    ensures Reachable(s) && s.maxRetries == 0 && s.broker == [] && s.db.reports == CREATED_DB.reports
    ensures s.db.jobs == map[0 := NewJob(UNKEYED, 0), 1 := NewJob(UNKEYED, 0)]
    ensures 1 in s.db.events && s.db.events[1] == NewEvent(1, 0)
    ensures s.log == [Submitted(UNKEYED, 0), ReportServed(None, "r", 0), Submitted(UNKEYED, 1)]
  {
    var created := CreatedReachable();
    s := Submits(created, UNKEYED, 1, 1);
  }

  lemma LostToSibling() returns (t: Sys)
    ensures Reachable(t) && Orphaned(t.db, 0, "r")
    ensures t.log == [Submitted(UNKEYED, 0), ReportServed(None, "r", 0), Submitted(UNKEYED, 1), Dispatched(1, 1)]
  {
    var s := SiblingSubmitted();
    s := Sends(s, 1);
    t := DeliveredGenerates(s, 1, GENERATED);
  }

  /** Nor is a swallowed finalization needed: another report.generate job submitted for the same report can
      complete it first. */
  lemma LostToSiblingReachable()
    ensures exists s, id, report ::
      Reachable(s) && Orphaned(s.db, id, report) && forall i :: 0 <= i < |s.log| ==> !s.log[i].Swallowed?
  {
    var t := LostToSibling();
    assert Orphaned(t.db, 0, "r");
  }

  /******* Jobs the sweeper does recover *******/

  /** A job that an attempt with a registered executor and no fault can complete. */
  ghost predicate Completable(db: Db, id: JobId) {
    && id in db.jobs
    && (db.jobs[id].jobType == REPORT_GENERATE ==>
          && TargetOf(db.jobs[id]).Some? && TargetOf(db.jobs[id]).value in db.reports
          && db.reports[TargetOf(db.jobs[id]).value].status.ReportPending?)
  }

  ghost predicate Recovers(s: Sys, actions: seq<Action>, t: Sys, id: JobId) {
    Run(s, actions, t) && id in t.db.jobs && t.db.jobs[id].status.JobCompleted?
  }

  lemma RecoversLater(s: Sys, a: Action, n: Sys, rest: seq<Action>, t: Sys, id: JobId)
    requires Takes(s, a, n) && Recovers(n, rest, t, id)
    ensures Recovers(s, [a] + rest, t, id)
  {
    RunCons(s, a, n, rest, t);
  }

  lemma DeliveryRecovers(s: Sys, i: nat, id: JobId) returns (t: Sys)
    requires i < |s.broker| && s.broker[i] == Msg(id, 0, Ready) && Completable(s.db, id) && !Terminal(s.db.jobs[id].status)
    ensures Recovers(s, [RunAttempt(i, GENERATED)], t, id)
  {
    RunsAttempt(s, i, s.broker[i], s.db.jobs[id], FoundReport(s.db.reports, s.db.jobs[id]), GENERATED);
    t := Next(s, RunAttempt(i, GENERATED));
    RunOfNone(t, t);
    RecoversLater(s, RunAttempt(i, GENERATED), t, [], t, id);
    assert [RunAttempt(i, GENERATED)] + [] == [RunAttempt(i, GENERATED)];
  }

  lemma DispatchRecovers(s: Sys, e: EventId, id: JobId) returns (t: Sys)
    requires EnabledPublisher(s, Dispatch(e)) && s.db.events[e].jobId == id
    requires Completable(s.db, id) && !Terminal(s.db.jobs[id].status)
    ensures Recovers(s, [Dispatch(e), RunAttempt(|s.broker|, GENERATED)], t, id)
  {
    DispatchEvent(s, e);
    var sent := Next(s, Dispatch(e));
    t := DeliveryRecovers(sent, |s.broker|, id);
    RecoversLater(s, Dispatch(e), sent, [RunAttempt(|s.broker|, GENERATED)], t, id);
    assert [Dispatch(e)] + [RunAttempt(|s.broker|, GENERATED)] == [Dispatch(e), RunAttempt(|s.broker|, GENERATED)];
  }

  /** A completable job left RUNNING is recovered by one sweep, one dispatch and one attempt. */
  lemma SweepRecovers(s: Sys, id: JobId) returns (actions: seq<Action>, t: Sys)
    requires Completable(s.db, id) && s.db.jobs[id].status.JobRunning?
    ensures Recovers(s, actions, t, id)
    ensures |actions| == 3 && actions[0].Sweep? && actions[1].Dispatch? && actions[2].RunAttempt?
  {
    var e := Bound(s.db.events.Keys);
    var sweep := SweepFor(s.db.jobs[id], id, e);
    SweepsOne(s, id, s.db.jobs[id], e);
    var swept := Next(s, sweep);
    t := DispatchRecovers(swept, e, id);
    RecoversLater(s, sweep, swept, [Dispatch(e), RunAttempt(|swept.broker|, GENERATED)], t, id);
    actions := [sweep] + [Dispatch(e), RunAttempt(|swept.broker|, GENERATED)];
  }

  lemma OrphanNotRecovered(s: Sys, actions: seq<Action>, t: Sys, id: JobId, report: ReportId)
    requires Inv(s) && Orphaned(s.db, id, report)
    ensures !Recovers(s, actions, t, id)
  {
    if Run(s, actions, t) {
      OrphanNeverCompletes(s, actions, t, id, report);
    }
  }

  /** The sweeper's promise, exactly: of the report jobs left RUNNING, those some continuation completes are the
      ones whose report is still PENDING. */
  lemma RecoverableIff(s: Sys, id: JobId, report: ReportId)
    requires Inv(s) && id in s.db.jobs && s.db.jobs[id].status.JobRunning? && s.db.jobs[id].jobType == REPORT_GENERATE
    requires TargetOf(s.db.jobs[id]) == Some(report) && report in s.db.reports
    ensures (exists actions, t :: Recovers(s, actions, t, id)) <==> s.db.reports[report].status.ReportPending?
  {
    if s.db.reports[report].status.ReportPending? {
      var actions, t := SweepRecovers(s, id);
    } else {
      NotPendingIsOrphaned(s.db, s.log, id, report);
      forall actions, t ensures !Recovers(s, actions, t, id) {
        OrphanNotRecovered(s, actions, t, id, report);
      }
    }
  }

  lemma NotPendingIsOrphaned(db: Db, log: seq<Entry>, id: JobId, report: ReportId)
    requires ReadyGenerated(db, log) && id in db.jobs && db.jobs[id].status.JobRunning? && db.jobs[id].jobType == REPORT_GENERATE
    requires TargetOf(db.jobs[id]) == Some(report) && report in db.reports && !db.reports[report].status.ReportPending?
    ensures Orphaned(db, id, report)
  {
  }

  /******* Duplicate deliveries *******/

  /** A delivery is a no-op exactly when its job is missing, COMPLETED or DEAD; otherwise it records another attempt. */
  lemma DeliveryIsNoopIff(s: Sys, i: nat)
    requires i < |s.broker| && s.broker[i].phase.Ready?
    ensures Enabled(s, SkipAttempt(i))
            <==> || s.broker[i].job !in s.db.jobs
                 || s.db.jobs[s.broker[i].job].status == JobCompleted || s.db.jobs[s.broker[i].job].status == JobDead
    ensures (exists a :: Enabled(s, RunAttempt(i, a))) <==> !Enabled(s, SkipAttempt(i))
    ensures forall a :: Enabled(s, RunAttempt(i, a)) ==>
      AttemptsOf(Next(s, RunAttempt(i, a)).db, s.broker[i].job) == AttemptsOf(s.db, s.broker[i].job) + 1
  {
    if Runnable(s.db, s.broker[i]) {
      assert Enabled(s, RunAttempt(i, AttemptInput(Unregistered, true, 0, 0)));
    }
    forall a | Enabled(s, RunAttempt(i, a))
      ensures AttemptsOf(Next(s, RunAttempt(i, a)).db, s.broker[i].job) == AttemptsOf(s.db, s.broker[i].job) + 1
    {
      AttemptsStep(s, RunAttempt(i, a), s.broker[i].job);
    }
  }

  const PLAIN := Request("x", map[], None)
  const RETRYING := AttemptInput(Registered(RaisedRetryable("e"), false), true, 0, 0)

  lemma Attempts(s: Sys, i: nat, job: Job, a: AttemptInput) returns (t: Sys)
    requires Reachable(s) && s.maxRetries == 1 && i < |s.broker| && s.broker[i] == Msg(0, 0, Ready)
    requires Lookup(s.db.jobs, 0) == Some(job) && job.jobType == "x" && job.status.JobPending?
    requires a == RETRYING || a == GENERATED
    ensures Reachable(t) && t.maxRetries == 1 && t.log == s.log && 0 in t.db.jobs && t.db.jobs[0].jobType == "x"
    ensures t.db.jobs[0].attempts == job.attempts + 1
    ensures if a == RETRYING then t.db.jobs[0].status.JobPending? else t.db.jobs[0].status.JobCompleted?
    ensures t.broker == s.broker[i := Msg(0, 0, Handled(a == RETRYING))]
  {
    RunsAttempt(s, i, Msg(0, 0, Ready), job, FoundReport(s.db.reports, job), a);
    ReachableNext(s, RunAttempt(i, a));
    t := Next(s, RunAttempt(i, a));
  }

  lemma DeliveredOnce() returns (s: Sys)
    ensures Reachable(s) && s.maxRetries == 1 && Lookup(s.db.jobs, 0) == Some(NewJob(PLAIN, 0))
    ensures s.broker == [Msg(0, 0, Ready)] && s.log == [Submitted(PLAIN, 0), Dispatched(0, 0)]
  {
    InitReachable(1);
    s := Submits(Init(1), PLAIN, 0, 0);
    s := Sends(s, 0);
  }

  lemma DeliveredTwice() returns (s: Sys)
    ensures Reachable(s) && s.maxRetries == 1 && Lookup(s.db.jobs, 0) == Some(NewJob(PLAIN, 0))
    ensures s.broker == [Msg(0, 0, Ready), Msg(0, 0, Ready)]
    ensures s.log == [Submitted(PLAIN, 0), Dispatched(0, 0), Repeated(0)]
  {
    s := DeliveredOnce();
    s := Copies(s, 0);
  }

  lemma Copies(s: Sys, i: nat) returns (t: Sys)
    requires Reachable(s) && i < |s.broker| && s.broker[i].phase.Ready?
    ensures Reachable(t)
    ensures t == Sys(s.db, s.broker + [s.broker[i]], s.log + [Repeated(s.broker[i].job)], s.maxRetries)
  {
    CopyReady(s, i);
    ReachableNext(s, CopyMessage(i));
    t := Next(s, CopyMessage(i));
  }

  /** A duplicate delivery is not deduplicated while its job is PENDING: one submission, one dispatch and one copy
      of the message give two attempts, the second before any retry message was sent. */
  lemma DuplicateRunsAgain()
    ensures exists s ::
      && Reachable(s) && 0 in s.db.jobs && s.db.jobs[0].attempts == 2 && s.db.jobs[0].status.JobCompleted?
      && s.log == [Submitted(PLAIN, 0), Dispatched(0, 0), Repeated(0)]
      && s.broker == [Msg(0, 0, Handled(true)), Msg(0, 0, Handled(false))]
  {
    var s := DeliveredTwice();
    var t := Attempts(s, 0, s.db.jobs[0], RETRYING);
    var u := Attempts(t, 1, t.db.jobs[0], GENERATED);
    assert u.broker == [Msg(0, 0, Handled(true)), Msg(0, 0, Handled(false))];
  }

  /******* The empty idempotency key *******/

  /** Repeating a committed submission succeeds exactly when its key is not empty: the empty key is stored and
      unique-indexed, but the code that recovers from the violation takes it for "no key". */
  lemma RepeatAcceptedIff(jobs: map<JobId, Job>, req: Request, id: JobId)
    requires req.key.Some? && JobHolds(jobs, req.key.value, id) && Matches(jobs[id], req)
    requires forall other :: JobHolds(jobs, req.key.value, other) ==> other == id
    ensures Accepted(Resolve(jobs, req)) <==> req.key.value != ""
    ensures req.key.value != "" ==> Resolve(jobs, req) == Reuse(id)
  {
    assert JobHolder(jobs, req.key.value) == Some(id);
  }

  /** A submission with the empty key succeeds once; the same call is then refused. */
  lemma EmptyKeyRefusedReachable()
    ensures exists s, req ::
      Reachable(s) && s.log == [Submitted(req, 0)] && req.key == Some("") && Enabled(s, Refuse(req))
  {
    var req := PLAIN.(key := Some(""));
    InitReachable(0);
    var s := Submits(Init(0), req, 0, 0);
    assert JobHolds(s.db.jobs, "", 0);
    RepeatAcceptedIff(s.db.jobs, req, 0);
    assert Reachable(s) && s.log == [Submitted(req, 0)] && Enabled(s, Refuse(req));
  }
}
