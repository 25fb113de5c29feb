/** Invariants of the atomic machine about identities, submissions, reports and names. */
module Safety {
  import opened Rows
  import opened Pipeline
  import opened Outbox
  import opened Submission
  import opened Protocol
  import opened History

  ghost predicate KeysOk(db: Db) {
    UniqueJobKeys(db.jobs) && UniqueReportKeys(db.reports)
  }

  /** A committed report names a report.generate job with its own key, whose payload names the report. */
  ghost predicate Linked(db: Db, id: ReportId, report: Report) {
    && report.jobId.Some? && report.jobId.value in db.jobs
    && var job := db.jobs[report.jobId.value];
    && Matches(job, ReportRequest(id, report.key)) && job.key == report.key && TargetOf(job) == Some(id)
  }

  ghost predicate LinksOk(db: Db) {
    forall r :: r in db.reports ==> Linked(db, r, db.reports[r])
  }

  ghost predicate NamesOk(s: Sys) {
    && (forall e :: e in s.db.events ==> s.db.events[e].jobId in s.db.jobs && s.db.events[e].retryCount <= MAX_PUBLISH_RETRIES)
    && (forall i :: 0 <= i < |s.broker| ==> MsgOk(s.db, s.broker[i], s.maxRetries))
  }

  predicate MsgOk(db: Db, m: Msg, maxRetries: nat) {
    m.job in db.jobs && m.retries <= maxRetries && (m.phase == Handled(true) ==> m.retries < maxRetries)
  }

  /******* Keys and links *******/

  ghost predicate JobInsertsKeepKeys(jobs: map<JobId, Job>, inserted: map<JobId, Job>) {
    forall id :: id in inserted ==>
      if id in jobs then inserted[id].key == jobs[id].key
      else
        && (inserted[id].key.Some? ==> forall h :: !JobHolds(jobs, inserted[id].key.value, h))
        && (forall other :: other in inserted && other !in jobs ==> other == id)
  }

  ghost predicate ReportInsertsKeepKeys(reports: map<ReportId, Report>, inserted: map<ReportId, Report>) {
    forall id :: id in inserted ==>
      if id in reports then inserted[id].key == reports[id].key
      else
        && (inserted[id].key.Some? ==> forall h :: !ReportHolds(reports, inserted[id].key.value, h))
        && (forall other :: other in inserted && other !in reports ==> other == id)
  }

  lemma InsertsKeepKeys(db: Db, w: Db)
    requires KeysOk(db) && JobInsertsKeepKeys(db.jobs, w.jobs) && ReportInsertsKeepKeys(db.reports, w.reports)
    ensures KeysOk(Apply(db, w))
  {
    forall a, b | a in db.jobs + w.jobs && b in db.jobs + w.jobs
                  && (db.jobs + w.jobs)[a].key.Some? && (db.jobs + w.jobs)[a].key == (db.jobs + w.jobs)[b].key
      ensures a == b
    {
      assert JobHolds(db.jobs, (db.jobs + w.jobs)[a].key.value, a) <==> a in db.jobs;
      assert JobHolds(db.jobs, (db.jobs + w.jobs)[a].key.value, b) <==> b in db.jobs;
    }
    forall a, b | a in db.reports + w.reports && b in db.reports + w.reports
                  && (db.reports + w.reports)[a].key.Some? && (db.reports + w.reports)[a].key == (db.reports + w.reports)[b].key
      ensures a == b
    {
      assert ReportHolds(db.reports, (db.reports + w.reports)[a].key.value, a) <==> a in db.reports;
      assert ReportHolds(db.reports, (db.reports + w.reports)[a].key.value, b) <==> b in db.reports;
    }
  }

  lemma AttemptKeepsKeys(db: Db, id: JobId, retries: nat, maxRetries: nat, a: AttemptInput)
    requires id in db.jobs
    ensures var w := AttemptWrites(id, db.jobs[id], FoundReport(db.reports, db.jobs[id]), retries, maxRetries, a);
            JobInsertsKeepKeys(db.jobs, w.jobs) && ReportInsertsKeepKeys(db.reports, w.reports)
  {
  }

  lemma ServiceKeepsKeys(s: Sys, a: Action)
    requires EnabledService(s.db, a)
    ensures JobInsertsKeepKeys(s.db.jobs, WritesOf(s, a).jobs)
    ensures ReportInsertsKeepKeys(s.db.reports, WritesOf(s, a).reports)
  {
  }

  /** Two rows of a table never share an idempotency key. */
  lemma StepKeepsKeys(s: Sys, a: Action)
    requires KeysOk(s.db) && Enabled(s, a)
    ensures KeysOk(Next(s, a).db)
  {
    if a.RunAttempt? {
      AttemptKeepsKeys(s.db, s.broker[a.msg].job, s.broker[a.msg].retries, s.maxRetries, a.attempt);
    } else if EnabledService(s.db, a) {
      ServiceKeepsKeys(s, a);
    }
    InsertsKeepKeys(s.db, WritesOf(s, a));
  }

  lemma LinkPersists(db: Db, later: Db, id: ReportId, report: Report)
    requires Linked(db, id, report) && Extends(db, later)
    ensures Linked(later, id, report)
  {
  }

  lemma AttemptReportLinked(s: Sys, a: Action)
    requires LinksOk(s.db) && EnabledBroker(s, a) && a.RunAttempt? && Extends(s.db, Next(s, a).db)
    ensures var w := WritesOf(s, a); forall r :: r in w.reports ==> Linked(Next(s, a).db, r, w.reports[r])
  {
    var m := s.broker[a.msg];
    AttemptReportRow(m.job, s.db.jobs[m.job], FoundReport(s.db.reports, s.db.jobs[m.job]), m.retries, s.maxRetries, a.attempt);
    forall r | r in WritesOf(s, a).reports ensures Linked(Next(s, a).db, r, WritesOf(s, a).reports[r]) {
      LinkPersists(s.db, Next(s, a).db, r, s.db.reports[r]);
    }
  }

  /** The rows of an accepted report creation: its job, new or reused, is the report's own. */
  lemma MadeReportRows(
    db: Db, key: Option<string>, newReport: ReportId, newJob: JobId, event: EventId, now: Time, eventAt: Time)
    requires LinksOk(db) && FreshReportIds(db, key, newReport, newJob)
    requires MakeReport(db, key, newReport, newJob, event, now, eventAt).ReportMade?
    ensures var made := MakeReport(db, key, newReport, newJob, event, now, eventAt);
            var jobs := db.jobs + made.writes.jobs;
            && made.writes.attempts == map[] && made.writes.events == map[event := NewEvent(made.job, eventAt)]
            && made.job in jobs && jobs[made.job].key == key
            && Matches(jobs[made.job], ReportRequest(made.report, key)) && TargetOf(jobs[made.job]) == Some(made.report)
            && (if made.report in db.reports
                then made.writes.reports == map[] && db.reports[made.report].key == key
                     && db.reports[made.report].jobId == Some(made.job)
                else made.writes.reports == map[made.report := NewReport(key).(jobId := Some(made.job))])
  {
  }

  lemma CreatedReportLinked(s: Sys, a: Action)
    requires LinksOk(s.db) && EnabledService(s.db, a) && a.CreateReport?
    ensures var w := WritesOf(s, a); forall r :: r in w.reports ==> Linked(Next(s, a).db, r, w.reports[r])
  {
    MadeReportRows(s.db, a.key, a.newReport, a.newJob, a.event, a.now, a.eventAt);
  }

  lemma StepKeepsLinks(s: Sys, a: Action)
    requires HistoryOk(s.db) && LinksOk(s.db) && Enabled(s, a)
    ensures LinksOk(Next(s, a).db)
  {
    StepKeepsHistory(s, a);
    var w, later := WritesOf(s, a), Next(s, a).db;
    if a.RunAttempt? {
      AttemptReportLinked(s, a);
    } else if a.CreateReport? {
      CreatedReportLinked(s, a);
    } else {
      assert w.reports == map[];
    }
    forall r | r in later.reports ensures Linked(later, r, later.reports[r]) {
      if r !in w.reports {
        LinkPersists(s.db, later, r, s.db.reports[r]);
      }
    }
  }

  /******* The history log speaks about committed rows *******/

  ghost predicate RefusalJustified(jobs: map<JobId, Job>, req: Request) {
    req.key.Some? && exists h :: JobHolds(jobs, req.key.value, h) && (req.key.value == "" || !Matches(jobs[h], req))
  }

  ghost predicate EntryOk(db: Db, e: Entry) {
    match e
    case Submitted(req, job) => job in db.jobs && Matches(db.jobs[job], req) && db.jobs[job].key == req.key
    case Refused(req) => RefusalJustified(db.jobs, req)
    case ReportServed(key, report, job) =>
      report in db.reports && db.reports[report].key == key && db.reports[report].jobId == Some(job)
    case Dispatched(event, job) => event in db.events && db.events[event].jobId == job
    case _ => true
  }

  ghost predicate LogOk(s: Sys) {
    forall i :: 0 <= i < |s.log| ==> EntryOk(s.db, s.log[i])
  }

  lemma EntryPersists(db: Db, later: Db, e: Entry)
    requires EntryOk(db, e) && Extends(db, later)
    ensures EntryOk(later, e)
  {
    if e.Refused? {
      var h :| JobHolds(db.jobs, e.req.key.value, h) && (e.req.key.value == "" || !Matches(db.jobs[h], e.req));
      assert JobHolds(later.jobs, e.req.key.value, h);
    }
  }

  lemma SubmitRows(db: Db, req: Request, newJob: JobId, event: EventId, now: Time, eventAt: Time)
    requires Accepted(Resolve(db.jobs, req)) && (Resolve(db.jobs, req).Fresh? ==> newJob !in db.jobs)
    ensures var r := Resolve(db.jobs, req);
            var w := SubmitWrites(r, req, newJob, event, now, eventAt);
            var jobs := db.jobs + w.jobs;
            var job := ResolvedJob(r, newJob);
            && w.attempts == map[] && w.reports == map[] && w.events == map[event := NewEvent(job, eventAt)]
            && job in jobs && jobs[job].key == req.key && Matches(jobs[job], req)
  {
  }

  lemma SubmitEntryOk(db: Db, req: Request, newJob: JobId, event: EventId, now: Time, eventAt: Time)
    requires Accepted(Resolve(db.jobs, req)) && (Resolve(db.jobs, req).Fresh? ==> newJob !in db.jobs)
    ensures var r := Resolve(db.jobs, req);
            EntryOk(Apply(db, SubmitWrites(r, req, newJob, event, now, eventAt)), Submitted(req, ResolvedJob(r, newJob)))
  {
    SubmitRows(db, req, newJob, event, now, eventAt);
  }

  lemma CreateReportEntriesOk(
    db: Db, key: Option<string>, newReport: ReportId, newJob: JobId, event: EventId, now: Time, eventAt: Time)
    requires LinksOk(db) && FreshReportIds(db, key, newReport, newJob)
    requires MakeReport(db, key, newReport, newJob, event, now, eventAt).ReportMade?
    ensures var made := MakeReport(db, key, newReport, newJob, event, now, eventAt);
            && EntryOk(Apply(db, made.writes), Submitted(ReportRequest(made.report, key), made.job))
            && EntryOk(Apply(db, made.writes), ReportServed(key, made.report, made.job))
  {
    MadeReportRows(db, key, newReport, newJob, event, now, eventAt);
  }

  lemma RefusalOk(db: Db, req: Request)
    requires !Accepted(Resolve(db.jobs, req))
    ensures EntryOk(db, Refused(req))
  {
    assert JobHolds(db.jobs, req.key.value, JobHolder(db.jobs, req.key.value).value);
  }

  lemma ServiceEntriesOk(s: Sys, a: Action)
    requires LinksOk(s.db) && EnabledService(s.db, a)
    ensures forall i :: 0 <= i < |NewEntries(s, a)| ==> EntryOk(Apply(s.db, WritesOf(s, a)), NewEntries(s, a)[i])
  {
    if a.CreateReport? {
      CreateReportEntriesOk(s.db, a.key, a.newReport, a.newJob, a.event, a.now, a.eventAt);
    } else if a.Submit? {
      SubmitEntryOk(s.db, a.req, a.newJob, a.event, a.now, a.eventAt);
    } else {
      QuietEntriesOk(s, a);
    }
  }

  lemma QuietEntriesOk(s: Sys, a: Action)
    requires EnabledService(s.db, a) && !a.CreateReport? && !a.Submit?
    ensures forall i :: 0 <= i < |NewEntries(s, a)| ==> EntryOk(Apply(s.db, WritesOf(s, a)), NewEntries(s, a)[i])
  {
    if a.Refuse? {
      RefusalOk(s.db, a.req);
    }
    assert a.Refuse? || a.ServeReport? ==> Apply(s.db, WritesOf(s, a)) == s.db;
  }

  lemma StepKeepsLog(s: Sys, a: Action)
    requires HistoryOk(s.db) && LinksOk(s.db) && LogOk(s) && Enabled(s, a)
    ensures LogOk(Next(s, a))
  {
    StepKeepsHistory(s, a);
    if EnabledService(s.db, a) {
      ServiceEntriesOk(s, a);
    }
    var t := Next(s, a);
    forall i | 0 <= i < |t.log| ensures EntryOk(t.db, t.log[i]) {
      if i < |s.log| {
        EntryPersists(s.db, t.db, s.log[i]);
      } else {
        assert t.log[i] == NewEntries(s, a)[i - |s.log|];
      }
    }
  }

  /******* Names *******/

  ghost predicate EventsNameJobs(db: Db, w: Db) {
    forall e :: e in w.events ==>
      w.events[e].retryCount <= MAX_PUBLISH_RETRIES && (w.events[e].jobId in db.jobs || w.events[e].jobId in w.jobs)
  }

  lemma CreateReportNamesJob(
    db: Db, key: Option<string>, newReport: ReportId, newJob: JobId, event: EventId, now: Time, eventAt: Time)
    requires LinksOk(db) && FreshReportIds(db, key, newReport, newJob)
    requires MakeReport(db, key, newReport, newJob, event, now, eventAt).ReportMade?
    ensures EventsNameJobs(db, MakeReport(db, key, newReport, newJob, event, now, eventAt).writes)
  {
    MadeReportRows(db, key, newReport, newJob, event, now, eventAt);
  }

  lemma EventWritesNameJobs(s: Sys, a: Action)
    requires LinksOk(s.db) && NamesOk(s) && Enabled(s, a)
    ensures EventsNameJobs(s.db, WritesOf(s, a))
  {
    match a
    case CreateReport(key, newReport, newJob, event, now, eventAt) =>
      CreateReportNamesJob(s.db, key, newReport, newJob, event, now, eventAt);
    case Submit(req, newJob, event, now, eventAt) => SubmitRows(s.db, req, newJob, event, now, eventAt);
    case RunAttempt(i, input) =>
      AttemptReportRow(s.broker[i].job, s.db.jobs[s.broker[i].job],
        FoundReport(s.db.reports, s.db.jobs[s.broker[i].job]), s.broker[i].retries, s.maxRetries, input);
    case _ =>
  }

  lemma BrokerKeepsNames(s: Sys, a: Action)
    requires NamesOk(s) && Enabled(s, a)
    ensures forall i :: 0 <= i < |NextBroker(s, a)| ==> MsgOk(s.db, NextBroker(s, a)[i], s.maxRetries)
  {
  }

  lemma NamesPersist(db: Db, w: Db)
    requires EventsNameJobs(db, w) && Extends(db, Apply(db, w))
    requires forall e :: e in db.events ==> db.events[e].jobId in db.jobs && db.events[e].retryCount <= MAX_PUBLISH_RETRIES
    ensures var t := Apply(db, w);
            forall e :: e in t.events ==> t.events[e].jobId in t.jobs && t.events[e].retryCount <= MAX_PUBLISH_RETRIES
  {
  }

  lemma StepKeepsNames(s: Sys, a: Action)
    requires HistoryOk(s.db) && LinksOk(s.db) && NamesOk(s) && Enabled(s, a)
    ensures NamesOk(Next(s, a))
  {
    StepKeepsHistory(s, a);
    EventWritesNameJobs(s, a);
    NamesPersist(s.db, WritesOf(s, a));
    BrokerKeepsNames(s, a);
    forall i | 0 <= i < |NextBroker(s, a)| ensures MsgOk(Next(s, a).db, NextBroker(s, a)[i], s.maxRetries) {
      assert MsgOk(s.db, NextBroker(s, a)[i], s.maxRetries);
    }
  }

  /******* Reports agree with their jobs *******/

  /** `job` generated `report`: it is recorded as COMPLETED, or its finalization was swallowed. */
  ghost predicate Generated(db: Db, log: seq<Entry>, report: ReportId, job: JobId) {
    && job in db.jobs && TargetOf(db.jobs[job]) == Some(report)
    && (db.jobs[job].status.JobCompleted? || Swallowed(job) in log)
  }

  ghost predicate CompletedReportJob(db: Db, job: JobId) {
    job in db.jobs && db.jobs[job].jobType == REPORT_GENERATE && db.jobs[job].status.JobCompleted?
  }

  predicate ReadyWith(report: Report, result: Option<Doc>) {
    report.status.ReportReady? && report.result.Some? && report.result == result
  }

  ghost predicate AgreesWithReport(db: Db, job: JobId)
    requires job in db.jobs
  {
    && TargetOf(db.jobs[job]).Some? && TargetOf(db.jobs[job]).value in db.reports
    && ReadyWith(db.reports[TargetOf(db.jobs[job]).value], db.jobs[job].result)
  }

  ghost predicate CompletedAgree(db: Db) {
    forall j :: CompletedReportJob(db, j) ==> AgreesWithReport(db, j)
  }

  ghost predicate CompletedOnce(db: Db) {
    forall a, b :: CompletedReportJob(db, a) && CompletedReportJob(db, b) ==>
      TargetOf(db.jobs[a]) == TargetOf(db.jobs[b]) ==> a == b
  }

  ghost predicate ReadyGenerated(db: Db, log: seq<Entry>) {
    forall r :: r in db.reports ==>
      db.reports[r].status.ReportPending? || (db.reports[r].status.ReportReady? && exists j :: Generated(db, log, r, j))
  }

  ghost predicate RunningSwallowed(db: Db, log: seq<Entry>) {
    forall j :: j in db.jobs && db.jobs[j].status.JobRunning? ==> Swallowed(j) in log
  }

  ghost predicate AgreementOk(db: Db, log: seq<Entry>) {
    CompletedAgree(db) && CompletedOnce(db) && ReadyGenerated(db, log) && RunningSwallowed(db, log)
  }

  /** How the job row and the report row of one attempt change together. */
  ghost predicate AttemptPair(db: Db, w: Db, id: JobId, finalized: bool) {
    && id in db.jobs && !Terminal(db.jobs[id].status) && w.jobs.Keys == {id}
    && SameIdentity(db.jobs[id], w.jobs[id])
    && (forall r :: r in w.reports ==>
          && TargetOf(db.jobs[id]) == Some(r) && r in db.reports && db.reports[r].status.ReportPending?
          && w.reports[r].status.ReportReady?)
    && (w.reports != map[] && finalized ==> w.jobs[id].status.JobCompleted?)
    && (finalized ==> !w.jobs[id].status.JobRunning?)
    && (CompletedReportJob(w, id) ==>
          && TargetOf(w.jobs[id]).Some? && TargetOf(w.jobs[id]).value in w.reports
          && ReadyWith(w.reports[TargetOf(w.jobs[id]).value], w.jobs[id].result))
  }

  lemma AttemptIsPair(db: Db, id: JobId, retries: nat, maxRetries: nat, a: AttemptInput)
    requires id in db.jobs && !Terminal(db.jobs[id].status)
    ensures AttemptPair(db, AttemptWrites(id, db.jobs[id], FoundReport(db.reports, db.jobs[id]), retries, maxRetries, a), id, a.finalized)
  {
  }

  lemma PairCompletedAgree(db: Db, w: Db, id: JobId, finalized: bool)
    requires CompletedAgree(db) && AttemptPair(db, w, id, finalized)
    ensures CompletedAgree(Apply(db, w))
  {
    forall j | CompletedReportJob(Apply(db, w), j) ensures AgreesWithReport(Apply(db, w), j) {
      if j == id {
        assert CompletedReportJob(w, id);
      } else {
        assert CompletedReportJob(db, j);
      }
    }
  }

  lemma PairCompletedOnce(db: Db, w: Db, id: JobId, finalized: bool)
    requires CompletedAgree(db) && CompletedOnce(db) && AttemptPair(db, w, id, finalized)
    ensures CompletedOnce(Apply(db, w))
  {
    var t := Apply(db, w);
    if CompletedReportJob(t, id) {
      assert CompletedReportJob(w, id);
      forall j | CompletedReportJob(db, j) ensures TargetOf(db.jobs[j]) != TargetOf(t.jobs[id]) {
        assert AgreesWithReport(db, j);
      }
    }
    assert forall j :: CompletedReportJob(t, j) && j != id ==> CompletedReportJob(db, j) && t.jobs[j] == db.jobs[j];
  }

  lemma ReadyStaysGenerated(db: Db, log: seq<Entry>, w: Db, entries: seq<Entry>)
    requires ReadyGenerated(db, log) && Extends(db, Apply(db, w))
    requires forall r :: r in w.reports ==>
      if r in db.reports && w.reports[r].status == db.reports[r].status then true
      else w.reports[r].status.ReportPending?
           || (w.reports[r].status.ReportReady? && exists j :: Generated(Apply(db, w), log + entries, r, j))
    ensures ReadyGenerated(Apply(db, w), log + entries)
  {
    var t := Apply(db, w);
    forall r | r in t.reports
      ensures t.reports[r].status.ReportPending?
              || (t.reports[r].status.ReportReady? && exists j :: Generated(t, log + entries, r, j))
    {
      if r in db.reports && t.reports[r].status == db.reports[r].status && db.reports[r].status.ReportReady? {
        var j :| Generated(db, log, r, j);
        assert Generated(t, log + entries, r, j);
      }
    }
  }

  lemma PairKeepsAgreement(db: Db, log: seq<Entry>, w: Db, id: JobId, finalized: bool)
    requires AgreementOk(db, log) && AttemptPair(db, w, id, finalized) && Extends(db, Apply(db, w))
    ensures AgreementOk(Apply(db, w), log + if finalized then [] else [Swallowed(id)])
  {
    var entries := if finalized then [] else [Swallowed(id)];
    PairCompletedAgree(db, w, id, finalized);
    PairCompletedOnce(db, w, id, finalized);
    forall r | r in w.reports ensures Generated(Apply(db, w), log + entries, r, id) {
    }
    ReadyStaysGenerated(db, log, w, entries);
  }

  lemma QuietKeepsAgreement(db: Db, log: seq<Entry>, w: Db, entries: seq<Entry>)
    requires AgreementOk(db, log) && Extends(db, Apply(db, w))
    requires forall j :: j in w.jobs ==> w.jobs[j].status.JobPending?
    requires forall r :: r in w.reports ==>
      if r in db.reports then w.reports[r].status == db.reports[r].status else w.reports[r].status.ReportPending?
    ensures AgreementOk(Apply(db, w), log + entries)
  {
    var t := Apply(db, w);
    forall j | CompletedReportJob(t, j) ensures CompletedReportJob(db, j) && t.jobs[j] == db.jobs[j] && AgreesWithReport(t, j) {
      assert CompletedReportJob(db, j) && AgreesWithReport(db, j);
    }
    ReadyStaysGenerated(db, log, w, entries);
  }

  lemma QuietRows(s: Sys, a: Action)
    requires LinksOk(s.db) && Enabled(s, a) && !a.RunAttempt?
    ensures var w := WritesOf(s, a);
            && (forall j :: j in w.jobs ==> w.jobs[j].status.JobPending?)
            && (forall r :: r in w.reports ==>
                  if r in s.db.reports then w.reports[r].status == s.db.reports[r].status
                  else w.reports[r].status.ReportPending?)
  {
  }

  lemma StepKeepsAgreement(s: Sys, a: Action)
    requires HistoryOk(s.db) && LinksOk(s.db) && AgreementOk(s.db, s.log) && Enabled(s, a)
    ensures AgreementOk(Next(s, a).db, Next(s, a).log)
  {
    StepKeepsHistory(s, a);
    if a.RunAttempt? {
      var m := s.broker[a.msg];
      AttemptIsPair(s.db, m.job, m.retries, s.maxRetries, a.attempt);
      PairKeepsAgreement(s.db, s.log, WritesOf(s, a), m.job, a.attempt.finalized);
    } else {
      QuietRows(s, a);
      QuietKeepsAgreement(s.db, s.log, WritesOf(s, a), NewEntries(s, a));
    }
  }
}
