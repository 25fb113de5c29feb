/** What the outbox, the broker and the history owe to a job: no committed job is lost, dispatch
    events are conserved, and a job's attempts are paid for by deliveries. */
module Delivery {
  import opened Rows
  import opened Pipeline
  import opened Outbox
  import opened Submission
  import opened Protocol
  import opened History
  import opened Safety
  import opened Sums

  /******* No lost job *******/

  /** An event of the job that no publisher has dispatched yet and that is not marked published. */
  ghost predicate Undelivered(db: Db, log: seq<Entry>, e: EventId, job: JobId) {
    && e in db.events && db.events[e].jobId == job && !db.events[e].status.EventPublished?
    && Dispatched(e, job) !in log
  }

  /** A message that will still start an attempt, or enqueue the message that will. */
  predicate Live(m: Msg, job: JobId) {
    m.job == job && (m.phase.Ready? || m.phase == Handled(true))
  }

  ghost predicate Covered(db: Db, log: seq<Entry>, broker: seq<Msg>, job: JobId) {
    || (exists e :: Undelivered(db, log, e, job))
    || (exists i :: 0 <= i < |broker| && Live(broker[i], job))
  }

  ghost predicate NoLostJob(s: Sys) {
    forall j :: j in s.db.jobs && s.db.jobs[j].status.JobPending? ==> Covered(s.db, s.log, s.broker, j)
  }

  lemma LiveCovers(s: Sys, a: Action, i: nat, job: JobId)
    requires Enabled(s, a) && i < |s.broker| && Live(s.broker[i], job)
    requires job in Next(s, a).db.jobs && Next(s, a).db.jobs[job].status.JobPending? && job in s.db.jobs
    ensures Covered(Next(s, a).db, Next(s, a).log, Next(s, a).broker, job)
  {
    var t := Next(s, a);
    if a.SendRetry? && a.msg == i {
      assert Live(t.broker[|s.broker|], job);
    } else if a.RunAttempt? && a.msg == i {
      AttemptReportRow(job, s.db.jobs[job], FoundReport(s.db.reports, s.db.jobs[job]), s.broker[i].retries, s.maxRetries, a.attempt);
      assert Live(t.broker[i], job);
    } else {
      assert Live(t.broker[i], job);
    }
  }

  lemma UndeliveredStays(db: Db, log: seq<Entry>, w: Db, entries: seq<Entry>, e: EventId, job: JobId)
    requires Undelivered(db, log, e, job) && Dispatched(e, job) !in entries
    requires e in w.events ==> !w.events[e].status.EventPublished? && w.events[e].jobId == job
    ensures Undelivered(Apply(db, w), log + entries, e, job)
  {
  }

  lemma OnlyDispatchDelivers(s: Sys, a: Action, e: EventId, job: JobId)
    requires Enabled(s, a) && Undelivered(s.db, s.log, e, job) && a != Dispatch(e)
    ensures var w := WritesOf(s, a);
            && (e in w.events ==> !w.events[e].status.EventPublished? && w.events[e].jobId == job)
            && Dispatched(e, job) !in NewEntries(s, a)
  {
    if a.RunAttempt? {
      AttemptReportRow(s.broker[a.msg].job, s.db.jobs[s.broker[a.msg].job],
        FoundReport(s.db.reports, s.db.jobs[s.broker[a.msg].job]), s.broker[a.msg].retries, s.maxRetries, a.attempt);
    }
  }

  lemma UndeliveredCovers(s: Sys, a: Action, e: EventId, job: JobId)
    requires Enabled(s, a) && Undelivered(s.db, s.log, e, job)
    ensures Covered(Next(s, a).db, Next(s, a).log, Next(s, a).broker, job)
  {
    if a == Dispatch(e) {
      assert Live(Next(s, a).broker[|s.broker|], job);
    } else {
      OnlyDispatchDelivers(s, a, e, job);
      UndeliveredStays(s.db, s.log, WritesOf(s, a), NewEntries(s, a), e, job);
    }
  }

  /** A transaction that makes a job PENDING leaves it an event, or a delivery that will retry. */
  ghost predicate NewlyPending(s: Sys, a: Action, job: JobId)
    requires Enabled(s, a)
  {
    job in WritesOf(s, a).jobs && WritesOf(s, a).jobs[job].status.JobPending?
  }

  lemma ServiceCovers(s: Sys, a: Action, job: JobId)
    requires LinksOk(s.db) && EnabledService(s.db, a) && NewlyPending(s, a, job)
    ensures exists e :: e in WritesOf(s, a).events && e !in s.db.events && WritesOf(s, a).events[e].jobId == job
                        && WritesOf(s, a).events[e].status.EventPending?
  {
    match a
    case CreateReport(key, newReport, newJob, event, now, eventAt) =>
      MadeReportRows(s.db, key, newReport, newJob, event, now, eventAt);
      assert event in WritesOf(s, a).events;
    case Submit(req, newJob, event, now, eventAt) =>
      SubmitRows(s.db, req, newJob, event, now, eventAt);
      assert event in WritesOf(s, a).events;
    case RetryDead(_, event, _, _) => assert event in WritesOf(s, a).events;
    case Sweep(resets, _, _, _) =>
      var e :| e in resets && resets[e] == job;
      assert e in WritesOf(s, a).events;
    case _ =>
  }

  lemma NewEventUndelivered(s: Sys, w: Db, entries: seq<Entry>, e: EventId, job: JobId)
    requires LogOk(s) && e in w.events && e !in s.db.events && w.events[e].jobId == job
      && w.events[e].status.EventPending?
    requires Dispatched(e, job) !in entries
    ensures Undelivered(Apply(s.db, w), s.log + entries, e, job)
  {
    assert forall i :: 0 <= i < |s.log| ==> EntryOk(s.db, s.log[i]);
  }

  lemma NewlyPendingCovered(s: Sys, a: Action, job: JobId)
    requires LinksOk(s.db) && LogOk(s) && Enabled(s, a) && NewlyPending(s, a, job)
    ensures Covered(Next(s, a).db, Next(s, a).log, Next(s, a).broker, job)
  {
    if a.RunAttempt? {
      assert Live(NextBroker(s, a)[a.msg], job);
    } else if EnabledService(s.db, a) {
      ServiceCovers(s, a, job);
      var e :| e in WritesOf(s, a).events && e !in s.db.events && WritesOf(s, a).events[e].jobId == job
               && WritesOf(s, a).events[e].status.EventPending?;
      NewEventUndelivered(s, WritesOf(s, a), NewEntries(s, a), e, job);
    }
  }

  /** Every committed PENDING job keeps an undelivered event or a live message. */
  lemma StepLosesNoJob(s: Sys, a: Action)
    requires HistoryOk(s.db) && LinksOk(s.db) && LogOk(s) && NoLostJob(s) && Enabled(s, a)
    ensures NoLostJob(Next(s, a))
  {
    var t := Next(s, a);
    forall j | j in t.db.jobs && t.db.jobs[j].status.JobPending? ensures Covered(t.db, t.log, t.broker, j) {
      if NewlyPending(s, a, j) {
        NewlyPendingCovered(s, a, j);
      } else {
        assert j in s.db.jobs && s.db.jobs[j].status.JobPending?;
        if e :| Undelivered(s.db, s.log, e, j) {
          UndeliveredCovers(s, a, e, j);
        } else {
          var i :| 0 <= i < |s.broker| && Live(s.broker[i], j);
          LiveCovers(s, a, i, j);
        }
      }
    }
  }

  /** A published event was handed to the broker. */
  ghost predicate PublishedDispatched(s: Sys) {
    forall e :: e in s.db.events && s.db.events[e].status.EventPublished? ==>
      Dispatched(e, s.db.events[e].jobId) in s.log
  }

  lemma OnlyMarkPublishes(s: Sys, a: Action, e: EventId)
    requires LinksOk(s.db) && Enabled(s, a) && e in WritesOf(s, a).events && WritesOf(s, a).events[e].status.EventPublished?
    requires e !in s.db.events || !s.db.events[e].status.EventPublished?
    ensures e in s.db.events && Dispatched(e, s.db.events[e].jobId) in s.log
  {
  }

  lemma PublishedStaysDispatched(s: Sys, a: Action, e: EventId)
    requires LinksOk(s.db) && PublishedDispatched(s) && Enabled(s, a)
    requires e in Apply(s.db, WritesOf(s, a)).events && Apply(s.db, WritesOf(s, a)).events[e].status.EventPublished?
    ensures e in s.db.events && Dispatched(e, s.db.events[e].jobId) in s.log
  {
    if e !in s.db.events || !s.db.events[e].status.EventPublished? {
      OnlyMarkPublishes(s, a, e);
    }
  }

  lemma StepKeepsPublished(s: Sys, a: Action)
    requires HistoryOk(s.db) && LinksOk(s.db) && PublishedDispatched(s) && Enabled(s, a)
    ensures PublishedDispatched(Next(s, a))
  {
    StepKeepsHistory(s, a);
    var t := Next(s, a);
    forall e | e in t.db.events && t.db.events[e].status.EventPublished?
      ensures Dispatched(e, t.db.events[e].jobId) in t.log
    {
      PublishedStaysDispatched(s, a, e);
      assert SameEventIdentity(s.db.events[e], t.db.events[e]);
    }
  }

  /******* Dispatch events are conserved *******/

  ghost function EventsOf(events: map<EventId, Event>, job: JobId): set<EventId> {
    set e | e in events && events[e].jobId == job
  }

  /** Calls that owe the job one dispatch event: submissions (new or reused), DLQ retries, sweeper resets. */
  function Owed(job: JobId): Entry -> nat {
    (e: Entry) =>
      match e
      case Submitted(_, j) => if j == job then 1 else 0
      case DlqRetried(j) => if j == job then 1 else 0
      case Swept(jobs) => if job in jobs then 1 else 0
      case _ => 0
  }

  ghost predicate EventsConserved(s: Sys) {
    forall j: JobId :: |EventsOf(s.db.events, j)| == SumBy(Owed(j), s.log)
  }

  lemma EventsOfOne(event: EventId, row: Event, job: JobId)
    ensures EventsOf(map[event := row], job) == if row.jobId == job then {event} else {}
  {
  }

  lemma SweepOwed(jobs: map<JobId, Job>, resets: map<EventId, JobId>, now: Time, job: JobId)
    requires Injective(resets) && forall e :: e in resets ==> resets[e] in jobs
    ensures |EventsOf(SweepWrites(jobs, resets, now).events, job)| == SumBy(Owed(job), [Swept(resets.Values)])
  {
    SumByOne(Owed(job), Swept(resets.Values));
    var own := EventsOf(SweepWrites(jobs, resets, now).events, job);
    if e :| e in resets && resets[e] == job {
      assert own == {e};
    } else {
      assert own == {};
    }
  }

  lemma CreateReportOwed(
    db: Db, key: Option<string>, newReport: ReportId, newJob: JobId, event: EventId, now: Time, eventAt: Time, job: JobId)
    requires LinksOk(db) && FreshReportIds(db, key, newReport, newJob)
    requires MakeReport(db, key, newReport, newJob, event, now, eventAt).ReportMade?
    ensures var made := MakeReport(db, key, newReport, newJob, event, now, eventAt);
            |EventsOf(made.writes.events, job)|
            == SumBy(Owed(job), [Submitted(ReportRequest(made.report, key), made.job), ReportServed(key, made.report, made.job)])
  {
    var made := MakeReport(db, key, newReport, newJob, event, now, eventAt);
    MadeReportRows(db, key, newReport, newJob, event, now, eventAt);
    EventsOfOne(event, NewEvent(made.job, eventAt), job);
    var submitted, served := Submitted(ReportRequest(made.report, key), made.job), ReportServed(key, made.report, made.job);
    SumByAppend(Owed(job), [submitted], [served]);
    SumByOne(Owed(job), submitted);
    SumByOne(Owed(job), served);
    assert [submitted] + [served] == [submitted, served];
  }

  lemma SubmitOwed(db: Db, req: Request, newJob: JobId, event: EventId, now: Time, eventAt: Time, job: JobId)
    requires Accepted(Resolve(db.jobs, req)) && (Resolve(db.jobs, req).Fresh? ==> newJob !in db.jobs)
    ensures var r := Resolve(db.jobs, req);
            |EventsOf(SubmitWrites(r, req, newJob, event, now, eventAt).events, job)|
            == SumBy(Owed(job), [Submitted(req, ResolvedJob(r, newJob))])
  {
    SubmitRows(db, req, newJob, event, now, eventAt);
    EventsOfOne(event, NewEvent(ResolvedJob(Resolve(db.jobs, req), newJob), eventAt), job);
    SumByOne(Owed(job), Submitted(req, ResolvedJob(Resolve(db.jobs, req), newJob)));
  }

  lemma NewEventsOwed(s: Sys, a: Action, job: JobId)
    requires LinksOk(s.db) && EnabledService(s.db, a)
    ensures |EventsOf(WritesOf(s, a).events, job)| == SumBy(Owed(job), NewEntries(s, a))
  {
    match a
    case Submit(req, newJob, event, now, eventAt) => SubmitOwed(s.db, req, newJob, event, now, eventAt, job);
    case CreateReport(key, newReport, newJob, event, now, eventAt) =>
      CreateReportOwed(s.db, key, newReport, newJob, event, now, eventAt, job);
    case RetryDead(j, event, _, eventAt) =>
      EventsOfOne(event, NewEvent(j, eventAt), job);
      SumByOne(Owed(job), DlqRetried(j));
    case Sweep(resets, _, _, now) => SweepOwed(s.db.jobs, resets, now, job);
    case Refuse(req) => SumByOne(Owed(job), Refused(req));
    case ServeReport(key, report) => SumByOne(Owed(job), ReportServed(key, report, s.db.reports[report].jobId.value));
  }

  lemma NewEventsAdd(events: map<EventId, Event>, more: map<EventId, Event>, job: JobId)
    requires more.Keys !! events.Keys
    ensures |EventsOf(events + more, job)| == |EventsOf(events, job)| + |EventsOf(more, job)|
  {
    assert EventsOf(events + more, job) == EventsOf(events, job) + EventsOf(more, job);
    assert EventsOf(events, job) !! EventsOf(more, job);
  }

  lemma UpdatedEventsSame(events: map<EventId, Event>, rows: map<EventId, Event>, job: JobId)
    requires rows.Keys <= events.Keys
    requires forall e :: e in rows ==> rows[e].jobId == events[e].jobId
    ensures EventsOf(events + rows, job) == EventsOf(events, job)
  {
  }

  lemma EventsConservedBy(db: Db, log: seq<Entry>, w: Db, entries: seq<Entry>, job: JobId)
    requires |EventsOf(db.events, job)| == SumBy(Owed(job), log)
    requires if w.events.Keys !! db.events.Keys
             then |EventsOf(w.events, job)| == SumBy(Owed(job), entries)
             else w.events.Keys <= db.events.Keys && SumBy(Owed(job), entries) == 0
    requires forall e :: e in w.events && e in db.events ==> w.events[e].jobId == db.events[e].jobId
    ensures |EventsOf(Apply(db, w).events, job)| == SumBy(Owed(job), log + entries)
  {
    SumByAppend(Owed(job), log, entries);
    if w.events.Keys !! db.events.Keys {
      NewEventsAdd(db.events, w.events, job);
    } else {
      UpdatedEventsSame(db.events, w.events, job);
    }
  }

  /** In every committed state the events of a job are as many as the calls that owed it one. */
  lemma StepConservesEvents(s: Sys, a: Action)
    requires LinksOk(s.db) && EventsConserved(s) && Enabled(s, a)
    ensures EventsConserved(Next(s, a))
  {
    forall j: JobId ensures |EventsOf(Next(s, a).db.events, j)| == SumBy(Owed(j), Next(s, a).log) {
      if EnabledService(s.db, a) {
        ServiceRows(s, a);
        NewEventsOwed(s, a, j);
      } else {
        NoEntriesOwed(s, a, j);
      }
      EventsConservedBy(s.db, s.log, WritesOf(s, a), NewEntries(s, a), j);
    }
  }

  lemma NoEntriesOwed(s: Sys, a: Action, job: JobId)
    requires Enabled(s, a) && !EnabledService(s.db, a)
    ensures SumBy(Owed(job), NewEntries(s, a)) == 0
    ensures var w := WritesOf(s, a).events;
            && (w == map[] || (w.Keys <= s.db.events.Keys && !(w.Keys !! s.db.events.Keys)))
            && EventsOf(map[], job) == {}
            && forall e :: e in w && e in s.db.events ==> w[e].jobId == s.db.events[e].jobId
  {
    if a.RunAttempt? {
      var m := s.broker[a.msg];
      AttemptReportRow(m.job, s.db.jobs[m.job], FoundReport(s.db.reports, s.db.jobs[m.job]), m.retries, s.maxRetries, a.attempt);
    } else if a.MarkPublished? || a.RecordFailure? || a.RejectEvent? {
      assert a.event in WritesOf(s, a).events.Keys * s.db.events.Keys;
    }
  }

  /******* Retry budget *******/

  /** Attempts a message can still cause, itself or through its successors. */
  function Chances(job: JobId, maxRetries: nat): Msg -> nat {
    (m: Msg) =>
      if m.job != job || m.retries > maxRetries then 0
      else if m.phase.Ready? then maxRetries + 1 - m.retries
      else if m.phase == Handled(true) then maxRetries - m.retries
      else 0
  }

  /** Deliveries of the job's messages the publisher or the broker initiated. */
  function Deliveries(job: JobId): Entry -> nat {
    (e: Entry) =>
      match e
      case Dispatched(_, j) => if j == job then 1 else 0
      case Repeated(j) => if j == job then 1 else 0
      case _ => 0
  }

  function AttemptsOf(db: Db, job: JobId): nat {
    if job in db.jobs then db.jobs[job].attempts else 0
  }

  /** k per delivery, as repeated addition. */
  function Allowance(k: nat, deliveries: nat): nat {
    if deliveries == 0 then 0 else k + Allowance(k, deliveries - 1)
  }

  ghost predicate WithinBudget(s: Sys) {
    forall j: JobId :: WithinAllowance(AttemptsOf(s.db, j), s.broker, s.log, j, s.maxRetries)
  }

  lemma ReplacedChances(broker: seq<Msg>, i: nat, phase: Phase, job: JobId, maxRetries: nat)
    requires i < |broker|
    ensures var m, chances := broker[i], Chances(job, maxRetries);
            SumBy(chances, broker[i := m.(phase := phase)]) + chances(m) == SumBy(chances, broker) + chances(m.(phase := phase))
  {
    SumByUpdate(Chances(job, maxRetries), broker, i, broker[i].(phase := phase));
  }

  lemma AddedChances(broker: seq<Msg>, m: Msg, job: JobId, maxRetries: nat)
    ensures SumBy(Chances(job, maxRetries), broker + [m]) == SumBy(Chances(job, maxRetries), broker) + Chances(job, maxRetries)(m)
  {
    SumByAppend(Chances(job, maxRetries), broker, [m]);
  }

  predicate Attempts(s: Sys, a: Action, job: JobId) {
    a.RunAttempt? && a.msg < |s.broker| && s.broker[a.msg].job == job
  }

  /** One attempt uses up one chance; only a delivery adds any, and at most max_retries + 1. */
  predicate ChancesMove(maxRetries: nat, before: nat, after: nat, used: nat, delivered: nat) {
    delivered <= 1 && after + used <= before + if delivered == 0 then 0 else maxRetries + 1
  }

  lemma AttemptChances(s: Sys, a: Action, job: JobId)
    requires NamesOk(s) && EnabledBroker(s, a) && a.RunAttempt?
    ensures ChancesMove(s.maxRetries, SumBy(Chances(job, s.maxRetries), s.broker), SumBy(Chances(job, s.maxRetries), NextBroker(s, a)),
              if Attempts(s, a, job) then 1 else 0, 0)
  {
    var m := s.broker[a.msg];
    assert MsgOk(s.db, m, s.maxRetries);
    ReplacedChances(s.broker, a.msg, Handled(VerdictOn(s.db, m, s.maxRetries, a.attempt).needRetry), job, s.maxRetries);
  }

  lemma BrokerChances(s: Sys, a: Action, job: JobId)
    requires NamesOk(s) && EnabledBroker(s, a) && !a.RunAttempt?
    ensures ChancesMove(s.maxRetries, SumBy(Chances(job, s.maxRetries), s.broker), SumBy(Chances(job, s.maxRetries), NextBroker(s, a)),
              0, if (a.Redeliver? || a.CopyMessage?) && s.broker[a.msg].job == job then 1 else 0)
  {
    match a
    case SkipAttempt(i) => ReplacedChances(s.broker, i, Handled(false), job, s.maxRetries);
    case SendRetry(i) =>
      ReplacedChances(s.broker, i, Handled(false), job, s.maxRetries);
      AddedChances(s.broker[i := s.broker[i].(phase := Handled(false))],
        Msg(s.broker[i].job, s.broker[i].retries + 1, Ready), job, s.maxRetries);
    case Ack(i) => ReplacedChances(s.broker, i, Acked, job, s.maxRetries);
    case Redeliver(i) => ReplacedChances(s.broker, i, Ready, job, s.maxRetries);
    case CopyMessage(i) => AddedChances(s.broker, s.broker[i], job, s.maxRetries);
  }

  lemma DeliveriesStep(s: Sys, a: Action, job: JobId)
    requires Enabled(s, a)
    ensures SumBy(Deliveries(job), NewEntries(s, a)) ==
      if (a.Redeliver? || a.CopyMessage?) && s.broker[a.msg].job == job then 1
      else if a.Dispatch? && s.db.events[a.event].jobId == job then 1 else 0
  {
    if a.CreateReport? {
      var entries := NewEntries(s, a);
      SumByAppend(Deliveries(job), [entries[0]], [entries[1]]);
      SumByOne(Deliveries(job), entries[0]);
      SumByOne(Deliveries(job), entries[1]);
    } else if NewEntries(s, a) != [] {
      SumByOne(Deliveries(job), NewEntries(s, a)[0]);
    }
  }

  lemma ChancesStep(s: Sys, a: Action, job: JobId)
    requires NamesOk(s) && Enabled(s, a)
    ensures ChancesMove(s.maxRetries, SumBy(Chances(job, s.maxRetries), s.broker), SumBy(Chances(job, s.maxRetries), NextBroker(s, a)),
              if Attempts(s, a, job) then 1 else 0, SumBy(Deliveries(job), NewEntries(s, a)))
  {
    DeliveriesStep(s, a, job);
    if a.RunAttempt? {
      AttemptChances(s, a, job);
    } else if EnabledBroker(s, a) {
      BrokerChances(s, a, job);
    } else if a.Dispatch? {
      AddedChances(s.broker, Msg(s.db.events[a.event].jobId, 0, Ready), job, s.maxRetries);
    } else {
      assert NextBroker(s, a) == s.broker;
    }
  }

  lemma AttemptsStep(s: Sys, a: Action, job: JobId)
    requires Enabled(s, a)
    ensures AttemptsOf(Next(s, a).db, job) == AttemptsOf(s.db, job) + if Attempts(s, a, job) then 1 else 0
  {
    if a.RunAttempt? {
      var m := s.broker[a.msg];
      AttemptReportRow(m.job, s.db.jobs[m.job], FoundReport(s.db.reports, s.db.jobs[m.job]), m.retries, s.maxRetries, a.attempt);
    } else if EnabledService(s.db, a) {
      ServiceRows(s, a);
    }
  }

  predicate WithinAllowance(attempts: nat, broker: seq<Msg>, log: seq<Entry>, job: JobId, maxRetries: nat) {
    attempts + SumBy(Chances(job, maxRetries), broker) <= Allowance(maxRetries + 1, SumBy(Deliveries(job), log))
  }

  lemma BudgetArithmetic(
    attempts: nat, used: nat, broker: seq<Msg>, later: seq<Msg>, log: seq<Entry>, entries: seq<Entry>, job: JobId, maxRetries: nat)
    requires WithinAllowance(attempts, broker, log, job, maxRetries)
    requires ChancesMove(maxRetries, SumBy(Chances(job, maxRetries), broker), SumBy(Chances(job, maxRetries), later),
               used, SumBy(Deliveries(job), entries))
    ensures WithinAllowance(attempts + used, later, log + entries, job, maxRetries)
  {
    SumByAppend(Deliveries(job), log, entries);
  }

  lemma JobStaysWithinBudget(s: Sys, a: Action, job: JobId)
    requires NamesOk(s) && Enabled(s, a)
    requires WithinAllowance(AttemptsOf(s.db, job), s.broker, s.log, job, s.maxRetries)
    ensures WithinAllowance(AttemptsOf(Next(s, a).db, job), NextBroker(s, a), s.log + NewEntries(s, a), job, s.maxRetries)
  {
    ChancesStep(s, a, job);
    AttemptsStep(s, a, job);
    BudgetArithmetic(AttemptsOf(s.db, job), if Attempts(s, a, job) then 1 else 0, s.broker, NextBroker(s, a),
      s.log, NewEntries(s, a), job, s.maxRetries);
  }

  /** Recorded attempts plus outstanding chances stay within max_retries + 1 per delivery. */
  lemma StepKeepsBudget(s: Sys, a: Action)
    requires NamesOk(s) && WithinBudget(s) && Enabled(s, a)
    ensures WithinBudget(Next(s, a))
  {
    forall j: JobId ensures WithinAllowance(AttemptsOf(Next(s, a).db, j), Next(s, a).broker, Next(s, a).log, j, s.maxRetries) {
      JobStaysWithinBudget(s, a, j);
    }
  }
}
