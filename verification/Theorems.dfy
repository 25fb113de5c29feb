/** The main results about every run of the atomic machine. */
module Theorems {
  import opened Rows
  import opened Pipeline
  import opened Outbox
  import opened Submission
  import opened Protocol
  import opened History
  import opened Safety
  import opened Delivery
  import opened Sums

  ghost predicate Inv(s: Sys) {
    && HistoryOk(s.db) && KeysOk(s.db) && LinksOk(s.db) && LogOk(s) && NamesOk(s)
    && AgreementOk(s.db, s.log) && NoLostJob(s) && PublishedDispatched(s) && EventsConserved(s) && WithinBudget(s)
  }

  lemma InitInv(maxRetries: nat)
    ensures Inv(Init(maxRetries))
  {
    forall j: JobId ensures |EventsOf(Init(maxRetries).db.events, j)| == 0 {
      assert EventsOf(Init(maxRetries).db.events, j) == {};
    }
  }

  lemma StepKeepsInv(s: Sys, a: Action)
    requires Inv(s) && Enabled(s, a)
    ensures Inv(Next(s, a)) && Extends(s.db, Next(s, a).db)
  {
    StepKeepsHistory(s, a);
    StepKeepsKeys(s, a);
    StepKeepsLinks(s, a);
    StepKeepsLog(s, a);
    StepKeepsNames(s, a);
    StepKeepsAgreement(s, a);
    StepLosesNoJob(s, a);
    StepKeepsPublished(s, a);
    StepConservesEvents(s, a);
    StepKeepsBudget(s, a);
  }

  /******* From steps to runs *******/

  /** Induction over runs: what every step from a good state keeps, and how the two ends compare. */
  lemma {:induction false} RunInduction(
    good: Sys -> bool, related: (Sys, Sys) -> bool, s: Sys, actions: seq<Action>, t: Sys)
    requires good(s) && Run(s, actions, t)
    requires forall x, a :: good(x) && Enabled(x, a) ==> good(Next(x, a)) && related(x, Next(x, a))
    requires forall x :: related(x, x)
    requires forall x, y, z :: related(x, y) && related(y, z) ==> related(x, z)
    ensures good(t) && related(s, t)
    decreases |actions|
  {
    RunOfNone(s, t);
    if actions != [] {
      RunHead(s, actions, t);
      RunInduction(good, related, Next(s, actions[0]), actions[1..], t);
    }
  }

  ghost predicate Later(s: Sys, t: Sys) {
    Extends(s.db, t.db) && s.log <= t.log && s.maxRetries == t.maxRetries
  }

  lemma StepIsLater(s: Sys, a: Action)
    requires Inv(s) && Enabled(s, a)
    ensures Later(s, Next(s, a))
  {
    StepKeepsHistory(s, a);
  }

  lemma LaterTransitive(x: Sys, y: Sys, z: Sys)
    requires Later(x, y) && Later(y, z)
    ensures Later(x, z)
  {
    ExtendsTransitive(x.db, y.db, z.db);
  }

  lemma LaterIsPreorder()
    ensures forall x :: Later(x, x)
    ensures forall x, y, z :: Later(x, y) && Later(y, z) ==> Later(x, z)
  {
    forall x, y, z | Later(x, y) && Later(y, z) ensures Later(x, z) {
      LaterTransitive(x, y, z);
    }
  }

  lemma StepsKeepInv()
    ensures forall x, a :: Inv(x) && Enabled(x, a) ==> Inv(Next(x, a)) && Later(x, Next(x, a))
  {
    forall x, a | Inv(x) && Enabled(x, a) ensures Inv(Next(x, a)) && Later(x, Next(x, a)) {
      StepKeepsInv(x, a);
      StepIsLater(x, a);
    }
  }

  /** Every run keeps every invariant and undoes no committed fact. */
  lemma RunKeepsInv(s: Sys, actions: seq<Action>, t: Sys)
    requires Inv(s) && Run(s, actions, t)
    ensures Inv(t) && Later(s, t)
  {
    LaterIsPreorder();
    StepsKeepInv();
    RunInduction(Inv, Later, s, actions, t);
  }

  lemma ReachableInv(s: Sys)
    requires Reachable(s)
    ensures Inv(s)
  {
    var actions :| Run(Init(s.maxRetries), actions, s);
    InitInv(s.maxRetries);
    RunKeepsInv(Init(s.maxRetries), actions, s);
  }

  /******* Attempts *******/

  ghost predicate SucceededAt(db: Db, id: JobId, no: nat) {
    AttemptKey(id, no) in db.attempts && db.attempts[AttemptKey(id, no)].status.AttemptSucceeded?
  }

  /** A job has a SUCCEEDED attempt exactly when it is COMPLETED; it is the last one, hence unique. */
  lemma OneRecordedSuccess(s: Sys, id: JobId)
    requires Reachable(s) && id in s.db.jobs
    ensures s.db.jobs[id].status.JobCompleted? <==> exists no: nat :: SucceededAt(s.db, id, no)
    ensures forall no: nat :: SucceededAt(s.db, id, no) ==> no == s.db.jobs[id].attempts
    ensures s.db.jobs[id].result.Some? ==> s.db.jobs[id].status.JobCompleted?
  {
    ReachableInv(s);
    assert JobOk(id, s.db.jobs[id], s.db.attempts);
    if s.db.jobs[id].status.JobCompleted? {
      assert SucceededAt(s.db, id, s.db.jobs[id].attempts);
    }
  }

  /** The attempt numbers of a job are 1..attempts and its status is coupled to its last attempt. */
  lemma HistoryAgrees(s: Sys, id: JobId)
    requires Reachable(s) && id in s.db.jobs
    ensures JobOk(id, s.db.jobs[id], s.db.attempts)
  {
    ReachableInv(s);
  }

  /** Only a swallowed finalization leaves a committed job RUNNING. */
  lemma RunningWasSwallowed(s: Sys, id: JobId)
    requires Reachable(s) && id in s.db.jobs && s.db.jobs[id].status.JobRunning?
    ensures Swallowed(id) in s.log
  {
    ReachableInv(s);
  }

  /** The insert of the next attempt row cannot violate UNIQUE(job_id, attempt_no). */
  lemma NextAttemptNumberFree(s: Sys, id: JobId)
    requires Reachable(s) && id in s.db.jobs
    ensures AttemptKey(id, s.db.jobs[id].attempts + 1) !in s.db.attempts
  {
    ReachableInv(s);
    assert JobOk(id, s.db.jobs[id], s.db.attempts);
  }

  lemma {:induction false} AllowanceIsProduct(k: nat, n: nat)
    ensures Allowance(k, n) == k * n
  {
    if n > 0 {
      AllowanceIsProduct(k, n - 1);
      assert k * (n - 1) + k == k * n;
    }
  }

  /** attempts + chances <= (max_retries + 1) * deliveries */
  predicate PaidByDeliveries(attempts: nat, broker: seq<Msg>, log: seq<Entry>, id: JobId, maxRetries: nat) {
    attempts + SumBy(Chances(id, maxRetries), broker) <= (maxRetries + 1) * SumBy(Deliveries(id), log)
  }

  lemma AllowancePays(attempts: nat, broker: seq<Msg>, log: seq<Entry>, id: JobId, maxRetries: nat)
    requires WithinAllowance(attempts, broker, log, id, maxRetries)
    ensures PaidByDeliveries(attempts, broker, log, id, maxRetries)
  {
    AllowanceIsProduct(maxRetries + 1, SumBy(Deliveries(id), log));
  }

  lemma BudgetPays(s: Sys, id: JobId)
    requires WithinBudget(s)
    ensures PaidByDeliveries(AttemptsOf(s.db, id), s.broker, s.log, id, s.maxRetries)
  {
    AllowancePays(AttemptsOf(s.db, id), s.broker, s.log, id, s.maxRetries);
  }

  /** Recorded attempts and the attempts outstanding messages can still cause stay within
      max_retries + 1 per dispatch or repeated delivery. */
  lemma AttemptsBounded(s: Sys, id: JobId)
    requires Reachable(s)
    ensures PaidByDeliveries(AttemptsOf(s.db, id), s.broker, s.log, id, s.maxRetries)
  {
    ReachableInv(s);
    BudgetPays(s, id);
  }

  /******* Delivery *******/

  /** A PENDING job has an event still to be published, an event that FAILED, or a message that is
      queued or not acknowledged. */
  lemma NoJobLost(s: Sys, id: JobId)
    requires Reachable(s) && id in s.db.jobs && s.db.jobs[id].status.JobPending?
    ensures
      || (exists e :: e in s.db.events && s.db.events[e].jobId == id && !s.db.events[e].status.EventPublished?)
      || (exists i :: 0 <= i < |s.broker| && Live(s.broker[i], id))
  {
    ReachableInv(s);
    if e :| Undelivered(s.db, s.log, e, id) {
      assert e in s.db.events && s.db.events[e].jobId == id && !s.db.events[e].status.EventPublished?;
    }
  }

  /** No event or message names a missing job, no message is past max_retries, no event past
      MAX_PUBLISH_RETRIES, and every PUBLISHED event was handed to the broker. */
  lemma NamesExist(s: Sys)
    requires Reachable(s)
    ensures NamesOk(s) && PublishedDispatched(s)
  {
    ReachableInv(s);
  }

  /** A job has as many dispatch events as submissions that returned it, DLQ retries and sweeper resets. */
  lemma EventsMatchCalls(s: Sys, id: JobId)
    requires Reachable(s)
    ensures |EventsOf(s.db.events, id)| == SumBy(Owed(id), s.log)
  {
    ReachableInv(s);
  }

  /******* The broker drains *******/

  predicate WorkerAction(a: Action) {
    a.RunAttempt? || a.SkipAttempt? || a.SendRetry? || a.Ack?
  }

  /** Worker steps a message can still take part in, its successors included. */
  function Effort(maxRetries: nat): Msg -> nat {
    (m: Msg) =>
      var left := if m.retries <= maxRetries then maxRetries - m.retries else 0;
      match m.phase
      case Ready => 3 * left + 3
      case Handled(retry) => if retry then 3 * left + 2 else 1
      case Acked => 0
  }

  lemma PhaseDrains(broker: seq<Msg>, i: nat, phase: Phase, maxRetries: nat)
    requires i < |broker| && Effort(maxRetries)(broker[i].(phase := phase)) < Effort(maxRetries)(broker[i])
    ensures SumBy(Effort(maxRetries), broker[i := broker[i].(phase := phase)]) < SumBy(Effort(maxRetries), broker)
  {
    SumByUpdate(Effort(maxRetries), broker, i, broker[i].(phase := phase));
  }

  lemma RetryDrains(broker: seq<Msg>, i: nat, maxRetries: nat)
    requires i < |broker| && broker[i].phase == Handled(true) && broker[i].retries < maxRetries
    ensures SumBy(Effort(maxRetries), broker[i := broker[i].(phase := Handled(false))] + [Msg(broker[i].job, broker[i].retries + 1, Ready)])
            < SumBy(Effort(maxRetries), broker)
  {
    var handled, sent := broker[i := broker[i].(phase := Handled(false))], Msg(broker[i].job, broker[i].retries + 1, Ready);
    SumByUpdate(Effort(maxRetries), broker, i, broker[i].(phase := Handled(false)));
    SumByAppend(Effort(maxRetries), handled, [sent]);
    SumByOne(Effort(maxRetries), sent);
  }

  lemma AttemptDrains(s: Sys, a: Action)
    requires NamesOk(s) && EnabledBroker(s, a) && a.RunAttempt?
    ensures SumBy(Effort(s.maxRetries), NextBroker(s, a)) < SumBy(Effort(s.maxRetries), s.broker)
  {
    assert MsgOk(s.db, s.broker[a.msg], s.maxRetries);
    PhaseDrains(s.broker, a.msg, Handled(VerdictOn(s.db, s.broker[a.msg], s.maxRetries, a.attempt).needRetry), s.maxRetries);
  }

  lemma WorkerStepDrains(s: Sys, a: Action)
    requires NamesOk(s) && EnabledBroker(s, a) && WorkerAction(a)
    ensures SumBy(Effort(s.maxRetries), NextBroker(s, a)) < SumBy(Effort(s.maxRetries), s.broker)
  {
    match a
    case RunAttempt(_, _) => AttemptDrains(s, a);
    case SkipAttempt(i) => PhaseDrains(s.broker, i, Handled(false), s.maxRetries);
    case SendRetry(i) =>
      assert MsgOk(s.db, s.broker[i], s.maxRetries);
      RetryDrains(s.broker, i, s.maxRetries);
    case Ack(i) => PhaseDrains(s.broker, i, Acked, s.maxRetries);
  }

  lemma WorkerStep(s: Sys, a: Action)
    requires Inv(s) && Enabled(s, a) && WorkerAction(a)
    ensures Inv(Next(s, a))
    ensures SumBy(Effort(s.maxRetries), Next(s, a).broker) < SumBy(Effort(s.maxRetries), s.broker)
  {
    WorkerStepDrains(s, a);
    StepKeepsInv(s, a);
  }

  /** With no new dispatch, repeated delivery or rolled-back attempt, the workers stop. */
  lemma {:induction false} WorkersDrain(s: Sys, actions: seq<Action>, t: Sys)
    requires Inv(s) && Run(s, actions, t) && forall i :: 0 <= i < |actions| ==> WorkerAction(actions[i])
    ensures |actions| + SumBy(Effort(t.maxRetries), t.broker) <= SumBy(Effort(s.maxRetries), s.broker)
    decreases |actions|
  {
    RunOfNone(s, t);
    if actions != [] {
      RunHead(s, actions, t);
      WorkerStep(s, actions[0]);
      WorkersDrain(Next(s, actions[0]), actions[1..], t);
    }
  }

  /** They stop only when every message is acknowledged. */
  lemma WorkersStopOnlyWhenDrained(s: Sys)
    ensures (forall i :: 0 <= i < |s.broker| ==> s.broker[i].phase.Acked?)
            <==> !exists a :: WorkerAction(a) && Enabled(s, a)
  {
    if i: nat :| i < |s.broker| && !s.broker[i].phase.Acked? {
      match s.broker[i].phase
      case Ready =>
        var a := RunAttempt(i, AttemptInput(Unregistered, true, 0, 0));
        assert WorkerAction(a) && Enabled(s, if Runnable(s.db, s.broker[i]) then a else SkipAttempt(i));
        assert WorkerAction(SkipAttempt(i));
      case Handled(retry) =>
        assert Enabled(s, if retry then SendRetry(i) else Ack(i));
        assert WorkerAction(SendRetry(i)) && WorkerAction(Ack(i));
    }
  }

  /******* Idempotent submission *******/

  /** All successful callers with one non-empty key got the same job, for the same request. */
  lemma SameKeySameJob(s: Sys, a: Entry, b: Entry)
    requires Reachable(s) && a in s.log && b in s.log && a.Submitted? && b.Submitted?
    requires a.req.key.Some? && a.req.key == b.req.key
    ensures a.job == b.job && a.req == b.req
  {
    ReachableInv(s);
    assert EntryOk(s.db, a) && EntryOk(s.db, b);
  }

  /** A refused caller's key is held by a job, which differs from the request unless the key is empty. */
  lemma RefusalIsConflict(s: Sys, a: Entry, b: Entry)
    requires Reachable(s) && a in s.log && b in s.log && a.Submitted? && b.Refused?
    requires a.req.key.Some? && a.req.key == b.req.key && a.req.key.value != ""
    ensures a.req.jobType != b.req.jobType || a.req.payload != b.req.payload
  {
    ReachableInv(s);
    assert EntryOk(s.db, a) && EntryOk(s.db, b);
    var h :| JobHolds(s.db.jobs, b.req.key.value, h) && !Matches(s.db.jobs[h], b.req);
    assert h == a.job;
  }

  /******* Reports *******/

  /** All successful create_report calls with one non-empty key returned one report and one job. */
  lemma SameKeySameReport(s: Sys, a: Entry, b: Entry)
    requires Reachable(s) && a in s.log && b in s.log && a.ReportServed? && b.ReportServed?
    requires a.key.Some? && a.key == b.key
    ensures a.report == b.report && a.job == b.job
  {
    ReachableInv(s);
    assert EntryOk(s.db, a) && EntryOk(s.db, b);
  }

  /** Two reports never share a job. */
  lemma ReportJobInjective(s: Sys, a: ReportId, b: ReportId)
    requires Reachable(s) && a in s.db.reports && b in s.db.reports
    ensures s.db.reports[a].jobId.Some?
    ensures s.db.reports[a].jobId == s.db.reports[b].jobId ==> a == b
  {
    ReachableInv(s);
    assert Linked(s.db, a, s.db.reports[a]) && Linked(s.db, b, s.db.reports[b]);
  }

  lemma UniqueHolders(db: Db, key: string, job: JobId, report: ReportId)
    requires KeysOk(db) && JobHolds(db.jobs, key, job) && ReportHolds(db.reports, key, report)
    ensures JobHolder(db.jobs, key) == Some(job) && ReportHolder(db.reports, key) == Some(report)
  {
  }

  lemma LinkedReportReused(
    db: Db, report: ReportId, key: string, newReport: ReportId, newJob: JobId, event: EventId, now: Time, eventAt: Time)
    requires key != "" && ReportHolds(db.reports, key, report) && Linked(db, report, db.reports[report])
    requires ReportHolder(db.reports, key) == Some(report) && JobHolder(db.jobs, key) == db.reports[report].jobId
    ensures var made := MakeReport(db, Some(key), newReport, newJob, event, now, eventAt);
            made.ReportMade? && made.report == report && Some(made.job) == db.reports[report].jobId
            && made.writes.jobs == map[] && made.writes.reports == map[]
  {
  }

  /** Once a report holds a non-empty key, a create_report call with that key that missed it in its
      optimistic read still succeeds, with that report and its job: no conflict, no attach error. */
  lemma RepeatedCreateSucceeds(
    s: Sys, report: ReportId, key: string, newReport: ReportId, newJob: JobId, event: EventId, now: Time, eventAt: Time)
    requires Reachable(s) && key != "" && ReportHolds(s.db.reports, key, report)
    ensures var made := MakeReport(s.db, Some(key), newReport, newJob, event, now, eventAt);
            made.ReportMade? && made.report == report && Some(made.job) == s.db.reports[report].jobId
            && made.writes.jobs == map[] && made.writes.reports == map[]
  {
    ReachableInv(s);
    assert Linked(s.db, report, s.db.reports[report]);
    UniqueHolders(s.db, key, s.db.reports[report].jobId.value, report);
    LinkedReportReused(s.db, report, key, newReport, newJob, event, now, eventAt);
  }

  /** A COMPLETED report job's report is READY with the job's result, and no other job of that
      report is COMPLETED; a READY report has a COMPLETED job, or one whose finalization was swallowed. */
  lemma ReportsAgree(s: Sys)
    requires Reachable(s)
    ensures forall j :: CompletedReportJob(s.db, j) ==> AgreesWithReport(s.db, j)
    ensures forall a, b :: CompletedReportJob(s.db, a) && CompletedReportJob(s.db, b) ==>
              TargetOf(s.db.jobs[a]) == TargetOf(s.db.jobs[b]) ==> a == b
    ensures forall r :: r in s.db.reports && s.db.reports[r].status.ReportReady? ==> exists j :: Generated(s.db, s.log, r, j)
  {
    ReachableInv(s);
  }

  /** An attempt of a report job commits COMPLETED exactly when its report is PENDING, its executor
      is registered and neither the database nor the finalization fails. */
  lemma CompletesIff(db: Db, m: Msg, maxRetries: nat, a: AttemptInput)
    requires m.job in db.jobs && db.jobs[m.job].jobType == REPORT_GENERATE
    requires !Terminal(db.jobs[m.job].status)
    ensures var job, v := db.jobs[m.job], VerdictOn(db, m, maxRetries, a);
            var w := AttemptWrites(m.job, job, FoundReport(db.reports, job), m.retries, maxRetries, a);
            (!v.raises && w.jobs[m.job].status.JobCompleted?)
            <==> (&& a.input.Registered? && !a.input.fault && a.finalized
                  && TargetOf(job).Some? && TargetOf(job).value in db.reports
                  && db.reports[TargetOf(job).value].status.ReportPending?)
  {
  }

  /** A report job that is not COMPLETED although its report is already READY. */
  ghost predicate Orphaned(db: Db, id: JobId, report: ReportId) {
    && id in db.jobs && db.jobs[id].jobType == REPORT_GENERATE && TargetOf(db.jobs[id]) == Some(report)
    && !db.jobs[id].status.JobCompleted?
    && report in db.reports && db.reports[report].status.ReportReady?
  }

  lemma OrphanWrites(db: Db, w: Db, id: JobId, report: ReportId)
    requires Orphaned(db, id, report) && Extends(db, Apply(db, w))
    requires id in w.jobs ==> !w.jobs[id].status.JobCompleted?
    ensures Orphaned(Apply(db, w), id, report)
  {
  }

  lemma OrphanAttempt(db: Db, w: Db, other: JobId, finalized: bool, id: JobId, report: ReportId)
    requires Orphaned(db, id, report) && AttemptPair(db, w, other, finalized)
    ensures id in w.jobs ==> !w.jobs[id].status.JobCompleted?
  {
    if id == other && w.jobs[id].status.JobCompleted? {
      assert CompletedReportJob(w, id);
      assert false;
    }
  }

  lemma OrphanStep(s: Sys, a: Action, id: JobId, report: ReportId)
    requires HistoryOk(s.db) && LinksOk(s.db) && Enabled(s, a) && Orphaned(s.db, id, report)
    ensures Orphaned(Next(s, a).db, id, report)
  {
    StepKeepsHistory(s, a);
    if a.RunAttempt? {
      var m := s.broker[a.msg];
      AttemptIsPair(s.db, m.job, m.retries, s.maxRetries, a.attempt);
      OrphanAttempt(s.db, WritesOf(s, a), m.job, a.attempt.finalized, id, report);
    } else {
      QuietRows(s, a);
    }
    OrphanWrites(s.db, WritesOf(s, a), id, report);
  }

  /** Swallowing the finalization of a successful report attempt loses the job for good: neither the
      sweeper, nor retries, nor a DLQ retry can ever complete it. */
  lemma {:induction false} OrphanNeverCompletes(s: Sys, actions: seq<Action>, t: Sys, id: JobId, report: ReportId)
    requires Inv(s) && Run(s, actions, t) && Orphaned(s.db, id, report)
    ensures Orphaned(t.db, id, report)
    decreases |actions|
  {
    RunOfNone(s, t);
    if actions != [] {
      RunHead(s, actions, t);
      OrphanStep(s, actions[0], id, report);
      StepKeepsInv(s, actions[0]);
      OrphanNeverCompletes(Next(s, actions[0]), actions[1..], t, id, report);
    }
  }
}
