/** The atomic machine: committed rows, the broker's messages and a history of what was
    returned or recorded. Every step is one whole transaction or one broker operation. */
module Protocol {
  import opened Rows
  import opened Pipeline
  import opened Outbox
  import opened Submission
  import opened Chains

  /** A message of the broker. `Ready` is queued or redeliverable; `Handled(retry)` is a delivery
      whose attempt transaction has committed and which is not acknowledged yet, `retry` telling
      whether its successor still has to be enqueued; `Acked` messages are gone. */
  datatype Phase = Ready | Handled(retry: bool) | Acked
  datatype Msg = Msg(job: JobId, retries: nat, phase: Phase)

  /** History entries, in commit order. */
  datatype Entry =
    | Submitted(req: Request, job: JobId)
    | Refused(req: Request)
    | ReportServed(key: Option<string>, report: ReportId, job: JobId)
    | DlqRetried(job: JobId)
    | Swept(jobs: set<JobId>)
    | Swallowed(job: JobId)
    | Dispatched(event: EventId, job: JobId)
    | FailureRecorded(event: EventId, terminal: bool)
    | Repeated(job: JobId)

  datatype Sys = Sys(db: Db, broker: seq<Msg>, log: seq<Entry>, maxRetries: nat)

  function Init(maxRetries: nat): Sys {
    Sys(NO_ROWS, [], [], maxRetries)
  }

  datatype Action =
    | Submit(req: Request, newJob: JobId, event: EventId, now: Time, eventAt: Time)
    | Refuse(req: Request)
    | ServeReport(key: Option<string>, report: ReportId)
    | CreateReport(key: Option<string>, newReport: ReportId, newJob: JobId, event: EventId, now: Time, eventAt: Time)
    | RetryDead(job: JobId, event: EventId, now: Time, eventAt: Time)
    | Sweep(resets: map<EventId, JobId>, stuckBefore: Time, limit: nat, now: Time)
    | RunAttempt(msg: nat, attempt: AttemptInput)
    | SkipAttempt(msg: nat)
    | SendRetry(msg: nat)
    | Ack(msg: nat)
    | Redeliver(msg: nat)
    | CopyMessage(msg: nat)
    | Dispatch(event: EventId)
    | MarkPublished(event: EventId, now: Time)
    | RecordFailure(event: EventId, loaded: Event, error: string, terminal: bool, now: Time, delay: nat)
    | RejectEvent(event: EventId)

  ghost predicate Injective(resets: map<EventId, JobId>) {
    forall e1, e2 :: e1 in resets && e2 in resets && resets[e1] == resets[e2] ==> e1 == e2
  }

  /** The attempt's verdict on the rows as they are in `db`. */
  function VerdictOn(db: Db, m: Msg, maxRetries: nat, a: AttemptInput): Verdict
    requires m.job in db.jobs
  {
    var job := db.jobs[m.job];
    AttemptVerdict(job, FoundReport(db.reports, job), m.retries, maxRetries, a)
  }

  ghost predicate Runnable(db: Db, m: Msg) {
    m.job in db.jobs && !Terminal(db.jobs[m.job].status)
  }

  /** The ids a report creation draws are new wherever it uses them. */
  ghost predicate FreshReportIds(db: Db, key: Option<string>, newReport: ReportId, newJob: JobId) {
    var rr := ResolveReport(db.reports, key);
    && !rr.ReportIntegrityFailure?
    && (rr.FreshReport? ==> newReport !in db.reports && !Blank(newReport))
    && (Resolve(db.jobs, ReportRequest(ResolvedReport(rr, newReport), key)).Fresh? ==> newJob !in db.jobs)
  }

  ghost predicate EnabledService(db: Db, a: Action) {
    match a
    case Submit(req, newJob, event, _, _) =>
      && event !in db.events && Accepted(Resolve(db.jobs, req))
      && (Resolve(db.jobs, req).Fresh? ==> newJob !in db.jobs)
    case Refuse(req) => !Accepted(Resolve(db.jobs, req))
    case ServeReport(key, report) => key.Some? && key.value != "" && ReportHolds(db.reports, key.value, report)
    case CreateReport(key, newReport, newJob, event, now, eventAt) =>
      && event !in db.events && MakeReport(db, key, newReport, newJob, event, now, eventAt).ReportMade?
      && FreshReportIds(db, key, newReport, newJob)
    case RetryDead(job, event, _, _) =>
      job in db.jobs && db.jobs[job].status.JobDead? && event !in db.events
    case Sweep(resets, stuckBefore, limit, _) =>
      && |resets| <= limit && Injective(resets) && resets.Keys !! db.events.Keys
      && forall e :: e in resets ==> resets[e] in db.jobs && Stuck(db.jobs[resets[e]], stuckBefore)
    case _ => false
  }

  ghost predicate EnabledPublisher(s: Sys, a: Action) {
    match a
    case Dispatch(e) =>
      e in s.db.events && s.db.events[e].status.EventPending? && s.db.events[e].eventType == JOB_DISPATCH_REQUESTED
    case MarkPublished(e, _) =>
      && e in s.db.events && s.db.events[e].status.EventPending?
      && s.db.events[e].eventType == JOB_DISPATCH_REQUESTED
      && Dispatched(e, s.db.events[e].jobId) in s.log
    case RecordFailure(e, loaded, _, _, _, delay) =>
      && e in s.db.events && s.db.events[e].eventType == JOB_DISPATCH_REQUESTED && SameEventIdentity(loaded, s.db.events[e])
      && loaded.retryCount <= MAX_PUBLISH_RETRIES && delay <= BackoffCeiling(loaded.retryCount + 1)
    case RejectEvent(e) =>
      e in s.db.events && s.db.events[e].status.EventPending? && s.db.events[e].eventType != JOB_DISPATCH_REQUESTED
    case _ => false
  }

  ghost predicate EnabledBroker(s: Sys, a: Action) {
    match a
    case RunAttempt(i, input) =>
      && i < |s.broker| && s.broker[i].phase.Ready? && Runnable(s.db, s.broker[i])
      && !VerdictOn(s.db, s.broker[i], s.maxRetries, input).raises
    case SkipAttempt(i) => i < |s.broker| && s.broker[i].phase.Ready? && !Runnable(s.db, s.broker[i])
    case SendRetry(i) => i < |s.broker| && s.broker[i].phase == Handled(true)
    case Ack(i) => i < |s.broker| && s.broker[i].phase == Handled(false)
    case Redeliver(i) => i < |s.broker| && s.broker[i].phase.Handled?
    case CopyMessage(i) => i < |s.broker| && s.broker[i].phase.Ready?
    case _ => false
  }

  ghost predicate Enabled(s: Sys, a: Action) {
    EnabledService(s.db, a) || EnabledPublisher(s, a) || EnabledBroker(s, a)
  }

  /******* Effects on the rows *******/

  function RetryWrites(row: Job, job: JobId, event: EventId, now: Time, eventAt: Time): Db {
    Db(map[job := RevivedJob(row, now)], map[], map[event := NewEvent(job, eventAt)], map[])
  }

  function SweepWrites(jobs: map<JobId, Job>, resets: map<EventId, JobId>, now: Time): Db
    requires forall e :: e in resets ==> resets[e] in jobs
  {
    Db(map j | j in resets.Values :: ResetJob(jobs[j], now), map[],
       map e | e in resets :: NewEvent(resets[e], now), map[])
  }

  function EventWrite(id: EventId, row: Event): Db {
    Db(map[], map[], map[id := row], map[])
  }

  /** The rows a step writes. */
  ghost function WritesOf(s: Sys, a: Action): Db
    requires Enabled(s, a)
  {
    match a
    case Submit(req, newJob, event, now, eventAt) =>
      SubmitWrites(Resolve(s.db.jobs, req), req, newJob, event, now, eventAt)
    case CreateReport(key, newReport, newJob, event, now, eventAt) =>
      MakeReport(s.db, key, newReport, newJob, event, now, eventAt).writes
    case RetryDead(job, event, now, eventAt) => RetryWrites(s.db.jobs[job], job, event, now, eventAt)
    case Sweep(resets, _, _, now) => SweepWrites(s.db.jobs, resets, now)
    case RunAttempt(i, input) =>
      var m := s.broker[i];
      var job := s.db.jobs[m.job];
      AttemptWrites(m.job, job, FoundReport(s.db.reports, job), m.retries, s.maxRetries, input)
    case MarkPublished(e, now) => EventWrite(e, PublishedEvent(s.db.events[e], now))
    case RecordFailure(e, loaded, error, terminal, now, delay) =>
      EventWrite(e, OrmUpdate(s.db.events[e], loaded, FailedPublish(loaded, error, terminal, now, delay)))
    case RejectEvent(e) => EventWrite(e, UnsupportedEvent(s.db.events[e]))
    case _ => NO_ROWS
  }

  ghost function NextBroker(s: Sys, a: Action): seq<Msg>
    requires Enabled(s, a)
  {
    match a
    case RunAttempt(i, input) =>
      s.broker[i := s.broker[i].(phase := Handled(VerdictOn(s.db, s.broker[i], s.maxRetries, input).needRetry))]
    case SkipAttempt(i) => s.broker[i := s.broker[i].(phase := Handled(false))]
    case SendRetry(i) =>
      s.broker[i := s.broker[i].(phase := Handled(false))] + [Msg(s.broker[i].job, s.broker[i].retries + 1, Ready)]
    case Ack(i) => s.broker[i := s.broker[i].(phase := Acked)]
    case Redeliver(i) => s.broker[i := s.broker[i].(phase := Ready)]
    case CopyMessage(i) => s.broker + [s.broker[i]]
    case Dispatch(e) => s.broker + [Msg(s.db.events[e].jobId, 0, Ready)]
    case _ => s.broker
  }

  ghost function NewEntries(s: Sys, a: Action): seq<Entry>
    requires Enabled(s, a)
  {
    match a
    case Submit(req, newJob, _, _, _) => [Submitted(req, ResolvedJob(Resolve(s.db.jobs, req), newJob))]
    case Refuse(req) => [Refused(req)]
    case ServeReport(key, report) =>
      var job := s.db.reports[report].jobId;
      if job.Some? then [ReportServed(key, report, job.value)] else []
    case CreateReport(key, newReport, newJob, event, now, eventAt) =>
      var made := MakeReport(s.db, key, newReport, newJob, event, now, eventAt);
      [Submitted(ReportRequest(made.report, key), made.job), ReportServed(key, made.report, made.job)]
    case RetryDead(job, _, _, _) => [DlqRetried(job)]
    case Sweep(resets, _, _, _) => [Swept(resets.Values)]
    case RunAttempt(i, input) => if input.finalized then [] else [Swallowed(s.broker[i].job)]
    case Redeliver(i) => [Repeated(s.broker[i].job)]
    case CopyMessage(i) => [Repeated(s.broker[i].job)]
    case Dispatch(e) => [Dispatched(e, s.db.events[e].jobId)]
    case RecordFailure(e, _, _, terminal, _, _) => [FailureRecorded(e, terminal)]
    case _ => []
  }

  ghost function Next(s: Sys, a: Action): Sys
    requires Enabled(s, a)
  {
    Sys(Apply(s.db, WritesOf(s, a)), NextBroker(s, a), s.log + NewEntries(s, a), s.maxRetries)
  }

  /******* Runs *******/

  ghost predicate Takes(s: Sys, a: Action, t: Sys) {
    Enabled(s, a) && t == Next(s, a)
  }

  /** `actions` can be performed one after the other from `s`, ending in `t`. */
  ghost predicate Run(s: Sys, actions: seq<Action>, t: Sys) {
    Chain(Takes, s, actions, t)
  }

  ghost predicate Reachable(s: Sys) {
    exists actions :: Run(Init(s.maxRetries), actions, s)
  }

  lemma RunOfNone(s: Sys, t: Sys)
    ensures Run(s, [], t) <==> s == t
  {
    ChainOfNone(Takes, s, t);
  }

  lemma RunHead(s: Sys, actions: seq<Action>, t: Sys)
    requires actions != [] && Run(s, actions, t)
    ensures Enabled(s, actions[0]) && Run(Next(s, actions[0]), actions[1..], t)
  {
    var n := ChainHead(Takes, s, actions, t);
  }

  lemma RunCons(s: Sys, a: Action, n: Sys, rest: seq<Action>, t: Sys)
    requires Takes(s, a, n) && Run(n, rest, t)
    ensures Run(s, [a] + rest, t)
  {
    ChainCons(Takes, s, a, n, rest, t);
  }

  lemma RunSnoc(s: Sys, actions: seq<Action>, t: Sys, a: Action)
    requires Run(s, actions, t) && Enabled(t, a)
    ensures Run(s, actions + [a], Next(t, a))
  {
    ChainSnoc(Takes, s, actions, t, a, Next(t, a));
  }

  lemma InitReachable(maxRetries: nat)
    ensures Reachable(Init(maxRetries))
  {
    RunOfNone(Init(maxRetries), Init(maxRetries));
  }

  lemma ReachableNext(s: Sys, a: Action)
    requires Reachable(s) && Enabled(s, a)
    ensures Reachable(Next(s, a))
  {
    var actions :| Run(Init(s.maxRetries), actions, s);
    RunSnoc(Init(s.maxRetries), actions, s, a);
  }
}
