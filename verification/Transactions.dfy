/** The concurrent machine: any number of in-flight transactions, each holding the rows it read
    under lock and the decisions it took, interleaved step by step. What a transaction writes is
    computed from the rows it captured, never from the committed rows at commit time. */
module Transactions {
  import opened Rows
  import opened Pipeline
  import opened Outbox
  import opened Submission
  import opened Protocol
  import opened Chains

  /** Row locks, the unique-index entries an uncommitted insert occupies, and the broker's
      promise to hand a message to one worker at a time. */
  datatype Lock =
    | JobRow(job: JobId) | JobKey(key: string)
    | ReportRow(report: ReportId) | ReportKey(key: string)
    | EventRow(event: EventId) | Delivery(msg: nat)

  datatype AttemptStage =
    | Begun
    | Executed(input: ExecInput, found: Option<Report>)
    | Finalized(input: ExecInput, found: Option<Report>, ok: bool, finished: Time)

  /** `inserted` is the insertion time of a new job row, None when a committed job is reused. */
  datatype SubmitStage =
    | Looking
    | Missed
    | Violated
    | Conflicted
    | Resolved(job: JobId, inserted: Option<Time>)
    | Recorded(job: JobId, inserted: Option<Time>, event: EventId, eventAt: Time)
    | Attached(job: JobId, inserted: Option<Time>, event: EventId, eventAt: Time)

  /** The report a submission belongs to, and whether this transaction inserted it. */
  datatype Target = Target(report: ReportId, created: bool)

  datatype ReportStage = LookingUp | NotThere | ReportViolated | Served(report: ReportId)

  datatype FailStage = RolledBack | Reloaded(loaded: Event) | Updating(loaded: Event, current: Event, now: Time, delay: nat)

  datatype Txn =
    | AttemptTxn(msg: nat, m: Msg, row: Job, started: Time, stage: AttemptStage)
    | SkipTxn(msg: nat, m: Msg, seen: Option<Job>)
    | SweepTxn(rows: map<JobId, Job>, resets: map<EventId, JobId>, stuckBefore: Time, limit: nat, now: Time)
    | RetryTxn(job: JobId, row: Job, event: EventId, now: Time, eventAt: Time)
    | SubmitTxn(req: Request, target: Option<Target>, progress: SubmitStage)
    | ReportTxn(key: Option<string>, lookup: ReportStage)
    | PublishTxn(event: EventId, claimed: Event, sent: Option<Time>)
    | FailTxn(event: EventId, error: string, terminal: bool, failing: FailStage)

  type Tid = nat
  datatype Conc = Conc(sys: Sys, txns: map<Tid, Txn>)

  datatype Step =
    | BeginAttempt(tid: Tid, msg: nat, started: Time)
    | RunExecutor(tid: Tid, input: ExecInput)
    | Finalize(tid: Tid, ok: bool, finished: Time)
    | BeginSweep(tid: Tid, resets: map<EventId, JobId>, stuckBefore: Time, limit: nat, now: Time)
    | BeginRetry(tid: Tid, job: JobId, event: EventId, now: Time, eventAt: Time)
    | BeginSubmit(tid: Tid, req: Request)
    | ReadKey(tid: Tid)
    | InsertJob(tid: Tid, job: JobId, now: Time)
    | RereadKey(tid: Tid)
    | RecordEvent(tid: Tid, event: EventId, eventAt: Time)
    | AttachJob(tid: Tid)
    | BeginReport(tid: Tid, key: Option<string>)
    | ReadReportKey(tid: Tid)
    | InsertReport(tid: Tid, report: ReportId)
    | RereadReportKey(tid: Tid)
    | Claim(tid: Tid, event: EventId)
    | SendDispatch(tid: Tid, now: Time)
    | FailDispatch(tid: Tid, error: string, terminal: bool)
    | Reload(tid: Tid)
    | FlushFailure(tid: Tid, now: Time, delay: nat)
    | Commit(tid: Tid)
    | Raise(tid: Tid)
    | Abort(tid: Tid)
    | BrokerStep(action: Action)

  /******* Locks and write sets of a transaction *******/

  function KeyLock(key: Option<string>): set<Lock> {
    if key.Some? then {JobKey(key.value)} else {}
  }

  function ReportKeyLock(key: Option<string>): set<Lock> {
    if key.Some? then {ReportKey(key.value)} else {}
  }

  function TargetLocks(req: Request, target: Option<Target>): set<Lock> {
    if target.Some? && target.value.created then {ReportRow(target.value.report)} + ReportKeyLock(req.key) else {}
  }

  function SubmitLocks(req: Request, progress: SubmitStage): set<Lock> {
    match progress
    case Resolved(job, inserted) => if inserted.Some? then {JobRow(job)} + KeyLock(req.key) else {}
    case Recorded(job, inserted, event, _) => (if inserted.Some? then {JobRow(job)} + KeyLock(req.key) else {}) + {EventRow(event)}
    case Attached(job, inserted, event, _) => (if inserted.Some? then {JobRow(job)} + KeyLock(req.key) else {}) + {EventRow(event)}
    case _ => {}
  }

  /** An executor's lookup holds the report id even when no row is found: a UUID drawn for a new
      report is never one that a running attempt has just looked up. */
  function Locks(t: Txn): set<Lock> {
    match t
    case AttemptTxn(msg, m, row, _, stage) =>
      {Delivery(msg), JobRow(m.job)} + if !stage.Begun? && TargetOf(row).Some? then {ReportRow(TargetOf(row).value)} else {}
    case SkipTxn(msg, m, _) => {Delivery(msg), JobRow(m.job)}
    case SweepTxn(rows, resets, _, _, _) => (set j | j in rows :: JobRow(j)) + (set e | e in resets :: EventRow(e))
    case RetryTxn(job, _, event, _, _) => {JobRow(job), EventRow(event)}
    case SubmitTxn(req, target, progress) => TargetLocks(req, target) + SubmitLocks(req, progress)
    case ReportTxn(_, _) => {}
    case PublishTxn(event, _, _) => {EventRow(event)}
    case FailTxn(event, _, _, failing) => if failing.Updating? then {EventRow(event)} else {}
  }

  function AttemptOf(t: Txn): AttemptInput
    requires t.AttemptTxn? && t.stage.Finalized?
  {
    AttemptInput(t.stage.input, t.stage.ok, t.started, t.stage.finished)
  }

  function TxnVerdict(t: Txn, maxRetries: nat): Verdict
    requires t.AttemptTxn? && t.stage.Finalized?
  {
    AttemptVerdict(t.row, t.stage.found, t.m.retries, maxRetries, AttemptOf(t))
  }

  /** Whether the unit of work may exit cleanly. */
  predicate CanCommit(t: Txn, maxRetries: nat) {
    match t
    case AttemptTxn(_, _, _, _, stage) => stage.Finalized? && !TxnVerdict(t, maxRetries).raises
    case SkipTxn(_, _, _) => true
    case SweepTxn(_, _, _, _, _) => true
    case RetryTxn(_, _, _, _, _) => true
    case SubmitTxn(_, target, progress) => if target.Some? then progress.Attached? else progress.Recorded?
    case ReportTxn(_, lookup) => lookup.Served?
    case PublishTxn(_, claimed, sent) => sent.Some? || claimed.eventType != JOB_DISPATCH_REQUESTED
    case FailTxn(_, _, _, failing) => failing.Updating?
  }

  function SubmitTxnWrites(req: Request, target: Option<Target>, p: SubmitStage): Db
    requires p.Recorded? || p.Attached?
  {
    Db(if p.inserted.Some? then map[p.job := NewJob(req, p.inserted.value)] else map[], map[],
       map[p.event := NewEvent(p.job, p.eventAt)],
       if target.Some? && target.value.created then map[target.value.report := NewReport(req.key).(jobId := Some(p.job))] else map[])
  }

  /** The write set of a transaction that commits, from the rows it captured. */
  function Writes(t: Txn, maxRetries: nat): Db
    requires CanCommit(t, maxRetries)
  {
    match t
    case AttemptTxn(_, m, row, _, stage) => AttemptWrites(m.job, row, stage.found, m.retries, maxRetries, AttemptOf(t))
    case SweepTxn(rows, resets, _, _, now) =>
      Db(map j | j in rows :: ResetJob(rows[j], now), map[], map e | e in resets :: NewEvent(resets[e], now), map[])
    case RetryTxn(job, row, event, now, eventAt) => RetryWrites(row, job, event, now, eventAt)
    case SubmitTxn(req, target, progress) => SubmitTxnWrites(req, target, progress)
    case PublishTxn(event, claimed, sent) =>
      EventWrite(event, if sent.Some? then PublishedEvent(claimed, sent.value) else UnsupportedEvent(claimed))
    case FailTxn(event, error, terminal, f) =>
      EventWrite(event, OrmUpdate(f.current, f.loaded, FailedPublish(f.loaded, error, terminal, f.now, f.delay)))
    case _ => NO_ROWS
  }

  ghost function CommitBroker(broker: seq<Msg>, t: Txn, maxRetries: nat): seq<Msg>
    requires CanCommit(t, maxRetries)
  {
    match t
    case AttemptTxn(msg, m, _, _, _) =>
      if msg < |broker| then broker[msg := m.(phase := Handled(TxnVerdict(t, maxRetries).needRetry))] else broker
    case SkipTxn(msg, m, _) => if msg < |broker| then broker[msg := m.(phase := Handled(false))] else broker
    case _ => broker
  }

  ghost function CommitEntries(reports: map<ReportId, Report>, t: Txn, maxRetries: nat): seq<Entry>
    requires CanCommit(t, maxRetries)
  {
    match t
    case AttemptTxn(_, m, _, _, stage) => if stage.ok then [] else [Swallowed(m.job)]
    case SweepTxn(_, resets, _, _, _) => [Swept(resets.Values)]
    case RetryTxn(job, _, _, _, _) => [DlqRetried(job)]
    case SubmitTxn(req, target, p) =>
      [Submitted(req, p.job)] + if target.Some? then [ReportServed(req.key, target.value.report, p.job)] else []
    case ReportTxn(key, lookup) =>
      if lookup.report in reports && reports[lookup.report].jobId.Some?
      then [ReportServed(key, lookup.report, reports[lookup.report].jobId.value)] else []
    case FailTxn(event, _, terminal, _) => [FailureRecorded(event, terminal)]
    case _ => []
  }

  ghost function Committed(s: Sys, t: Txn): Sys
    requires CanCommit(t, s.maxRetries)
  {
    Sys(Apply(s.db, Writes(t, s.maxRetries)), CommitBroker(s.broker, t, s.maxRetries),
        s.log + CommitEntries(s.db.reports, t, s.maxRetries), s.maxRetries)
  }

  /******* Steps inside a transaction *******/

  ghost function Validated(jobs: map<JobId, Job>, req: Request, holder: JobId): SubmitStage
    requires holder in jobs
  {
    if Matches(jobs[holder], req) then Resolved(holder, None) else Conflicted
  }

  ghost function SubmitStep(db: Db, t: Txn, step: Step): Option<SubmitStage>
    requires t.SubmitTxn?
  {
    match (t.progress, step)
    case (Looking, ReadKey(_)) =>
      Some(if Falsy(t.req.key) || JobHolder(db.jobs, t.req.key.value).None? then Missed
           else Validated(db.jobs, t.req, JobHolder(db.jobs, t.req.key.value).value))
    case (Missed, InsertJob(_, job, now)) =>
      if job in db.jobs then None
      else if t.req.key.Some? && JobHolder(db.jobs, t.req.key.value).Some? then Some(Violated)
      else Some(Resolved(job, Some(now)))
    case (Violated, RereadKey(_)) =>
      if Falsy(t.req.key) then Some(Conflicted)
      else if JobHolder(db.jobs, t.req.key.value).None? then None
      else Some(Validated(db.jobs, t.req, JobHolder(db.jobs, t.req.key.value).value))
    case (Resolved(job, inserted), RecordEvent(_, event, eventAt)) =>
      if event in db.events then None else Some(Recorded(job, inserted, event, eventAt))
    case (Recorded(job, inserted, event, eventAt), AttachJob(_)) =>
      if t.target.None? then None
      else if t.target.value.created then Some(Attached(job, inserted, event, eventAt))
      else if t.target.value.report in db.reports && db.reports[t.target.value.report].jobId == Some(job)
      then Some(Attached(job, inserted, event, eventAt))
      else None
    case _ => None
  }

  ghost function ReportStep(db: Db, t: Txn, step: Step): Option<Txn>
    requires t.ReportTxn?
  {
    match (t.lookup, step)
    case (LookingUp, ReadReportKey(_)) =>
      Some(t.(lookup := if Falsy(t.key) || ReportHolder(db.reports, t.key.value).None? then NotThere
                        else Served(ReportHolder(db.reports, t.key.value).value)))
    case (NotThere, InsertReport(_, report)) =>
      if report in db.reports || Blank(report) then None
      else if t.key.Some? && ReportHolder(db.reports, t.key.value).Some? then Some(t.(lookup := ReportViolated))
      else Some(SubmitTxn(ReportRequest(report, t.key), Some(Target(report, true)), Looking))
    case (ReportViolated, RereadReportKey(_)) =>
      if Falsy(t.key) || ReportHolder(db.reports, t.key.value).None? then None
      else
        var report := ReportHolder(db.reports, t.key.value).value;
        Some(SubmitTxn(ReportRequest(report, t.key), Some(Target(report, false)), Looking))
    case _ => None
  }

  ghost function PublishStep(db: Db, t: Txn, step: Step): Option<Txn>
    requires t.PublishTxn? || t.FailTxn?
  {
    match (t, step)
    case (PublishTxn(event, claimed, _), FailDispatch(_, error, terminal)) =>
      if claimed.eventType == JOB_DISPATCH_REQUESTED then Some(FailTxn(event, error, terminal, RolledBack)) else None
    case (FailTxn(event, _, _, RolledBack), Reload(_)) =>
      if event in db.events then Some(t.(failing := Reloaded(db.events[event]))) else None
    case (FailTxn(event, _, _, Reloaded(loaded)), FlushFailure(_, now, delay)) =>
      if event in db.events && delay <= BackoffCeiling(loaded.retryCount + 1)
      then Some(t.(failing := Updating(loaded, db.events[event], now, delay))) else None
    case _ => None
  }

  /** The transaction a step inside it leads to; None when the step is not its next one. */
  ghost function Inner(db: Db, t: Txn, step: Step): Option<Txn> {
    match t
    case AttemptTxn(_, _, row, _, Begun) =>
      if step.RunExecutor? then Some(t.(stage := Executed(step.input, FoundReport(db.reports, row)))) else None
    case AttemptTxn(_, _, _, _, Executed(input, found)) =>
      if step.Finalize? then Some(t.(stage := Finalized(input, found, step.ok, step.finished))) else None
    case SubmitTxn(_, _, _) =>
      var p := SubmitStep(db, t, step);
      if p.Some? then Some(t.(progress := p.value)) else None
    case ReportTxn(_, _) => ReportStep(db, t, step)
    case PublishTxn(_, _, _) => PublishStep(db, t, step)
    case FailTxn(_, _, _, _) => PublishStep(db, t, step)
    case _ => None
  }

  /** The transaction a first step opens. */
  ghost function Opened(s: Sys, step: Step): Option<Txn> {
    match step
    case BeginAttempt(_, i, started) =>
      if !(i < |s.broker| && s.broker[i].phase.Ready?) then None
      else
        var m := s.broker[i];
        Some(if Runnable(s.db, m) then AttemptTxn(i, m, s.db.jobs[m.job], started, Begun)
             else SkipTxn(i, m, Lookup(s.db.jobs, m.job)))
    case BeginSweep(_, resets, stuckBefore, limit, now) =>
      if EnabledService(s.db, Sweep(resets, stuckBefore, limit, now))
      then Some(SweepTxn(map j | j in resets.Values :: s.db.jobs[j], resets, stuckBefore, limit, now)) else None
    case BeginRetry(_, job, event, now, eventAt) =>
      if EnabledService(s.db, RetryDead(job, event, now, eventAt))
      then Some(RetryTxn(job, s.db.jobs[job], event, now, eventAt)) else None
    case BeginSubmit(_, req) => Some(SubmitTxn(req, None, Looking))
    case BeginReport(_, key) => Some(ReportTxn(key, LookingUp))
    case Claim(_, event) =>
      if event in s.db.events && s.db.events[event].status.EventPending?
      then Some(PublishTxn(event, s.db.events[event], None)) else None
    case _ => None
  }

  ghost predicate Free(c: Conc, tid: Tid, locks: set<Lock>) {
    forall other :: other in c.txns && other != tid ==> Locks(c.txns[other]) !! locks
  }

  ghost function Local(c: Conc, step: Step): Option<Txn>
    requires !step.BrokerStep?
  {
    if step.tid in c.txns then Inner(c.sys.db, c.txns[step.tid], step) else Opened(c.sys, step)
  }

  /******* The machine *******/

  ghost predicate Sendable(c: Conc, tid: Tid) {
    && tid in c.txns && c.txns[tid].PublishTxn? && c.txns[tid].sent.None?
    && c.txns[tid].claimed.eventType == JOB_DISPATCH_REQUESTED && c.txns[tid].event in c.sys.db.events
    && Enabled(c.sys, Dispatch(c.txns[tid].event))
  }

  ghost predicate CanStep(c: Conc, step: Step) {
    match step
    case Commit(tid) => tid in c.txns && CanCommit(c.txns[tid], c.sys.maxRetries)
    case Raise(tid) => tid in c.txns && c.txns[tid].SubmitTxn? && c.txns[tid].progress.Conflicted?
    case Abort(tid) => tid in c.txns
    case SendDispatch(tid, _) => Sendable(c, tid)
    case BrokerStep(a) => (a.SendRetry? || a.Ack? || a.Redeliver? || a.CopyMessage?) && Enabled(c.sys, a)
    case _ => Local(c, step).Some? && Free(c, step.tid, Locks(Local(c, step).value))
  }

  ghost function StepTo(c: Conc, step: Step): Conc
    requires CanStep(c, step)
  {
    match step
    case Commit(tid) => Conc(Committed(c.sys, c.txns[tid]), c.txns - {tid})
    case Raise(tid) => Conc(c.sys.(log := c.sys.log + if c.txns[tid].target.None? then [Refused(c.txns[tid].req)] else []), c.txns - {tid})
    case Abort(tid) => c.(txns := c.txns - {tid})
    case SendDispatch(tid, now) =>
      Conc(Next(c.sys, Dispatch(c.txns[tid].event)), c.txns[tid := c.txns[tid].(sent := Some(now))])
    case BrokerStep(a) => c.(sys := Next(c.sys, a))
    case _ => c.(txns := c.txns[step.tid := Local(c, step).value])
  }

  ghost predicate Moves(c: Conc, step: Step, d: Conc) {
    CanStep(c, step) && d == StepTo(c, step)
  }

  ghost predicate ConcRun(c: Conc, steps: seq<Step>, d: Conc) {
    Chain(Moves, c, steps, d)
  }

  lemma ConcRunOfNone(c: Conc, d: Conc)
    ensures ConcRun(c, [], d) <==> c == d
  {
    ChainOfNone(Moves, c, d);
  }

  lemma ConcRunHead(c: Conc, steps: seq<Step>, d: Conc)
    requires steps != [] && ConcRun(c, steps, d)
    ensures CanStep(c, steps[0]) && ConcRun(StepTo(c, steps[0]), steps[1..], d)
  {
    var n := ChainHead(Moves, c, steps, d);
  }
}
