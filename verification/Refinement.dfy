/** Every interleaving of in-flight transactions, projected to the committed rows, the broker and
    the history, is a run of the atomic machine. */
module Refinement {
  import opened Rows
  import opened Pipeline
  import opened Outbox
  import opened Submission
  import opened Protocol
  import opened History
  import opened Safety
  import opened Theorems
  import opened Transactions

  /******* What a transaction may rely on *******/

  ghost predicate JobFree(db: Db, key: Option<string>) {
    key.Some? ==> JobHolder(db.jobs, key.value).None?
  }

  ghost predicate ReportFree(db: Db, key: Option<string>) {
    key.Some? ==> ReportHolder(db.reports, key.value).None?
  }

  ghost predicate Settled(db: Db, req: Request, job: JobId, inserted: Option<Time>) {
    if inserted.Some? then job !in db.jobs && JobFree(db, req.key)
    else !Falsy(req.key) && JobHolds(db.jobs, req.key.value, job) && Matches(db.jobs[job], req)
  }

  ghost predicate TargetOk(db: Db, req: Request, target: Target) {
    && req == ReportRequest(target.report, req.key)
    && if target.created then target.report !in db.reports && !Blank(target.report) && ReportFree(db, req.key)
       else !Falsy(req.key) && ReportHolds(db.reports, req.key.value, target.report)
  }

  ghost predicate SubmitOk(db: Db, req: Request, target: Option<Target>, p: SubmitStage) {
    && (target.Some? ==> TargetOk(db, req, target.value))
    && match p
       case Looking => true
       case Missed => true
       case Violated => req.key.Some? && JobHolder(db.jobs, req.key.value).Some?
       case Conflicted => !Accepted(Resolve(db.jobs, req))
       case Resolved(job, inserted) => Settled(db, req, job, inserted)
       case Recorded(job, inserted, event, _) => Settled(db, req, job, inserted) && event !in db.events
       case Attached(job, inserted, event, _) =>
         && Settled(db, req, job, inserted) && event !in db.events && target.Some?
         && (!target.value.created ==> db.reports[target.value.report].jobId == Some(job))
  }

  ghost predicate ReportTxnOk(db: Db, key: Option<string>, lookup: ReportStage) {
    match lookup
    case ReportViolated => key.Some? && ReportHolder(db.reports, key.value).Some?
    case Served(report) => !Falsy(key) && ReportHolds(db.reports, key.value, report)
    case _ => true
  }

  ghost predicate LoadedOk(db: Db, event: EventId, loaded: Event) {
    event in db.events && SameEventIdentity(loaded, db.events[event]) && loaded.retryCount <= MAX_PUBLISH_RETRIES
  }

  ghost predicate FailOk(db: Db, event: EventId, failing: FailStage) {
    && event in db.events && db.events[event].eventType == JOB_DISPATCH_REQUESTED
    && match failing
       case RolledBack => true
       case Reloaded(loaded) => LoadedOk(db, event, loaded)
       case Updating(loaded, current, _, delay) =>
         LoadedOk(db, event, loaded) && db.events[event] == current && delay <= BackoffCeiling(loaded.retryCount + 1)
  }

  ghost predicate Held(s: Sys, msg: nat, m: Msg) {
    msg < |s.broker| && s.broker[msg] == m && m.phase.Ready?
  }

  ghost predicate SweepOk(db: Db, rows: map<JobId, Job>, resets: map<EventId, JobId>, stuckBefore: Time, limit: nat) {
    && rows.Keys == resets.Values && |resets| <= limit && Injective(resets) && resets.Keys !! db.events.Keys
    && forall j :: j in rows ==> Lookup(db.jobs, j) == Some(rows[j]) && Stuck(rows[j], stuckBefore)
  }

  /** The captured rows of a transaction are still the committed ones. */
  ghost predicate TxnOk(s: Sys, t: Txn) {
    match t
    case AttemptTxn(msg, m, row, _, stage) =>
      && Held(s, msg, m) && Lookup(s.db.jobs, m.job) == Some(row) && !Terminal(row.status)
      && (!stage.Begun? ==> stage.found == FoundReport(s.db.reports, row))
    case SkipTxn(msg, m, seen) =>
      Held(s, msg, m) && seen == Lookup(s.db.jobs, m.job) && (seen.Some? ==> Terminal(seen.value.status))
    case SweepTxn(rows, resets, stuckBefore, limit, _) => SweepOk(s.db, rows, resets, stuckBefore, limit)
    case RetryTxn(job, row, event, _, _) =>
      Lookup(s.db.jobs, job) == Some(row) && row.status.JobDead? && event !in s.db.events
    case SubmitTxn(req, target, progress) => SubmitOk(s.db, req, target, progress)
    case ReportTxn(key, lookup) => ReportTxnOk(s.db, key, lookup)
    case PublishTxn(event, claimed, sent) =>
      && Lookup(s.db.events, event) == Some(claimed) && claimed.status.EventPending?
      && (sent.Some? ==> claimed.eventType == JOB_DISPATCH_REQUESTED && Dispatched(event, claimed.jobId) in s.log)
    case FailTxn(event, _, _, failing) => FailOk(s.db, event, failing)
  }

  ghost predicate TxnsOk(s: Sys, txns: map<Tid, Txn>) {
    && (forall tid :: tid in txns ==> TxnOk(s, txns[tid]))
    && (forall a, b :: a in txns && b in txns && a != b ==> Locks(txns[a]) !! Locks(txns[b]))
  }

  ghost predicate ConcInv(c: Conc) {
    Inv(c.sys) && TxnsOk(c.sys, c.txns)
  }

  /******* Steps inside a transaction establish what it relies on *******/

  lemma SubmitStepOk(db: Db, t: Txn, step: Step)
    requires t.SubmitTxn? && SubmitOk(db, t.req, t.target, t.progress) && KeysOk(db)
    requires SubmitStep(db, t, step).Some?
    ensures SubmitOk(db, t.req, t.target, SubmitStep(db, t, step).value)
  {
  }

  lemma ReportStepOk(s: Sys, t: Txn, step: Step)
    requires t.ReportTxn? && ReportTxnOk(s.db, t.key, t.lookup) && ReportStep(s.db, t, step).Some?
    ensures TxnOk(s, ReportStep(s.db, t, step).value)
  {
  }

  lemma PublisherStepOk(s: Sys, t: Txn, step: Step)
    requires NamesOk(s) && TxnOk(s, t) && (t.PublishTxn? || t.FailTxn?) && PublishStep(s.db, t, step).Some?
    ensures TxnOk(s, PublishStep(s.db, t, step).value)
  {
  }

  lemma InnerOk(s: Sys, t: Txn, step: Step)
    requires NamesOk(s) && KeysOk(s.db) && TxnOk(s, t) && Inner(s.db, t, step).Some?
    ensures TxnOk(s, Inner(s.db, t, step).value)
  {
    match t
    case SubmitTxn(_, _, _) => SubmitStepOk(s.db, t, step);
    case ReportTxn(_, _) => ReportStepOk(s, t, step);
    case PublishTxn(_, _, _) => PublisherStepOk(s, t, step);
    case FailTxn(_, _, _, _) => PublisherStepOk(s, t, step);
    case _ =>
  }

  lemma OpenedOk(s: Sys, step: Step)
    requires Opened(s, step).Some?
    ensures TxnOk(s, Opened(s, step).value)
  {
  }

  /******* What others commit does not disturb *******/

  /** Between two states, nothing under `locks` changed and nothing committed was undone. */
  ghost predicate Undisturbed(s: Sys, t: Sys, locks: set<Lock>) {
    && Extends(s.db, t.db) && (forall e :: e in s.log ==> e in t.log)
    && (forall j :: JobRow(j) in locks ==> Lookup(t.db.jobs, j) == Lookup(s.db.jobs, j))
    && (forall r :: ReportRow(r) in locks ==> Lookup(t.db.reports, r) == Lookup(s.db.reports, r))
    && (forall e :: EventRow(e) in locks ==> Lookup(t.db.events, e) == Lookup(s.db.events, e))
    && (forall k :: JobKey(k) in locks && JobFree(s.db, Some(k)) ==> JobFree(t.db, Some(k)))
    && (forall k :: ReportKey(k) in locks && ReportFree(s.db, Some(k)) ==> ReportFree(t.db, Some(k)))
    && (forall i: nat :: Delivery(i) in locks && i < |s.broker| && s.broker[i].phase.Ready? ==>
          i < |t.broker| && t.broker[i] == s.broker[i])
  }

  lemma ConflictStays(db: Db, later: Db, req: Request)
    requires !Accepted(Resolve(db.jobs, req)) && Extends(db, later) && KeysOk(later)
    ensures !Accepted(Resolve(later.jobs, req))
  {
    assert JobHolds(later.jobs, req.key.value, JobHolder(db.jobs, req.key.value).value);
  }

  lemma HolderStays(db: Db, later: Db, key: string)
    requires Extends(db, later)
    ensures JobHolder(db.jobs, key).Some? ==> JobHolder(later.jobs, key).Some?
    ensures ReportHolder(db.reports, key).Some? ==> ReportHolder(later.reports, key).Some?
  {
    if JobHolder(db.jobs, key).Some? {
      assert JobHolds(later.jobs, key, JobHolder(db.jobs, key).value);
    }
    if ReportHolder(db.reports, key).Some? {
      assert ReportHolds(later.reports, key, ReportHolder(db.reports, key).value);
    }
  }

  lemma SubmitStable(s: Sys, u: Sys, t: Txn)
    requires t.SubmitTxn? && TxnOk(s, t) && Undisturbed(s, u, Locks(t)) && KeysOk(u.db)
    ensures TxnOk(u, t)
  {
    if t.req.key.Some? {
      HolderStays(s.db, u.db, t.req.key.value);
      assert t.target.Some? && t.target.value.created ==> ReportKey(t.req.key.value) in Locks(t);
    }
    if t.progress.Conflicted? {
      ConflictStays(s.db, u.db, t.req);
    }
  }

  lemma Stable(s: Sys, u: Sys, t: Txn)
    requires TxnOk(s, t) && Undisturbed(s, u, Locks(t)) && KeysOk(u.db)
    ensures TxnOk(u, t)
  {
    match t
    case SubmitTxn(_, _, _) => SubmitStable(s, u, t);
    case ReportTxn(key, _) =>
      if key.Some? {
        HolderStays(s.db, u.db, key.value);
      }
    case AttemptTxn(msg, m, row, _, _) => assert Delivery(msg) in Locks(t) && JobRow(m.job) in Locks(t);
    case SkipTxn(msg, m, _) => assert Delivery(msg) in Locks(t) && JobRow(m.job) in Locks(t);
    case SweepTxn(rows, resets, _, _, _) =>
      assert forall j :: j in rows ==> JobRow(j) in Locks(t);
      assert forall e :: e in resets ==> EventRow(e) in Locks(t);
    case RetryTxn(job, _, event, _, _) => assert JobRow(job) in Locks(t) && EventRow(event) in Locks(t);
    case PublishTxn(event, _, _) => assert EventRow(event) in Locks(t);
    case FailTxn(event, _, _, failing) => assert failing.Updating? ==> EventRow(event) in Locks(t);
  }

  /******* A commit is one step of the atomic machine *******/

  function CommitAction(t: Txn, maxRetries: nat): Action
    requires CanCommit(t, maxRetries)
  {
    match t
    case AttemptTxn(msg, _, _, _, _) => RunAttempt(msg, AttemptOf(t))
    case SkipTxn(msg, _, _) => SkipAttempt(msg)
    case SweepTxn(_, resets, stuckBefore, limit, now) => Sweep(resets, stuckBefore, limit, now)
    case RetryTxn(job, _, event, now, eventAt) => RetryDead(job, event, now, eventAt)
    case SubmitTxn(req, target, p) =>
      var now := if p.inserted.Some? then p.inserted.value else 0;
      if target.None? then Submit(req, p.job, p.event, now, p.eventAt)
      else CreateReport(req.key, target.value.report, p.job, p.event, now, p.eventAt)
    case ReportTxn(key, lookup) => ServeReport(key, lookup.report)
    case PublishTxn(event, _, sent) => if sent.Some? then MarkPublished(event, sent.value) else RejectEvent(event)
    case FailTxn(event, error, terminal, f) => RecordFailure(event, f.loaded, error, terminal, f.now, f.delay)
  }

  ghost predicate CommitsAs(s: Sys, t: Txn, a: Action)
    requires CanCommit(t, s.maxRetries)
  {
    Enabled(s, a) && Next(s, a) == Committed(s, t)
  }

  lemma AttemptCommits(s: Sys, t: Txn)
    requires TxnOk(s, t) && t.AttemptTxn? && CanCommit(t, s.maxRetries)
    ensures CommitsAs(s, t, CommitAction(t, s.maxRetries))
  {
  }

  lemma SettledResolves(db: Db, req: Request, job: JobId, inserted: Option<Time>)
    requires KeysOk(db) && Settled(db, req, job, inserted)
    ensures Resolve(db.jobs, req) == if inserted.Some? then Fresh else Reuse(job)
  {
  }

  lemma TargetResolves(db: Db, req: Request, target: Target)
    requires KeysOk(db) && TargetOk(db, req, target)
    ensures ResolveReport(db.reports, req.key) == if target.created then FreshReport else ReuseReport(target.report)
  {
  }

  lemma SubmitCommits(s: Sys, t: Txn)
    requires KeysOk(s.db) && TxnOk(s, t) && t.SubmitTxn? && t.target.None? && CanCommit(t, s.maxRetries)
    ensures CommitsAs(s, t, CommitAction(t, s.maxRetries))
  {
    SettledResolves(s.db, t.req, t.progress.job, t.progress.inserted);
  }

  lemma ReportCommits(s: Sys, t: Txn)
    requires KeysOk(s.db) && TxnOk(s, t) && t.SubmitTxn? && t.target.Some? && CanCommit(t, s.maxRetries)
    ensures CommitsAs(s, t, CommitAction(t, s.maxRetries))
  {
    SettledResolves(s.db, t.req, t.progress.job, t.progress.inserted);
    TargetResolves(s.db, t.req, t.target.value);
  }

  lemma SweepCaptured(jobs: map<JobId, Job>, rows: map<JobId, Job>, resets: map<EventId, JobId>, now: Time)
    requires rows.Keys == resets.Values && forall j :: j in rows ==> Lookup(jobs, j) == Some(rows[j])
    ensures forall e :: e in resets ==> resets[e] in rows && resets[e] in jobs
    ensures (map j | j in rows :: ResetJob(rows[j], now)) == SweepWrites(jobs, resets, now).jobs
  {
    forall e | e in resets ensures resets[e] in rows {
      assert resets[e] in resets.Values;
    }
  }

  lemma SweepEnabled(
    db: Db, rows: map<JobId, Job>, resets: map<EventId, JobId>, stuckBefore: Time, limit: nat, now: Time)
    requires SweepOk(db, rows, resets, stuckBefore, limit)
    ensures EnabledService(db, Sweep(resets, stuckBefore, limit, now))
  {
    SweepCaptured(db.jobs, rows, resets, now);
  }

  lemma SweepCommits(s: Sys, t: Txn)
    requires TxnOk(s, t) && t.SweepTxn?
    ensures CommitsAs(s, t, CommitAction(t, s.maxRetries))
  {
    SweepEnabled(s.db, t.rows, t.resets, t.stuckBefore, t.limit, t.now);
    SweepCaptured(s.db.jobs, t.rows, t.resets, t.now);
    assert Writes(t, s.maxRetries) == WritesOf(s, CommitAction(t, s.maxRetries));
  }

  lemma OtherCommits(s: Sys, t: Txn)
    requires TxnOk(s, t) && CanCommit(t, s.maxRetries) && !t.AttemptTxn? && !t.SubmitTxn? && !t.SweepTxn?
    ensures CommitsAs(s, t, CommitAction(t, s.maxRetries))
  {
  }

  lemma CommitRefines(s: Sys, t: Txn)
    requires KeysOk(s.db) && TxnOk(s, t) && CanCommit(t, s.maxRetries)
    ensures CommitsAs(s, t, CommitAction(t, s.maxRetries))
  {
    match t
    case AttemptTxn(_, _, _, _, _) => AttemptCommits(s, t);
    case SubmitTxn(_, target, _) => if target.None? { SubmitCommits(s, t); } else { ReportCommits(s, t); }
    case SweepTxn(_, _, _, _, _) => SweepCommits(s, t);
    case _ => OtherCommits(s, t);
  }

  /******* A commit changes only what its transaction has locked *******/

  ghost predicate WritesLocked(db: Db, w: Db, locks: set<Lock>) {
    && (forall j :: j in w.jobs ==>
          && JobRow(j) in locks
          && if j in db.jobs then w.jobs[j].key == db.jobs[j].key else KeyLock(w.jobs[j].key) <= locks)
    && (forall r :: r in w.reports ==>
          && ReportRow(r) in locks
          && if r in db.reports then w.reports[r].key == db.reports[r].key else ReportKeyLock(w.reports[r].key) <= locks)
    && (forall e :: e in w.events ==> EventRow(e) in locks)
  }

  ghost predicate BrokerLocked(broker: seq<Msg>, later: seq<Msg>, locks: set<Lock>) {
    && |later| == |broker|
    && forall i: nat :: i < |broker| && Delivery(i) !in locks ==> later[i] == broker[i]
  }

  lemma TxnWritesLocked(s: Sys, t: Txn)
    requires TxnOk(s, t) && CanCommit(t, s.maxRetries)
    ensures WritesLocked(s.db, Writes(t, s.maxRetries), Locks(t))
    ensures BrokerLocked(s.broker, CommitBroker(s.broker, t, s.maxRetries), Locks(t))
  {
    if t.AttemptTxn? {
      AttemptReportRow(t.m.job, t.row, t.stage.found, t.m.retries, s.maxRetries, AttemptOf(t));
    }
  }

  lemma LockedWritesUndisturb(s: Sys, u: Sys, w: Db, locks: set<Lock>, others: set<Lock>)
    requires WritesLocked(s.db, w, locks) && BrokerLocked(s.broker, u.broker, locks) && locks !! others
    requires u.db == Apply(s.db, w) && Extends(s.db, u.db) && s.log <= u.log
    ensures Undisturbed(s, u, others)
  {
    forall k | JobKey(k) in others && JobFree(s.db, Some(k)) ensures JobFree(u.db, Some(k)) {
      forall id ensures !JobHolds(u.db.jobs, k, id) {
        assert !JobHolds(s.db.jobs, k, id);
      }
    }
    forall k | ReportKey(k) in others && ReportFree(s.db, Some(k)) ensures ReportFree(u.db, Some(k)) {
      forall id ensures !ReportHolds(u.db.reports, k, id) {
        assert !ReportHolds(s.db.reports, k, id);
      }
    }
  }

  /******* Every step refines *******/

  /** The atomic step a concurrent step is; None when no committed row, message or history entry changes. */
  ghost function AtomicAction(c: Conc, step: Step): Option<Action>
    requires CanStep(c, step)
  {
    match step
    case Commit(tid) => Some(CommitAction(c.txns[tid], c.sys.maxRetries))
    case Raise(tid) => if c.txns[tid].target.None? then Some(Refuse(c.txns[tid].req)) else None
    case SendDispatch(tid, _) => Some(Dispatch(c.txns[tid].event))
    case BrokerStep(a) => Some(a)
    case _ => None
  }

  ghost predicate Refines(c: Conc, step: Step)
    requires CanStep(c, step)
  {
    var a := AtomicAction(c, step);
    if a.Some? then Enabled(c.sys, a.value) && StepTo(c, step).sys == Next(c.sys, a.value)
    else StepTo(c, step).sys == c.sys
  }

  lemma RefuseStep(s: Sys, t: Txn)
    requires TxnOk(s, t) && t.SubmitTxn? && t.progress.Conflicted?
    ensures Enabled(s, Refuse(t.req)) && Next(s, Refuse(t.req)) == s.(log := s.log + [Refused(t.req)])
  {
    assert Apply(s.db, NO_ROWS) == s.db;
  }

  lemma RaiseRefines(c: Conc, tid: Tid)
    requires TxnsOk(c.sys, c.txns) && CanStep(c, Raise(tid))
    ensures Refines(c, Raise(tid))
  {
    RefuseStep(c.sys, c.txns[tid]);
  }

  lemma CommitStepRefines(c: Conc, tid: Tid)
    requires KeysOk(c.sys.db) && TxnsOk(c.sys, c.txns) && CanStep(c, Commit(tid))
    ensures Refines(c, Commit(tid))
  {
    CommitRefines(c.sys, c.txns[tid]);
  }

  lemma StepRefines(c: Conc, step: Step)
    requires KeysOk(c.sys.db) && TxnsOk(c.sys, c.txns) && CanStep(c, step)
    ensures Refines(c, step)
  {
    if step.Commit? {
      CommitStepRefines(c, step.tid);
    } else if step.Raise? {
      RaiseRefines(c, step.tid);
    }
  }

  /******* Every step keeps the captured rows current *******/

  lemma CommitKeepsTxns(c: Conc, tid: Tid)
    requires HistoryOk(c.sys.db) && KeysOk(c.sys.db) && TxnsOk(c.sys, c.txns)
    requires tid in c.txns && CanCommit(c.txns[tid], c.sys.maxRetries) && KeysOk(Committed(c.sys, c.txns[tid]).db)
    ensures TxnsOk(Committed(c.sys, c.txns[tid]), c.txns - {tid})
  {
    var d, t := Committed(c.sys, c.txns[tid]), c.txns[tid];
    CommitRefines(c.sys, t);
    StepKeepsHistory(c.sys, CommitAction(t, c.sys.maxRetries));
    TxnWritesLocked(c.sys, t);
    forall other | other in c.txns && other != tid ensures TxnOk(d, c.txns[other]) {
      LockedWritesUndisturb(c.sys, d, Writes(t, c.sys.maxRetries), Locks(t), Locks(c.txns[other]));
      Stable(c.sys, d, c.txns[other]);
    }
  }

  lemma LocalKeepsTxns(s: Sys, txns: map<Tid, Txn>, tid: Tid, t: Txn)
    requires TxnsOk(s, txns) && TxnOk(s, t)
    requires forall other :: other in txns && other != tid ==> Locks(txns[other]) !! Locks(t)
    ensures TxnsOk(s, txns[tid := t])
  {
  }

  lemma LocalOk(c: Conc, step: Step)
    requires NamesOk(c.sys) && KeysOk(c.sys.db) && TxnsOk(c.sys, c.txns) && !step.BrokerStep? && Local(c, step).Some?
    ensures TxnOk(c.sys, Local(c, step).value)
  {
    if step.tid in c.txns {
      InnerOk(c.sys, c.txns[step.tid], step);
    } else {
      OpenedOk(c.sys, step);
    }
  }

  predicate BrokerOnly(a: Action) {
    a.Dispatch? || a.SendRetry? || a.Ack? || a.Redeliver? || a.CopyMessage? || a.Refuse?
  }

  lemma SameRowsUndisturb(s: Sys, u: Sys, locks: set<Lock>)
    requires u.db == s.db && (forall e :: e in s.log ==> e in u.log) && |s.broker| <= |u.broker|
    requires forall i: nat :: i < |s.broker| && s.broker[i].phase.Ready? ==> u.broker[i] == s.broker[i]
    ensures Undisturbed(s, u, locks)
  {
  }

  /** A step that touches only the broker and the history disturbs no transaction. */
  lemma BrokerUndisturbs(s: Sys, a: Action, locks: set<Lock>)
    requires Enabled(s, a) && BrokerOnly(a)
    ensures Next(s, a).db == s.db && Undisturbed(s, Next(s, a), locks)
  {
    assert Apply(s.db, NO_ROWS) == s.db;
    SameRowsUndisturb(s, Next(s, a), locks);
  }

  lemma BrokerKeepsTxns(s: Sys, a: Action, txns: map<Tid, Txn>)
    requires KeysOk(s.db) && TxnsOk(s, txns) && Enabled(s, a) && BrokerOnly(a)
    ensures TxnsOk(Next(s, a), txns)
  {
    forall tid | tid in txns ensures TxnOk(Next(s, a), txns[tid]) {
      BrokerUndisturbs(s, a, Locks(txns[tid]));
      Stable(s, Next(s, a), txns[tid]);
    }
  }

  lemma SentOk(s: Sys, t: Txn, now: Time)
    requires TxnOk(s, t) && t.PublishTxn? && t.claimed.eventType == JOB_DISPATCH_REQUESTED
      && Enabled(s, Dispatch(t.event))
    ensures TxnOk(Next(s, Dispatch(t.event)), t.(sent := Some(now)))
  {
    var u := Next(s, Dispatch(t.event));
    assert u.log[|s.log|] == Dispatched(t.event, t.claimed.jobId);
    BrokerUndisturbs(s, Dispatch(t.event), {});
  }

  lemma SendKeepsTxns(c: Conc, tid: Tid, now: Time)
    requires KeysOk(c.sys.db) && TxnsOk(c.sys, c.txns) && Sendable(c, tid)
    ensures TxnsOk(Next(c.sys, Dispatch(c.txns[tid].event)), c.txns[tid := c.txns[tid].(sent := Some(now))])
  {
    var u, t := Next(c.sys, Dispatch(c.txns[tid].event)), c.txns[tid].(sent := Some(now));
    SentOk(c.sys, c.txns[tid], now);
    BrokerKeepsTxns(c.sys, Dispatch(c.txns[tid].event), c.txns);
    LocalKeepsTxns(u, c.txns, tid, t);
  }

  lemma RemovalKeepsTxns(s: Sys, txns: map<Tid, Txn>, tid: Tid)
    requires TxnsOk(s, txns)
    ensures TxnsOk(s, txns - {tid})
  {
  }

  lemma RaiseKeepsTxns(c: Conc, tid: Tid)
    requires KeysOk(c.sys.db) && TxnsOk(c.sys, c.txns) && CanStep(c, Raise(tid))
    ensures TxnsOk(StepTo(c, Raise(tid)).sys, c.txns - {tid})
  {
    RaiseRefines(c, tid);
    RemovalKeepsTxns(c.sys, c.txns, tid);
    if c.txns[tid].target.None? {
      BrokerKeepsTxns(c.sys, Refuse(c.txns[tid].req), c.txns - {tid});
    } else {
      assert StepTo(c, Raise(tid)).sys == c.sys;
    }
  }

  ghost predicate Keeps(c: Conc, step: Step)
    requires CanStep(c, step)
  {
    TxnsOk(StepTo(c, step).sys, StepTo(c, step).txns)
  }

  lemma LocalStepKeepsTxns(c: Conc, step: Step)
    requires NamesOk(c.sys) && KeysOk(c.sys.db) && TxnsOk(c.sys, c.txns) && CanStep(c, step)
    requires !step.Commit? && !step.Raise? && !step.Abort? && !step.SendDispatch? && !step.BrokerStep?
    ensures Keeps(c, step)
  {
    LocalOk(c, step);
    LocalKeepsTxns(c.sys, c.txns, step.tid, Local(c, step).value);
  }

  lemma EndKeepsTxns(c: Conc, step: Step)
    requires HistoryOk(c.sys.db) && KeysOk(c.sys.db) && TxnsOk(c.sys, c.txns) && CanStep(c, step)
    requires KeysOk(StepTo(c, step).sys.db) && (step.Commit? || step.Raise? || step.Abort?)
    ensures Keeps(c, step)
  {
    match step
    case Commit(tid) => CommitKeepsTxns(c, tid);
    case Raise(tid) => RaiseKeepsTxns(c, tid);
    case Abort(tid) => RemovalKeepsTxns(c.sys, c.txns, tid);
  }

  lemma MessageKeepsTxns(c: Conc, step: Step)
    requires KeysOk(c.sys.db) && TxnsOk(c.sys, c.txns) && CanStep(c, step) && (step.SendDispatch? || step.BrokerStep?)
    ensures Keeps(c, step)
  {
    match step
    case SendDispatch(tid, now) => SendKeepsTxns(c, tid, now);
    case BrokerStep(a) => BrokerKeepsTxns(c.sys, a, c.txns);
  }

  lemma StepKeepsTxns(c: Conc, step: Step)
    requires HistoryOk(c.sys.db) && NamesOk(c.sys) && KeysOk(c.sys.db) && TxnsOk(c.sys, c.txns) && CanStep(c, step)
    requires KeysOk(StepTo(c, step).sys.db)
    ensures Keeps(c, step)
  {
    if step.Commit? || step.Raise? || step.Abort? {
      EndKeepsTxns(c, step);
    } else if step.SendDispatch? || step.BrokerStep? {
      MessageKeepsTxns(c, step);
    } else {
      LocalStepKeepsTxns(c, step);
    }
  }

  lemma StepKeepsConcInv(c: Conc, step: Step)
    requires ConcInv(c) && CanStep(c, step)
    ensures ConcInv(StepTo(c, step))
  {
    StepRefines(c, step);
    if AtomicAction(c, step).Some? {
      StepKeepsInv(c.sys, AtomicAction(c, step).value);
    }
    StepKeepsTxns(c, step);
  }

  /** The run of the atomic machine a concurrent run projects to. */
  ghost function Projection(c: Conc, steps: seq<Step>, d: Conc): seq<Action>
    requires ConcRun(c, steps, d)
    decreases |steps|
  {
    if steps == [] then []
    else
      ConcRunHead(c, steps, d);
      var rest := Projection(StepTo(c, steps[0]), steps[1..], d);
      if AtomicAction(c, steps[0]).Some? then [AtomicAction(c, steps[0]).value] + rest else rest
  }

  /** Refinement: whatever the interleaving, the committed rows, messages and history evolve as in a
      run of the atomic machine, and every captured row stays the committed one. */
  lemma {:induction false} RunRefines(c: Conc, steps: seq<Step>, d: Conc)
    requires ConcInv(c) && ConcRun(c, steps, d)
    ensures Run(c.sys, Projection(c, steps, d), d.sys) && ConcInv(d)
    decreases |steps|
  {
    if steps == [] {
      ConcRunOfNone(c, d);
      RunOfNone(c.sys, d.sys);
    } else {
      ConcRunHead(c, steps, d);
      var n := StepTo(c, steps[0]);
      StepRefines(c, steps[0]);
      StepKeepsConcInv(c, steps[0]);
      RunRefines(n, steps[1..], d);
      var rest, a := Projection(n, steps[1..], d), AtomicAction(c, steps[0]);
      if a.Some? {
        RunCons(c.sys, a.value, n.sys, rest, d.sys);
      }
    }
  }
}
