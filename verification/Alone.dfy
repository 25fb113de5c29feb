/** The other direction of the refinement: from a state with nothing in flight, one transaction on its own performs any
    atomic step the code can perform, so the concurrent machine loses no behaviour. */
module Alone {
  import opened Rows
  import opened Pipeline
  import opened Outbox
  import opened Submission
  import opened Protocol
  import opened Chains
  import opened History
  import opened Safety
  import opened Theorems
  import opened Effects
  import opened Transactions
  import opened Refinement

  /** Some interleaving leads from `s` with nothing in flight to `t` with nothing in flight. */
  ghost predicate Leads(s: Sys, t: Sys) {
    exists steps :: ConcRun(Conc(s, map[]), steps, Conc(t, map[]))
  }

  lemma Led(s: Sys, steps: seq<Step>, t: Sys)
    requires ConcRun(Conc(s, map[]), steps, Conc(t, map[]))
    ensures Leads(s, t)
  {
  }

  /******* One transaction *******/

  /** Where a transaction runs: what the machine started from, the others meanwhile in flight, which hold no lock, and
      its own id. */
  datatype Place = Place(start: Conc, rest: map<Tid, Txn>, tid: Tid)

  ghost function Solo(s: Sys): Place {
    Place(Conc(s, map[]), map[], 0)
  }

  ghost predicate PlaceOk(p: Place) {
    p.tid !in p.rest && forall other :: other in p.rest ==> Locks(p.rest[other]) == {}
  }

  /** The steps lead to `s` with the transaction not begun, or ended. */
  ghost predicate Rests(p: Place, s: Sys, steps: seq<Step>) {
    ConcRun(p.start, steps, Conc(s, p.rest)) && PlaceOk(p)
  }

  /** The steps open the transaction and bring it to `t`. */
  ghost predicate Opens(p: Place, s: Sys, steps: seq<Step>, t: Txn) {
    ConcRun(p.start, steps, Conc(s, p.rest[p.tid := t])) && TxnOk(s, t) && PlaceOk(p)
  }

  lemma Quiet(s: Sys)
    ensures Rests(Solo(s), s, [])
  {
    ConcRunOfNone(Conc(s, map[]), Conc(s, map[]));
  }

  lemma Opening(p: Place, s: Sys, steps: seq<Step>, step: Step)
    requires Rests(p, s, steps) && !step.BrokerStep? && step.tid == p.tid && Opened(s, step).Some?
    ensures Opens(p, s, steps + [step], Opened(s, step).value)
  {
    OpenedOk(s, step);
    ChainSnoc(Moves, p.start, steps, Conc(s, p.rest), step, Conc(s, p.rest[p.tid := Opened(s, step).value]));
  }

  lemma InnerMoves(p: Place, s: Sys, t: Txn, step: Step)
    requires PlaceOk(p) && !step.BrokerStep? && step.tid == p.tid && Inner(s.db, t, step).Some?
    ensures Moves(Conc(s, p.rest[p.tid := t]), step, Conc(s, p.rest[p.tid := Inner(s.db, t, step).value]))
  {
    var u := Inner(s.db, t, step).value;
    assert p.rest[p.tid := t][p.tid := u] == p.rest[p.tid := u];
  }

  lemma Continuing(p: Place, s: Sys, steps: seq<Step>, t: Txn, step: Step)
    requires NamesOk(s) && KeysOk(s.db) && Opens(p, s, steps, t)
    requires !step.BrokerStep? && step.tid == p.tid && Inner(s.db, t, step).Some?
    ensures Opens(p, s, steps + [step], Inner(s.db, t, step).value)
  {
    var u := Inner(s.db, t, step).value;
    InnerOk(s, t, step);
    InnerMoves(p, s, t, step);
    ChainSnoc(Moves, p.start, steps, Conc(s, p.rest[p.tid := t]), step, Conc(s, p.rest[p.tid := u]));
  }

  /** The transaction's last step, after which it is no longer in flight. */
  lemma Ending(p: Place, s: Sys, steps: seq<Step>, t: Txn, step: Step, later: Sys)
    requires ConcRun(p.start, steps, Conc(s, p.rest[p.tid := t])) && PlaceOk(p)
    requires CanStep(Conc(s, p.rest[p.tid := t]), step)
    requires StepTo(Conc(s, p.rest[p.tid := t]), step) == Conc(later, p.rest[p.tid := t] - {p.tid})
    ensures Rests(p, later, steps + [step])
  {
    assert p.rest[p.tid := t] - {p.tid} == p.rest;
    ChainSnoc(Moves, p.start, steps, Conc(s, p.rest[p.tid := t]), step, Conc(later, p.rest));
  }

  lemma CommitEnds(p: Place, s: Sys, steps: seq<Step>, t: Txn)
    requires Opens(p, s, steps, t) && CanCommit(t, s.maxRetries)
    ensures Rests(p, Committed(s, t), steps + [Commit(p.tid)])
  {
    Ending(p, s, steps, t, Commit(p.tid), Committed(s, t));
  }

  lemma Committing(p: Place, s: Sys, steps: seq<Step>, t: Txn)
    requires KeysOk(s.db) && Opens(p, s, steps, t) && CanCommit(t, s.maxRetries)
    ensures Enabled(s, CommitAction(t, s.maxRetries))
    ensures Rests(p, Next(s, CommitAction(t, s.maxRetries)), steps + [Commit(p.tid)])
  {
    CommitRefines(s, t);
    CommitEnds(p, s, steps, t);
  }

  lemma Refusing(p: Place, s: Sys, steps: seq<Step>, t: Txn)
    requires Opens(p, s, steps, t) && t.SubmitTxn? && t.target.None? && t.progress.Conflicted?
    ensures Enabled(s, Refuse(t.req)) && Rests(p, Next(s, Refuse(t.req)), steps + [Raise(p.tid)])
  {
    RefuseStep(s, t);
    Ending(p, s, steps, t, Raise(p.tid), Next(s, Refuse(t.req)));
  }

  /******* Workers and the sweeper *******/

  lemma AttemptFinalized(s: Sys, i: nat, a: AttemptInput) returns (steps: seq<Step>)
    requires NamesOk(s) && KeysOk(s.db) && EnabledBroker(s, RunAttempt(i, a))
    ensures var m := s.broker[i];
            var row := s.db.jobs[m.job];
            Opens(Solo(s), s, steps,
              AttemptTxn(i, m, row, a.started, Finalized(a.input, FoundReport(s.db.reports, row), a.finalized, a.finished)))
  {
    var p, m := Solo(s), s.broker[i];
    var row := s.db.jobs[m.job];
    Quiet(s);
    Opening(p, s, [], BeginAttempt(0, i, a.started));
    steps := [] + [BeginAttempt(0, i, a.started)];
    Continuing(p, s, steps, AttemptTxn(i, m, row, a.started, Begun), RunExecutor(0, a.input));
    steps := steps + [RunExecutor(0, a.input)];
    Continuing(p, s, steps, AttemptTxn(i, m, row, a.started, Executed(a.input, FoundReport(s.db.reports, row))),
      Finalize(0, a.finalized, a.finished));
    steps := steps + [Finalize(0, a.finalized, a.finished)];
  }

  lemma AttemptAlone(s: Sys, i: nat, a: AttemptInput)
    requires NamesOk(s) && KeysOk(s.db) && EnabledBroker(s, RunAttempt(i, a))
    ensures Leads(s, Next(s, RunAttempt(i, a)))
  {
    var row := s.db.jobs[s.broker[i].job];
    var steps := AttemptFinalized(s, i, a);
    var t := AttemptTxn(i, s.broker[i], row, a.started, Finalized(a.input, FoundReport(s.db.reports, row), a.finalized, a.finished));
    assert AttemptOf(t) == a;
    Committing(Solo(s), s, steps, t);
    Led(s, steps + [Commit(0)], Next(s, RunAttempt(i, a)));
  }

  /** A transaction that its first step completes. */
  lemma OpenedAlone(s: Sys, step: Step)
    requires KeysOk(s.db) && !step.BrokerStep? && step.tid == 0 && Opened(s, step).Some?
    requires CanCommit(Opened(s, step).value, s.maxRetries)
    ensures var a := CommitAction(Opened(s, step).value, s.maxRetries);
            Enabled(s, a) && Leads(s, Next(s, a))
  {
    var t := Opened(s, step).value;
    Quiet(s);
    Opening(Solo(s), s, [], step);
    Committing(Solo(s), s, [] + [step], t);
    Led(s, [] + [step] + [Commit(0)], Next(s, CommitAction(t, s.maxRetries)));
  }

  lemma SkipAlone(s: Sys, i: nat)
    requires KeysOk(s.db) && EnabledBroker(s, SkipAttempt(i))
    ensures Leads(s, Next(s, SkipAttempt(i)))
  {
    OpenedAlone(s, BeginAttempt(0, i, 0));
  }

  lemma SweepAlone(s: Sys, a: Action)
    requires KeysOk(s.db) && EnabledService(s.db, a) && a.Sweep?
    ensures Leads(s, Next(s, a))
  {
    OpenedAlone(s, BeginSweep(0, a.resets, a.stuckBefore, a.limit, a.now));
  }

  lemma RetryAlone(s: Sys, a: Action)
    requires KeysOk(s.db) && EnabledService(s.db, a) && a.RetryDead?
    ensures Leads(s, Next(s, a))
  {
    OpenedAlone(s, BeginRetry(0, a.job, a.event, a.now, a.eventAt));
  }

  lemma BrokerAlone(s: Sys, a: Action)
    requires Enabled(s, a) && (a.SendRetry? || a.Ack? || a.Redeliver? || a.CopyMessage?)
    ensures Leads(s, Next(s, a))
  {
    ChainOfOne(Moves, Conc(s, map[]), BrokerStep(a), Conc(Next(s, a), map[]));
    Led(s, [BrokerStep(a)], Next(s, a));
  }

  /******* Submissions *******/

  /** What a submission that no one disturbs comes to before it records its event. */
  ghost function Decision(db: Db, req: Request, newJob: JobId, now: Time): SubmitStage {
    match Resolve(db.jobs, req)
    case Fresh => Resolved(newJob, Some(now))
    case Reuse(job) => Resolved(job, None)
    case _ => Conflicted
  }

  /** A job id drawn for an insert that will hit the unique index. */
  ghost function UnusedJob(jobs: map<JobId, Job>): (id: JobId)
    ensures id !in jobs
  {
    UnusedExists(jobs.Keys);
    var id: JobId :| Above(jobs.Keys, id);
    assert id !in jobs.Keys;
    id
  }

  ghost predicate Above(used: set<JobId>, id: JobId) {
    forall u :: u in used ==> u < id
  }

  lemma {:induction false} UnusedExists(used: set<JobId>)
    ensures exists id: JobId :: Above(used, id)
    decreases |used|
  {
    if u :| u in used {
      UnusedExists(used - {u});
      var id: JobId :| Above(used - {u}, id);
      forall w | w in used ensures w < if id <= u then u + 1 else id {
        assert w == u || w in used - {u};
      }
      assert Above(used, if id <= u then u + 1 else id);
    } else {
      assert Above(used, 0);
    }
  }

  /** After a first read that found no job: the insert, and the re-read if it hits the unique index. */
  lemma MissedDecision(
    p: Place, s: Sys, steps: seq<Step>, req: Request, target: Option<Target>, newJob: JobId, now: Time) returns (more: seq<Step>)
    requires NamesOk(s) && KeysOk(s.db) && Opens(p, s, steps, SubmitTxn(req, target, Missed))
    requires Falsy(req.key) || JobHolder(s.db.jobs, req.key.value).None?
    requires Resolve(s.db.jobs, req).Fresh? ==> newJob !in s.db.jobs
    ensures Opens(p, s, more, SubmitTxn(req, target, Decision(s.db, req, newJob, now)))
  {
    var id := if Resolve(s.db.jobs, req).Fresh? then newJob else UnusedJob(s.db.jobs);
    Continuing(p, s, steps, SubmitTxn(req, target, Missed), InsertJob(p.tid, id, now));
    more := steps + [InsertJob(p.tid, id, now)];
    if !Resolve(s.db.jobs, req).Fresh? {
      Continuing(p, s, more, SubmitTxn(req, target, Violated), RereadKey(p.tid));
      more := more + [RereadKey(p.tid)];
    }
  }

  lemma DecisionReached(
    p: Place, s: Sys, steps: seq<Step>, req: Request, target: Option<Target>, newJob: JobId, now: Time) returns (more: seq<Step>)
    requires NamesOk(s) && KeysOk(s.db) && Opens(p, s, steps, SubmitTxn(req, target, Looking))
    requires Resolve(s.db.jobs, req).Fresh? ==> newJob !in s.db.jobs
    ensures Opens(p, s, more, SubmitTxn(req, target, Decision(s.db, req, newJob, now)))
  {
    Continuing(p, s, steps, SubmitTxn(req, target, Looking), ReadKey(p.tid));
    more := steps + [ReadKey(p.tid)];
    if Falsy(req.key) || JobHolder(s.db.jobs, req.key.value).None? {
      more := MissedDecision(p, s, more, req, target, newJob, now);
    }
  }

  lemma SubmitAlone(s: Sys, a: Action)
    requires NamesOk(s) && KeysOk(s.db) && EnabledService(s.db, a) && a.Submit?
    ensures Leads(s, Next(s, a))
  {
    var p := Solo(s);
    Quiet(s);
    Opening(p, s, [], BeginSubmit(0, a.req));
    var steps := DecisionReached(p, s, [] + [BeginSubmit(0, a.req)], a.req, None, a.newJob, a.now);
    var d := Decision(s.db, a.req, a.newJob, a.now);
    Continuing(p, s, steps, SubmitTxn(a.req, None, d), RecordEvent(0, a.event, a.eventAt));
    steps := steps + [RecordEvent(0, a.event, a.eventAt)];
    var t := SubmitTxn(a.req, None, Recorded(d.job, d.inserted, a.event, a.eventAt));
    Committing(p, s, steps, t);
    Led(s, steps + [Commit(0)], Next(s, CommitAction(t, s.maxRetries)));
    assert Next(s, CommitAction(t, s.maxRetries)) == Next(s, a);
  }

  lemma RefuseAlone(s: Sys, req: Request)
    requires NamesOk(s) && KeysOk(s.db) && EnabledService(s.db, Refuse(req))
    ensures Leads(s, Next(s, Refuse(req)))
  {
    var p := Solo(s);
    Quiet(s);
    Opening(p, s, [], BeginSubmit(0, req));
    var steps := DecisionReached(p, s, [] + [BeginSubmit(0, req)], req, None, 0, 0);
    Refusing(p, s, steps, SubmitTxn(req, None, Conflicted));
    Led(s, steps + [Raise(0)], Next(s, Refuse(req)));
  }

  /******* Report creations *******/

  lemma ServeAlone(s: Sys, key: Option<string>, report: ReportId)
    requires NamesOk(s) && KeysOk(s.db) && EnabledService(s.db, ServeReport(key, report))
    ensures Leads(s, Next(s, ServeReport(key, report)))
  {
    var p := Solo(s);
    assert ReportHolds(s.db.reports, key.value, report);
    Quiet(s);
    Opening(p, s, [], BeginReport(0, key));
    Continuing(p, s, [] + [BeginReport(0, key)], ReportTxn(key, LookingUp), ReadReportKey(0));
    var steps := [] + [BeginReport(0, key)] + [ReadReportKey(0)];
    Committing(p, s, steps, ReportTxn(key, Served(report)));
    Led(s, steps + [Commit(0)], Next(s, ServeReport(key, report)));
  }

  /** A creation whose first read finds no report. */
  lemma ReportMissed(p: Place, s: Sys, steps: seq<Step>, key: Option<string>) returns (more: seq<Step>)
    requires NamesOk(s) && KeysOk(s.db) && Rests(p, s, steps) && ResolveReport(s.db.reports, key).FreshReport?
    ensures Opens(p, s, more, ReportTxn(key, NotThere))
  {
    Opening(p, s, steps, BeginReport(p.tid, key));
    more := steps + [BeginReport(p.tid, key)];
    Continuing(p, s, more, ReportTxn(key, LookingUp), ReadReportKey(p.tid));
    more := more + [ReadReportKey(p.tid)];
  }

  /** Its target: the report it inserts, or the one that took the key meanwhile. */
  ghost function TargetAt(db: Db, key: Option<string>, newReport: ReportId): Target
    requires !ResolveReport(db.reports, key).ReportIntegrityFailure?
  {
    var rr := ResolveReport(db.reports, key);
    Target(ResolvedReport(rr, newReport), rr.FreshReport?)
  }

  lemma TargetReached(p: Place, s: Sys, steps: seq<Step>, key: Option<string>, newReport: ReportId) returns (more: seq<Step>)
    requires NamesOk(s) && KeysOk(s.db) && Opens(p, s, steps, ReportTxn(key, NotThere))
    requires newReport !in s.db.reports && !Blank(newReport) && !ResolveReport(s.db.reports, key).ReportIntegrityFailure?
    ensures var target := TargetAt(s.db, key, newReport);
            Opens(p, s, more, SubmitTxn(ReportRequest(target.report, key), Some(target), Looking))
  {
    Continuing(p, s, steps, ReportTxn(key, NotThere), InsertReport(p.tid, newReport));
    more := steps + [InsertReport(p.tid, newReport)];
    if !ResolveReport(s.db.reports, key).FreshReport? {
      Continuing(p, s, more, ReportTxn(key, ReportViolated), RereadReportKey(p.tid));
      more := more + [RereadReportKey(p.tid)];
    }
  }

  lemma RecordsAndAttaches(
    p: Place, s: Sys, steps: seq<Step>, req: Request, target: Target, job: JobId, inserted: Option<Time>, event: EventId, eventAt: Time)
    returns (more: seq<Step>)
    requires NamesOk(s) && KeysOk(s.db) && event !in s.db.events
    requires target.created || (target.report in s.db.reports && s.db.reports[target.report].jobId == Some(job))
    requires Opens(p, s, steps, SubmitTxn(req, Some(target), Resolved(job, inserted)))
    ensures Opens(p, s, more, SubmitTxn(req, Some(target), Attached(job, inserted, event, eventAt)))
  {
    Continuing(p, s, steps, SubmitTxn(req, Some(target), Resolved(job, inserted)), RecordEvent(p.tid, event, eventAt));
    more := steps + [RecordEvent(p.tid, event, eventAt)];
    Continuing(p, s, more, SubmitTxn(req, Some(target), Recorded(job, inserted, event, eventAt)), AttachJob(p.tid));
    more := more + [AttachJob(p.tid)];
  }

  /** What an enabled report creation decides on. */
  lemma CreateDecides(s: Sys, a: Action)
    requires LinksOk(s.db) && KeysOk(s.db) && EnabledService(s.db, a) && a.CreateReport?
    ensures !ResolveReport(s.db.reports, a.key).ReportIntegrityFailure? && a.event !in s.db.events
    ensures var target := TargetAt(s.db, a.key, a.newReport);
            var resolution := Resolve(s.db.jobs, ReportRequest(target.report, a.key));
            && Accepted(resolution) && (resolution.Fresh? ==> a.newJob !in s.db.jobs)
            && (!target.created ==>
                  target.report in s.db.reports && s.db.reports[target.report].jobId == Some(ResolvedJob(resolution, a.newJob)))
  {
  }

  /** Two creations with the same key and event come to the same, but for ids and times only an insert uses. */
  lemma SameCreation(s: Sys, a: Action, b: Action)
    requires LinksOk(s.db) && KeysOk(s.db) && EnabledService(s.db, a) && EnabledService(s.db, b) && a.CreateReport? && b.CreateReport?
    requires a.key == b.key && a.event == b.event && a.eventAt == b.eventAt
    requires var target := TargetAt(s.db, a.key, a.newReport);
             var resolution := Resolve(s.db.jobs, ReportRequest(target.report, a.key));
             && b.newReport == target.report
             && if resolution.Fresh? then a.newJob == b.newJob && a.now == b.now else b.newJob == ResolvedJob(resolution, a.newJob)
    ensures Next(s, a) == Next(s, b)
  {
  }

  lemma CreationCommits(
    p: Place, s: Sys, steps: seq<Step>, a: Action, target: Target, req: Request, job: JobId, inserted: Option<Time>)
    requires LinksOk(s.db) && KeysOk(s.db) && EnabledService(s.db, a) && a.CreateReport?
    requires !ResolveReport(s.db.reports, a.key).ReportIntegrityFailure? && target == TargetAt(s.db, a.key, a.newReport)
    requires req == ReportRequest(target.report, a.key) && Accepted(Resolve(s.db.jobs, req))
    requires Resolved(job, inserted) == Decision(s.db, req, a.newJob, a.now)
    requires Opens(p, s, steps, SubmitTxn(req, Some(target), Attached(job, inserted, a.event, a.eventAt)))
    ensures Rests(p, Next(s, a), steps + [Commit(p.tid)])
  {
    var t := SubmitTxn(req, Some(target), Attached(job, inserted, a.event, a.eventAt));
    Committing(p, s, steps, t);
    SameCreation(s, a, CommitAction(t, s.maxRetries));
  }

  /** A creation past its first read, on the rows as they are by then. */
  lemma CreationEnds(p: Place, s: Sys, steps: seq<Step>, a: Action, newReport: ReportId) returns (more: seq<Step>)
    requires NamesOk(s) && LinksOk(s.db) && KeysOk(s.db) && EnabledService(s.db, a) && a.CreateReport?
    requires newReport !in s.db.reports && !Blank(newReport) && (TargetAt(s.db, a.key, a.newReport).created ==> newReport == a.newReport)
    requires Opens(p, s, steps, ReportTxn(a.key, NotThere))
    ensures Rests(p, Next(s, a), more)
  {
    CreateDecides(s, a);
    var target := TargetAt(s.db, a.key, a.newReport);
    var req := ReportRequest(target.report, a.key);
    more := TargetReached(p, s, steps, a.key, newReport);
    more := DecisionReached(p, s, more, req, Some(target), a.newJob, a.now);
    var d := Decision(s.db, req, a.newJob, a.now);
    more := RecordsAndAttaches(p, s, more, req, target, d.job, d.inserted, a.event, a.eventAt);
    CreationCommits(p, s, more, a, target, req, d.job, d.inserted);
    more := more + [Commit(p.tid)];
  }

  lemma CreateAlone(s: Sys, a: Action)
    requires NamesOk(s) && LinksOk(s.db) && KeysOk(s.db) && EnabledService(s.db, a) && a.CreateReport?
    requires ResolveReport(s.db.reports, a.key).FreshReport?
    ensures Leads(s, Next(s, a))
  {
    Quiet(s);
    var steps := ReportMissed(Solo(s), s, [], a.key);
    steps := CreationEnds(Solo(s), s, steps, a, a.newReport);
    Led(s, steps, Next(s, a));
  }

  /******* Publishers *******/

  lemma Claiming(s: Sys, e: EventId)
    requires e in s.db.events && s.db.events[e].status.EventPending?
    ensures Opens(Solo(s), s, [Claim(0, e)], PublishTxn(e, s.db.events[e], None))
  {
    Quiet(s);
    Opening(Solo(s), s, [], Claim(0, e));
    assert [] + [Claim(0, e)] == [Claim(0, e)];
  }

  lemma RejectAlone(s: Sys, e: EventId)
    requires KeysOk(s.db) && EnabledPublisher(s, RejectEvent(e))
    ensures Leads(s, Next(s, RejectEvent(e)))
  {
    OpenedAlone(s, Claim(0, e));
  }

  lemma RecordsFailure(s: Sys, steps: seq<Step>, id: EventId, row: Event, error: string, terminal: bool, now: Time, delay: nat)
    returns (more: seq<Step>)
    requires NamesOk(s) && KeysOk(s.db) && id in s.db.events && s.db.events[id] == row
    requires delay <= BackoffCeiling(row.retryCount + 1)
    requires Opens(Solo(s), s, steps, FailTxn(id, error, terminal, RolledBack))
    ensures Opens(Solo(s), s, more, FailTxn(id, error, terminal, Updating(row, row, now, delay)))
  {
    Continuing(Solo(s), s, steps, FailTxn(id, error, terminal, RolledBack), Reload(0));
    more := steps + [Reload(0)];
    Continuing(Solo(s), s, more, FailTxn(id, error, terminal, Reloaded(row)), FlushFailure(0, now, delay));
    more := more + [FlushFailure(0, now, delay)];
  }

  lemma FailureAlone(s: Sys, a: Action)
    requires NamesOk(s) && KeysOk(s.db) && EnabledPublisher(s, a) && a.RecordFailure?
    requires a.loaded == s.db.events[a.event] && a.loaded.status.EventPending?
    ensures Leads(s, Next(s, a))
  {
    var row, id := s.db.events[a.event], a.event;
    Claiming(s, id);
    Continuing(Solo(s), s, [Claim(0, id)], PublishTxn(id, row, None), FailDispatch(0, a.error, a.terminal));
    var steps := RecordsFailure(s, [Claim(0, id)] + [FailDispatch(0, a.error, a.terminal)], id, row, a.error, a.terminal, a.now, a.delay);
    Committing(Solo(s), s, steps, FailTxn(id, a.error, a.terminal, Updating(row, row, a.now, a.delay)));
    Led(s, steps + [Commit(0)], Next(s, a));
  }

  /** The dispatch of a claimed event, with the transaction that claimed it still in flight. */
  lemma Dispatching(s: Sys, e: EventId, now: Time)
    requires EnabledPublisher(s, Dispatch(e))
    ensures var sent := Next(s, Dispatch(e));
            && ConcRun(Conc(s, map[]), [Claim(0, e)] + [SendDispatch(0, now)],
                 Conc(sent, map[0 := PublishTxn(e, s.db.events[e], Some(now))]))
            && sent.db == s.db
  {
    var t, u := PublishTxn(e, s.db.events[e], None), PublishTxn(e, s.db.events[e], Some(now));
    Claiming(s, e);
    assert map[][0 as Tid := t] == map[0 := t] && map[0 := t][0 := u] == map[0 := u];
    assert Apply(s.db, NO_ROWS) == s.db;
    ChainSnoc(Moves, Conc(s, map[]), [Claim(0, e)], Conc(s, map[0 := t]), SendDispatch(0, now),
      Conc(Next(s, Dispatch(e)), map[0 := u]));
  }

  /** The end of a transaction that has dispatched. */
  lemma DispatchEnds(s: Sys, e: EventId, now: Time, step: Step, later: Sys)
    requires EnabledPublisher(s, Dispatch(e))
    requires var c := Conc(Next(s, Dispatch(e)), map[0 := PublishTxn(e, s.db.events[e], Some(now))]);
             CanStep(c, step) && StepTo(c, step) == Conc(later, c.txns - {0})
    ensures Leads(s, later)
  {
    var t := PublishTxn(e, s.db.events[e], Some(now));
    Dispatching(s, e, now);
    assert map[0 := t] - {0} == map[];
    ChainSnoc(Moves, Conc(s, map[]), [Claim(0, e)] + [SendDispatch(0, now)], Conc(Next(s, Dispatch(e)), map[0 := t]), step,
      Conc(later, map[]));
    Led(s, [Claim(0, e)] + [SendDispatch(0, now)] + [step], later);
  }

  /** A publisher that dies after its dispatch leaves the message and nothing else. */
  lemma DispatchAlone(s: Sys, e: EventId)
    requires EnabledPublisher(s, Dispatch(e))
    ensures Leads(s, Next(s, Dispatch(e)))
  {
    DispatchEnds(s, e, 0, Abort(0), Next(s, Dispatch(e)));
  }

  lemma MarkCommits(s: Sys, e: EventId, now: Time)
    requires EnabledPublisher(s, Dispatch(e))
    ensures var sent, t := Next(s, Dispatch(e)), PublishTxn(e, s.db.events[e], Some(now));
            Enabled(sent, MarkPublished(e, now)) && Committed(sent, t) == Next(sent, MarkPublished(e, now))
  {
    Dispatching(s, e, now);
    OtherCommits(Next(s, Dispatch(e)), PublishTxn(e, s.db.events[e], Some(now)));
  }

  /** One that lives marks the event in the transaction that claimed it. */
  lemma PublishAlone(s: Sys, e: EventId, now: Time)
    requires EnabledPublisher(s, Dispatch(e))
    ensures var sent := Next(s, Dispatch(e));
            Enabled(sent, MarkPublished(e, now)) && Leads(s, Next(sent, MarkPublished(e, now)))
  {
    MarkCommits(s, e, now);
    DispatchEnds(s, e, now, Commit(0), Next(Next(s, Dispatch(e)), MarkPublished(e, now)));
  }

  /******* Two creations of one report *******/

  lemma KeyTakenAfter(s: Sys, a: Action)
    requires LinksOk(s.db) && EnabledService(s.db, a) && a.CreateReport? && a.key.Some?
    ensures var made := MakeReport(s.db, a.key, a.newReport, a.newJob, a.event, a.now, a.eventAt);
            && ReportHolds(Next(s, a).db.reports, a.key.value, made.report)
            && Next(s, a).db.reports[made.report].jobId == Some(made.job)
  {
    CreateReportLeaves(s, a);
  }

  /** A creation under a key that a report holds returns that report and its job. */
  lemma TakenIsReturned(s: Sys, b: Action, report: ReportId, job: JobId)
    requires KeysOk(s.db) && LinksOk(s.db) && EnabledService(s.db, b) && b.CreateReport? && b.key.Some?
    requires ReportHolds(s.db.reports, b.key.value, report) && s.db.reports[report].jobId == Some(job)
    ensures ResolveReport(s.db.reports, b.key) == ReuseReport(report)
    ensures var made := MakeReport(s.db, b.key, b.newReport, b.newJob, b.event, b.now, b.eventAt);
            made.report == report && made.job == job
  {
  }

  /** A creation that runs while another, past its first read and holding no lock, waits. */
  lemma CreatesBeside(s: Sys, steps: seq<Step>, a: Action) returns (more: seq<Step>)
    requires NamesOk(s) && LinksOk(s.db) && KeysOk(s.db) && EnabledService(s.db, a) && a.CreateReport?
    requires ResolveReport(s.db.reports, a.key).FreshReport?
    requires Opens(Place(Conc(s, map[]), map[], 1), s, steps, ReportTxn(a.key, NotThere))
    ensures Opens(Place(Conc(s, map[]), map[], 1), Next(s, a), more, ReportTxn(a.key, NotThere))
  {
    var waiting := ReportTxn(a.key, NotThere);
    var p := Place(Conc(s, map[]), map[1 := waiting], 0);
    assert map[][1 as Tid := waiting] == map[1 := waiting];
    assert Locks(waiting) == {};
    more := ReportMissed(p, s, steps, a.key);
    more := CreationEnds(p, s, more, a, a.newReport);
  }

  /** A creation whose key is taken after its first read, by another that runs meanwhile, goes on with that one's report
      and job: the step past the first read under a taken key, too, is one the machine performs. */
  lemma LateCreation(s: Sys, a: Action, b: Action, newReport: ReportId)
    requires Inv(s) && EnabledService(s.db, a) && a.CreateReport? && ResolveReport(s.db.reports, a.key).FreshReport?
    requires Enabled(Next(s, a), b) && b.CreateReport? && b.key == a.key && a.key.Some?
    requires newReport !in Next(s, a).db.reports && !Blank(newReport)
    ensures Leads(s, Next(Next(s, a), b))
    ensures var first := MakeReport(s.db, a.key, a.newReport, a.newJob, a.event, a.now, a.eventAt);
            var second := MakeReport(Next(s, a).db, b.key, b.newReport, b.newJob, b.event, b.now, b.eventAt);
            second.report == first.report && second.job == first.job
  {
    var p, t := Place(Conc(s, map[]), map[], 1), Next(s, a);
    Quiet(s);
    var steps := ReportMissed(p, s, [], a.key);
    steps := CreatesBeside(s, steps, a);
    StepKeepsInv(s, a);
    KeyTakenAfter(s, a);
    var made := MakeReport(s.db, a.key, a.newReport, a.newJob, a.event, a.now, a.eventAt);
    TakenIsReturned(t, b, made.report, made.job);
    steps := CreationEnds(p, t, steps, b, newReport);
    Led(s, steps, Next(t, b));
  }

  /******* Runs *******/

  /** What one undisturbed call or worker can do: a report creation under a key that a report holds is only reached
      past its first read when another commits meanwhile, a failure is recorded on the row as claimed, and an event is
      marked in the transaction that has just dispatched it. */
  ghost predicate Direct(s: Sys, a: Action) {
    match a
    case CreateReport(key, _, _, _, _, _) => ResolveReport(s.db.reports, key).FreshReport?
    case RecordFailure(e, loaded, _, _, _, _) => e in s.db.events && loaded == s.db.events[e] && loaded.status.EventPending?
    case MarkPublished(_, _) => false
    case _ => true
  }

  lemma ServiceAlone(s: Sys, a: Action)
    requires NamesOk(s) && LinksOk(s.db) && KeysOk(s.db) && EnabledService(s.db, a) && Direct(s, a)
    ensures Leads(s, Next(s, a))
  {
    match a
    case Submit(_, _, _, _, _) => SubmitAlone(s, a);
    case Refuse(req) => RefuseAlone(s, req);
    case ServeReport(key, report) => ServeAlone(s, key, report);
    case CreateReport(_, _, _, _, _, _) => CreateAlone(s, a);
    case RetryDead(_, _, _, _) => RetryAlone(s, a);
    case Sweep(_, _, _, _) => SweepAlone(s, a);
  }

  /** From a state with nothing in flight, one transaction on its own, or the broker, performs any direct step. */
  lemma StepAlone(s: Sys, a: Action)
    requires NamesOk(s) && LinksOk(s.db) && KeysOk(s.db) && Enabled(s, a) && Direct(s, a)
    ensures Leads(s, Next(s, a))
  {
    if EnabledService(s.db, a) {
      ServiceAlone(s, a);
    } else {
      match a
      case Dispatch(e) => DispatchAlone(s, e);
      case RecordFailure(_, _, _, _, _, _) => FailureAlone(s, a);
      case RejectEvent(e) => RejectAlone(s, e);
      case RunAttempt(i, attempt) => AttemptAlone(s, i, attempt);
      case SkipAttempt(i) => SkipAlone(s, i);
      case _ => BrokerAlone(s, a);
    }
  }

  /** What happens undisturbed: a direct step, or a publisher dispatching an event and marking it. */
  ghost predicate Round(s: Sys, a: Action, t: Sys) {
    if a.MarkPublished? then
      EnabledPublisher(s, Dispatch(a.event)) && Takes(Next(s, Dispatch(a.event)), a, t)
    else Takes(s, a, t) && Direct(s, a)
  }

  lemma RoundAlone(s: Sys, a: Action, t: Sys)
    requires Inv(s) && Round(s, a, t)
    ensures Inv(t) && Leads(s, t)
  {
    if a.MarkPublished? {
      PublishAlone(s, a.event, a.now);
      StepKeepsInv(s, Dispatch(a.event));
      StepKeepsInv(Next(s, Dispatch(a.event)), a);
    } else {
      StepAlone(s, a);
      StepKeepsInv(s, a);
    }
  }

  lemma LeadsOn(s: Sys, t: Sys, u: Sys)
    requires Leads(s, t) && Leads(t, u)
    ensures Leads(s, u)
  {
    var xs :| ConcRun(Conc(s, map[]), xs, Conc(t, map[]));
    var ys :| ConcRun(Conc(t, map[]), ys, Conc(u, map[]));
    ChainsAppend(Moves, Conc(s, map[]), xs, Conc(t, map[]), ys, Conc(u, map[]));
    Led(s, xs + ys, u);
  }

  /** Whatever undisturbed calls, deliveries and publishers do one after the other, the concurrent machine does. */
  lemma {:induction false} RoundsAlone(s: Sys, actions: seq<Action>, t: Sys)
    requires Inv(s) && Chain(Round, s, actions, t)
    ensures Inv(t) && Leads(s, t)
    decreases |actions|
  {
    if actions == [] {
      ChainOfNone(Round, s, t);
      ConcRunOfNone(Conc(s, map[]), Conc(t, map[]));
    } else {
      var n := ChainHead(Round, s, actions, t);
      RoundAlone(s, actions[0], n);
      RoundsAlone(n, actions[1..], t);
      LeadsOn(s, n, t);
    }
  }
}
