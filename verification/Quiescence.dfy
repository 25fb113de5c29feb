/** Where the system comes to rest when nothing fails: what is left then, and that it can always get there. */
module Quiescence {
  import opened Rows
  import opened Pipeline
  import opened Outbox
  import opened Submission
  import opened Protocol
  import opened History
  import opened Safety
  import opened Delivery
  import opened Sums
  import opened Theorems
  import opened Steps
  import opened Chains

  ghost predicate HasFailedEvent(db: Db, id: JobId) {
    exists e :: e in db.events && db.events[e].jobId == id && db.events[e].status.EventFailed?
  }

  ghost predicate IsOrphan(db: Db, id: JobId) {
    exists report :: Orphaned(db, id, report)
  }

  predicate NoRunning(db: Db) {
    forall j :: j in db.jobs ==> !db.jobs[j].status.JobRunning?
  }

  predicate NoPendingEvent(db: Db) {
    forall e :: e in db.events ==> !db.events[e].status.EventPending?
  }

  /** With nothing left for workers, publishers or the sweeper to do, every job is COMPLETED or DEAD, unless its
      dispatch was given up. */
  lemma QuiescentJobs(s: Sys, id: JobId)
    requires Reachable(s) && NoRunning(s.db) && NoPendingEvent(s.db) && id in s.db.jobs
    requires !exists a :: WorkerAction(a) && Enabled(s, a)
    ensures s.db.jobs[id].status.JobCompleted? || s.db.jobs[id].status.JobDead? || HasFailedEvent(s.db, id)
  {
    WorkersStopOnlyWhenDrained(s);
    if s.db.jobs[id].status.JobPending? {
      NoJobLost(s, id);
      var e :| e in s.db.events && s.db.events[e].jobId == id && !s.db.events[e].status.EventPublished?;
      assert s.db.events[e].status.EventFailed?;
    }
  }

  /******* Steps in which nothing fails *******/

  predicate FaultFree(a: Action) {
    match a
    case RunAttempt(_, input) => input.finalized && input.input.Registered? && !input.input.fault
    case Sweep(_, _, _, _) => true
    case SkipAttempt(_) => true
    case SendRetry(_) => true
    case Ack(_) => true
    case Dispatch(_) => true
    case MarkPublished(_, _) => true
    case RejectEvent(_) => true
    case _ => false
  }

  ghost predicate Fair(s: Sys, a: Action, t: Sys) {
    FaultFree(a) && Enabled(s, a) && t == Next(s, a)
  }

  const SUCCESS := AttemptInput(Registered(Returned(None), false), true, 0, 0)

  /** An attempt without faults raises exactly for a job whose report is READY without it. */
  lemma FaultFreeRaisesIff(db: Db, log: seq<Entry>, m: Msg, maxRetries: nat)
    requires ReadyGenerated(db, log) && Runnable(db, m)
    ensures VerdictOn(db, m, maxRetries, SUCCESS).raises <==> IsOrphan(db, m.job)
  {
    if VerdictOn(db, m, maxRetries, SUCCESS).raises {
      assert Orphaned(db, m.job, TargetOf(db.jobs[m.job]).value);
    }
  }

  /** A message whose job is orphaned is redelivered for ever: no attempt without faults gets rid of it. */
  lemma StalledIff(s: Sys, i: nat)
    requires Inv(s) && i < |s.broker| && s.broker[i].phase.Ready? && Runnable(s.db, s.broker[i])
    ensures Enabled(s, RunAttempt(i, SUCCESS)) <==> !IsOrphan(s.db, s.broker[i].job)
  {
    FaultFreeRaisesIff(s.db, s.log, s.broker[i], s.maxRetries);
  }

  ghost predicate Stalled(s: Sys, m: Msg) {
    m.phase.Ready? && Runnable(s.db, m) && IsOrphan(s.db, m.job)
  }

  /** Nothing is left to do but to redeliver what can never complete. */
  ghost predicate AtRest(s: Sys) {
    && NoRunning(s.db) && NoPendingEvent(s.db)
    && forall i :: 0 <= i < |s.broker| ==> s.broker[i].phase.Acked? || Stalled(s, s.broker[i])
  }

  /** At rest, every job is COMPLETED or DEAD, or its dispatch was given up, or it can never complete. */
  lemma RestingJobs(s: Sys, id: JobId)
    requires Inv(s) && AtRest(s) && id in s.db.jobs
    ensures s.db.jobs[id].status.JobCompleted? || s.db.jobs[id].status.JobDead? || HasFailedEvent(s.db, id) || IsOrphan(s.db, id)
  {
    if s.db.jobs[id].status.JobPending? {
      assert Covered(s.db, s.log, s.broker, id);
      if e :| Undelivered(s.db, s.log, e, id) {
        assert s.db.events[e].status.EventFailed?;
      }
    }
  }

  /******* The measure *******/

  function PendingEvents(db: Db): set<EventId> {
    set e | e in db.events && db.events[e].status.EventPending?
  }

  function Left(s: Sys): nat {
    SumBy(Effort(s.maxRetries), s.broker)
  }

  ghost predicate Nearer(t: Sys, s: Sys) {
    || |RunningJobs(t.db.jobs)| < |RunningJobs(s.db.jobs)|
    || (RunningJobs(t.db.jobs) == RunningJobs(s.db.jobs) && |PendingEvents(t.db)| < |PendingEvents(s.db)|)
    || (RunningJobs(t.db.jobs) == RunningJobs(s.db.jobs) && PendingEvents(t.db) == PendingEvents(s.db) && Left(t) < Left(s))
  }

  lemma FairStep(s: Sys, a: Action, t: Sys)
    requires Inv(s) && Fair(s, a, t)
    ensures Chain(Fair, s, [a], t) && Inv(t)
  {
    StepKeepsInv(s, a);
    ChainOfOne(Fair, s, a, t);
  }

  lemma SmallerSet<T>(a: set<T>, b: set<T>, x: T)
    requires x in b && a == b - {x}
    ensures |a| < |b|
  {
  }

  lemma ResetLeaves(db: Db, id: JobId)
    requires id in RunningJobs(db.jobs)
    ensures |RunningJobs(db.jobs[id := ResetJob(db.jobs[id], 0)])| < |RunningJobs(db.jobs)|
  {
    SmallerSet(RunningJobs(db.jobs[id := ResetJob(db.jobs[id], 0)]), RunningJobs(db.jobs), id);
  }

  lemma Sweeps(s: Sys, id: JobId, e: EventId) returns (t: Sys)
    requires Inv(s) && id in RunningJobs(s.db.jobs) && e !in s.db.events
    ensures Chain(Fair, s, [SweepFor(s.db.jobs[id], id, e)], t) && Inv(t)
    ensures t.db == s.db.(jobs := s.db.jobs[id := ResetJob(s.db.jobs[id], 0)], events := s.db.events[e := NewEvent(id, 0)])
  {
    SweepsOne(s, id, s.db.jobs[id], e);
    t := Next(s, SweepFor(s.db.jobs[id], id, e));
    FairStep(s, SweepFor(s.db.jobs[id], id, e), t);
  }

  lemma SweepNearer(s: Sys, id: JobId) returns (actions: seq<Action>, t: Sys)
    requires Inv(s) && id in RunningJobs(s.db.jobs)
    ensures Chain(Fair, s, actions, t) && Inv(t) && Nearer(t, s)
  {
    var e := Bound(s.db.events.Keys);
    t := Sweeps(s, id, e);
    ResetLeaves(s.db, id);
    actions := [SweepFor(s.db.jobs[id], id, e)];
  }

  lemma EventNearer(s: Sys, a: Action, t: Sys, e: EventId, row: Event)
    requires e in PendingEvents(s.db) && !row.status.EventPending?
    requires t.db == s.db.(events := s.db.events[e := row])
    ensures Nearer(t, s)
  {
    SmallerSet(PendingEvents(t.db), PendingEvents(s.db), e);
  }

  lemma RejectNearer(s: Sys, e: EventId) returns (actions: seq<Action>, t: Sys)
    requires Inv(s) && e in PendingEvents(s.db) && s.db.events[e].eventType != JOB_DISPATCH_REQUESTED
    ensures Chain(Fair, s, actions, t) && Inv(t) && Nearer(t, s)
  {
    var a, row := RejectEvent(e), UnsupportedEvent(s.db.events[e]);
    EventStep(s, a, row);
    t := Next(s, a);
    FairStep(s, a, t);
    EventNearer(s, a, t, e, row);
    actions := [a];
  }

  lemma Marks(s: Sys, e: EventId) returns (t: Sys)
    requires Inv(s) && e in PendingEvents(s.db) && s.db.events[e].eventType == JOB_DISPATCH_REQUESTED
    requires Dispatched(e, s.db.events[e].jobId) in s.log
    ensures Chain(Fair, s, [MarkPublished(e, 0)], t) && Inv(t)
    ensures t.db == s.db.(events := s.db.events[e := PublishedEvent(s.db.events[e], 0)])
  {
    EventStep(s, MarkPublished(e, 0), PublishedEvent(s.db.events[e], 0));
    t := Next(s, MarkPublished(e, 0));
    FairStep(s, MarkPublished(e, 0), t);
  }

  lemma PublishNearer(s: Sys, e: EventId) returns (actions: seq<Action>, t: Sys)
    requires Inv(s) && e in PendingEvents(s.db) && s.db.events[e].eventType == JOB_DISPATCH_REQUESTED
    ensures Chain(Fair, s, actions, t) && Inv(t) && Nearer(t, s)
  {
    DispatchEvent(s, e);
    var sent := Next(s, Dispatch(e));
    FairStep(s, Dispatch(e), sent);
    assert sent.log[|s.log|] == Dispatched(e, s.db.events[e].jobId);
    t := Marks(sent, e);
    ChainsAppend(Fair, s, [Dispatch(e)], sent, [MarkPublished(e, 0)], t);
    EventNearer(s, MarkPublished(e, 0), t, e, PublishedEvent(s.db.events[e], 0));
    actions := [Dispatch(e)] + [MarkPublished(e, 0)];
  }

  /******* Worker steps *******/

  lemma WorkerRows(s: Sys, a: Action)
    requires EnabledBroker(s, a) && WorkerAction(a) && FaultFree(a) && NoRunning(s.db)
    ensures NoRunning(Next(s, a).db) && Next(s, a).db.events == s.db.events
  {
    assert s.db.events + map[] == s.db.events;
    if a.RunAttempt? {
      var m := s.broker[a.msg];
      AttemptIsPair(s.db, m.job, m.retries, s.maxRetries, a.attempt);
      AttemptReportRow(m.job, s.db.jobs[m.job], FoundReport(s.db.reports, s.db.jobs[m.job]), m.retries, s.maxRetries, a.attempt);
    }
  }

  lemma WorkLowers(s: Sys, a: Action)
    requires NamesOk(s) && EnabledBroker(s, a) && WorkerAction(a) && FaultFree(a) && NoRunning(s.db)
    ensures Nearer(Next(s, a), s)
  {
    WorkerRows(s, a);
    WorkerStepDrains(s, a);
    assert RunningJobs(Next(s, a).db.jobs) == {} && RunningJobs(s.db.jobs) == {};
  }

  lemma WorkNearer(s: Sys, a: Action) returns (t: Sys)
    requires Inv(s) && EnabledBroker(s, a) && WorkerAction(a) && FaultFree(a) && NoRunning(s.db)
    ensures Chain(Fair, s, [a], t) && Inv(t) && Nearer(t, s)
  {
    t := Next(s, a);
    WorkLowers(s, a);
    FairStep(s, a, t);
  }

  /** The step a worker or the broker can take on a message that is neither gone nor stalled. */
  ghost function WorkOn(s: Sys, i: nat): Action
    requires i < |s.broker|
  {
    match s.broker[i].phase
    case Ready => if Runnable(s.db, s.broker[i]) then RunAttempt(i, SUCCESS) else SkipAttempt(i)
    case Handled(retry) => if retry then SendRetry(i) else Ack(i)
    case Acked => Ack(i)
  }

  lemma WorkIsEnabled(s: Sys, i: nat)
    requires Inv(s) && i < |s.broker| && !s.broker[i].phase.Acked? && !Stalled(s, s.broker[i])
    ensures EnabledBroker(s, WorkOn(s, i)) && WorkerAction(WorkOn(s, i)) && FaultFree(WorkOn(s, i))
  {
    if s.broker[i].phase.Ready? && Runnable(s.db, s.broker[i]) {
      FaultFreeRaisesIff(s.db, s.log, s.broker[i], s.maxRetries);
    }
  }

  /******* Coming to rest *******/

  lemma StepNearer(s: Sys) returns (actions: seq<Action>, t: Sys)
    requires Inv(s) && !AtRest(s)
    ensures Chain(Fair, s, actions, t) && Inv(t) && Nearer(t, s)
  {
    if j :| j in RunningJobs(s.db.jobs) {
      actions, t := SweepNearer(s, j);
    } else if e :| e in PendingEvents(s.db) {
      if s.db.events[e].eventType == JOB_DISPATCH_REQUESTED {
        actions, t := PublishNearer(s, e);
      } else {
        actions, t := RejectNearer(s, e);
      }
    } else {
      NothingButMessages(s);
      var i: nat :| i < |s.broker| && !s.broker[i].phase.Acked? && !Stalled(s, s.broker[i]);
      WorkIsEnabled(s, i);
      t := WorkNearer(s, WorkOn(s, i));
      actions := [WorkOn(s, i)];
    }
  }

  lemma NothingButMessages(s: Sys)
    requires !AtRest(s) && RunningJobs(s.db.jobs) == {} && PendingEvents(s.db) == {}
    ensures NoRunning(s.db)
    ensures exists i: nat :: i < |s.broker| && !s.broker[i].phase.Acked? && !Stalled(s, s.broker[i])
  {
    forall j | j in s.db.jobs ensures !s.db.jobs[j].status.JobRunning? {
      assert j !in RunningJobs(s.db.jobs);
    }
    forall e | e in s.db.events ensures !s.db.events[e].status.EventPending? {
      assert e !in PendingEvents(s.db);
    }
  }

  lemma {:induction false} RestChain(s: Sys) returns (actions: seq<Action>, t: Sys)
    requires Inv(s)
    ensures Chain(Fair, s, actions, t) && Inv(t) && AtRest(t)
    decreases |RunningJobs(s.db.jobs)|, |PendingEvents(s.db)|, Left(s)
  {
    if AtRest(s) {
      ChainOfNone(Fair, s, s);
      return [], s;
    }
    var first, n := StepNearer(s);
    var rest, u := RestChain(n);
    ChainsAppend(Fair, s, first, n, rest, u);
    return first + rest, u;
  }

  /** From every state that keeps the invariants, sweeps, publishers and workers in which nothing fails can bring
      the system to rest. */
  lemma ComesToRest(s: Sys) returns (actions: seq<Action>, t: Sys)
    requires Inv(s)
    ensures Run(s, actions, t) && Inv(t) && AtRest(t)
    ensures forall i :: 0 <= i < |actions| ==> FaultFree(actions[i])
  {
    actions, t := RestChain(s);
    ChainAll(Fair, FaultFree, s, actions, t);
    ChainWeaker(Fair, Takes, s, actions, t);
  }
}
