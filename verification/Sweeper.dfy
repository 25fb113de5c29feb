/** The sweeper (reset_stuck_running_jobs in src/jobs/pipeline.py, list_stuck_running in
    src/jobs/repository.py) and how soon repeated sweeps recover every stuck job. */
module Sweeper {
  import opened Rows
  import opened Pipeline
  import opened Outbox
  import opened Protocol
  import opened Effects
  import opened UnitsOfWork
  import Services

  ghost predicate Distinct<T>(xs: seq<T>) {
    forall i, j :: 0 <= i < j < |xs| ==> xs[i] != xs[j]
  }

  function StuckJobs(jobs: map<JobId, Job>, stuckBefore: Time): set<JobId> {
    set j | j in jobs && Stuck(jobs[j], stuckBefore)
  }

  /** FOR UPDATE SKIP LOCKED with a LIMIT and no ORDER BY: any unlocked stuck jobs, all of them if they fit. */
  method ListStuckRunning(
    uow: UnitOfWork, stuckBefore: Time, limit: nat, lockedRows: set<JobId>)
    returns (ids: seq<JobId>)
    ensures |ids| <= limit && Distinct(ids)
    ensures forall i :: 0 <= i < |ids| ==>
      && ids[i] in uow.session.jobs && ids[i] !in lockedRows
      && uow.session.jobs[ids[i]].status == JobRunning && uow.session.jobs[ids[i]].updatedAt < stuckBefore
    ensures |ids| < limit ==>
      forall j :: j in uow.session.jobs && j !in lockedRows ==>
        uow.session.jobs[j].status == JobRunning && uow.session.jobs[j].updatedAt < stuckBefore ==> j in ids
  {
    var rest := StuckJobs(uow.session.jobs, stuckBefore) - lockedRows;
    ghost var all := rest;
    ids := [];
    while |ids| < limit && rest != {}
      invariant |ids| <= limit && Distinct(ids) && rest <= all
      invariant forall i :: 0 <= i < |ids| ==> ids[i] in all && ids[i] !in rest
      invariant forall j :: j in all ==> j in rest || j in ids
      decreases |rest|
    {
      var j :| j in rest;
      ids, rest := ids + [j], rest - {j};
    }
  }

  lemma ValuesOfInsert<K, V>(m: map<K, V>, k: K, v: V)
    requires k !in m
    ensures m[k := v].Values == m.Values + {v} && |m[k := v]| == |m| + 1
  {
    assert m[k := v].Keys == m.Keys + {k};
    forall x | x in m.Values + {v} ensures x in m[k := v].Values {
      if x == v {
        assert m[k := v][k] == x;
      } else {
        var other :| other in m && m[other] == x;
        assert m[k := v][other] == x;
      }
    }
  }

  lemma InsertLast<K, V>(table: map<K, V>, w: map<K, V>, k: K, v: V)
    ensures table + w[k := v] == (table + w)[k := v]
  {
  }

  function ResetRows(jobs: map<JobId, Job>, ids: set<JobId>, now: Time): map<JobId, Job>
    requires ids <= jobs.Keys
  {
    map j | j in ids :: ResetJob(jobs[j], now)
  }

  function ResetEvents(resets: map<EventId, JobId>, now: Time): map<EventId, Event> {
    map e | e in resets :: NewEvent(resets[e], now)
  }

  lemma SweepWritesAre(jobs: map<JobId, Job>, resets: map<EventId, JobId>, now: Time)
    requires resets.Values <= jobs.Keys
    ensures forall e :: e in resets ==> resets[e] in jobs
    ensures SweepWrites(jobs, resets, now) == Db(ResetRows(jobs, resets.Values, now), map[], ResetEvents(resets, now), map[])
  {
    forall e | e in resets ensures resets[e] in jobs {
      assert resets[e] in resets.Values;
    }
  }

  /** The session after some jobs of the batch were reset. */
  ghost function SweptSoFar(db: Db, resets: map<EventId, JobId>, now: Time): Db
    requires resets.Values <= db.jobs.Keys
  {
    db.(jobs := db.jobs + ResetRows(db.jobs, resets.Values, now), events := db.events + ResetEvents(resets, now))
  }

  lemma SweptIsApplied(db: Db, resets: map<EventId, JobId>, now: Time)
    requires resets.Values <= db.jobs.Keys
    ensures forall e :: e in resets ==> resets[e] in db.jobs
    ensures SweptSoFar(db, resets, now) == Apply(db, SweepWrites(db.jobs, resets, now))
  {
    SweepWritesAre(db.jobs, resets, now);
    assert db.attempts + map[] == db.attempts && db.reports + map[] == db.reports;
  }

  lemma OneMoreReset(db: Db, resets: map<EventId, JobId>, e: EventId, j: JobId, now: Time)
    requires resets.Values <= db.jobs.Keys && j in db.jobs && e !in resets
    ensures resets[e := j].Values <= db.jobs.Keys
    ensures var swept := SweptSoFar(db, resets, now);
            SweptSoFar(db, resets[e := j], now)
            == swept.(jobs := swept.jobs[j := ResetJob(db.jobs[j], now)], events := swept.events[e := NewEvent(j, now)])
  {
    ValuesOfInsert(resets, e, j);
    InsertLast(db.jobs, ResetRows(db.jobs, resets.Values, now), j, ResetJob(db.jobs[j], now));
    InsertLast(db.events, ResetEvents(resets, now), e, NewEvent(j, now));
    assert ResetRows(db.jobs, resets.Values + {j}, now) == ResetRows(db.jobs, resets.Values, now)[j := ResetJob(db.jobs[j], now)];
    assert ResetEvents(resets[e := j], now) == ResetEvents(resets, now)[e := NewEvent(j, now)];
  }

  function SetOf<T(==)>(xs: seq<T>): set<T> {
    set x | x in xs
  }

  lemma SetOfPrefix<T>(xs: seq<T>, n: nat)
    requires n < |xs|
    ensures SetOf(xs[..n + 1]) == SetOf(xs[..n]) + {xs[n]}
    ensures Distinct(xs) ==> xs[n] !in SetOf(xs[..n])
  {
    assert xs[..n + 1] == xs[..n] + [xs[n]];
  }

  /** The events inserted and the jobs reset so far, one event to a job. */
  ghost predicate ResetsSoFar(resets: map<EventId, JobId>, events: set<EventId>, jobs: set<JobId>, n: nat) {
    Injective(resets) && |resets| == n && resets.Values == jobs && resets.Keys == events
  }

  lemma InjectiveInsert(resets: map<EventId, JobId>, e: EventId, j: JobId)
    requires Injective(resets) && j !in resets.Values
    ensures Injective(resets[e := j])
  {
    forall x | x in resets ensures resets[x] != j {
      assert resets[x] in resets.Values;
    }
  }

  lemma NextReset(resets: map<EventId, JobId>, e: EventId, j: JobId)
    requires Injective(resets) && e !in resets && j !in resets.Values
    ensures ResetsSoFar(resets[e := j], resets.Keys + {e}, resets.Values + {j}, |resets| + 1)
  {
    ValuesOfInsert(resets, e, j);
    InjectiveInsert(resets, e, j);
  }

  /** The first n jobs are reset, each with the event of the same index. */
  ghost predicate FirstReset(resets: map<EventId, JobId>, ids: seq<JobId>, newIds: seq<EventId>, n: nat)
    requires n <= |ids| <= |newIds|
  {
    ResetsSoFar(resets, SetOf(newIds[..n]), SetOf(ids[..n]), n)
  }

  lemma NextFirst(resets: map<EventId, JobId>, ids: seq<JobId>, newIds: seq<EventId>, n: nat)
    requires n < |ids| <= |newIds| && Distinct(ids) && Distinct(newIds) && FirstReset(resets, ids, newIds, n)
    ensures newIds[n] !in resets && ids[n] !in resets.Values
    ensures FirstReset(resets[newIds[n] := ids[n]], ids, newIds, n + 1)
  {
    SetOfPrefix(newIds, n);
    SetOfPrefix(ids, n);
    NextReset(resets, newIds[n], ids[n]);
  }

  lemma AllFirst(resets: map<EventId, JobId>, ids: seq<JobId>, newIds: seq<EventId>)
    requires |ids| <= |newIds| && FirstReset(resets, ids, newIds, |ids|)
    ensures Injective(resets) && |resets| == |ids| && resets.Values == SetOf(ids) && resets.Keys <= SetOf(newIds)
  {
    assert ids[..|ids|] == ids;
  }

  lemma AllReset(db: Db, resets: map<EventId, JobId>, stuckBefore: Time, limit: nat, now: Time)
    requires |resets| <= limit && Injective(resets) && resets.Keys !! db.events.Keys
    requires resets.Values <= StuckJobs(db.jobs, stuckBefore)
    ensures EnabledService(db, Sweep(resets, stuckBefore, limit, now)) && resets.Values <= db.jobs.Keys
    ensures SweptSoFar(db, resets, now) == Apply(db, SweepWrites(db.jobs, resets, now))
  {
    SweptIsApplied(db, resets, now);
    forall e | e in resets ensures resets[e] in StuckJobs(db.jobs, stuckBefore) {
      assert resets[e] in resets.Values;
    }
  }

  /** The loop body for one job, which this sweep has not touched yet. */
  method ResetOne(
    uow: UnitOfWork, id: JobId, event: EventId, now: Time, ghost db: Db, ghost resets: map<EventId, JobId>)
    requires resets.Values <= db.jobs.Keys && id in db.jobs && id !in resets.Values && event !in resets
    requires uow.session == SweptSoFar(db, resets, now)
    modifies uow`session
    ensures resets[event := id].Values <= db.jobs.Keys && uow.session == SweptSoFar(db, resets[event := id], now)
  {
    OneMoreReset(db, resets, event, id, now);
    var job := uow.session.jobs[id].(status := JobPending);
    job := job.(lastError := Some(SWEEPER_ERROR));
    job := job.(updatedAt := now);
    uow.session := uow.session.(jobs := uow.session.jobs[id := job]);
    Services.CreateEvent(uow, id, event, now);
  }

  lemma NothingReset(db: Db, ids: seq<JobId>, newIds: seq<EventId>, now: Time)
    requires |ids| <= |newIds|
    ensures FirstReset(map[], ids, newIds, 0) && SweptSoFar(db, map[], now) == db
  {
    assert db.jobs + map[] == db.jobs && db.events + map[] == db.events;
  }

  /** The first n jobs of the batch are reset in the session. */
  ghost predicate ResetUpTo(
    db: Db, later: Db, resets: map<EventId, JobId>, ids: seq<JobId>, newIds: seq<EventId>, n: nat, now: Time)
    requires n <= |ids| <= |newIds|
  {
    FirstReset(resets, ids, newIds, n) && resets.Values <= db.jobs.Keys && later == SweptSoFar(db, resets, now)
  }

  method ResetNext(
    uow: UnitOfWork, ids: seq<JobId>, newIds: seq<EventId>, i: nat, now: Time, ghost db: Db, ghost resets: map<EventId, JobId>)
    requires i < |ids| <= |newIds| && Distinct(ids) && Distinct(newIds) && ids[i] in db.jobs
    requires ResetUpTo(db, uow.session, resets, ids, newIds, i, now)
    modifies uow`session
    ensures ResetUpTo(db, uow.session, resets[newIds[i] := ids[i]], ids, newIds, i + 1, now)
  {
    NextFirst(resets, ids, newIds, i);
    ResetOne(uow, ids[i], newIds[i], now, db, resets);
  }

  method ResetEach(uow: UnitOfWork, ids: seq<JobId>, newIds: seq<EventId>, now: Time)
    returns (count: nat, ghost resets: map<EventId, JobId>)
    requires |ids| <= |newIds| && Distinct(ids) && Distinct(newIds)
    requires forall i :: 0 <= i < |ids| ==> ids[i] in uow.session.jobs
    modifies uow`session
    ensures count == |ids| && ResetUpTo(old(uow.session), uow.session, resets, ids, newIds, |ids|, now)
  {
    ghost var db := uow.session;
    count, resets := 0, map[];
    NothingReset(db, ids, newIds, now);
    for i := 0 to |ids|
      invariant count == i && ResetUpTo(db, uow.session, resets, ids, newIds, i, now)
    {
      ResetNext(uow, ids, newIds, i, now, db, resets);
      resets := resets[newIds[i] := ids[i]];
      count := count + 1;
    }
  }

  lemma ResetJobColumns(db: Db, resets: map<EventId, JobId>, stuckBefore: Time, limit: nat, now: Time)
    requires EnabledService(db, Sweep(resets, stuckBefore, limit, now))
    requires forall e :: e in resets ==> resets[e] in db.jobs
    ensures var t := Apply(db, SweepWrites(db.jobs, resets, now));
            forall j :: j in db.jobs ==>
              j in t.jobs && SweptRow(db.jobs[j], t.jobs[j], j in resets.Values, stuckBefore, now)
  {
    var t := Apply(db, SweepWrites(db.jobs, resets, now));
    forall j | j in db.jobs ensures j in t.jobs && SweptRow(db.jobs[j], t.jobs[j], j in resets.Values, stuckBefore, now) {
      SweptRows(db, resets, stuckBefore, limit, now, j);
    }
  }

  lemma ResetEventColumns(db: Db, resets: map<EventId, JobId>, now: Time)
    requires forall e :: e in resets ==> resets[e] in db.jobs
    ensures var t := Apply(db, SweepWrites(db.jobs, resets, now));
            forall e :: e in resets ==> e in t.events && DueAlways(t.events[e], resets[e], now)
  {
  }

  /** One sweep is one Sweep step of the atomic machine. It returns exactly how many jobs it moved to PENDING,
      which is how many dispatch events it created. */
  method ResetStuckRunningJobs(
    uow: UnitOfWork, stuckBefore: Time, limit: nat, now: Time, lockedRows: set<JobId>, newIds: seq<EventId>)
    returns (count: nat, ghost resets: map<EventId, JobId>)
    requires |newIds| >= limit && Distinct(newIds) && SetOf(newIds) !! uow.session.events.Keys
    modifies uow`session
    ensures EnabledService(old(uow.session), Sweep(resets, stuckBefore, limit, now))
    ensures uow.session == Apply(old(uow.session), SweepWrites(old(uow.session.jobs), resets, now))
    ensures count == |resets| == |resets.Values| <= limit && resets.Values !! lockedRows
    ensures forall j :: j in old(uow.session.jobs) ==>
      j in uow.session.jobs && SweptRow(old(uow.session.jobs)[j], uow.session.jobs[j], j in resets.Values, stuckBefore, now)
    ensures count < limit ==>
      forall j :: j in old(uow.session.jobs) && j !in lockedRows ==>
        old(uow.session.jobs)[j].status == JobRunning && old(uow.session.jobs)[j].updatedAt < stuckBefore ==> j in resets.Values
    ensures forall e :: e in resets ==> e in uow.session.events && DueAlways(uow.session.events[e], resets[e], now)
  {
    ghost var db := uow.session;
    var ids := ListStuckRunning(uow, stuckBefore, limit, lockedRows);
    count, resets := ResetEach(uow, ids, newIds, now);
    AllFirst(resets, ids, newIds);
    AllReset(db, resets, stuckBefore, limit, now);
    InjectiveSize(resets);
    ResetJobColumns(db, resets, stuckBefore, limit, now);
    ResetEventColumns(db, resets, now);
  }

  /******* Repeated sweeps *******/

  datatype Sweeping = Sweeping(resets: map<EventId, JobId>, stuckBefore: Time, now: Time)

  /** A sweep that finds every RUNNING job past its cutoff and none of them locked. */
  ghost predicate FullSweep(db: Db, sweep: Sweeping, limit: nat) {
    && EnabledService(db, Sweep(sweep.resets, sweep.stuckBefore, limit, sweep.now))
    && StuckJobs(db.jobs, sweep.stuckBefore) == RunningJobs(db.jobs)
    && (|sweep.resets| < limit ==> sweep.resets.Values == RunningJobs(db.jobs))
  }

  lemma {:induction false} InjectiveSize(resets: map<EventId, JobId>)
    requires Injective(resets)
    ensures |resets.Values| == |resets|
    decreases |resets.Keys|
  {
    if e :| e in resets {
      var fewer := resets - {e};
      InjectiveSize(fewer);
      ValuesOfInsert(fewer, e, resets[e]);
      assert fewer[e := resets[e]] == resets;
      forall j | j in fewer.Values ensures j != resets[e] {
        var other :| other in fewer && fewer[other] == j;
        assert other in resets && resets[other] == j;
      }
    } else {
      assert resets == map[];
    }
  }

  function LeftAfter(n: nat, swept: nat): nat {
    if n <= swept then 0 else n - swept
  }

  lemma RunningAfter(jobs: map<JobId, Job>, resets: map<EventId, JobId>, now: Time)
    requires forall e :: e in resets ==> resets[e] in jobs
    ensures RunningJobs(jobs + SweepWrites(jobs, resets, now).jobs) == RunningJobs(jobs) - resets.Values
  {
  }

  ghost function AfterSweep(db: Db, sweep: Sweeping, limit: nat): Db
    requires FullSweep(db, sweep, limit)
  {
    Apply(db, SweepWrites(db.jobs, sweep.resets, sweep.now))
  }

  lemma FullSweepResets(db: Db, sweep: Sweeping, limit: nat)
    requires FullSweep(db, sweep, limit)
    ensures forall e :: e in sweep.resets ==> sweep.resets[e] in db.jobs
    ensures sweep.resets.Values <= RunningJobs(db.jobs) && |sweep.resets.Values| == |sweep.resets| <= limit
    ensures |sweep.resets| < limit ==> sweep.resets.Values == RunningJobs(db.jobs)
  {
    InjectiveSize(sweep.resets);
    forall j | j in sweep.resets.Values ensures j in RunningJobs(db.jobs) {
      var e :| e in sweep.resets && sweep.resets[e] == j;
      assert j in StuckJobs(db.jobs, sweep.stuckBefore);
    }
  }

  lemma SweepLeaves(db: Db, sweep: Sweeping, limit: nat)
    requires FullSweep(db, sweep, limit)
    ensures |RunningJobs(AfterSweep(db, sweep, limit).jobs)| == LeftAfter(|RunningJobs(db.jobs)|, limit)
  {
    FullSweepResets(db, sweep, limit);
    RunningAfter(db.jobs, sweep.resets, sweep.now);
    SizeOfDifference(RunningJobs(db.jobs), sweep.resets.Values);
  }

  lemma SizeOfDifference(a: set<JobId>, b: set<JobId>)
    requires b <= a
    ensures |a - b| == |a| - |b|
  {
    assert a == (a - b) + b;
  }

  ghost predicate SweepRun(db: Db, sweeps: seq<Sweeping>, limit: nat, later: Db)
    decreases |sweeps|
  {
    if sweeps == [] then db == later
    else FullSweep(db, sweeps[0], limit) && SweepRun(AfterSweep(db, sweeps[0], limit), sweeps[1..], limit, later)
  }

  lemma LeftAfterBoth(n: nat, sweeps: nat, limit: nat)
    requires sweeps > 0
    ensures LeftAfter(n, sweeps * limit) == LeftAfter(LeftAfter(n, limit), (sweeps - 1) * limit)
  {
    assert sweeps * limit == limit + (sweeps - 1) * limit;
    assert (sweeps - 1) * limit >= 0;
  }

  /** With no new failures, k sweeps of `limit` jobs leave exactly n - k * limit of n RUNNING jobs, so
      none once k * limit >= n. */
  lemma {:induction false} SweepsEmptyTheStuckSet(db: Db, sweeps: seq<Sweeping>, limit: nat, later: Db)
    requires SweepRun(db, sweeps, limit, later)
    ensures |RunningJobs(later.jobs)| == LeftAfter(|RunningJobs(db.jobs)|, |sweeps| * limit)
    decreases |sweeps|
  {
    if sweeps != [] {
      SweepLeaves(db, sweeps[0], limit);
      SweepsEmptyTheStuckSet(AfterSweep(db, sweeps[0], limit), sweeps[1..], limit, later);
      LeftAfterBoth(|RunningJobs(db.jobs)|, |sweeps|, limit);
    }
  }
}
