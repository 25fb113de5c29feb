/** Single steps of the atomic machine with the whole state each leads to. */
module Steps {
  import opened Rows
  import opened Pipeline
  import opened Outbox
  import opened Submission
  import opened Protocol

  lemma NothingAdded<K, V>(m: map<K, V>)
    ensures m + map[] == m
  {
  }

  lemma OneAdded<K, V>(m: map<K, V>, k: K, v: V)
    ensures m + map[k := v] == m[k := v]
  {
  }

  lemma SubmitFresh(s: Sys, req: Request, job: JobId, event: EventId)
    requires Resolve(s.db.jobs, req).Fresh? && job !in s.db.jobs && event !in s.db.events
    ensures var a := Submit(req, job, event, 0, 0);
            && Enabled(s, a)
            && Next(s, a) == Sys(s.db.(jobs := s.db.jobs[job := NewJob(req, 0)], events := s.db.events[event := NewEvent(job, 0)]),
                               s.broker, s.log + [Submitted(req, job)], s.maxRetries)
  {
    NothingAdded(s.db.attempts);
    NothingAdded(s.db.reports);
    OneAdded(s.db.jobs, job, NewJob(req, 0));
    OneAdded(s.db.events, event, NewEvent(job, 0));
  }

  lemma DispatchEvent(s: Sys, e: EventId)
    requires EnabledPublisher(s, Dispatch(e))
    ensures Next(s, Dispatch(e)) == Sys(s.db, s.broker + [Msg(s.db.events[e].jobId, 0, Ready)],
                                      s.log + [Dispatched(e, s.db.events[e].jobId)], s.maxRetries)
  {
    assert Apply(s.db, NO_ROWS) == s.db;
  }

  lemma CopyReady(s: Sys, i: nat)
    requires i < |s.broker| && s.broker[i].phase.Ready?
    ensures Enabled(s, CopyMessage(i))
    ensures Next(s, CopyMessage(i)) == Sys(s.db, s.broker + [s.broker[i]], s.log + [Repeated(s.broker[i].job)], s.maxRetries)
  {
    assert Apply(s.db, NO_ROWS) == s.db;
  }

  lemma RunsAttempt(s: Sys, i: nat, m: Msg, job: Job, found: Option<Report>, a: AttemptInput)
    requires i < |s.broker| && s.broker[i] == m && m.phase.Ready? && Lookup(s.db.jobs, m.job) == Some(job) && !Terminal(job.status)
    requires found == FoundReport(s.db.reports, job) && !AttemptVerdict(job, found, m.retries, s.maxRetries, a).raises
    ensures var v := AttemptVerdict(job, found, m.retries, s.maxRetries, a);
            && Enabled(s, RunAttempt(i, a))
            && Next(s, RunAttempt(i, a)) == Sys(
                 Apply(s.db, AttemptWrites(m.job, job, found, m.retries, s.maxRetries, a)),
                 s.broker[i := m.(phase := Handled(v.needRetry))], s.log + if a.finalized then [] else [Swallowed(m.job)], s.maxRetries)
  {
  }

  lemma EventStep(s: Sys, a: Action, row: Event)
    requires EnabledPublisher(s, a) && !a.Dispatch? && WritesOf(s, a) == EventWrite(a.event, row)
    ensures Next(s, a).db == s.db.(events := s.db.events[a.event := row])
    ensures Next(s, a).broker == s.broker && Next(s, a).maxRetries == s.maxRetries
  {
    NothingAdded(s.db.jobs);
    NothingAdded(s.db.attempts);
    NothingAdded(s.db.reports);
    OneAdded(s.db.events, a.event, row);
  }

  lemma {:induction false} Bound(ids: set<nat>) returns (bound: nat)
    ensures forall id :: id in ids ==> id < bound
    decreases |ids|
  {
    if id :| id in ids {
      var rest := Bound(ids - {id});
      bound := if id < rest then rest else id + 1;
      assert forall other :: other in ids ==> other == id || other in ids - {id};
    } else {
      bound := 0;
    }
  }

  /** One swallowed job is reset by a sweep whose cutoff is past it. */
  function SweepFor(job: Job, id: JobId, e: EventId): Action {
    Sweep(map[e := id], job.updatedAt + 1, 1, 0)
  }

  lemma OneResetWrites(jobs: map<JobId, Job>, id: JobId, e: EventId)
    requires id in jobs
    ensures SweepWrites(jobs, map[e := id], 0) == Db(map[id := ResetJob(jobs[id], 0)], map[], map[e := NewEvent(id, 0)], map[])
    ensures (map[e := id]).Values == {id}
  {
    var resets := map[e := id];
    assert resets[e] == id;
    assert resets.Values == {id};
  }

  lemma OneResetEnabled(db: Db, id: JobId, job: Job, e: EventId)
    requires Lookup(db.jobs, id) == Some(job) && job.status.JobRunning? && e !in db.events
    ensures EnabledService(db, SweepFor(job, id, e))
  {
  }

  lemma OneResetApplied(db: Db, id: JobId, e: EventId)
    requires id in db.jobs
    ensures Apply(db, Db(map[id := ResetJob(db.jobs[id], 0)], map[], map[e := NewEvent(id, 0)], map[]))
            == db.(jobs := db.jobs[id := ResetJob(db.jobs[id], 0)], events := db.events[e := NewEvent(id, 0)])
  {
    NothingAdded(db.attempts);
    NothingAdded(db.reports);
    OneAdded(db.jobs, id, ResetJob(db.jobs[id], 0));
    OneAdded(db.events, e, NewEvent(id, 0));
  }

  lemma SweepsOne(s: Sys, id: JobId, job: Job, e: EventId)
    requires Lookup(s.db.jobs, id) == Some(job) && job.status.JobRunning? && e !in s.db.events
    ensures var a := SweepFor(job, id, e);
            && EnabledService(s.db, a)
            && Next(s, a) == Sys(s.db.(jobs := s.db.jobs[id := ResetJob(job, 0)], events := s.db.events[e := NewEvent(id, 0)]),
                               s.broker, s.log + [Swept({id})], s.maxRetries)
  {
    OneResetEnabled(s.db, id, job, e);
    OneResetWrites(s.db.jobs, id, e);
    OneResetApplied(s.db, id, e);
  }
}
