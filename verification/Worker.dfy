/** A worker's handling of one delivery (src/jobs/pipeline.py, src/jobs/runner.py,
    src/apps/reports/executors.py), row by row, inside one unit of work. */
module Worker {
  import opened Rows
  import opened Pipeline
  import opened Outbox
  import opened Protocol
  import opened Effects
  import opened Steps
  import opened Theorems
  import opened UnitsOfWork

  datatype Begin = NotStarted(reason: string) | Started(attemptNo: nat)

  /** The rows of an attempt that has begun: the job RUNNING with one more attempt and no error, and a RUNNING row. */
  predicate BegunRows(db: Db, later: Db, id: JobId, no: nat, now: Time)
    requires id in db.jobs
  {
    && no == db.jobs[id].attempts + 1 && AttemptKey(id, no) !in db.attempts
    && later == db.(
         jobs := db.jobs[id := db.jobs[id].(status := JobRunning, attempts := no, lastError := None, updatedAt := now)],
         attempts := db.attempts[AttemptKey(id, no) := Attempt(AttemptRunning, None, now, None)])
  }

  method BeginAttempt(uow: UnitOfWork, id: JobId, now: Time) returns (r: Begin)
    modifies uow`session, uow`broken
    ensures !r.Started? ==> r.reason == "duplicate" || (uow.session == old(uow.session) && uow.broken == old(uow.broken))
    ensures id !in old(uow.session.jobs) ==> r == NotStarted("not_found")
    ensures id in old(uow.session.jobs) && old(uow.session.jobs)[id].status in {JobCompleted, JobDead} ==> r == NotStarted("terminal")
    ensures id in old(uow.session.jobs) && old(uow.session.jobs)[id].status in {JobPending, JobRunning} ==>
      if AttemptKey(id, old(uow.session.jobs)[id].attempts + 1) in old(uow.session.attempts)
      then r == NotStarted("duplicate") && uow.broken
      else r.Started? && BegunRows(old(uow.session), uow.session, id, r.attemptNo, now) && uow.broken == old(uow.broken)
  {
    if id !in uow.session.jobs {
      return NotStarted("not_found");
    }
    var job := uow.session.jobs[id];
    if Terminal(job.status) {
      return NotStarted("terminal");
    }
    var no := job.attempts + 1;
    job := job.(status := JobRunning);
    job := job.(attempts := no);
    job := job.(lastError := None);
    job := job.(updatedAt := now);
    if AttemptKey(id, no) in uow.session.attempts {
      uow.FailFlush();
      return NotStarted("duplicate");
    }
    uow.session := uow.session.(
      jobs := uow.session.jobs[id := job],
      attempts := uow.session.attempts[AttemptKey(id, no) := Attempt(AttemptRunning, None, now, None)]);
    return Started(no);
  }

  /** Where finalize_attempt can raise: nowhere, or at one of its two flushes. */
  datatype Fault = NoFault | AtAttempt | AtJob

  /** The rows as finalize_attempt leaves them. */
  function FinalizedRows(db: Db, id: JobId, no: nat, v: Verdict, now: Time): Db
    requires id in db.jobs && AttemptKey(id, no) in db.attempts
  {
    db.(jobs := db.jobs[id := FinishedJob(db.jobs[id], v, now)],
        attempts := db.attempts[AttemptKey(id, no) := FinishedAttempt(db.attempts[AttemptKey(id, no)], v, now)])
  }

  method FinalizeAttempt(
    uow: UnitOfWork, id: JobId, no: nat, v: Verdict, now: Time, fault: Fault)
    returns (raised: bool)
    requires id in uow.session.jobs
    modifies uow`session
    ensures raised == (AttemptKey(id, no) !in old(uow.session.attempts) || !fault.NoFault?)
    ensures !raised ==> uow.session == FinalizedRows(old(uow.session), id, no, v, now)
  {
    var key := AttemptKey(id, no);
    if key !in uow.session.attempts || fault.AtAttempt? {
      return true;
    }
    var attempt := uow.session.attempts[key].(status := v.attempt);
    if v.error.Some? {
      attempt := attempt.(error := v.error);
    }
    attempt := attempt.(finishedAt := Some(now));
    uow.session := uow.session.(attempts := uow.session.attempts[key := attempt]);

    var job := uow.session.jobs[id].(status := v.job);
    job := job.(lastError := v.error);
    if v.result.Some? {
      job := job.(result := v.result);
    }
    if fault.AtJob? {
      return true;
    }
    job := job.(updatedAt := now);
    uow.session := uow.session.(jobs := uow.session.jobs[id := job]);
    return false;
  }

  /** The savepoint makes finalization all or nothing, and its failure is swallowed. */
  method SafeFinalizeAttempt(uow: UnitOfWork, id: JobId, no: nat, v: Verdict, now: Time, fault: Fault)
    requires id in uow.session.jobs
    modifies uow`session
    ensures uow.session ==
      if AttemptKey(id, no) in old(uow.session.attempts) && fault.NoFault?
      then FinalizedRows(old(uow.session), id, no, v, now) else old(uow.session)
  {
    var savepoint := uow.session;
    var raised := FinalizeAttempt(uow, id, no, v, now, fault);
    if raised {
      uow.session := savepoint;
    }
  }

  method CompleteReport(uow: UnitOfWork, id: ReportId, result: Doc) returns (r: ReportCompletion)
    modifies uow`session
    ensures r == Pipeline.CompleteReport(Lookup(old(uow.session.reports), id), result)
    ensures uow.session == old(uow.session).(reports :=
      if r.Completed? then old(uow.session.reports)[id := r.report] else old(uow.session.reports))
  {
    if id !in uow.session.reports {
      return ReportNotFound;
    }
    var report := uow.session.reports[id];
    if report.status != ReportPending {
      return InvalidReportState;
    }
    report := report.(result := Some(result));
    report := report.(status := ReportReady);
    uow.session := uow.session.(reports := uow.session.reports[id := report]);
    return Completed(report);
  }

  /** What the executor call leaves in the session. */
  function Executed(db: Db, job: Job, e: Execution): Db {
    db.(reports := db.reports + ReportWrites(TargetOf(job), e.write))
  }

  method CallExecutor(uow: UnitOfWork, job: Job, no: nat, now: Time, input: ExecInput) returns (outcome: ExecOutcome)
    modifies uow`session
    ensures var e := Execute(job, FoundReport(old(uow.session.reports), job), no, now, input);
            outcome == e.outcome && uow.session == Executed(old(uow.session), job, e)
  {
    if input.Unregistered? {
      return NotRegistered;
    }
    if job.jobType != REPORT_GENERATE {
      return input.own;
    }
    var target := RequirePayloadStr(job.payload, "report_id");
    if target.None? {
      return RaisedNonRetryable("Missing/invalid 'report_id' in payload");
    }
    if input.fault {
      return RaisedRetryable(REPORT_RESULT_PERSIST_FAILED);
    }
    var result := BuildResult(target.value, no, now);
    var completion := CompleteReport(uow, target.value, result);
    match completion {
      case ReportNotFound => return RaisedNonRetryable("Report not found: " + target.value);
      case InvalidReportState => return RaisedOther("InvalidReportState: " + target.value);
      case Completed(_) => return Returned(Some(result));
    }
  }

  datatype AttemptOutcome = Noop(reason: string) | Done(needRetry: bool, detail: Option<string>) | Raised

  /** What a begun attempt returns and leaves in the session once its executor ended with `e`. */
  ghost predicate RanWith(
    db: Db, later: Db, id: JobId, no: nat, retries: nat, maxRetries: nat, a: AttemptInput, r: AttemptOutcome, e: Execution)
    requires id in db.jobs && AttemptKey(id, no) in db.attempts
  {
    var v := Classify(e.outcome, db.jobs[id].jobType, retries, maxRetries);
    var ran := Executed(db, db.jobs[id], e);
    && r == (if v.raises then Raised else Done(v.needRetry, v.error))
    && later == if a.finalized then FinalizedRows(ran, id, no, v, a.finished) else ran
  }

  ghost predicate Ran(
    db: Db, later: Db, id: JobId, no: nat, retries: nat, maxRetries: nat, a: AttemptInput, r: AttemptOutcome) {
    && id in db.jobs && AttemptKey(id, no) in db.attempts
    && RanWith(db, later, id, no, retries, maxRetries, a, r,
         Execute(db.jobs[id], FoundReport(db.reports, db.jobs[id]), no, a.started, a.input))
  }

  method RunExecutor(
    uow: UnitOfWork, id: JobId, no: nat, retries: nat, maxRetries: nat, started: Time, input: ExecInput,
    fault: Fault, finished: Time) returns (r: AttemptOutcome)
    requires id in uow.session.jobs && AttemptKey(id, no) in uow.session.attempts
    modifies uow`session
    ensures Ran(old(uow.session), uow.session, id, no, retries, maxRetries, AttemptInput(input, fault.NoFault?, started, finished), r)
    ensures var job := old(uow.session.jobs)[id];
            var outcome := Execute(job, FoundReport(old(uow.session.reports), job), no, started, input).outcome;
            var retried := outcome.RaisedRetryable? && retries < maxRetries;
            && (r.Raised? <==> outcome.RaisedOther?) && (r.Done? ==> (r.needRetry <==> retried))
            && id in uow.session.jobs
            && (fault.NoFault? ==>
                  uow.session.jobs[id].status == if outcome.Returned? then JobCompleted else if retried then JobPending else JobDead)
  {
    var job := uow.session.jobs[id];
    var attemptStatus, jobStatus := AttemptFailed, JobDead;
    var error: Option<string>, result: Option<Doc> := None, None;
    var needRetry, raises := false, false;

    var outcome := CallExecutor(uow, job, no, started, input);
    match outcome {
      case Returned(value) =>
        result, attemptStatus, jobStatus := value, AttemptSucceeded, JobCompleted;
      case NotRegistered =>
        error := Some(NotRegisteredError(job.jobType));
      case RaisedNonRetryable(message) =>
        error := Some(message);
      case RaisedRetryable(message) =>
        if retries >= maxRetries {
          error := Some(DlqMaxRetriesError(message));
        } else {
          jobStatus, error, needRetry := JobPending, Some(message), true;
        }
      case RaisedOther(trace) =>
        error, raises := Some(trace), true;
    }
    SafeFinalizeAttempt(uow, id, no, Verdict(attemptStatus, jobStatus, error, result, needRetry, raises), finished, fault);
    r := if raises then Raised else Done(needRetry, error);
  }

  lemma BegunExecutes(db: Db, id: JobId, started: Time, input: ExecInput)
    requires id in db.jobs
    ensures var job, no := db.jobs[id], db.jobs[id].attempts + 1;
            var begun := Apply(db, BeginWrites(id, job, started));
            && id in begun.jobs && TargetOf(begun.jobs[id]) == TargetOf(job)
            && Execute(begun.jobs[id], FoundReport(begun.reports, begun.jobs[id]), no, started, input)
               == Execute(job, FoundReport(db.reports, job), no, started, input)
  {
    assert db.reports + map[] == db.reports;
  }

  lemma WrittenTwice<K, V>(table: map<K, V>, key: K, first: V, second: V)
    ensures table + map[] == table
    ensures (table + map[key := first])[key := second] == table + map[key := second]
  {
  }

  /** begin_attempt, the executor's write and finalize_attempt, flushed one after the other, are one write set. */
  lemma RowsCompose(db: Db, id: JobId, started: Time, v: Verdict, finished: Time, reports: map<ReportId, Report>)
    requires id in db.jobs
    ensures var job, key := db.jobs[id], AttemptKey(id, db.jobs[id].attempts + 1);
            var begun, attempt := BegunJob(job, started), BegunAttempt(started);
            var ran := Apply(db, BeginWrites(id, job, started)).(reports := db.reports + reports);
            && ran == Apply(db, BeginWrites(id, job, started).(reports := reports))
            && FinalizedRows(ran, id, key.no, v, finished)
               == Apply(db, Db(map[id := FinishedJob(begun, v, finished)], map[key := FinishedAttempt(attempt, v, finished)], map[], reports))
  {
    var job := db.jobs[id];
    var begun, attempt := BegunJob(job, started), BegunAttempt(started);
    WrittenTwice(db.jobs, id, begun, FinishedJob(begun, v, finished));
    WrittenTwice(db.attempts, AttemptKey(id, job.attempts + 1), attempt, FinishedAttempt(attempt, v, finished));
    assert db.events + map[] == db.events;
  }

  lemma FlushesCompose(db: Db, id: JobId, e: Execution, v: Verdict, a: AttemptInput)
    requires id in db.jobs
    ensures var begun := Apply(db, BeginWrites(id, db.jobs[id], a.started));
            var ran := Executed(begun, begun.jobs[id], e);
            Apply(db, WritesFor(id, db.jobs[id], e, v, a))
            == if a.finalized then FinalizedRows(ran, id, db.jobs[id].attempts + 1, v, a.finished) else ran
  {
    assert db.reports + map[] == db.reports;
    assert TargetOf(BegunJob(db.jobs[id], a.started)) == TargetOf(db.jobs[id]);
    RowsCompose(db, id, a.started, v, a.finished, ReportWrites(TargetOf(db.jobs[id]), e.write));
  }

  ghost predicate AttemptedWith(
    db: Db, later: Db, id: JobId, retries: nat, maxRetries: nat, a: AttemptInput, r: AttemptOutcome, e: Execution)
    requires id in db.jobs
  {
    var v := Classify(e.outcome, db.jobs[id].jobType, retries, maxRetries);
    && r == (if v.raises then Raised else Done(v.needRetry, v.error))
    && later == Apply(db, WritesFor(id, db.jobs[id], e, v, a))
  }

  /** The outcome of a started attempt whose commit succeeds, and the rows it then leaves. */
  ghost predicate Attempted(
    db: Db, later: Db, id: JobId, retries: nat, maxRetries: nat, a: AttemptInput, r: AttemptOutcome)
    requires id in db.jobs
  {
    AttemptedWith(db, later, id, retries, maxRetries, a, r,
      Execute(db.jobs[id], FoundReport(db.reports, db.jobs[id]), db.jobs[id].attempts + 1, a.started, a.input))
  }

  /** A committed attempt is the write set the atomic machine applies in one step, with its verdict. */
  lemma AttemptedIsAtomic(
    db: Db, later: Db, id: JobId, retries: nat, maxRetries: nat, a: AttemptInput, r: AttemptOutcome)
    requires id in db.jobs && Attempted(db, later, id, retries, maxRetries, a, r)
    ensures var job, found := db.jobs[id], FoundReport(db.reports, db.jobs[id]);
            var v := AttemptVerdict(job, found, retries, maxRetries, a);
            && r == (if v.raises then Raised else Done(v.needRetry, v.error))
            && later == Apply(db, AttemptWrites(id, job, found, retries, maxRetries, a))
  {
  }

  lemma BegunThenRanWith(
    db: Db, later: Db, id: JobId, retries: nat, maxRetries: nat, a: AttemptInput, r: AttemptOutcome, e: Execution)
    requires id in db.jobs
    requires RanWith(Apply(db, BeginWrites(id, db.jobs[id], a.started)), later, id, db.jobs[id].attempts + 1, retries, maxRetries, a, r, e)
    ensures AttemptedWith(db, later, id, retries, maxRetries, a, r, e)
  {
    FlushesCompose(db, id, e, Classify(e.outcome, db.jobs[id].jobType, retries, maxRetries), a);
  }

  lemma BegunThenRan(db: Db, later: Db, id: JobId, retries: nat, maxRetries: nat, a: AttemptInput, r: AttemptOutcome)
    requires id in db.jobs
    requires Ran(Apply(db, BeginWrites(id, db.jobs[id], a.started)), later, id, db.jobs[id].attempts + 1, retries, maxRetries, a, r)
    ensures Attempted(db, later, id, retries, maxRetries, a, r)
  {
    var e := Execute(db.jobs[id], FoundReport(db.reports, db.jobs[id]), db.jobs[id].attempts + 1, a.started, a.input);
    BegunExecutes(db, id, a.started, a.input);
    BegunThenRanWith(db, later, id, retries, maxRetries, a, r, e);
  }

  /** An exception no classification covers escapes from the attempt. */
  predicate Raises(db: Db, id: JobId, retries: nat, maxRetries: nat, a: AttemptInput)
    requires id in db.jobs
  {
    AttemptVerdict(db.jobs[id], FoundReport(db.reports, db.jobs[id]), retries, maxRetries, a).raises
  }

  lemma BegunRowsAre(db: Db, later: Db, id: JobId, no: nat, now: Time)
    requires id in db.jobs && BegunRows(db, later, id, no, now)
    ensures later == Apply(db, BeginWrites(id, db.jobs[id], now))
  {
    NothingAdded(db.events);
    NothingAdded(db.reports);
    OneAdded(db.jobs, id, BegunJob(db.jobs[id], now));
    OneAdded(db.attempts, AttemptKey(id, no), BegunAttempt(now));
  }

  method RunStarted(
    uow: UnitOfWork, id: JobId, no: nat, retries: nat, maxRetries: nat, started: Time, input: ExecInput,
    fault: Fault, finished: Time, ghost db: Db) returns (r: AttemptOutcome)
    requires id in db.jobs && BegunRows(db, uow.session, id, no, started)
    modifies uow`session
    ensures Attempted(db, uow.session, id, retries, maxRetries, AttemptInput(input, fault.NoFault?, started, finished), r)
    ensures r.Raised? == Raises(db, id, retries, maxRetries, AttemptInput(input, fault.NoFault?, started, finished))
    ensures !r.Noop?
  {
    BegunRowsAre(db, uow.session, id, no, started);
    r := RunExecutor(uow, id, no, retries, maxRetries, started, input, fault, finished);
    BegunThenRan(db, uow.session, id, retries, maxRetries, AttemptInput(input, fault.NoFault?, started, finished), r);
  }

  /** There is nothing to run: the job is missing, COMPLETED or DEAD. */
  predicate Idle(db: Db, id: JobId) {
    id !in db.jobs || db.jobs[id].status == JobCompleted || db.jobs[id].status == JobDead
  }

  /** The attempt row already exists: a state the reachable tables never are in. */
  predicate Duplicate(db: Db, id: JobId) {
    id in db.jobs && AttemptKey(id, db.jobs[id].attempts + 1) in db.attempts
  }

  /** One attempt commits exactly the rows of AttemptWrites, or leaves the committed rows untouched: when there
      is nothing to run, when an unclassified error escapes, or when the commit fails. */
  method ExecuteJobAttempt(
    uow: UnitOfWork, id: JobId, started: Time, retries: nat, maxRetries: nat, input: ExecInput, fault: Fault,
    finished: Time, commitFault: bool) returns (r: AttemptOutcome)
    requires uow.session == uow.committed && !uow.broken
    modifies uow
    ensures uow.session == uow.committed && !uow.broken
    ensures !r.Done? ==> uow.committed == old(uow.committed)
    ensures r.Noop? <==> Idle(old(uow.committed), id) && !commitFault
    ensures r.Noop? ==> r.reason == if id in old(uow.committed.jobs) then "terminal" else "not_found"
    ensures r.Done? <==>
      && !Idle(old(uow.committed), id) && !Duplicate(old(uow.committed), id) && !commitFault
      && !Raises(old(uow.committed), id, retries, maxRetries, AttemptInput(input, fault.NoFault?, started, finished))
    ensures r.Done? ==>
      Attempted(old(uow.committed), uow.committed, id, retries, maxRetries, AttemptInput(input, fault.NoFault?, started, finished), r)
  {
    var begin := BeginAttempt(uow, id, started);
    var raised := false;
    match begin {
      case NotStarted(reason) =>
        r := Noop(reason);
      case Started(no) =>
        r := RunStarted(uow, id, no, retries, maxRetries, started, input, fault, finished, uow.committed);
        raised := r.Raised?;
    }
    var ok := uow.Exit(raised, commitFault);
    if !ok {
      r := Raised;
    }
  }

  /** What a finalized attempt that commits decides, on the rows it leaves. */
  lemma AttemptedDecides(db: Db, later: Db, id: JobId, retries: nat, maxRetries: nat, a: AttemptInput, r: AttemptOutcome)
    requires id in db.jobs && Attempted(db, later, id, retries, maxRetries, a, r) && r.Done?
    ensures var key := AttemptKey(id, db.jobs[id].attempts + 1);
            && id in later.jobs && key in later.attempts
            && if a.finalized
               then Decided(OutcomeOn(db, id, a), retries, maxRetries, db.jobs[id], a, later.jobs[id], later.attempts[key], r.needRetry)
               else LeftRunning(db.jobs[id], a, later.jobs[id], later.attempts[key])
  {
    var job, found := db.jobs[id], FoundReport(db.reports, db.jobs[id]);
    AttemptedIsAtomic(db, later, id, retries, maxRetries, a, r);
    if a.finalized {
      VerdictDecides(id, job, found, retries, maxRetries, a);
    } else {
      SwallowedLeavesRunning(id, job, found, retries, maxRetries, a);
    }
  }

  /** The whole delivery: an attempt that commits decides as Decided says, the successor message being the retry it
      asks for; a missing, COMPLETED or DEAD job, an unclassified error or a failed commit leave nothing. */
  method RunProcessJob(
    uow: UnitOfWork, id: JobId, started: Time, retries: nat, maxRetries: nat, input: ExecInput, fault: Fault,
    finished: Time, commitFault: bool) returns (raised: bool, successor: Option<Msg>)
    requires uow.session == uow.committed && !uow.broken
    modifies uow
    ensures raised || Idle(old(uow.committed), id) ==> uow.committed == old(uow.committed) && successor.None?
    ensures successor.Some? ==> successor.value == Msg(id, retries + 1, Ready) && retries < maxRetries
    ensures raised <==>
      || commitFault
      || (&& !Idle(old(uow.committed), id)
          && (|| Duplicate(old(uow.committed), id)
              || OutcomeOn(old(uow.committed), id, AttemptInput(input, fault.NoFault?, started, finished)).RaisedOther?))
    ensures !raised && !Idle(old(uow.committed), id) ==>
      var a, key := AttemptInput(input, fault.NoFault?, started, finished), AttemptKey(id, old(uow.committed.jobs)[id].attempts + 1);
      && id in uow.committed.jobs && key in uow.committed.attempts
      && (successor.Some? <==> OutcomeOn(old(uow.committed), id, a).RaisedRetryable? && retries < maxRetries)
      && if fault.NoFault?
         then Decided(OutcomeOn(old(uow.committed), id, a), retries, maxRetries, old(uow.committed.jobs)[id], a,
                uow.committed.jobs[id], uow.committed.attempts[key], successor.Some?)
         else LeftRunning(old(uow.committed.jobs)[id], a, uow.committed.jobs[id], uow.committed.attempts[key])
  {
    ghost var db, a := uow.committed, AttemptInput(input, fault.NoFault?, started, finished);
    var outcome := ExecuteJobAttempt(uow, id, started, retries, maxRetries, input, fault, finished, commitFault);
    if !Idle(db, id) {
      RaisesIff(db.jobs[id], FoundReport(db.reports, db.jobs[id]), retries, maxRetries, a);
    }
    match outcome {
      case Raised => return true, None;
      case Noop(_) => return false, None;
      case Done(needRetry, _) =>
        AttemptedDecides(db, uow.committed, id, retries, maxRetries, a, outcome);
        AttemptedRetries(db, uow.committed, id, retries, maxRetries, a, outcome);
        return false, if needRetry then Some(Msg(id, retries + 1, Ready)) else None;
    }
  }

  lemma AttemptedRetries(db: Db, later: Db, id: JobId, retries: nat, maxRetries: nat, a: AttemptInput, r: AttemptOutcome)
    requires id in db.jobs && Attempted(db, later, id, retries, maxRetries, a, r) && r.Done?
    ensures r.needRetry <==> OutcomeOn(db, id, a).RaisedRetryable? && retries < maxRetries
  {
  }

  /** An attempt that commits is one RunAttempt step of the atomic machine, with the same decision to retry. */
  lemma AttemptIsOneStep(s: Sys, i: nat, m: Msg, later: Db, a: AttemptInput, r: AttemptOutcome)
    requires i < |s.broker| && s.broker[i] == m && m.phase.Ready? && !Idle(s.db, m.job)
    requires Attempted(s.db, later, m.job, m.retries, s.maxRetries, a, r) && r.Done?
    ensures Enabled(s, RunAttempt(i, a)) && Next(s, RunAttempt(i, a)).db == later
    ensures NextBroker(s, RunAttempt(i, a))[i].phase == Handled(r.needRetry)
  {
    AttemptedIsAtomic(s.db, later, m.job, m.retries, s.maxRetries, a, r);
    RunsAttempt(s, i, m, s.db.jobs[m.job], FoundReport(s.db.reports, s.db.jobs[m.job]), a);
  }

  /** In a reachable state the attempt row is never a duplicate. */
  lemma NeverDuplicate(s: Sys, id: JobId)
    requires Reachable(s)
    ensures !Duplicate(s.db, id)
  {
    if id in s.db.jobs {
      NextAttemptNumberFree(s, id);
    }
  }
}
