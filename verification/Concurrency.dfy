/** What the refinement gives every interleaving: the reachable committed states are those of the
    atomic machine, and what is in flight respects the locks. */
module Concurrency {
  import opened Rows
  import opened Pipeline
  import opened Outbox
  import opened Submission
  import opened Protocol
  import opened History
  import opened Safety
  import opened Theorems
  import opened Transactions
  import opened Refinement

  ghost predicate ConcReachable(c: Conc) {
    exists steps :: ConcRun(Conc(Init(c.sys.maxRetries), map[]), steps, c)
  }

  /** Every theorem about reachable states of the atomic machine holds under concurrency. */
  lemma ReachableUnderConcurrency(c: Conc)
    requires ConcReachable(c)
    ensures Reachable(c.sys) && ConcInv(c)
  {
    var start := Conc(Init(c.sys.maxRetries), map[]);
    var steps :| ConcRun(start, steps, c);
    InitInv(c.sys.maxRetries);
    RunRefines(start, steps, c);
  }

  /** The jobs whose rows a transaction changes if it commits, other than by inserting them. */
  function Touched(t: Txn): set<JobId> {
    match t
    case AttemptTxn(_, m, _, _, _) => {m.job}
    case SweepTxn(rows, _, _, _, _) => rows.Keys
    case RetryTxn(job, _, _, _, _) => {job}
    case _ => {}
  }

  lemma TouchedLocked(t: Txn, job: JobId)
    requires job in Touched(t)
    ensures JobRow(job) in Locks(t)
  {
  }

  /** Attempts, sweeps and DLQ retries in flight never share a job. */
  lemma OneWriterPerJob(c: Conc, a: Tid, b: Tid)
    requires ConcReachable(c) && a in c.txns && b in c.txns && a != b
    ensures Touched(c.txns[a]) !! Touched(c.txns[b])
  {
    ReachableUnderConcurrency(c);
    forall job | job in Touched(c.txns[a]) && job in Touched(c.txns[b]) ensures false {
      TouchedLocked(c.txns[a], job);
      TouchedLocked(c.txns[b], job);
    }
  }

  /** The sweeper resets only jobs whose finalization was swallowed, and none with an attempt in flight. */
  lemma SweeperSafe(c: Conc, sweep: Tid, job: JobId)
    requires ConcReachable(c) && sweep in c.txns && c.txns[sweep].SweepTxn? && job in c.txns[sweep].rows
    ensures Swallowed(job) in c.sys.log && job in c.sys.db.jobs && c.sys.db.jobs[job].attempts > 0
    ensures forall tid :: tid in c.txns && c.txns[tid].AttemptTxn? ==> c.txns[tid].m.job != job
  {
    ReachableUnderConcurrency(c);
    assert TxnOk(c.sys, c.txns[sweep]);
    assert JobOk(job, c.sys.db.jobs[job], c.sys.db.attempts);
    forall tid | tid in c.txns && c.txns[tid].AttemptTxn? ensures c.txns[tid].m.job != job {
      OneWriterPerJob(c, tid, sweep);
    }
  }

  lemma LinkedSettles(db: Db, req: Request, target: Target)
    requires KeysOk(db) && LinksOk(db) && TargetOk(db, req, target) && !target.created
    ensures db.reports[target.report].jobId.Some?
    ensures Resolve(db.jobs, req) == Reuse(db.reports[target.report].jobId.value)
  {
    assert Linked(db, target.report, db.reports[target.report]);
    assert JobHolds(db.jobs, req.key.value, db.reports[target.report].jobId.value);
  }

  /** No conflict was met, and the report's job, once recorded, is the one already attached to it. */
  ghost predicate Attaching(db: Db, report: ReportId, p: SubmitStage) {
    && !p.Conflicted?
    && (p.Recorded? ==> p.inserted.None? && report in db.reports && db.reports[report].jobId == Some(p.job))
  }

  lemma RecoveredAttaches(db: Db, req: Request, target: Target, p: SubmitStage)
    requires KeysOk(db) && LinksOk(db) && SubmitOk(db, req, Some(target), p) && !target.created
    ensures Attaching(db, target.report, p)
  {
    LinkedSettles(db, req, target);
    if p.Recorded? {
      SettledResolves(db, req, p.job, p.inserted);
    }
  }

  /** A create_report call that found its key taken after a failed insert never meets a key conflict,
      and reuses exactly the job attached to the report: ReportJobAlreadyAttached is unreachable. */
  lemma RecoveredCreateAttaches(c: Conc, tid: Tid)
    requires ConcReachable(c) && tid in c.txns && c.txns[tid].SubmitTxn?
    requires c.txns[tid].target.Some? && !c.txns[tid].target.value.created
    ensures Attaching(c.sys.db, c.txns[tid].target.value.report, c.txns[tid].progress)
  {
    ReachableUnderConcurrency(c);
    assert TxnOk(c.sys, c.txns[tid]);
    RecoveredAttaches(c.sys.db, c.txns[tid].req, c.txns[tid].target.value, c.txns[tid].progress);
  }

  /** An attempt in flight works on rows nobody else can change: its next attempt number is free, so the
      insert that begin_attempt guards with IntegrityError cannot fail. */
  lemma AttemptInFlight(c: Conc, tid: Tid)
    requires ConcReachable(c) && tid in c.txns && c.txns[tid].AttemptTxn?
    ensures var t := c.txns[tid];
            && Lookup(c.sys.db.jobs, t.m.job) == Some(t.row) && !Terminal(t.row.status)
            && AttemptKey(t.m.job, t.row.attempts + 1) !in c.sys.db.attempts
  {
    ReachableUnderConcurrency(c);
    assert TxnOk(c.sys, c.txns[tid]);
    NextAttemptNumberFree(c.sys, c.txns[tid].m.job);
  }
}
