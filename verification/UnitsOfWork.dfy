/** One transaction as its own code sees it (src/db/unit_of_work.py): rows it has flushed but not
    committed, and the rows everyone else sees. */
module UnitsOfWork {
  import opened Rows

  class UnitOfWork {
    var committed: Db
    var session: Db
    var broken: bool

    constructor (db: Db)
      ensures committed == session == db && !broken
    {
      committed, session, broken := db, db, false;
    }

    /** A flush that fails outside a savepoint leaves a session that can only be rolled back. */
    method FailFlush()
      modifies `broken
      ensures broken
    {
      broken := true;
    }

    method Rollback()
      modifies `session, `broken
      ensures session == committed && !broken
    {
      session, broken := committed, false;
    }

    method Commit(fault: bool) returns (ok: bool)
      modifies this
      ensures ok == (!fault && !old(broken))
      ensures committed == session == (if ok then old(session) else old(committed)) && !broken
    {
      if fault || broken {
        Rollback();
        return false;
      }
      committed := session;
      ok := true;
    }

    /** __exit__: commit on clean exit, roll back on an exception; all of the session or none of it. */
    method Exit(raised: bool, fault: bool) returns (ok: bool)
      modifies this
      ensures ok == (!raised && !fault && !old(broken))
      ensures committed == session == (if ok then old(session) else old(committed)) && !broken
    {
      if raised {
        Rollback();
        ok := false;
      } else {
        ok := Commit(fault);
      }
    }

    /** Jobs other transactions commit meanwhile, visible to this one's next statement. */
    method ArriveJobs(jobs: map<JobId, Job>)
      modifies `committed, `session
      ensures committed == old(committed).(jobs := old(committed.jobs) + jobs)
      ensures session == old(session).(jobs := old(session.jobs) + jobs)
    {
      committed := committed.(jobs := committed.jobs + jobs);
      session := session.(jobs := session.jobs + jobs);
    }

    /** Rows of any table that arrive in the same way. */
    method Arrive(rows: Db)
      modifies `committed, `session
      ensures committed == Apply(old(committed), rows) && session == Apply(old(session), rows)
    {
      committed, session := Apply(committed, rows), Apply(session, rows);
    }
  }
}
