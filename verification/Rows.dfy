/** The committed tables: jobs, job_attempts, outbox_events and reports.

    Ids are opaque: job and event ids are naturals (their order stands for the order
    on UUID strings), a report id is a string because it travels inside a job payload.
    Rows are never deleted, so the tables are finite maps that only grow. */
module Rows {

  datatype Option<+T> = None | Some(value: T)

  type JobId = nat
  type EventId = nat
  type ReportId = string
  type Time = nat

  datatype Json = JString(text: string) | JNumber(number: int)
  type Doc = map<string, Json>

  datatype JobStatus = JobPending | JobRunning | JobCompleted | JobDead
  datatype AttemptStatus = AttemptRunning | AttemptSucceeded | AttemptFailed
  datatype OutboxStatus = EventPending | EventPublished | EventFailed
  datatype ReportStatus = ReportPending | ReportReady | ReportFailed

  datatype Job = Job(
    jobType: string, key: Option<string>, payload: Doc, status: JobStatus, result: Option<Doc>,
    attempts: nat, lastError: Option<string>, createdAt: Time, updatedAt: Time)

  /** Primary key of job_attempts: UNIQUE(job_id, attempt_no). */
  datatype AttemptKey = AttemptKey(job: JobId, no: nat)
  datatype Attempt = Attempt(
    status: AttemptStatus, error: Option<string>, startedAt: Time, finishedAt: Option<Time>)

  datatype Event = Event(
    eventType: string, jobId: JobId, status: OutboxStatus, error: Option<string>, retryCount: nat,
    nextAttemptAt: Option<Time>, publishedAt: Option<Time>, createdAt: Time)

  datatype Report = Report(
    key: Option<string>, status: ReportStatus, jobId: Option<JobId>, result: Option<Doc>)

  datatype Db = Db(
    jobs: map<JobId, Job>, attempts: map<AttemptKey, Attempt>,
    events: map<EventId, Event>, reports: map<ReportId, Report>)

  const NO_ROWS := Db(map[], map[], map[], map[])

  /** The database after the rows of a transaction's write set replace or join its own. */
  function Apply(db: Db, writes: Db): Db {
    Db(db.jobs + writes.jobs, db.attempts + writes.attempts,
       db.events + writes.events, db.reports + writes.reports)
  }

  function Lookup<K, V>(table: map<K, V>, id: K): Option<V> {
    if id in table then Some(table[id]) else None
  }

  /** Columns no code path ever assigns after the insert. */
  predicate SameIdentity(a: Job, b: Job) {
    a.jobType == b.jobType && a.key == b.key && a.payload == b.payload && a.createdAt == b.createdAt
  }

  predicate SameEventIdentity(a: Event, b: Event) {
    a.eventType == b.eventType && a.jobId == b.jobId && a.createdAt == b.createdAt
  }
}
