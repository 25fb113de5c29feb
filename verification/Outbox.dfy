/** Row transitions of one outbox event (src/outbox/service.py). */
module Outbox {
  import opened Rows

  const MAX_PUBLISH_RETRIES: nat := 5
  const OUTBOX_PUBLISH_BACKOFF_BASE_SECONDS: nat := 30
  const OUTBOX_PUBLISH_BACKOFF_CAP_SECONDS: nat := 600
  const JOB_DISPATCH_REQUESTED := "job.dispatch.requested"

  function NewEvent(job: JobId, now: Time): Event {
    Event(JOB_DISPATCH_REQUESTED, job, EventPending, None, 0, None, None, now)
  }

  function Pow(base: nat, exponent: nat): nat {
    if exponent == 0 then 1 else base * Pow(base, exponent - 1)
  }

  function Min(a: nat, b: nat): nat {
    if a <= b then a else b
  }

  /** Upper end of the jitter interval of backoff_delay_seconds. */
  function BackoffCeiling(retryCount: nat): nat {
    Min(OUTBOX_PUBLISH_BACKOFF_BASE_SECONDS * Pow(2, if retryCount == 0 then 0 else retryCount - 1),
        OUTBOX_PUBLISH_BACKOFF_CAP_SECONDS)
  }

  lemma Ceilings()
    ensures BackoffCeiling(1) == 30 && BackoffCeiling(2) == 60 && BackoffCeiling(3) == 120
    ensures BackoffCeiling(4) == 240 && BackoffCeiling(5) == 480
  {
    assert Pow(2, 1) == 2 && Pow(2, 2) == 4;
    assert Pow(2, 3) == 2 * Pow(2, 2) && Pow(2, 4) == 2 * Pow(2, 3);
  }

  function UpdatedEvent(event: Event, status: OutboxStatus, error: Option<string>, publishedAt: Option<Time>): Event {
    event.(status := status, error := error, publishedAt := publishedAt, nextAttemptAt := None)
  }

  function RescheduledEvent(event: Event, error: string, now: Time, delay: nat): Event {
    event.(status := EventPending, error := Some(error), retryCount := event.retryCount + 1,
           publishedAt := None, nextAttemptAt := Some(now + delay))
  }

  function PublishedEvent(event: Event, now: Time): Event {
    UpdatedEvent(event, EventPublished, None, Some(now))
  }

  function UnsupportedEvent(event: Event): Event {
    UpdatedEvent(event, EventFailed, Some("Unsupported outbox event type: " + event.eventType), None)
  }

  function DecidePublishFailure(terminal: bool, currentRetryCount: nat): OutboxStatus {
    if terminal || currentRetryCount + 1 > MAX_PUBLISH_RETRIES then EventFailed else EventPending
  }

  /** _handle_publish_failure on the row it re-fetched. */
  function FailedPublish(event: Event, error: string, terminal: bool, now: Time, delay: nat): Event {
    if DecidePublishFailure(terminal, event.retryCount).EventFailed?
    then UpdatedEvent(event, EventFailed, Some(error), None)
    else RescheduledEvent(event, error, now, delay)
  }

  function Column<T(==)>(current: T, loaded: T, modified: T): T {
    if modified == loaded then current else modified
  }

  /** The ORM's UPDATE names only the columns whose value differs from the loaded one. */
  function OrmUpdate(current: Event, loaded: Event, modified: Event): Event {
    current.(
      status := Column(current.status, loaded.status, modified.status),
      error := Column(current.error, loaded.error, modified.error),
      retryCount := Column(current.retryCount, loaded.retryCount, modified.retryCount),
      nextAttemptAt := Column(current.nextAttemptAt, loaded.nextAttemptAt, modified.nextAttemptAt),
      publishedAt := Column(current.publishedAt, loaded.publishedAt, modified.publishedAt))
  }
}
