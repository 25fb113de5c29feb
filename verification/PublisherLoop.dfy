/** The outbox publisher as it runs (src/outbox/service.py): it updates event rows in place, counts what
    it published, and keeps claiming batches while they are full. */
module PublisherLoop {
  import opened Rows
  import opened Outbox
  import opened Ordering
  import opened Drain
  import opened DrainLaws
  import opened Effects

  class Publisher {
    var events: map<EventId, Event>
    var calls: seq<EventId>
    var tick: nat
    ghost var added: nat
    const world: World

    constructor (events: map<EventId, Event>, world: World)
      ensures this.events == events && calls == [] && tick == 0 && added == 0 && this.world == world
    {
      this.events, calls, tick, added, this.world := events, [], 0, 0, world;
    }

    ghost function Progressed(published: nat, raised: bool): Progress
      reads this
    {
      Progress(events, calls, published, tick, raised, added)
    }

    /** Rows that others have committed become visible to the next statement. */
    method Observe()
      modifies `events, `added
      ensures forall n: nat :: Progressed(n, false) == Interfered(old(Progressed(n, false)), world)
    {
      added := added + Rise(Weight(events), Weight(events + OthersRows(world, tick)));
      events := events + OthersRows(world, tick);
    }

    method UpdateEvent(id: EventId, status: OutboxStatus, error: Option<string>, publishedAt: Option<Time>)
      requires id in events
      modifies `events
      ensures events == old(events)[id := UpdatedEvent(old(events)[id], status, error, publishedAt)]
    {
      var event := events[id].(status := status);
      event := event.(error := error);
      event := event.(publishedAt := publishedAt);
      event := event.(nextAttemptAt := None);
      events := events[id := event];
    }

    method ScheduleRetry(id: EventId, error: string, now: Time)
      requires id in events
      modifies `events
      ensures events == old(events)[id :=
        RescheduledEvent(old(events)[id], error, now, Jitter(world, tick, old(events)[id].retryCount + 1))]
    {
      var event := events[id].(status := EventPending);
      event := event.(error := Some(error));
      event := event.(retryCount := event.retryCount + 1);
      event := event.(publishedAt := None);
      event := event.(nextAttemptAt := Some(now + Jitter(world, tick, event.retryCount)));
      events := events[id := event];
    }

    method HandlePublishFailure(id: EventId, error: string, terminal: bool)
      requires id in events
      modifies `events
      ensures events == old(events)[id := FailedPublish(old(events)[id], error, terminal, world.clock(tick),
                                            Jitter(world, tick, old(events)[id].retryCount + 1))]
      ensures FailureLeaves(old(events)[id], events[id], error, terminal, world.clock(tick),
                Jitter(world, tick, old(events)[id].retryCount + 1))
    {
      FailedPublishLeaves(events[id], error, terminal, world.clock(tick), Jitter(world, tick, events[id].retryCount + 1));
      var decision := DecidePublishFailure(terminal, events[id].retryCount);
      if decision.EventFailed? {
        UpdateEvent(id, EventFailed, Some(error), None);
        return;
      }
      ScheduleRetry(id, error, world.clock(tick));
    }

    /** Settles a claimed event; a failure after the row was changed rolls the row back before recording itself. */
    method PublishSingleEvent(id: EventId) returns (published: bool)
      requires id in events && events[id].status.EventPending?
      modifies `events, `calls
      ensures events == old(events)[id := SettledEvent(old(events)[id], world, tick)]
      ensures SettledLeaves(old(events)[id], events[id], world, tick)
      ensures calls == if old(events)[id].eventType == JOB_DISPATCH_REQUESTED then old(calls) + [id] else old(calls)
      ensures published == (old(events)[id].eventType == JOB_DISPATCH_REQUESTED && world.sending(tick).Delivered?)
    {
      SettledColumns(events[id], world, tick);
      if events[id].eventType != JOB_DISPATCH_REQUESTED {
        UpdateEvent(id, EventFailed, Some("Unsupported outbox event type: " + events[id].eventType), None);
        return false;
      }
      var savedRows := events;
      calls := calls + [id];
      match world.sending(tick) {
        case Delivered =>
          UpdateEvent(id, EventPublished, None, Some(world.clock(tick)));
          published := true;
        case Undelivered(error, terminal) =>
          events := savedRows;
          HandlePublishFailure(id, error, terminal);
          published := false;
        case Unmarked(error) =>
          UpdateEvent(id, EventPublished, None, Some(world.clock(tick)));
          events := savedRows;
          HandlePublishFailure(id, error, false);
          published := false;
      }
    }

    /** The session of one event: lock it, re-check that it is PENDING, publish it and commit. When the commit
        raises, the row is as it was, but the dispatcher was called. */
    method ProcessEvent(id: EventId) returns (published: bool, raised: bool)
      modifies this
      ensures forall n: nat ::
        Progressed(if published then n + 1 else n, raised) == PublishOne(old(Progressed(n, false)), id, world)
    {
      published, raised := false, false;
      Observe();
      if id in events && events[id].status.EventPending? {
        var committed := events;
        published := PublishSingleEvent(id);
        if world.fails(tick) {
          events, published, raised := committed, false, true;
        }
      }
      tick := tick + 1;
    }

    method GetPendingBatchIds(now: Time, limit: nat) returns (ids: seq<EventId>)
      ensures ids == PendingBatchIds(events, now, limit)
      ensures OldestDue(events, now, limit, ids)
    {
      var keys, rest := [], DueKeys(events, now);
      ghost var all := OrderBy(Ascending, rest);
      while |keys| < limit && rest != {}
        invariant |keys| <= limit && all == keys + OrderBy(Ascending, rest)
        decreases |rest|
      {
        ghost var first := FirstExists(Ascending, rest);
        var k :| k in rest && IsFirst(Ascending, rest, k);
        OrderByFirst(Ascending, rest, k);
        keys, rest := keys + [k], rest - {k};
      }
      NoElements(OrderBy(Ascending, rest));
      assert keys == Take(all, limit);
      ids := Ids(keys);
      BatchIsOldestDue(events, now, limit);
    }

    /** The events of one batch, each in its own session, until the database raises. */
    method PublishBatch(ids: seq<EventId>, counted: nat) returns (count: nat, raised: bool)
      modifies this
      ensures Progressed(count, raised) == PublishAll(old(Progressed(counted, false)), ids, world)
    {
      count, raised := counted, false;
      ghost var claimed := Progressed(counted, false);
      for i := 0 to |ids|
        invariant !raised && PublishAll(Progressed(count, raised), ids[i..], world) == PublishAll(claimed, ids, world)
      {
        ghost var before := Progressed(count, raised);
        var published;
        published, raised := ProcessEvent(ids[i]);
        if published {
          count := count + 1;
        }
        assert Progressed(count, raised) == PublishOne(before, ids[i], world);
        if raised {
          return;
        }
      }
    }

    /** One claimed batch: others' rows are observed, the due ids are read, and their events are processed. */
    method ClaimBatch(limit: nat, counted: nat) returns (ids: seq<EventId>, count: nat, raised: bool)
      modifies this
      ensures var p := old(Progressed(counted, false));
              && Progressed(count, raised) == AfterBatch(p, limit, world)
              && ids == PendingBatchIds(Interfered(p, world).events, world.clock(p.tick), limit)
    {
      ghost var p := Progressed(counted, false);
      Observe();
      count := counted;
      ids := GetPendingBatchIds(world.clock(tick), limit);
      raised := world.fails(tick);
      tick := tick + 1;
      ghost var seen := Progressed(counted, false);
      if !raised {
        count, raised := PublishBatch(ids, counted);
      }
      BatchIs(p, limit, world, seen, ids, Progressed(count, raised));
    }

    /** One invocation of the publisher is the function Drained; a database error leaves it without a count. */
    method PublishPendingEvents(limit: nat) returns (count: nat, raised: bool)
      modifies this
      ensures Progressed(count, raised) == Drained(old(Progressed(0, false)), limit, world)
      ensures world.quiet == 0 ==>
        count == |PublishedIds(events)| - |PublishedIds(old(events))|
    {
      count, raised := 0, false;
      ghost var start := Progressed(0, false);
      if world.quiet == 0 {
        CountIsPublished(start, limit, world);
      }
      while true
        invariant !raised && Drained(Progressed(count, raised), limit, world) == Drained(start, limit, world)
        decreases Unquiet(Progressed(count, raised), world), Weight(events)
      {
        ghost var p := Progressed(count, raised);
        var ids;
        ids, count, raised := ClaimBatch(limit, count);
        if raised || |ids| == 0 || |ids| < limit {
          BatchAtMost(p, limit, world);
          break;
        }
        BatchAtMost(p, limit, world);
        BatchFalls(p, limit, world);
      }
    }
  }
}
