/** What the publisher loop does to events, on their columns: which it claims and in which order, when it claims one
    again, what it leaves, and what its count counts. */
module DrainLaws {
  import opened Rows
  import opened Outbox
  import opened Ordering
  import opened Effects
  import opened Drain

  /******* Which events are claimed *******/

  /** The event waits to be published, and its next attempt, if it has one, is not in the future. */
  predicate Claimable(event: Event, now: Time) {
    event.status == EventPending && (event.nextAttemptAt == None || event.nextAttemptAt.value <= now)
  }

  predicate Older(events: map<EventId, Event>, a: EventId, b: EventId)
    requires a in events && b in events
  {
    events[a].createdAt < events[b].createdAt || (events[a].createdAt == events[b].createdAt && a < b)
  }

  /** `ids` are the `limit` oldest claimable events, oldest first. */
  ghost predicate OldestDue(events: map<EventId, Event>, now: Time, limit: nat, ids: seq<EventId>) {
    && |ids| <= limit
    && (forall i :: 0 <= i < |ids| ==> ids[i] in events && Claimable(events[ids[i]], now))
    && (forall i, j :: 0 <= i < j < |ids| ==> Older(events, ids[i], ids[j]))
    && (forall e :: e in events && Claimable(events[e], now) && e !in ids ==>
          |ids| == limit && forall i :: 0 <= i < |ids| ==> Older(events, ids[i], e))
  }

  lemma OrderedIsOlder(events: map<EventId, Event>, now: Time, i: nat, j: nat)
    requires i < j < |OrderedDue(events, now)|
    ensures OrderedDue(events, now)[i] in events && OrderedDue(events, now)[j] in events
    ensures Older(events, OrderedDue(events, now)[i], OrderedDue(events, now)[j])
  {
    OrderedDueKey(events, now, i);
    OrderedDueKey(events, now, j);
    var keys := OrderBy(Ascending, DueKeys(events, now));
    assert Before(Ascending, keys[i], keys[j]);
  }

  lemma OrderedIsClaimable(events: map<EventId, Event>, now: Time, i: nat)
    requires i < |OrderedDue(events, now)|
    ensures OrderedDue(events, now)[i] in events && Claimable(events[OrderedDue(events, now)[i]], now)
  {
    OrderedDueKey(events, now, i);
  }

  /** An event is due exactly when it is PENDING with no next attempt, or with one that is not in the future. */
  lemma DueIff(events: map<EventId, Event>, now: Time, e: EventId)
    ensures e in OrderedDue(events, now) <==> e in events && Claimable(events[e], now)
  {
    DistinctDue(events, now);
    assert e in IdSet(OrderedDue(events, now)) <==> e in DueIds(events, now);
  }

  /** Every batch consists of the oldest claimable events. */
  lemma BatchIsOldestDue(events: map<EventId, Event>, now: Time, limit: nat)
    ensures OldestDue(events, now, limit, PendingBatchIds(events, now, limit))
  {
    var all, ids := OrderedDue(events, now), PendingBatchIds(events, now, limit);
    BatchIsPrefix(events, now, limit);
    forall i | 0 <= i < |all| ensures all[i] in events && Claimable(events[all[i]], now) {
      OrderedIsClaimable(events, now, i);
    }
    forall i, j | 0 <= i < j < |all| ensures Older(events, all[i], all[j]) {
      OrderedIsOlder(events, now, i, j);
    }
    forall e | e in events && Claimable(events[e], now) && e !in ids
      ensures |ids| == limit && forall i :: 0 <= i < |ids| ==> Older(events, ids[i], e)
    {
      DueIff(events, now, e);
      var k :| 0 <= k < |all| && all[k] == e;
    }
  }

  /******* What is left of a claimed event *******/

  /** The columns of an event settled at `tick`. */
  predicate SettledLeaves(before: Event, later: Event, world: World, tick: nat) {
    var now, delay := world.clock(tick), Jitter(world, tick, before.retryCount + 1);
    if before.eventType != "job.dispatch.requested" then
      later == before.(status := EventFailed, error := Some("Unsupported outbox event type: " + before.eventType),
                       publishedAt := None, nextAttemptAt := None)
    else
      match world.sending(tick)
      case Delivered =>
        later == before.(status := EventPublished, error := None, publishedAt := Some(now), nextAttemptAt := None)
      case Undelivered(error, terminal) => FailureLeaves(before, later, error, terminal, now, delay)
      case Unmarked(error) => FailureLeaves(before, later, error, false, now, delay)
  }

  lemma SettledColumns(before: Event, world: World, tick: nat)
    ensures SettledLeaves(before, SettledEvent(before, world, tick), world, tick)
  {
    var now, delay := world.clock(tick), Jitter(world, tick, before.retryCount + 1);
    match world.sending(tick)
    case Delivered =>
    case Undelivered(error, terminal) => FailedPublishLeaves(before, error, terminal, now, delay);
    case Unmarked(error) => FailedPublishLeaves(before, error, false, now, delay);
  }

  /** With a frozen clock and a reliable dispatcher, one invocation leaves every claimable event PUBLISHED now, or
      FAILED if its type is not supported, and the others as they were. */
  lemma DrainLeaves(p: Progress, limit: nat, world: World, now: Time, e: EventId)
    requires !p.raised && limit >= 1 && FrozenAndReliable(world, now) && e in p.events
    ensures var before, later := p.events[e], Drained(p, limit, world).events;
            && later.Keys == p.events.Keys
            && later[e] ==
               if !Claimable(before, now) then before
               else if before.eventType == "job.dispatch.requested"
               then before.(status := EventPublished, error := None, publishedAt := Some(now), nextAttemptAt := None)
               else before.(status := EventFailed, error := Some("Unsupported outbox event type: " + before.eventType),
                            publishedAt := None, nextAttemptAt := None)
  {
    BatchSizeIrrelevant(p, limit, limit, world, now);
  }

  lemma {:induction false} SupportedHas(events: map<EventId, Event>, ids: seq<EventId>, e: EventId)
    requires e in events && events[e].eventType == JOB_DISPATCH_REQUESTED
    ensures e in Supported(events, ids) <==> e in ids
    decreases |ids|
  {
    if ids != [] {
      SupportedHas(events, ids[1..], e);
    }
  }

  /** The event of any new work, claimable at every time, is dispatched and PUBLISHED by the next invocation with a
      reliable dispatcher, whatever the time and the limit. */
  lemma NewWorkIsDispatched(p: Progress, limit: nat, world: World, now: Time, e: EventId, job: JobId, at: Time)
    requires !p.raised && limit >= 1 && FrozenAndReliable(world, now)
    requires e in p.events && DueAlways(p.events[e], job, at)
    ensures e in OrderedDue(p.events, now)
    ensures var q := Drained(p, limit, world);
            && p.calls <= q.calls && e in q.calls[|p.calls|..]
            && e in q.events && q.events[e].status == EventPublished
  {
    DueIff(p.events, now, e);
    BatchSizeIrrelevant(p, limit, limit, world, now);
    SupportedHas(p.events, OrderedDue(p.events, now), e);
    DrainLeaves(p, limit, world, now, e);
  }

  /******* What others commit meanwhile *******/

  /** An event that others commit before a claim takes part in it: it is in the batch, or the batch is full. */
  lemma ArrivalIsClaimed(p: Progress, limit: nat, world: World, e: EventId)
    requires p.tick < world.quiet && e in world.others(p.tick)
    requires Claimable(world.others(p.tick)[e], world.clock(p.tick))
    ensures var ids := PendingBatchIds(Interfered(p, world).events, world.clock(p.tick), limit);
            e in ids || |ids| == limit
  {
    BatchIsOldestDue(Interfered(p, world).events, world.clock(p.tick), limit);
  }

  /** An event that others settle after it was claimed is not dispatched again, and keeps the row they committed. */
  lemma SettledByOthersIsSkipped(p: Progress, id: EventId, world: World)
    requires p.tick < world.quiet && id in world.others(p.tick) && world.others(p.tick)[id].status != EventPending
    ensures var q := PublishOne(p, id, world);
            && q.calls == p.calls && q.published == p.published && q.raised == p.raised
            && id in q.events && q.events[id] == world.others(p.tick)[id]
  {
  }

  /******* When an event is claimed again *******/

  /** Others do not write the event. */
  ghost predicate LeftAlone(world: World, e: EventId) {
    forall t: nat :: e !in OthersRows(world, t)
  }

  /** Between two points of an invocation, the event kept its row and was not dispatched. */
  ghost predicate Untouched(p: Progress, q: Progress, e: EventId) {
    Lookup(q.events, e) == Lookup(p.events, e) && p.calls <= q.calls && e !in q.calls[|p.calls|..]
  }

  lemma UntouchedBoth(p: Progress, q: Progress, r: Progress, e: EventId)
    requires Untouched(p, q, e) && Untouched(q, r, e)
    ensures Untouched(p, r, e)
  {
    assert r.calls[|p.calls|..] == q.calls[|p.calls|..] + r.calls[|q.calls|..];
  }

  lemma OtherProcessed(p: Progress, id: EventId, e: EventId, world: World)
    requires LeftAlone(world, e) && id != e
    ensures Untouched(p, PublishOne(p, id, world), e)
  {
    assert e !in OthersRows(world, p.tick);
    var q := PublishOne(p, id, world);
    assert q.calls == p.calls || q.calls == p.calls + [id];
  }

  lemma {:induction false} OthersProcessed(p: Progress, ids: seq<EventId>, e: EventId, world: World)
    requires LeftAlone(world, e) && e !in ids
    ensures Untouched(p, PublishAll(p, ids, world), e)
    decreases |ids|
  {
    if ids != [] && !p.raised {
      OtherProcessed(p, ids[0], e, world);
      OthersProcessed(PublishOne(p, ids[0], world), ids[1..], e, world);
      UntouchedBoth(p, PublishOne(p, ids[0], world), PublishAll(p, ids, world), e);
    }
  }

  /** The event waits for a retry that is not due before `due`. */
  predicate WaitsUntil(p: Progress, e: EventId, due: Time) {
    e in p.events && p.events[e].status == EventPending && p.events[e].nextAttemptAt == Some(due)
  }

  lemma WaitingIsNotClaimed(events: map<EventId, Event>, now: Time, limit: nat, e: EventId, due: Time)
    requires e in events && events[e].nextAttemptAt == Some(due) && now < due
    ensures e !in PendingBatchIds(events, now, limit)
  {
    BatchIsOldestDue(events, now, limit);
    assert !Claimable(events[e], now);
  }

  lemma BatchWaits(p: Progress, limit: nat, world: World, e: EventId, due: Time)
    requires LeftAlone(world, e) && WaitsUntil(p, e, due) && world.clock(p.tick) < due
    ensures Untouched(p, AfterBatch(p, limit, world), e)
  {
    var seen := Interfered(p, world).(tick := p.tick + 1);
    assert e !in OthersRows(world, p.tick);
    assert Untouched(p, seen, e);
    WaitingIsNotClaimed(seen.events, world.clock(p.tick), limit, e, due);
    if !world.fails(p.tick) {
      OthersProcessed(seen, PendingBatchIds(seen.events, world.clock(p.tick), limit), e, world);
      UntouchedBoth(p, seen, AfterBatch(p, limit, world), e);
    }
  }

  lemma DrainedIsLater(p: Progress, limit: nat, world: World)
    ensures p.tick < AfterBatch(p, limit, world).tick <= Drained(p, limit, world).tick
  {
    BatchPaidFor(p, limit, world);
    if FullBatch(p, limit, world) {
      BatchFalls(p, limit, world);
      DispatchesBounded(AfterBatch(p, limit, world), limit, world);
    }
  }

  /** Until the clock reaches the time an event waits for, an invocation neither dispatches nor changes it. */
  lemma {:induction false} DrainWaits(p: Progress, limit: nat, world: World, e: EventId, due: Time)
    requires LeftAlone(world, e) && WaitsUntil(p, e, due)
    requires forall t :: p.tick <= t < Drained(p, limit, world).tick ==> world.clock(t) < due
    ensures Untouched(p, Drained(p, limit, world), e)
    decreases Unquiet(p, world), Weight(p.events)
  {
    DrainedIsLater(p, limit, world);
    BatchWaits(p, limit, world, e, due);
    if FullBatch(p, limit, world) {
      var q := AfterBatch(p, limit, world);
      BatchFalls(p, limit, world);
      DrainWaits(q, limit, world, e, due);
      UntouchedBoth(p, q, Drained(p, limit, world), e);
    }
  }

  /** The dispatcher fails in passing at `tick`, and the event has retries left. */
  predicate FailsInPassing(event: Event, world: World, tick: nat) {
    && event.eventType == "job.dispatch.requested" && event.status == EventPending && event.retryCount < 5
    && match world.sending(tick)
       case Delivered => false
       case Undelivered(_, terminal) => !terminal
       case Unmarked(_) => true
  }

  /** The wait drawn after 0 to 4 retries is the jitter's draw, from 0 to 30, 60, 120, 240 and 480 seconds. */
  lemma JitterDraws(world: World, tick: nat, retries: nat)
    requires retries < 5
    ensures var drawn, ceiling := world.jitter(tick), [30, 60, 120, 240, 480][retries];
            Jitter(world, tick, retries + 1) == if drawn <= ceiling then drawn else ceiling
  {
    Ceilings();
  }

  /** After a transient failure at the time `now` with the drawn delay `d`, the event is PENDING with one more retry,
      and claimable at `t` exactly from now + d on. */
  lemma FailureWaits(event: Event, world: World, tick: nat, t: Time)
    requires FailsInPassing(event, world, tick)
    ensures var later, d := SettledEvent(event, world, tick), Jitter(world, tick, event.retryCount + 1);
            && later.status == EventPending && later.retryCount == event.retryCount + 1
            && later.nextAttemptAt == Some(world.clock(tick) + d)
            && (Claimable(later, t) <==> world.clock(tick) + d <= t)
            && d <= [30, 60, 120, 240, 480][event.retryCount]
            && (world.jitter(tick) <= [30, 60, 120, 240, 480][event.retryCount] ==> d == world.jitter(tick))
  {
    JitterDraws(world, tick, event.retryCount);
    SettledColumns(event, world, tick);
  }

  /** A waiting event stays untouched through the rest of a batch and all that follows, unless a time not before the
      one it waits for was read at a claim. */
  lemma WaitingRedispatch(p: Progress, e: EventId, rest: seq<EventId>, limit: nat, world: World, due: Time)
    requires LeftAlone(world, e) && WaitsUntil(p, e, due) && e !in rest
    ensures var batch := PublishAll(p, rest, world);
            var end := Drained(batch, limit, world);
            Untouched(p, end, e) || exists t :: batch.tick <= t < end.tick && due <= world.clock(t)
  {
    var batch := PublishAll(p, rest, world);
    var end := Drained(batch, limit, world);
    OthersProcessed(p, rest, e, world);
    if forall t :: batch.tick <= t < end.tick ==> world.clock(t) < due {
      DrainWaits(batch, limit, world, e, due);
      UntouchedBoth(p, batch, end, e);
    }
  }

  /** An invocation dispatches an event whose dispatch failed in passing again only after a claim has read a time
      not before now + d. */
  lemma RedispatchWaits(p: Progress, e: EventId, rest: seq<EventId>, limit: nat, world: World)
    requires LeftAlone(world, e) && !p.raised && !world.fails(p.tick) && e !in rest
    requires e in p.events && FailsInPassing(p.events[e], world, p.tick)
    ensures var failed := PublishOne(p, e, world);
            var batch := PublishAll(failed, rest, world);
            var end := Drained(batch, limit, world);
            var due := world.clock(p.tick) + Jitter(world, p.tick, p.events[e].retryCount + 1);
            Untouched(failed, end, e) || exists t :: batch.tick <= t < end.tick && due <= world.clock(t)
  {
    FailedRowWaits(p, e, world);
    WaitingRedispatch(PublishOne(p, e, world), e, rest, limit, world,
      world.clock(p.tick) + Jitter(world, p.tick, p.events[e].retryCount + 1));
  }

  lemma FailedRowWaits(p: Progress, e: EventId, world: World)
    requires LeftAlone(world, e) && !p.raised && !world.fails(p.tick)
    requires e in p.events && FailsInPassing(p.events[e], world, p.tick)
    ensures WaitsUntil(PublishOne(p, e, world), e, world.clock(p.tick) + Jitter(world, p.tick, p.events[e].retryCount + 1))
  {
    assert e !in OthersRows(world, p.tick);
    FailureWaits(p.events[e], world, p.tick, 0);
  }

  /******* What the count counts *******/

  function PublishedIds(events: map<EventId, Event>): set<EventId> {
    set e | e in events && events[e].status == EventPublished
  }

  /** The count has grown by as many events as became PUBLISHED. */
  ghost predicate Counted(p: Progress, q: Progress) {
    |PublishedIds(q.events)| - |PublishedIds(p.events)| == q.published - p.published
  }

  lemma PublishedIdsAfter(events: map<EventId, Event>, id: EventId, row: Event)
    requires id in events && events[id].status == EventPending
    ensures |PublishedIds(events[id := row])| == |PublishedIds(events)| + if row.status == EventPublished then 1 else 0
  {
    if row.status == EventPublished {
      assert PublishedIds(events[id := row]) == PublishedIds(events) + {id};
    } else {
      assert PublishedIds(events[id := row]) == PublishedIds(events);
    }
  }

  lemma SettledPublishedIff(event: Event, world: World, tick: nat)
    ensures SettledEvent(event, world, tick).status == EventPublished
            <==> event.eventType == "job.dispatch.requested" && world.sending(tick).Delivered?
  {
    SettledColumns(event, world, tick);
  }

  lemma OneCounted(p: Progress, id: EventId, world: World)
    requires world.quiet == 0
    ensures Counted(p, PublishOne(p, id, world))
  {
    QuietStays(p, world);
    if id in p.events && p.events[id].status.EventPending? {
      SettledPublishedIff(p.events[id], world, p.tick);
      PublishedIdsAfter(p.events, id, SettledEvent(p.events[id], world, p.tick));
    }
  }

  lemma {:induction false} AllCounted(p: Progress, ids: seq<EventId>, world: World)
    requires world.quiet == 0
    ensures Counted(p, PublishAll(p, ids, world))
    decreases |ids|
  {
    if ids != [] && !p.raised {
      OneCounted(p, ids[0], world);
      AllCounted(PublishOne(p, ids[0], world), ids[1..], world);
    }
  }

  lemma BatchCounted(p: Progress, limit: nat, world: World)
    requires world.quiet == 0
    ensures Counted(p, AfterBatch(p, limit, world))
  {
    var seen := Interfered(p, world).(tick := p.tick + 1);
    var ids := PendingBatchIds(seen.events, world.clock(p.tick), limit);
    QuietStays(p, world);
    assert Counted(p, seen);
    if !world.fails(p.tick) {
      AllCounted(seen, ids, world);
      BatchIs(p, limit, world, seen, ids, PublishAll(seen, ids, world));
    }
  }

  /** The count an invocation returns is the number of events it made PUBLISHED, whatever fails. */
  lemma {:induction false} CountIsPublished(p: Progress, limit: nat, world: World)
    requires world.quiet == 0
    ensures Counted(p, Drained(p, limit, world))
    decreases Unquiet(p, world), Weight(p.events)
  {
    BatchCounted(p, limit, world);
    if FullBatch(p, limit, world) {
      BatchFalls(p, limit, world);
      CountIsPublished(AfterBatch(p, limit, world), limit, world);
    }
  }
}
