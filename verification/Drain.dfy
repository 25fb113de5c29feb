/** The publisher's drain loop (publish_pending_events in src/outbox/service.py) as a function: one invocation
    claims batches and settles their events until a batch is not full or the database raises, while others
    commit rows of their own. */
module Drain {
  import opened Rows
  import opened Outbox
  import opened Ordering

  /** What calling the dispatcher, and then marking the event, comes to. */
  datatype Sending = Delivered | Undelivered(error: string, terminal: bool) | Unmarked(error: string)

  /** What the invocation meets, by the number of times the world has been consulted: the clock, the dispatcher,
      the jitter, the rows others have committed since the last time (at finitely many times, before `quiet`),
      and whether the database raises. */
  datatype World = World(
    clock: nat -> Time, sending: nat -> Sending, jitter: nat -> nat,
    quiet: nat, others: nat -> map<EventId, Event>, fails: nat -> bool)

  /** The event table, the dispatcher calls made so far, the count to return, whether a database error ended the
      invocation, and by how much the commits of others have raised the measure below. */
  datatype Progress = Progress(
    events: map<EventId, Event>, calls: seq<EventId>, published: nat, tick: nat, raised: bool, added: nat)

  predicate Due(event: Event, now: Time) {
    event.status.EventPending? && (event.nextAttemptAt.None? || event.nextAttemptAt.value <= now)
  }

  function DueKeys(events: map<EventId, Event>, now: Time): set<Key> {
    set e | e in events && Due(events[e], now) :: Key(events[e].createdAt, e)
  }

  function Ids(keys: seq<Key>): (ids: seq<EventId>)
    ensures |ids| == |keys|
    ensures forall i :: 0 <= i < |ids| ==> ids[i] == keys[i].id
  {
    seq(|keys|, i requires 0 <= i < |keys| => keys[i].id)
  }

  ghost function PendingBatchIds(events: map<EventId, Event>, now: Time, limit: nat): seq<EventId> {
    Ids(Take(OrderBy(Ascending, DueKeys(events, now)), limit))
  }

  function Jitter(world: World, tick: nat, retryCount: nat): nat {
    Min(world.jitter(tick), BackoffCeiling(retryCount))
  }

  /** The row an event is left with once it was claimed PENDING. */
  function SettledEvent(event: Event, world: World, tick: nat): Event {
    var now, delay := world.clock(tick), Jitter(world, tick, event.retryCount + 1);
    if event.eventType != JOB_DISPATCH_REQUESTED then UnsupportedEvent(event)
    else match world.sending(tick)
      case Delivered => PublishedEvent(event, now)
      case Undelivered(error, terminal) => FailedPublish(event, error, terminal, now, delay)
      case Unmarked(error) => FailedPublish(event, error, false, now, delay)
  }

  /******* The measure *******/

  /** Claims a PENDING event can still take part in. */
  function Claims(event: Event): nat {
    if !event.status.EventPending? then 0
    else if event.retryCount <= MAX_PUBLISH_RETRIES then MAX_PUBLISH_RETRIES + 1 - event.retryCount
    else 1
  }

  ghost function Weight(events: map<EventId, Event>): nat
    decreases |events.Keys|
  {
    if events.Keys == {} then 0
    else
      var e :| e in events.Keys;
      assert (events - {e}).Keys == events.Keys - {e};
      Claims(events[e]) + Weight(events - {e})
  }

  lemma {:induction false} WeightWithout(events: map<EventId, Event>, id: EventId)
    requires id in events
    ensures Weight(events) == Claims(events[id]) + Weight(events - {id})
    decreases |events.Keys|
  {
    var e :| e in events.Keys && Weight(events) == Claims(events[e]) + Weight(events - {e});
    if e != id {
      assert (events - {e}).Keys == events.Keys - {e};
      assert events - {e} - {id} == events - {id} - {e};
      WeightWithout(events - {e}, id);
      WeightWithout(events - {id}, e);
    }
  }

  lemma WeightOfUpdate(events: map<EventId, Event>, id: EventId, row: Event)
    requires id in events
    ensures Weight(events[id := row]) + Claims(events[id]) == Weight(events) + Claims(row)
  {
    assert events[id := row] - {id} == events - {id};
    WeightWithout(events, id);
    WeightWithout(events[id := row], id);
  }

  function OthersRows(world: World, tick: nat): map<EventId, Event> {
    if tick < world.quiet then world.others(tick) else map[]
  }

  function Rise(before: nat, after: nat): nat {
    if after <= before then 0 else after - before
  }

  /** The rows of others become visible. */
  ghost function Interfered(p: Progress, world: World): Progress {
    var events := p.events + OthersRows(world, p.tick);
    p.(events := events, added := p.added + Rise(Weight(p.events), Weight(events)))
  }

  ghost function PublishOne(p: Progress, id: EventId, world: World): Progress {
    var q := Interfered(p, world).(tick := p.tick + 1);
    if id !in q.events || !q.events[id].status.EventPending? then q
    else
      var event := q.events[id];
      var dispatched := event.eventType == JOB_DISPATCH_REQUESTED;
      var called := q.(calls := if dispatched then q.calls + [id] else q.calls);
      if world.fails(p.tick) then called.(raised := true)
      else
        called.(
          events := q.events[id := SettledEvent(event, world, p.tick)],
          published := if dispatched && world.sending(p.tick).Delivered? then q.published + 1 else q.published)
  }

  ghost function PublishAll(p: Progress, ids: seq<EventId>, world: World): Progress
    decreases |ids|
  {
    if ids == [] || p.raised then p else PublishAll(PublishOne(p, ids[0], world), ids[1..], world)
  }

  /** A settled event lowers the measure, even when the jitter is 0 and it is due again at once. */
  lemma SettlingFalls(p: Progress, id: EventId, world: World)
    ensures var seen, q := Interfered(p, world), PublishOne(p, id, world);
            && q.tick == p.tick + 1 && |q.calls| <= |p.calls| + 1 && q.added == seen.added
            && if id in seen.events && seen.events[id].status.EventPending? && !world.fails(p.tick)
               then Weight(q.events) < Weight(seen.events) && q.raised == p.raised
               else q.events == seen.events && (q.calls == p.calls || q.raised)
  {
    var seen := Interfered(p, world);
    if id in seen.events && seen.events[id].status.EventPending? {
      WeightOfUpdate(seen.events, id, SettledEvent(seen.events[id], world, p.tick));
    }
  }

  /** Between two points of one invocation: only appended calls, each paid for by the measure consumed or by what
      others added to it, but for one more call when the database raises after it. */
  ghost predicate PaidFor(p: Progress, q: Progress) {
    && p.calls <= q.calls && p.tick <= q.tick && (p.raised ==> q.raised)
    && |q.calls| + Weight(q.events) + p.added
       <= |p.calls| + Weight(p.events) + q.added + if q.raised && !p.raised then 1 else 0
  }

  lemma PaidForBoth(p: Progress, q: Progress, r: Progress)
    requires PaidFor(p, q) && PaidFor(q, r)
    ensures PaidFor(p, r)
  {
  }

  lemma OnePaidFor(p: Progress, id: EventId, world: World)
    requires !p.raised
    ensures PaidFor(p, PublishOne(p, id, world))
  {
    SettlingFalls(p, id, world);
  }

  lemma {:induction false} AllPaidFor(p: Progress, ids: seq<EventId>, world: World)
    ensures PaidFor(p, PublishAll(p, ids, world))
    decreases |ids|
  {
    if ids != [] && !p.raised {
      OnePaidFor(p, ids[0], world);
      AllPaidFor(PublishOne(p, ids[0], world), ids[1..], world);
      PaidForBoth(p, PublishOne(p, ids[0], world), PublishAll(p, ids, world));
    }
  }

  ghost function OrderedDue(events: map<EventId, Event>, now: Time): seq<EventId> {
    Ids(OrderBy(Ascending, DueKeys(events, now)))
  }

  lemma BatchIsPrefix(events: map<EventId, Event>, now: Time, limit: nat)
    ensures PendingBatchIds(events, now, limit) == Take(OrderedDue(events, now), limit)
  {
  }

  lemma OrderedDueKey(events: map<EventId, Event>, now: Time, i: nat)
    requires i < |OrderedDue(events, now)|
    ensures var id := OrderedDue(events, now)[i];
            && id in events && Due(events[id], now)
            && OrderBy(Ascending, DueKeys(events, now))[i] == Key(events[id].createdAt, id)
  {
    var keys := OrderBy(Ascending, DueKeys(events, now));
    assert keys[i] in Elements(keys);
  }

  lemma BatchFirst(events: map<EventId, Event>, now: Time, limit: nat)
    requires PendingBatchIds(events, now, limit) != []
    ensures PendingBatchIds(events, now, limit)[0] in events
    ensures events[PendingBatchIds(events, now, limit)[0]].status.EventPending?
  {
    BatchIsPrefix(events, now, limit);
    OrderedDueKey(events, now, 0);
  }

  /** The progress after the next claimed batch, and whether that batch was full and nothing was raised. */
  ghost function AfterBatch(p: Progress, limit: nat, world: World): Progress {
    var seen := Interfered(p, world).(tick := p.tick + 1);
    if world.fails(p.tick) then seen.(raised := true)
    else PublishAll(seen, PendingBatchIds(seen.events, world.clock(p.tick), limit), world)
  }

  lemma BatchIs(p: Progress, limit: nat, world: World, seen: Progress, ids: seq<EventId>, q: Progress)
    requires seen == Interfered(p, world).(tick := p.tick + 1)
    requires ids == PendingBatchIds(seen.events, world.clock(p.tick), limit)
    requires if world.fails(p.tick) then q == seen.(raised := true) else q == PublishAll(seen, ids, world)
    ensures q == AfterBatch(p, limit, world)
  {
  }

  ghost predicate FullBatch(p: Progress, limit: nat, world: World) {
    && limit > 0 && !AfterBatch(p, limit, world).raised
    && |PendingBatchIds(Interfered(p, world).events, world.clock(p.tick), limit)| == limit
  }

  lemma InterferencePaidFor(p: Progress, world: World)
    ensures PaidFor(p, Interfered(p, world).(tick := p.tick + 1))
  {
  }

  lemma BatchPaidFor(p: Progress, limit: nat, world: World)
    ensures PaidFor(p, AfterBatch(p, limit, world)) && AfterBatch(p, limit, world).tick > p.tick
  {
    var seen := Interfered(p, world).(tick := p.tick + 1);
    InterferencePaidFor(p, world);
    if !world.fails(p.tick) {
      AllPaidFor(seen, PendingBatchIds(seen.events, world.clock(p.tick), limit), world);
      PaidForBoth(p, seen, AfterBatch(p, limit, world));
    }
  }

  /** Once others are quiet, nothing but the invocation itself changes the table. */
  lemma QuietStays(p: Progress, world: World)
    requires p.tick >= world.quiet
    ensures Interfered(p, world) == p
  {
    assert p.events + map[] == p.events;
  }

  lemma {:induction false} QuietAllFalls(p: Progress, ids: seq<EventId>, world: World)
    requires p.tick >= world.quiet
    ensures Weight(PublishAll(p, ids, world).events) <= Weight(p.events)
    decreases |ids|
  {
    if ids != [] && !p.raised {
      QuietStays(p, world);
      SettlingFalls(p, ids[0], world);
      QuietAllFalls(PublishOne(p, ids[0], world), ids[1..], world);
    }
  }

  lemma FirstFalls(p: Progress, ids: seq<EventId>, world: World)
    requires p.tick >= world.quiet && !PublishAll(p, ids, world).raised
    requires ids != [] && ids[0] in p.events && p.events[ids[0]].status.EventPending?
    ensures Weight(PublishAll(p, ids, world).events) < Weight(p.events)
  {
    QuietStays(p, world);
    SettlingFalls(p, ids[0], world);
    QuietAllFalls(PublishOne(p, ids[0], world), ids[1..], world);
  }

  /** Times at which others may still commit. */
  function Unquiet(p: Progress, world: World): nat {
    if p.tick < world.quiet then world.quiet - p.tick else 0
  }

  lemma BatchAtMost(p: Progress, limit: nat, world: World)
    ensures |PendingBatchIds(Interfered(p, world).events, world.clock(p.tick), limit)| <= limit
  {
  }

  lemma QuietBatchFalls(p: Progress, limit: nat, world: World)
    requires FullBatch(p, limit, world) && p.tick >= world.quiet
    ensures Weight(AfterBatch(p, limit, world).events) < Weight(p.events)
  {
    var seen := Interfered(p, world).(tick := p.tick + 1);
    QuietStays(p, world);
    BatchFirst(seen.events, world.clock(p.tick), limit);
    FirstFalls(seen, PendingBatchIds(seen.events, world.clock(p.tick), limit), world);
  }

  /** A full batch brings the invocation closer to the time others are quiet, and from then on strictly lowers
      the measure, so the loop terminates. */
  lemma BatchFalls(p: Progress, limit: nat, world: World)
    requires FullBatch(p, limit, world)
    ensures var q := AfterBatch(p, limit, world);
            Unquiet(q, world) < Unquiet(p, world)
            || (Unquiet(q, world) == Unquiet(p, world) && Weight(q.events) < Weight(p.events))
  {
    BatchPaidFor(p, limit, world);
    if p.tick >= world.quiet {
      QuietBatchFalls(p, limit, world);
    }
  }

  /** One invocation, with any finite number of commits by others meanwhile. */
  ghost function Drained(p: Progress, limit: nat, world: World): Progress
    decreases Unquiet(p, world), Weight(p.events)
  {
    var q := AfterBatch(p, limit, world);
    if !FullBatch(p, limit, world) then q
    else
      BatchFalls(p, limit, world);
      Drained(q, limit, world)
  }

  /** An invocation makes at most as many dispatcher calls as the measure it consumes and others add, and one more
      if the database raises, whatever the clock, the dispatcher and the jitter do. */
  lemma {:induction false} DispatchesBounded(p: Progress, limit: nat, world: World)
    ensures PaidFor(p, Drained(p, limit, world))
    decreases Unquiet(p, world), Weight(p.events)
  {
    BatchPaidFor(p, limit, world);
    if FullBatch(p, limit, world) {
      BatchFalls(p, limit, world);
      DispatchesBounded(AfterBatch(p, limit, world), limit, world);
      PaidForBoth(p, AfterBatch(p, limit, world), Drained(p, limit, world));
    }
  }

  /** A limit of 0 claims nothing: the one batch size that does not drain. */
  lemma ZeroLimitStops(p: Progress, world: World)
    ensures Drained(p, 0, world) == Interfered(p, world).(tick := p.tick + 1, raised := p.raised || world.fails(p.tick))
  {
    assert PendingBatchIds(Interfered(p, world).events, world.clock(p.tick), 0) == [];
  }

  /******* Batch-size independence *******/

  ghost predicate FrozenAndReliable(world: World, now: Time) {
    world.quiet == 0 && forall t: nat :: world.clock(t) == now && world.sending(t).Delivered? && !world.fails(t)
  }

  /** The table after every due event is settled: supported ones PUBLISHED, others FAILED. */
  function SettledTable(events: map<EventId, Event>, due: set<EventId>, now: Time): map<EventId, Event> {
    map e | e in events ::
      if e !in due then events[e]
      else if events[e].eventType == JOB_DISPATCH_REQUESTED then PublishedEvent(events[e], now)
      else UnsupportedEvent(events[e])
  }

  function DueIds(events: map<EventId, Event>, now: Time): set<EventId> {
    set e | e in events && Due(events[e], now)
  }

  function Supported(events: map<EventId, Event>, ids: seq<EventId>): seq<EventId> {
    if ids == [] then []
    else
      var rest := Supported(events, ids[1..]);
      if ids[0] in events && events[ids[0]].eventType == JOB_DISPATCH_REQUESTED then [ids[0]] + rest else rest
  }

  lemma {:induction false} SupportedAppend(events: map<EventId, Event>, xs: seq<EventId>, ys: seq<EventId>)
    ensures Supported(events, xs + ys) == Supported(events, xs) + Supported(events, ys)
  {
    if xs == [] {
      assert xs + ys == ys;
    } else {
      assert (xs + ys)[1..] == xs[1..] + ys;
      SupportedAppend(events, xs[1..], ys);
    }
  }

  lemma {:induction false} SupportedSame(events: map<EventId, Event>, later: map<EventId, Event>, ids: seq<EventId>)
    requires events.Keys == later.Keys && forall e :: e in events ==> later[e].eventType == events[e].eventType
    ensures Supported(later, ids) == Supported(events, ids)
  {
    if ids != [] {
      SupportedSame(events, later, ids[1..]);
    }
  }

  function IdSet(ids: seq<EventId>): set<EventId> {
    set e | e in ids
  }

  /** `q` is `p` with the events of `ids` settled, in that order. */
  ghost predicate Settles(p: Progress, q: Progress, ids: seq<EventId>, now: Time) {
    && q.events == SettledTable(p.events, IdSet(ids), now)
    && q.calls == p.calls + Supported(p.events, ids)
    && q.published == p.published + |Supported(p.events, ids)| && q.raised == p.raised
  }

  ghost predicate DistinctPending(events: map<EventId, Event>, ids: seq<EventId>) {
    && (forall i, j :: 0 <= i < j < |ids| ==> ids[i] != ids[j])
    && (forall i :: 0 <= i < |ids| ==> ids[i] in events && events[ids[i]].status.EventPending?)
  }

  lemma OneSettles(p: Progress, id: EventId, world: World, now: Time)
    requires FrozenAndReliable(world, now) && DistinctPending(p.events, [id])
    ensures Settles(p, PublishOne(p, id, world), [id], now)
  {
    QuietStays(p, world);
    assert Supported(p.events, [id][1..]) == [];
    assert [id][0] in p.events && p.events[[id][0]].status.EventPending?;
    assert id in [id];
  }

  lemma SettlesCompose(p: Progress, q: Progress, r: Progress, xs: seq<EventId>, ys: seq<EventId>, now: Time)
    requires Settles(p, q, xs, now) && Settles(q, r, ys, now) && forall e :: e in xs ==> e !in ys
    ensures Settles(p, r, xs + ys, now)
  {
    SupportedAppend(p.events, xs, ys);
    SupportedSame(p.events, q.events, ys);
    assert r.events == SettledTable(p.events, IdSet(xs + ys), now);
  }

  lemma RestPending(p: Progress, q: Progress, ids: seq<EventId>, now: Time)
    requires ids != [] && DistinctPending(p.events, ids) && Settles(p, q, [ids[0]], now)
    ensures DistinctPending(q.events, ids[1..])
    ensures forall e :: e in [ids[0]] ==> e !in ids[1..]
  {
    assert forall e :: e in IdSet([ids[0]]) <==> e == ids[0];
  }

  lemma {:induction false} AllSettle(p: Progress, ids: seq<EventId>, world: World, now: Time)
    requires !p.raised && FrozenAndReliable(world, now) && DistinctPending(p.events, ids)
    ensures Settles(p, PublishAll(p, ids, world), ids, now)
    decreases |ids|
  {
    if ids == [] {
      assert SettledTable(p.events, IdSet(ids), now) == p.events;
    } else {
      var q := PublishOne(p, ids[0], world);
      OneSettles(p, ids[0], world, now);
      RestPending(p, q, ids, now);
      AllSettle(q, ids[1..], world, now);
      SettlesCompose(p, q, PublishAll(q, ids[1..], world), [ids[0]], ids[1..], now);
      assert [ids[0]] + ids[1..] == ids;
    }
  }

  lemma OrderedDueDistinct(events: map<EventId, Event>, now: Time, i: nat, j: nat)
    requires i < j < |OrderedDue(events, now)|
    ensures OrderedDue(events, now)[i] != OrderedDue(events, now)[j]
  {
    OrderedDueKey(events, now, i);
    OrderedDueKey(events, now, j);
    var keys := OrderBy(Ascending, DueKeys(events, now));
    assert Before(Ascending, keys[i], keys[j]);
  }

  lemma DueIsOrdered(events: map<EventId, Event>, now: Time, e: EventId) returns (i: nat)
    requires e in events && Due(events[e], now)
    ensures i < |OrderedDue(events, now)| && OrderedDue(events, now)[i] == e
  {
    var keys := OrderBy(Ascending, DueKeys(events, now));
    assert Key(events[e].createdAt, e) in Elements(keys);
    i :| 0 <= i < |keys| && keys[i] == Key(events[e].createdAt, e);
  }

  lemma DistinctDue(events: map<EventId, Event>, now: Time)
    ensures DistinctPending(events, OrderedDue(events, now))
    ensures IdSet(OrderedDue(events, now)) == DueIds(events, now)
  {
    var ids := OrderedDue(events, now);
    forall i, j | 0 <= i < j < |ids| ensures ids[i] != ids[j] {
      OrderedDueDistinct(events, now, i, j);
    }
    forall i | 0 <= i < |ids| ensures ids[i] in DueIds(events, now) {
      OrderedDueKey(events, now, i);
    }
    forall e | e in DueIds(events, now) ensures e in ids {
      var i := DueIsOrdered(events, now, e);
    }
  }

  lemma TakenIs(events: map<EventId, Event>, now: Time, n: nat, e: EventId)
    requires n <= |OrderedDue(events, now)| && e in events && Due(events[e], now)
    ensures e in OrderedDue(events, now)[..n]
            <==> Key(events[e].createdAt, e) in OrderBy(Ascending, DueKeys(events, now))[..n]
  {
    var keys, ids, k := OrderBy(Ascending, DueKeys(events, now)), OrderedDue(events, now), Key(events[e].createdAt, e);
    if k in keys[..n] {
      var i :| 0 <= i < n && keys[i] == k;
      assert ids[..n][i] == e;
    }
    if e in ids[..n] {
      var i :| 0 <= i < n && ids[i] == e;
      OrderedDueKey(events, now, i);
      assert keys[..n][i] == k;
    }
  }

  lemma DueKeysOfRest(events: map<EventId, Event>, later: map<EventId, Event>, now: Time, taken: set<Key>)
    requires events.Keys == later.Keys && forall e :: e in events ==> later[e].createdAt == events[e].createdAt
    requires forall e :: e in events ==>
      (Due(later[e], now) <==> Due(events[e], now) && Key(events[e].createdAt, e) !in taken)
    ensures DueKeys(later, now) == DueKeys(events, now) - taken
  {
  }

  lemma KeysAfterBatch(p: Progress, q: Progress, n: nat, now: Time)
    requires n <= |OrderedDue(p.events, now)|
    requires q.events == SettledTable(p.events, IdSet(OrderedDue(p.events, now)[..n]), now)
    ensures DueKeys(q.events, now)
            == DueKeys(p.events, now) - Elements(OrderBy(Ascending, DueKeys(p.events, now))[..n])
  {
    var taken := OrderBy(Ascending, DueKeys(p.events, now))[..n];
    forall e | e in p.events
      ensures Due(q.events[e], now) <==> Due(p.events[e], now) && Key(p.events[e].createdAt, e) !in Elements(taken)
    {
      if Due(p.events[e], now) {
        TakenIs(p.events, now, n, e);
      } else if e in OrderedDue(p.events, now)[..n] {
        var i :| 0 <= i < n && OrderedDue(p.events, now)[i] == e;
        OrderedDueKey(p.events, now, i);
        assert false;
      }
    }
    DueKeysOfRest(p.events, q.events, now, Elements(taken));
  }

  lemma DueAfterBatch(p: Progress, q: Progress, n: nat, now: Time)
    requires n <= |OrderedDue(p.events, now)| && Settles(p, q, OrderedDue(p.events, now)[..n], now)
    ensures OrderedDue(q.events, now) == OrderedDue(p.events, now)[n..]
  {
    KeysAfterBatch(p, q, n, now);
    OrderByRest(Ascending, DueKeys(p.events, now), n);
  }

  lemma DistinctPrefix(events: map<EventId, Event>, ids: seq<EventId>, limit: nat)
    requires DistinctPending(events, ids)
    ensures DistinctPending(events, Take(ids, limit))
    ensures |ids| >= limit ==> forall e :: e in ids[..limit] ==> e !in ids[limit..]
  {
  }

  lemma ReliableBatch(p: Progress, limit: nat, world: World, now: Time)
    requires FrozenAndReliable(world, now)
    ensures AfterBatch(p, limit, world) == PublishAll(p.(tick := p.tick + 1), Take(OrderedDue(p.events, now), limit), world)
    ensures PendingBatchIds(Interfered(p, world).events, world.clock(p.tick), limit) == Take(OrderedDue(p.events, now), limit)
  {
    QuietStays(p, world);
    BatchIsPrefix(p.events, now, limit);
  }

  lemma BatchSettles(p: Progress, limit: nat, world: World, now: Time)
    requires !p.raised && FrozenAndReliable(world, now)
    ensures Settles(p, AfterBatch(p, limit, world), Take(OrderedDue(p.events, now), limit), now)
  {
    ReliableBatch(p, limit, world, now);
    DistinctDue(p.events, now);
    DistinctPrefix(p.events, OrderedDue(p.events, now), limit);
    AllSettle(p.(tick := p.tick + 1), Take(OrderedDue(p.events, now), limit), world, now);
  }

  lemma FullBatchIs(p: Progress, limit: nat, world: World, now: Time)
    requires !p.raised && limit >= 1 && FrozenAndReliable(world, now)
    ensures FullBatch(p, limit, world) <==> |OrderedDue(p.events, now)| >= limit
  {
    ReliableBatch(p, limit, world, now);
    BatchSettles(p, limit, world, now);
  }

  lemma DueSplits(events: map<EventId, Event>, limit: nat, now: Time)
    requires |OrderedDue(events, now)| >= limit
    ensures var due := OrderedDue(events, now);
            due[..limit] + due[limit..] == due && forall e :: e in due[..limit] ==> e !in due[limit..]
  {
    DistinctDue(events, now);
    DistinctPrefix(events, OrderedDue(events, now), limit);
  }

  lemma BatchThenRest(p: Progress, q: Progress, r: Progress, limit: nat, now: Time)
    requires |OrderedDue(p.events, now)| >= limit
    requires Settles(p, q, OrderedDue(p.events, now)[..limit], now) && Settles(q, r, OrderedDue(q.events, now), now)
    ensures Settles(p, r, OrderedDue(p.events, now), now)
  {
    var due := OrderedDue(p.events, now);
    DueAfterBatch(p, q, limit, now);
    DueSplits(p.events, limit, now);
    SettlesCompose(p, q, r, due[..limit], due[limit..], now);
  }

  lemma FullBatchSettles(p: Progress, limit: nat, world: World, now: Time)
    requires !p.raised && limit >= 1 && FrozenAndReliable(world, now)
    ensures if FullBatch(p, limit, world)
            then |OrderedDue(p.events, now)| >= limit
                 && Settles(p, AfterBatch(p, limit, world), OrderedDue(p.events, now)[..limit], now)
                 && Weight(AfterBatch(p, limit, world).events) < Weight(p.events)
            else Settles(p, AfterBatch(p, limit, world), OrderedDue(p.events, now), now)
  {
    BatchSettles(p, limit, world, now);
    FullBatchIs(p, limit, world, now);
    if FullBatch(p, limit, world) {
      BatchFalls(p, limit, world);
      assert Take(OrderedDue(p.events, now), limit) == OrderedDue(p.events, now)[..limit];
    }
  }

  /** With the clock frozen and a dispatcher that never fails, an invocation with any limit >= 1 dispatches
      exactly the due supported events once each in (created_at, id) order, fails the unsupported ones,
      and counts what it published. */
  lemma {:induction false} DrainIsOnePass(p: Progress, limit: nat, world: World, now: Time)
    requires !p.raised && limit >= 1 && FrozenAndReliable(world, now)
    ensures Settles(p, Drained(p, limit, world), OrderedDue(p.events, now), now)
    decreases Weight(p.events)
  {
    FullBatchSettles(p, limit, world, now);
    if FullBatch(p, limit, world) {
      var q := AfterBatch(p, limit, world);
      DrainIsOnePass(q, limit, world, now);
      BatchThenRest(p, q, Drained(q, limit, world), limit, now);
    }
  }

  /** The batch size makes no difference to the table, the dispatches, their order, or the count. */
  lemma BatchSizeIrrelevant(p: Progress, limit: nat, other: nat, world: World, now: Time)
    requires !p.raised && limit >= 1 && other >= 1 && FrozenAndReliable(world, now)
    ensures var a, b := Drained(p, limit, world), Drained(p, other, world);
            && a.events == b.events == SettledTable(p.events, DueIds(p.events, now), now)
            && a.calls == b.calls == p.calls + Supported(p.events, OrderedDue(p.events, now))
            && a.published == b.published && !a.raised && !b.raised
  {
    DrainIsOnePass(p, limit, world, now);
    DrainIsOnePass(p, other, world, now);
    DistinctDue(p.events, now);
  }
}
