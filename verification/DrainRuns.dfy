/** An invocation of the publisher, alone at work, is a serial run of the atomic machine. */
module DrainRuns {
  import opened Rows
  import opened Outbox
  import opened Protocol
  import opened Safety
  import opened Theorems
  import opened Publishers
  import opened Drain
  import opened Chains
  import opened Steps

  ghost predicate EventsAre(s: Sys, t: Sys, events: map<EventId, Event>) {
    t.db == s.db.(events := events) && t.maxRetries == s.maxRetries
  }

  lemma SerialStepOnce(s: Sys, a: Action, t: Sys)
    requires Inv(s) && SerialNext(s, a, t)
    ensures Chain(SerialNext, s, [a], t) && Inv(t)
  {
    StepKeepsInv(s, a);
    ChainOfOne(SerialNext, s, a, t);
  }

  /** The step that settles a claimed event, after its dispatch if there was one. */
  function SettlingAction(event: Event, id: EventId, world: World, tick: nat): Action {
    var now, delay := world.clock(tick), Jitter(world, tick, event.retryCount + 1);
    if event.eventType != JOB_DISPATCH_REQUESTED then RejectEvent(id)
    else match world.sending(tick)
      case Delivered => MarkPublished(id, now)
      case Undelivered(error, terminal) => RecordFailure(id, event, error, terminal, now, delay)
      case Unmarked(error) => RecordFailure(id, event, error, false, now, delay)
  }

  predicate Sent(event: Event, world: World, tick: nat) {
    event.eventType == JOB_DISPATCH_REQUESTED && !world.sending(tick).Undelivered?
  }

  lemma SettlingWrites(s: Sys, event: Event, id: EventId, world: World, tick: nat)
    requires id in s.db.events && s.db.events[id] == event && event.status.EventPending?
      && event.retryCount <= MAX_PUBLISH_RETRIES
    requires Sent(event, world, tick) ==> Dispatched(id, event.jobId) in s.log
    ensures var a := SettlingAction(event, id, world, tick);
            && EnabledPublisher(s, a) && Serial(s, a) && !a.Dispatch? && a.event == id
            && WritesOf(s, a) == EventWrite(id, SettledEvent(event, world, tick))
  {
  }

  lemma Settling(s: Sys, id: EventId, world: World, tick: nat) returns (t: Sys)
    requires Inv(s) && id in s.db.events && s.db.events[id].status.EventPending?
    requires Sent(s.db.events[id], world, tick) ==> Dispatched(id, s.db.events[id].jobId) in s.log
    ensures Chain(SerialNext, s, [SettlingAction(s.db.events[id], id, world, tick)], t) && Inv(t)
    ensures EventsAre(s, t, s.db.events[id := SettledEvent(s.db.events[id], world, tick)])
  {
    var a := SettlingAction(s.db.events[id], id, world, tick);
    SettlingWrites(s, s.db.events[id], id, world, tick);
    EventStep(s, a, SettledEvent(s.db.events[id], world, tick));
    t := Next(s, a);
    SerialStepOnce(s, a, t);
  }

  /** The dispatcher call that was not undone by the error it ended in, if there was one. */
  lemma Sending(s: Sys, id: EventId, world: World, tick: nat) returns (actions: seq<Action>, t: Sys)
    requires Inv(s) && id in s.db.events && s.db.events[id].status.EventPending?
    ensures Chain(SerialNext, s, actions, t) && Inv(t) && t.db == s.db && t.maxRetries == s.maxRetries
    ensures Sent(s.db.events[id], world, tick) ==> Dispatched(id, s.db.events[id].jobId) in t.log
  {
    if Sent(s.db.events[id], world, tick) {
      DispatchEvent(s, id);
      t := Next(s, Dispatch(id));
      SerialStepOnce(s, Dispatch(id), t);
      actions := [Dispatch(id)];
      assert t.log[|s.log|] == Dispatched(id, s.db.events[id].jobId);
    } else {
      ChainOfNone(SerialNext, s, s);
      actions, t := [], s;
    }
  }

  lemma EventRuns(s: Sys, id: EventId, world: World, tick: nat) returns (actions: seq<Action>, t: Sys)
    requires Inv(s) && id in s.db.events && s.db.events[id].status.EventPending?
    ensures Chain(SerialNext, s, actions, t) && Inv(t)
    ensures EventsAre(s, t, if world.fails(tick) then s.db.events else s.db.events[id := SettledEvent(s.db.events[id], world, tick)])
  {
    actions, t := Sending(s, id, world, tick);
    if !world.fails(tick) {
      var u := Settling(t, id, world, tick);
      ChainsAppend(SerialNext, s, actions, t, [SettlingAction(s.db.events[id], id, world, tick)], u);
      actions, t := actions + [SettlingAction(s.db.events[id], id, world, tick)], u;
    }
  }

  lemma OneEventRuns(s: Sys, p: Progress, id: EventId, world: World) returns (actions: seq<Action>, t: Sys)
    requires Inv(s) && s.db.events == p.events && world.quiet == 0
    ensures Chain(SerialNext, s, actions, t) && Inv(t) && EventsAre(s, t, PublishOne(p, id, world).events)
  {
    QuietStays(p, world);
    if id in p.events && p.events[id].status.EventPending? {
      actions, t := EventRuns(s, id, world, p.tick);
    } else {
      ChainOfNone(SerialNext, s, s);
      actions, t := [], s;
    }
  }

  lemma {:induction false} AllEventsRun(s: Sys, p: Progress, ids: seq<EventId>, world: World) returns (actions: seq<Action>, t: Sys)
    requires Inv(s) && s.db.events == p.events && world.quiet == 0
    ensures Chain(SerialNext, s, actions, t) && Inv(t) && EventsAre(s, t, PublishAll(p, ids, world).events)
    decreases |ids|
  {
    if ids == [] || p.raised {
      ChainOfNone(SerialNext, s, s);
      return [], s;
    }
    var first, u := OneEventRuns(s, p, ids[0], world);
    var rest, v := AllEventsRun(u, PublishOne(p, ids[0], world), ids[1..], world);
    ChainsAppend(SerialNext, s, first, u, rest, v);
    return first + rest, v;
  }

  lemma BatchRuns(s: Sys, p: Progress, limit: nat, world: World) returns (actions: seq<Action>, t: Sys)
    requires Inv(s) && s.db.events == p.events && world.quiet == 0
    ensures Chain(SerialNext, s, actions, t) && Inv(t) && EventsAre(s, t, AfterBatch(p, limit, world).events)
  {
    var seen := Interfered(p, world).(tick := p.tick + 1);
    QuietStays(p, world);
    if world.fails(p.tick) {
      ChainOfNone(SerialNext, s, s);
      actions, t := [], s;
    } else {
      var ids := PendingBatchIds(seen.events, world.clock(p.tick), limit);
      actions, t := AllEventsRun(s, seen, ids, world);
      BatchIs(p, limit, world, seen, ids, PublishAll(seen, ids, world));
    }
  }

  lemma {:induction false} InvocationChain(s: Sys, p: Progress, limit: nat, world: World) returns (actions: seq<Action>, t: Sys)
    requires Inv(s) && s.db.events == p.events && world.quiet == 0
    ensures Chain(SerialNext, s, actions, t) && Inv(t) && EventsAre(s, t, Drained(p, limit, world).events)
    decreases Unquiet(p, world), Weight(p.events)
  {
    actions, t := BatchRuns(s, p, limit, world);
    if FullBatch(p, limit, world) {
      BatchFalls(p, limit, world);
      var rest, u := InvocationChain(t, AfterBatch(p, limit, world), limit, world);
      ChainsAppend(SerialNext, s, actions, t, rest, u);
      actions, t := actions + rest, u;
    }
  }

  /** From any state that keeps the invariants, a whole invocation while no one else commits is a run of the atomic
      machine in which every failure is recorded on the row as claimed: all invariants, absorbing outcomes and exact
      failure counts hold throughout it, whatever the clock, the dispatcher, the jitter and the database do. */
  lemma InvocationIsSerialRun(s: Sys, p: Progress, limit: nat, world: World) returns (actions: seq<Action>, t: Sys)
    requires Inv(s) && s.db.events == p.events && world.quiet == 0
    ensures SerialRun(s, actions, t) && Inv(t) && EventsAre(s, t, Drained(p, limit, world).events)
  {
    actions, t := InvocationChain(s, p, limit, world);
  }
}
