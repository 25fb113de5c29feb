/** Publishers of one event: absorbing outcomes and exact failure counts while they do not overlap,
    and what an overlap can do. */
module Publishers {
  import opened Rows
  import opened Pipeline
  import opened Outbox
  import opened Submission
  import opened Protocol
  import opened Chains
  import opened History
  import opened Safety
  import opened Theorems
  import opened Sums
  import opened Transactions
  import opened Refinement

  /******* Without overlap *******/

  /** A failure is recorded on the row as the failing publisher claimed it. */
  ghost predicate Serial(s: Sys, a: Action) {
    a.RecordFailure? && a.event in s.db.events ==>
      s.db.events[a.event].status.EventPending? && a.loaded == s.db.events[a.event]
  }

  function Failures(event: EventId): Entry -> nat {
    (e: Entry) => if e.FailureRecorded? && e.event == event then 1 else 0
  }

  /** The recorded failures of an event, by its status. */
  ghost predicate BookKept(log: seq<Entry>, id: EventId, event: Event) {
    var failures := SumBy(Failures(id), log);
    match event.status
    case EventPending => failures == event.retryCount
    case EventPublished => failures == event.retryCount
    case EventFailed =>
      if event.eventType != JOB_DISPATCH_REQUESTED then failures == event.retryCount
      else failures == event.retryCount + 1
           && (FailureRecorded(id, true) in log || event.retryCount == MAX_PUBLISH_RETRIES)
  }

  ghost predicate BooksKept(s: Sys) {
    && (forall e :: e in s.db.events ==> BookKept(s.log, e, s.db.events[e]))
    && (forall e: EventId :: e !in s.db.events ==> SumBy(Failures(e), s.log) == 0)
  }

  lemma FailuresStep(s: Sys, a: Action, e: EventId)
    requires Enabled(s, a)
    ensures SumBy(Failures(e), s.log + NewEntries(s, a))
            == SumBy(Failures(e), s.log) + if a.RecordFailure? && a.event == e then 1 else 0
  {
    SumByAppend(Failures(e), s.log, NewEntries(s, a));
    if a.CreateReport? {
      var entries := NewEntries(s, a);
      SumByAppend(Failures(e), [entries[0]], [entries[1]]);
      SumByOne(Failures(e), entries[0]);
      SumByOne(Failures(e), entries[1]);
    } else if NewEntries(s, a) != [] {
      SumByOne(Failures(e), NewEntries(s, a)[0]);
    }
  }

  /** Which event rows a step writes. */
  lemma EventWritesBy(s: Sys, a: Action, e: EventId)
    requires LinksOk(s.db) && Enabled(s, a) && e in WritesOf(s, a).events
    ensures if e in s.db.events then (a.MarkPublished? || a.RecordFailure? || a.RejectEvent?) && a.event == e
            else WritesOf(s, a).events[e].status.EventPending? && WritesOf(s, a).events[e].retryCount == 0
  {
    if a.RunAttempt? {
      AttemptReportRow(s.broker[a.msg].job, s.db.jobs[s.broker[a.msg].job],
        FoundReport(s.db.reports, s.db.jobs[s.broker[a.msg].job]), s.broker[a.msg].retries, s.maxRetries, a.attempt);
    } else if a.CreateReport? {
      MadeReportRows(s.db, a.key, a.newReport, a.newJob, a.event, a.now, a.eventAt);
    }
  }

  lemma FailureKeepsBook(
    log: seq<Entry>, e: EventId, event: Event, error: string, terminal: bool, now: Time, delay: nat)
    requires BookKept(log, e, event) && event.status.EventPending? && event.retryCount <= MAX_PUBLISH_RETRIES
    requires event.eventType == JOB_DISPATCH_REQUESTED
    requires SumBy(Failures(e), log + [FailureRecorded(e, terminal)]) == SumBy(Failures(e), log) + 1
    ensures BookKept(log + [FailureRecorded(e, terminal)], e,
              OrmUpdate(event, event, FailedPublish(event, error, terminal, now, delay)))
  {
    assert FailureRecorded(e, terminal) in log + [FailureRecorded(e, terminal)];
  }

  lemma StepKeepsBook(s: Sys, a: Action, e: EventId)
    requires LinksOk(s.db) && NamesOk(s) && Enabled(s, a) && Serial(s, a)
    requires if e in s.db.events then BookKept(s.log, e, s.db.events[e]) else SumBy(Failures(e), s.log) == 0
    ensures e in Next(s, a).db.events ==> BookKept(Next(s, a).log, e, Next(s, a).db.events[e])
  {
    FailuresStep(s, a, e);
    if e in WritesOf(s, a).events {
      EventWritesBy(s, a, e);
      if a.RecordFailure? {
        FailureKeepsBook(s.log, e, s.db.events[e], a.error, a.terminal, a.now, a.delay);
      }
    }
  }

  /** PUBLISHED and FAILED rows never change again. */
  lemma SettledEventStays(s: Sys, a: Action, e: EventId)
    requires LinksOk(s.db) && Enabled(s, a) && Serial(s, a)
    requires e in s.db.events && !s.db.events[e].status.EventPending?
    ensures e in Next(s, a).db.events && Next(s, a).db.events[e] == s.db.events[e]
  {
    if e in WritesOf(s, a).events {
      EventWritesBy(s, a, e);
    }
  }

  ghost predicate SerialNext(s: Sys, a: Action, t: Sys) {
    Takes(s, a, t) && Serial(s, a)
  }

  ghost predicate SerialRun(s: Sys, actions: seq<Action>, t: Sys) {
    Chain(SerialNext, s, actions, t)
  }

  lemma SerialRunOfNone(s: Sys, t: Sys)
    ensures SerialRun(s, [], t) <==> s == t
  {
    ChainOfNone(SerialNext, s, t);
  }

  lemma SerialRunHead(s: Sys, actions: seq<Action>, t: Sys)
    requires actions != [] && SerialRun(s, actions, t)
    ensures Enabled(s, actions[0]) && Serial(s, actions[0]) && SerialRun(Next(s, actions[0]), actions[1..], t)
  {
    var n := ChainHead(SerialNext, s, actions, t);
  }

  lemma SerialStep(s: Sys, a: Action)
    requires Inv(s) && BooksKept(s) && Enabled(s, a) && Serial(s, a)
    ensures Inv(Next(s, a)) && BooksKept(Next(s, a))
  {
    StepKeepsInv(s, a);
    forall e: EventId ensures
      if e in Next(s, a).db.events then BookKept(Next(s, a).log, e, Next(s, a).db.events[e])
      else SumBy(Failures(e), Next(s, a).log) == 0
    {
      StepKeepsBook(s, a, e);
      FailuresStep(s, a, e);
    }
  }

  /** While failures are recorded serially, an event that reached PUBLISHED or FAILED keeps its row. */
  lemma {:induction false} SettledEventsAbsorbing(s: Sys, actions: seq<Action>, t: Sys, e: EventId)
    requires Inv(s) && SerialRun(s, actions, t)
    requires e in s.db.events && !s.db.events[e].status.EventPending?
    ensures e in t.db.events && t.db.events[e] == s.db.events[e]
    decreases |actions|
  {
    SerialRunOfNone(s, t);
    if actions != [] {
      SerialRunHead(s, actions, t);
      SettledEventStays(s, actions[0], e);
      StepKeepsInv(s, actions[0]);
      SettledEventsAbsorbing(Next(s, actions[0]), actions[1..], t, e);
    }
  }

  lemma {:induction false} SerialRunKeepsBooks(s: Sys, actions: seq<Action>, t: Sys)
    requires Inv(s) && BooksKept(s) && SerialRun(s, actions, t)
    ensures Inv(t) && BooksKept(t)
    decreases |actions|
  {
    SerialRunOfNone(s, t);
    if actions != [] {
      SerialRunHead(s, actions, t);
      SerialStep(s, actions[0]);
      SerialRunKeepsBooks(Next(s, actions[0]), actions[1..], t);
    }
  }

  /** A dispatch event FAILED by exhaustion has exactly MAX_PUBLISH_RETRIES + 1 recorded failures. */
  lemma ExhaustedEvent(actions: seq<Action>, maxRetries: nat, t: Sys, e: EventId)
    requires SerialRun(Init(maxRetries), actions, t)
    requires e in t.db.events && t.db.events[e].status.EventFailed?
      && t.db.events[e].eventType == JOB_DISPATCH_REQUESTED
    requires FailureRecorded(e, true) !in t.log
    ensures SumBy(Failures(e), t.log) == MAX_PUBLISH_RETRIES + 1 && t.db.events[e].retryCount == MAX_PUBLISH_RETRIES
  {
    InitInv(maxRetries);
    SerialRunKeepsBooks(Init(maxRetries), actions, t);
    assert BookKept(t.log, e, t.db.events[e]);
  }

  /******* Non-overlapping publishers are serial *******/

  function EventBeingPublished(t: Txn): Option<EventId> {
    if t.PublishTxn? || t.FailTxn? then Some(t.event) else None
  }

  /** No publisher claims an event another one is still working on. */
  ghost predicate NoOverlap(c: Conc, step: Step) {
    step.Claim? ==> forall tid :: tid in c.txns ==> EventBeingPublished(c.txns[tid]) != Some(step.event)
  }

  ghost predicate LoadedCurrent(events: map<EventId, Event>, t: Txn) {
    t.FailTxn? ==>
      && t.event in events && events[t.event].status.EventPending?
      && (!t.failing.RolledBack? ==> t.failing.loaded == events[t.event])
  }

  ghost predicate OnePublisherEach(c: Conc) {
    && (forall tid :: tid in c.txns ==> LoadedCurrent(c.sys.db.events, c.txns[tid]))
    && (forall a, b :: a in c.txns && b in c.txns && a != b ==>
          EventBeingPublished(c.txns[a]).None? || EventBeingPublished(c.txns[a]) != EventBeingPublished(c.txns[b]))
  }

  lemma SerialCommit(c: Conc, step: Step)
    requires TxnsOk(c.sys, c.txns) && OnePublisherEach(c) && CanStep(c, step)
    ensures AtomicAction(c, step).Some? ==> Serial(c.sys, AtomicAction(c, step).value)
  {
    if step.Commit? {
      assert TxnOk(c.sys, c.txns[step.tid]) && LoadedCurrent(c.sys.db.events, c.txns[step.tid]);
    }
  }

  /** The row of an event changes only by the commit of its own publisher. */
  lemma OthersKeepEvent(c: Conc, step: Step, e: EventId)
    requires KeysOk(c.sys.db) && LinksOk(c.sys.db) && TxnsOk(c.sys, c.txns) && CanStep(c, step) && e in c.sys.db.events
    requires step.Commit? ==> EventBeingPublished(c.txns[step.tid]) != Some(e)
    ensures e in StepTo(c, step).sys.db.events && StepTo(c, step).sys.db.events[e] == c.sys.db.events[e]
  {
    StepRefines(c, step);
    var a := AtomicAction(c, step);
    if a.Some? && e in WritesOf(c.sys, a.value).events {
      EventWritesBy(c.sys, a.value, e);
    }
  }

  lemma InnerKeepsLoaded(s: Sys, t: Txn, step: Step)
    requires TxnOk(s, t) && LoadedCurrent(s.db.events, t) && Inner(s.db, t, step).Some?
    ensures LoadedCurrent(s.db.events, Inner(s.db, t, step).value)
    ensures EventBeingPublished(Inner(s.db, t, step).value) == EventBeingPublished(t)
  {
  }

  lemma OpenedKeepsLoaded(s: Sys, step: Step)
    requires Opened(s, step).Some?
    ensures LoadedCurrent(s.db.events, Opened(s, step).value)
    ensures EventBeingPublished(Opened(s, step).value) == if step.Claim? then Some(step.event) else None
  {
  }

  lemma LocalKeepsOnePublisher(c: Conc, step: Step)
    requires TxnsOk(c.sys, c.txns) && OnePublisherEach(c) && CanStep(c, step) && NoOverlap(c, step)
    requires !SystemStep(step)
    ensures OnePublisherEach(StepTo(c, step))
  {
    if step.tid in c.txns {
      InnerKeepsLoaded(c.sys, c.txns[step.tid], step);
    } else {
      OpenedKeepsLoaded(c.sys, step);
    }
    InsertKeepsOnePublisher(c, step.tid, Local(c, step).value);
  }

  lemma InsertKeepsOnePublisher(c: Conc, tid: Tid, t: Txn)
    requires OnePublisherEach(c) && LoadedCurrent(c.sys.db.events, t)
    requires if tid in c.txns then EventBeingPublished(t) == EventBeingPublished(c.txns[tid])
             else EventBeingPublished(t).None?
                  || forall other :: other in c.txns ==> EventBeingPublished(c.txns[other]) != EventBeingPublished(t)
    ensures OnePublisherEach(c.(txns := c.txns[tid := t]))
  {
  }

  /** Some transactions may have ended, one may have sent its dispatch, and no event row being failed changed. */
  lemma FewerKeepOnePublisher(c: Conc, d: Conc)
    requires OnePublisherEach(c)
    requires forall tid :: tid in d.txns ==>
      && tid in c.txns && EventBeingPublished(d.txns[tid]) == EventBeingPublished(c.txns[tid])
      && (d.txns[tid].FailTxn? ==>
            && d.txns[tid] == c.txns[tid]
            && Lookup(d.sys.db.events, d.txns[tid].event) == Lookup(c.sys.db.events, d.txns[tid].event))
    ensures OnePublisherEach(d)
  {
    forall tid | tid in d.txns ensures LoadedCurrent(d.sys.db.events, d.txns[tid]) {
      assert LoadedCurrent(c.sys.db.events, c.txns[tid]);
    }
  }

  predicate SystemStep(step: Step) {
    step.Commit? || step.Raise? || step.Abort? || step.SendDispatch? || step.BrokerStep?
  }

  lemma SystemStepTxns(c: Conc, step: Step, tid: Tid)
    requires CanStep(c, step) && SystemStep(step) && tid in StepTo(c, step).txns
    ensures tid in c.txns && EventBeingPublished(StepTo(c, step).txns[tid]) == EventBeingPublished(c.txns[tid])
    ensures StepTo(c, step).txns[tid].FailTxn? ==>
      StepTo(c, step).txns[tid] == c.txns[tid] && (step.Commit? ==> step.tid != tid)
  {
  }

  lemma SystemStepKeepsOnePublisher(c: Conc, step: Step)
    requires KeysOk(c.sys.db) && LinksOk(c.sys.db) && TxnsOk(c.sys, c.txns) && OnePublisherEach(c) && CanStep(c, step)
    requires SystemStep(step)
    ensures OnePublisherEach(StepTo(c, step))
  {
    var d := StepTo(c, step);
    forall tid | tid in d.txns
      ensures
        && tid in c.txns && EventBeingPublished(d.txns[tid]) == EventBeingPublished(c.txns[tid])
        && (d.txns[tid].FailTxn? ==>
              && d.txns[tid] == c.txns[tid]
              && Lookup(d.sys.db.events, d.txns[tid].event) == Lookup(c.sys.db.events, d.txns[tid].event))
    {
      SystemStepTxns(c, step, tid);
      if d.txns[tid].FailTxn? {
        FailingKeepsEvent(c, step, tid);
      }
    }
    FewerKeepOnePublisher(c, d);
  }

  lemma FailingKeepsEvent(c: Conc, step: Step, tid: Tid)
    requires KeysOk(c.sys.db) && LinksOk(c.sys.db) && TxnsOk(c.sys, c.txns) && OnePublisherEach(c) && CanStep(c, step)
    requires tid in c.txns && c.txns[tid].FailTxn? && (step.Commit? ==> step.tid != tid)
    ensures Lookup(StepTo(c, step).sys.db.events, c.txns[tid].event) == Lookup(c.sys.db.events, c.txns[tid].event)
  {
    assert LoadedCurrent(c.sys.db.events, c.txns[tid]);
    OthersKeepEvent(c, step, c.txns[tid].event);
  }

  ghost predicate MovesAlone(c: Conc, step: Step, d: Conc) {
    Moves(c, step, d) && NoOverlap(c, step)
  }

  ghost predicate NonOverlappingRun(c: Conc, steps: seq<Step>, d: Conc) {
    Chain(MovesAlone, c, steps, d)
  }

  lemma NonOverlappingIsRun(c: Conc, steps: seq<Step>, d: Conc)
    requires NonOverlappingRun(c, steps, d)
    ensures ConcRun(c, steps, d)
  {
    ChainWeaker(MovesAlone, Moves, c, steps, d);
  }

  lemma NonOverlappingHead(c: Conc, steps: seq<Step>, d: Conc)
    requires steps != [] && NonOverlappingRun(c, steps, d)
    ensures CanStep(c, steps[0]) && NoOverlap(c, steps[0]) && NonOverlappingRun(StepTo(c, steps[0]), steps[1..], d)
  {
    var n := ChainHead(MovesAlone, c, steps, d);
  }

  /** Publishers that never work on one event at the same time record failures serially. */
  lemma {:induction false} NonOverlappingIsSerial(c: Conc, steps: seq<Step>, d: Conc)
    requires ConcInv(c) && OnePublisherEach(c) && NonOverlappingRun(c, steps, d)
    requires ConcRun(c, steps, d)
    ensures SerialRun(c.sys, Projection(c, steps, d), d.sys)
    decreases |steps|
  {
    if steps == [] {
      ConcRunOfNone(c, d);
      SerialRunOfNone(c.sys, d.sys);
    } else {
      NonOverlappingHead(c, steps, d);
      var n, step := StepTo(c, steps[0]), steps[0];
      OneStepSerial(c, step);
      NonOverlappingIsRun(n, steps[1..], d);
      NonOverlappingIsSerial(n, steps[1..], d);
      var rest, a := Projection(n, steps[1..], d), AtomicAction(c, step);
      if a.Some? {
        ChainCons(SerialNext, c.sys, a.value, n.sys, rest, d.sys);
      }
    }
  }

  lemma OneStepSerial(c: Conc, step: Step)
    requires ConcInv(c) && OnePublisherEach(c) && CanStep(c, step) && NoOverlap(c, step)
    ensures ConcInv(StepTo(c, step)) && OnePublisherEach(StepTo(c, step)) && Refines(c, step)
    ensures AtomicAction(c, step).Some? ==> Serial(c.sys, AtomicAction(c, step).value)
  {
    StepKeepsConcInv(c, step);
    StepRefines(c, step);
    SerialCommit(c, step);
    if SystemStep(step) {
      SystemStepKeepsOnePublisher(c, step);
    } else {
      LocalKeepsOnePublisher(c, step);
    }
  }

  /** With non-overlapping publishers PUBLISHED and FAILED are absorbing in every interleaving. */
  lemma NonOverlappingAbsorbing(c: Conc, steps: seq<Step>, d: Conc, e: EventId)
    requires ConcInv(c) && OnePublisherEach(c) && NonOverlappingRun(c, steps, d)
    requires e in c.sys.db.events && !c.sys.db.events[e].status.EventPending?
    ensures e in d.sys.db.events && d.sys.db.events[e] == c.sys.db.events[e]
  {
    NonOverlappingIsRun(c, steps, d);
    NonOverlappingIsSerial(c, steps, d);
    SettledEventsAbsorbing(c.sys, Projection(c, steps, d), d.sys, e);
  }

  /******* With overlap *******/

  /** Recording a failure leaves a PUBLISHED row PUBLISHED exactly when the status decided for the
      re-fetched row is the status that row already had, so that the UPDATE omits the column. */
  lemma FailureUnpublishesIff(current: Event, loaded: Event, error: string, terminal: bool, now: Time, delay: nat)
    requires current.status.EventPublished?
    ensures OrmUpdate(current, loaded, FailedPublish(loaded, error, terminal, now, delay)).status.EventPublished?
            <==> DecidePublishFailure(terminal, loaded.retryCount) == loaded.status
  {
  }

  /** A FAILED row stays FAILED exactly when the decision is FAILED, or is the status the row was re-fetched with. */
  lemma FailureRevivesIff(current: Event, loaded: Event, error: string, terminal: bool, now: Time, delay: nat)
    requires current.status.EventFailed?
    ensures OrmUpdate(current, loaded, FailedPublish(loaded, error, terminal, now, delay)).status.EventFailed?
            <==> DecidePublishFailure(terminal, loaded.retryCount).EventFailed? || loaded.status.EventPending?
  {
  }

  /** An event row and the transactions at work. */
  ghost predicate At(c: Conc, e: EventId, row: Event, txns: map<Tid, Txn>) {
    Lookup(c.sys.db.events, e) == Some(row) && c.txns == txns
  }

  /** One more step of a run. */
  lemma Taken(c: Conc, steps: seq<Step>, d: Conc, step: Step) returns (p: Conc)
    requires ConcRun(c, steps, d) && CanStep(d, step)
    ensures ConcRun(c, steps + [step], p) && p == StepTo(d, step)
  {
    p := StepTo(d, step);
    ChainSnoc(Moves, c, steps, d, step, p);
  }

  lemma Claims(
    c: Conc, steps: seq<Step>, d: Conc, e: EventId, row: Event, txns: map<Tid, Txn>, tid: Tid)
    returns (p: Conc)
    requires ConcRun(c, steps, d) && At(d, e, row, txns) && row.status.EventPending? && tid !in txns
    requires forall other :: other in txns ==> txns[other] == FailTxn(e, "", false, RolledBack)
    ensures ConcRun(c, steps + [Claim(tid, e)], p) && At(p, e, row, txns[tid := PublishTxn(e, row, None)])
  {
    p := Taken(c, steps, d, Claim(tid, e));
  }

  lemma FailsAt(d: Conc, e: EventId, row: Event, txns: map<Tid, Txn>, tid: Tid, terminal: bool)
    requires At(d, e, row, txns) && row.eventType == JOB_DISPATCH_REQUESTED
    requires tid in txns && txns[tid] == PublishTxn(e, row, None)
    ensures CanStep(d, FailDispatch(tid, "", terminal))
    ensures At(StepTo(d, FailDispatch(tid, "", terminal)), e, row, txns[tid := FailTxn(e, "", terminal, RolledBack)])
  {
    var failed := FailTxn(e, "", terminal, RolledBack);
    assert Local(d, FailDispatch(tid, "", terminal)) == Some(failed);
    assert Locks(failed) == {};
  }

  lemma Fails(
    c: Conc, steps: seq<Step>, d: Conc, e: EventId, row: Event, txns: map<Tid, Txn>, tid: Tid, terminal: bool) returns (p: Conc)
    requires ConcRun(c, steps, d) && At(d, e, row, txns) && row.eventType == JOB_DISPATCH_REQUESTED
    requires tid in txns && txns[tid] == PublishTxn(e, row, None)
    ensures ConcRun(c, steps + [FailDispatch(tid, "", terminal)], p)
    ensures At(p, e, row, txns[tid := FailTxn(e, "", terminal, RolledBack)])
  {
    FailsAt(d, e, row, txns, tid, terminal);
    p := Taken(c, steps, d, FailDispatch(tid, "", terminal));
  }

  lemma Sends(c: Conc, steps: seq<Step>, d: Conc, e: EventId, row: Event, txns: map<Tid, Txn>, tid: Tid) returns (p: Conc)
    requires ConcRun(c, steps, d) && At(d, e, row, txns) && row.status.EventPending? && row.eventType == JOB_DISPATCH_REQUESTED
    requires tid in txns && txns[tid] == PublishTxn(e, row, None)
    ensures ConcRun(c, steps + [SendDispatch(tid, 0)], p) && At(p, e, row, txns[tid := PublishTxn(e, row, Some(0))])
  {
    p := Taken(c, steps, d, SendDispatch(tid, 0));
  }

  lemma CommitsPublished(
    c: Conc, steps: seq<Step>, d: Conc, e: EventId, row: Event, txns: map<Tid, Txn>, tid: Tid) returns (p: Conc)
    requires ConcRun(c, steps, d) && At(d, e, row, txns) && tid in txns && txns[tid] == PublishTxn(e, row, Some(0))
    ensures ConcRun(c, steps + [Commit(tid)], p) && At(p, e, PublishedEvent(row, 0), txns - {tid})
  {
    p := Taken(c, steps, d, Commit(tid));
  }

  lemma Reloads(
    c: Conc, steps: seq<Step>, d: Conc, e: EventId, row: Event, txns: map<Tid, Txn>, tid: Tid, terminal: bool) returns (p: Conc)
    requires ConcRun(c, steps, d) && At(d, e, row, txns) && tid in txns && txns[tid] == FailTxn(e, "", terminal, RolledBack)
    ensures ConcRun(c, steps + [Reload(tid)], p) && At(p, e, row, txns[tid := FailTxn(e, "", terminal, Reloaded(row))])
  {
    p := Taken(c, steps, d, Reload(tid));
  }

  lemma Flushes(
    c: Conc, steps: seq<Step>, d: Conc, e: EventId, row: Event, txns: map<Tid, Txn>, tid: Tid, terminal: bool) returns (p: Conc)
    requires ConcRun(c, steps, d) && At(d, e, row, txns) && tid in txns && txns[tid] == FailTxn(e, "", terminal, Reloaded(row))
    requires forall other :: other in txns && other != tid ==> txns[other] == FailTxn(e, "", false, RolledBack)
    ensures ConcRun(c, steps + [FlushFailure(tid, 0, 0)], p)
    ensures At(p, e, row, txns[tid := FailTxn(e, "", terminal, Updating(row, row, 0, 0))])
  {
    p := Taken(c, steps, d, FlushFailure(tid, 0, 0));
  }

  /** What recording a failure makes of a row nobody changed since it was re-fetched. */
  function Recorded(row: Event, terminal: bool): Event {
    OrmUpdate(row, row, FailedPublish(row, "", terminal, 0, 0))
  }

  lemma CommitsFailure(
    c: Conc, steps: seq<Step>, d: Conc, e: EventId, row: Event, txns: map<Tid, Txn>, tid: Tid, terminal: bool) returns (p: Conc)
    requires ConcRun(c, steps, d) && At(d, e, row, txns)
    requires tid in txns && txns[tid] == FailTxn(e, "", terminal, Updating(row, row, 0, 0))
    ensures ConcRun(c, steps + [Commit(tid)], p) && At(p, e, Recorded(row, terminal), txns - {tid})
  {
    p := Taken(c, steps, d, Commit(tid));
  }

  /** A publisher whose dispatch failed re-fetches the row without a lock and commits its failure over it. */
  lemma RecordsFailure(
    c: Conc, steps: seq<Step>, d: Conc, e: EventId, row: Event, txns: map<Tid, Txn>, tid: Tid, terminal: bool)
    returns (more: seq<Step>, p: Conc)
    requires ConcRun(c, steps, d) && At(d, e, row, txns) && tid in txns && txns[tid] == FailTxn(e, "", terminal, RolledBack)
    requires forall other :: other in txns && other != tid ==> txns[other] == FailTxn(e, "", false, RolledBack)
    ensures ConcRun(c, more, p) && At(p, e, Recorded(row, terminal), txns - {tid}) && steps < more
  {
    p := Reloads(c, steps, d, e, row, txns, tid, terminal);
    p := Flushes(c, steps + [Reload(tid)], p, e, row, p.txns, tid, terminal);
    p := CommitsFailure(c, steps + [Reload(tid)] + [FlushFailure(tid, 0, 0)], p, e, row, p.txns, tid, terminal);
    more := steps + [Reload(tid)] + [FlushFailure(tid, 0, 0)] + [Commit(tid)];
    assert p.txns == txns - {tid};
  }

  /** Publisher 1's dispatch fails and its rollback drops the row lock; publisher 2 claims the event. */
  lemma SecondClaims(c: Conc, e: EventId, row: Event) returns (steps: seq<Step>, p: Conc)
    requires At(c, e, row, map[]) && row.status.EventPending? && row.eventType == JOB_DISPATCH_REQUESTED
    ensures ConcRun(c, steps, p)
    ensures At(p, e, row, map[1 := FailTxn(e, "", false, RolledBack), 2 := PublishTxn(e, row, None)])
  {
    ConcRunOfNone(c, c);
    p := Claims(c, [], c, e, row, map[], 1);
    p := Fails(c, [] + [Claim(1, e)], p, e, row, p.txns, 1, false);
    steps := [] + [Claim(1, e)] + [FailDispatch(1, "", false)];
    p := Claims(c, steps, p, e, row, p.txns, 2);
    steps := steps + [Claim(2, e)];
  }

  lemma SecondPublishes(c: Conc, steps: seq<Step>, d: Conc, e: EventId, row: Event) returns (more: seq<Step>, p: Conc)
    requires ConcRun(c, steps, d) && row.status.EventPending? && row.eventType == JOB_DISPATCH_REQUESTED
    requires At(d, e, row, map[1 := FailTxn(e, "", false, RolledBack), 2 := PublishTxn(e, row, None)])
    ensures ConcRun(c, more, p) && At(p, e, PublishedEvent(row, 0), map[1 := FailTxn(e, "", false, RolledBack)])
  {
    p := Sends(c, steps, d, e, row, d.txns, 2);
    p := CommitsPublished(c, steps + [SendDispatch(2, 0)], p, e, row, p.txns, 2);
    more := steps + [SendDispatch(2, 0)] + [Commit(2)];
    assert p.txns == map[1 := FailTxn(e, "", false, RolledBack)];
  }

  lemma SecondFailsForGood(c: Conc, steps: seq<Step>, d: Conc, e: EventId, row: Event) returns (more: seq<Step>, p: Conc)
    requires ConcRun(c, steps, d) && row.eventType == JOB_DISPATCH_REQUESTED
    requires At(d, e, row, map[1 := FailTxn(e, "", false, RolledBack), 2 := PublishTxn(e, row, None)])
    ensures ConcRun(c, more, p) && At(p, e, Recorded(row, true), map[1 := FailTxn(e, "", false, RolledBack)])
  {
    p := Fails(c, steps, d, e, row, d.txns, 2, true);
    more, p := RecordsFailure(c, steps + [FailDispatch(2, "", true)], p, e, row, p.txns, 2, true);
    assert p.txns == map[1 := FailTxn(e, "", false, RolledBack)];
  }

  /** `c` leads to a state with the event in status `first`, and on to one with it in status `second`. */
  ghost predicate Overwrites(c: Conc, e: EventId, first: OutboxStatus, second: OutboxStatus) {
    exists before, p, after, d ::
      && ConcRun(c, before, p) && e in p.sys.db.events && p.sys.db.events[e].status == first
      && before < after && ConcRun(c, after, d) && e in d.sys.db.events && d.sys.db.events[e].status == second
  }

  ghost predicate QuietPending(c: Conc, e: EventId) {
    && c.txns == map[] && e in c.sys.db.events && c.sys.db.events[e].status.EventPending?
    && c.sys.db.events[e].eventType == JOB_DISPATCH_REQUESTED
  }

  /** From any quiet state, two publishers overlapping on a PENDING event can publish it and then put it back to
      PENDING, to be dispatched again, or to FAILED if its retries are used up. */
  lemma OverlapUnpublishes(c: Conc, e: EventId)
    requires QuietPending(c, e)
    ensures Overwrites(c, e, EventPublished, DecidePublishFailure(false, c.sys.db.events[e].retryCount))
  {
    var row := c.sys.db.events[e];
    var steps, d := SecondClaims(c, e, row);
    var before, p := SecondPublishes(c, steps, d, e, row);
    var after, q := RecordsFailure(c, before, p, e, PublishedEvent(row, 0), p.txns, 1, false);
    assert before < after && q.sys.db.events[e].status == DecidePublishFailure(false, row.retryCount);
  }

  /** They can also fail it for good and then put it back to PENDING, while it has retries left. */
  lemma OverlapRevives(c: Conc, e: EventId)
    requires QuietPending(c, e) && c.sys.db.events[e].retryCount < MAX_PUBLISH_RETRIES
    ensures Overwrites(c, e, EventFailed, EventPending)
  {
    var row := c.sys.db.events[e];
    var steps, d := SecondClaims(c, e, row);
    var before, p := SecondFailsForGood(c, steps, d, e, row);
    var after, q := RecordsFailure(c, before, p, e, Recorded(row, true), p.txns, 1, false);
    assert before < after && q.sys.db.events[e].status.EventPending?;
  }
}
