/** Capped exponential delays: job retries (src/jobs/utils.py) for any base and cap, and outbox retries
    (src/outbox/utils.py) over the life of an event. The jitter draws any value up to the ceiling. */
module Backoff {
  import opened Rows
  import opened Outbox
  import opened Protocol
  import opened History
  import opened Safety
  import opened Theorems
  import opened Effects
  import opened Publishers

  /******* Job retries *******/

  function RetryCeiling(base: nat, cap: nat, retries: nat): nat {
    Min(Pow(base, retries), cap)
  }

  lemma {:induction false} PowMonotone(base: nat, a: nat, b: nat)
    requires base >= 1 && a <= b
    ensures 1 <= Pow(base, a) <= Pow(base, b)
    decreases b
  {
    if b > 0 {
      if a < b {
        PowMonotone(base, a, b - 1);
        assert base * Pow(base, b - 1) >= 1 * Pow(base, b - 1);
      } else {
        PowMonotone(base, a - 1, b - 1);
        assert base * Pow(base, b - 1) >= 1 * Pow(base, b - 1);
      }
    }
  }

  /** Later retries never get a shorter ceiling, and no ceiling is 0. */
  lemma RetryCeilingMonotone(base: nat, cap: nat, a: nat, b: nat)
    requires base >= 1 && cap >= 1 && a <= b
    ensures 1 <= RetryCeiling(base, cap, a) <= RetryCeiling(base, cap, b) <= cap
  {
    PowMonotone(base, a, b);
  }

  /** The ceiling is 1 before the first retry, is multiplied by the base with every retry, and stays at the cap once
      there. */
  lemma RetryCeilingGrows(base: nat, cap: nat, retries: nat)
    requires base >= 1 && cap >= 1
    ensures RetryCeiling(base, cap, 0) == 1
    ensures RetryCeiling(base, cap, retries + 1)
            == (if base * RetryCeiling(base, cap, retries) <= cap then base * RetryCeiling(base, cap, retries) else cap)
  {
    PowMonotone(base, retries, retries + 1);
    if Pow(base, retries) > cap {
      assert base * cap >= 1 * cap;
    }
  }

  /** With the defaults, base 2 and cap 60: at most 1, 2, 4, 8, 16 and 32 seconds, and then 60. */
  lemma {:induction false} DefaultCeilings(retries: nat)
    ensures RetryCeiling(2, 60, retries) == if retries < 6 then [1, 2, 4, 8, 16, 32][retries] else 60
    decreases retries
  {
    if retries > 0 {
      DefaultCeilings(retries - 1);
      RetryCeilingGrows(2, 60, retries - 1);
    }
  }

  function Total(delays: seq<nat>): nat {
    if delays == [] then 0 else Total(delays[..|delays| - 1]) + delays[|delays| - 1]
  }

  function Geometric(base: nat, n: nat): nat {
    if n == 0 then 0 else Geometric(base, n - 1) + Pow(base, n - 1)
  }

  lemma {:induction false} WithinCaps(cap: nat, delays: seq<nat>)
    requires forall i :: 0 <= i < |delays| ==> delays[i] <= cap
    ensures Total(delays) <= |delays| * cap
    decreases |delays|
  {
    if delays != [] {
      var n := |delays| - 1;
      WithinCaps(cap, delays[..n]);
      assert (n + 1) * cap == n * cap + cap;
    }
  }

  lemma {:induction false} WithinPowers(base: nat, delays: seq<nat>)
    requires forall i :: 0 <= i < |delays| ==> delays[i] <= Pow(base, i)
    ensures Total(delays) <= Geometric(base, |delays|)
    decreases |delays|
  {
    if delays != [] {
      var n := |delays| - 1;
      assert forall i :: 0 <= i < n ==> delays[..n][i] == delays[i];
      WithinPowers(base, delays[..n]);
    }
  }

  /** Whatever the jitter draws, the countdowns of R retries add up to at most R * cap and to at most
      1 + base + ... + base^(R-1). */
  lemma {:induction false} TotalCountdown(base: nat, cap: nat, delays: seq<nat>)
    requires forall i :: 0 <= i < |delays| ==> delays[i] <= RetryCeiling(base, cap, i)
    ensures Total(delays) <= |delays| * cap
    ensures Total(delays) <= Geometric(base, |delays|)
  {
    WithinCaps(cap, delays);
    WithinPowers(base, delays);
  }

  /******* Outbox retries *******/

  /** A failure that is retried draws its wait from 0..30, 0..60, 0..120, 0..240 and 0..480 seconds, after 0 to 4
      retries: the 600 second cap is never reached. Recorded on the row as claimed, it leaves the event PENDING with the
      next attempt exactly that long after the failure, or FAILED. */
  lemma OutboxDelayBelowCap(s: Sys, a: Action)
    requires EnabledPublisher(s, a) && a.RecordFailure?
    ensures !a.terminal && a.loaded.retryCount < 5
            ==> a.delay <= [30, 60, 120, 240, 480][a.loaded.retryCount] < OUTBOX_PUBLISH_BACKOFF_CAP_SECONDS
    ensures a.event in Next(s, a).db.events
    ensures a.loaded == s.db.events[a.event] ==>
              var later := Next(s, a).db.events[a.event];
              if !a.terminal && a.loaded.retryCount < 5
              then later.status == EventPending && later.retryCount == a.loaded.retryCount + 1
                   && later.nextAttemptAt == Some(a.now + a.delay)
              else later.status == EventFailed && later.nextAttemptAt == None
  {
    FailedPublishLeaves(a.loaded, a.error, a.terminal, a.now, a.delay);
    Ceilings();
  }

  /** How long after the failure the step records the event's row then says to wait. */
  ghost function Wait(s: Sys, a: Action, e: EventId): nat
    requires Enabled(s, a)
  {
    var later := Next(s, a).db.events;
    if a.RecordFailure? && a.event == e && e in later && later[e].nextAttemptAt.Some? && later[e].nextAttemptAt.value > a.now
    then later[e].nextAttemptAt.value - a.now else 0
  }

  /** The waits of the event along a run, as its rows give them. */
  ghost function TotalWait(s: Sys, actions: seq<Action>, e: EventId): nat
    decreases |actions|
  {
    if actions == [] || !Enabled(s, actions[0]) then 0
    else Wait(s, actions[0], e) + TotalWait(Next(s, actions[0]), actions[1..], e)
  }

  function CeilingSum(retries: nat): nat {
    if retries == 0 then 0 else CeilingSum(retries - 1) + BackoffCeiling(retries)
  }

  function RetryCountOf(db: Db, e: EventId): nat {
    if e in db.events then db.events[e].retryCount else 0
  }

  lemma DelayStep(s: Sys, a: Action, e: EventId)
    requires LinksOk(s.db) && Enabled(s, a) && Serial(s, a)
    ensures CeilingSum(RetryCountOf(s.db, e)) + Wait(s, a, e) <= CeilingSum(RetryCountOf(Next(s, a).db, e))
  {
    if e in WritesOf(s, a).events {
      EventWritesBy(s, a, e);
      if a.RecordFailure? {
        FailedPublishLeaves(a.loaded, a.error, a.terminal, a.now, a.delay);
      }
    }
  }

  lemma {:induction false} DelaysWithinCeilings(s: Sys, actions: seq<Action>, t: Sys, e: EventId)
    requires Inv(s) && SerialRun(s, actions, t)
    ensures Inv(t) && CeilingSum(RetryCountOf(s.db, e)) + TotalWait(s, actions, e) <= CeilingSum(RetryCountOf(t.db, e))
    decreases |actions|
  {
    SerialRunOfNone(s, t);
    if actions != [] {
      SerialRunHead(s, actions, t);
      DelayStep(s, actions[0], e);
      StepKeepsInv(s, actions[0]);
      DelaysWithinCeilings(Next(s, actions[0]), actions[1..], t, e);
    }
  }

  lemma {:induction false} CeilingSumMonotone(a: nat, b: nat)
    requires a <= b
    ensures CeilingSum(a) <= CeilingSum(b)
    decreases b
  {
    if a < b {
      CeilingSumMonotone(a, b - 1);
    }
  }

  /** Over the whole life of an event, publish retries wait at most 930 seconds in all. */
  lemma OutboxTotalDelay(maxRetries: nat, actions: seq<Action>, t: Sys, e: EventId)
    requires SerialRun(Init(maxRetries), actions, t)
    ensures TotalWait(Init(maxRetries), actions, e) <= 930
  {
    InitInv(maxRetries);
    DelaysWithinCeilings(Init(maxRetries), actions, t, e);
    CeilingSumMonotone(RetryCountOf(t.db, e), MAX_PUBLISH_RETRIES);
    Ceilings();
    assert CeilingSum(3) == 210 && CeilingSum(MAX_PUBLISH_RETRIES) == CeilingSum(3) + 240 + 480;
  }
}
