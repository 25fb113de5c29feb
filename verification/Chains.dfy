/** Runs of a transition relation: the actions taken one after the other, and the states between them. */
module Chains {
  ghost predicate Visits<S, A>(step: (S, A, S) -> bool, states: seq<S>, actions: seq<A>) {
    && |states| == |actions| + 1
    && forall i :: 0 <= i < |actions| ==> step(states[i], actions[i], states[i + 1])
  }

  /** `actions` can be taken one after the other from `s`, ending in `t`. */
  ghost predicate Chain<S(!new), A>(step: (S, A, S) -> bool, s: S, actions: seq<A>, t: S) {
    exists states :: Visits(step, states, actions) && states[0] == s && states[|actions|] == t
  }

  lemma ChainOfNone<S(!new), A>(step: (S, A, S) -> bool, s: S, t: S)
    ensures Chain(step, s, [], t) <==> s == t
  {
    if s == t {
      assert Visits(step, [s], []);
    }
  }

  lemma ChainHead<S(!new), A>(step: (S, A, S) -> bool, s: S, actions: seq<A>, t: S) returns (n: S)
    requires actions != [] && Chain(step, s, actions, t)
    ensures step(s, actions[0], n) && Chain(step, n, actions[1..], t)
  {
    var states :| Visits(step, states, actions) && states[0] == s && states[|actions|] == t;
    n := states[1];
    assert Visits(step, states[1..], actions[1..]);
  }

  lemma ChainCons<S(!new), A>(step: (S, A, S) -> bool, s: S, a: A, n: S, actions: seq<A>, t: S)
    requires step(s, a, n) && Chain(step, n, actions, t)
    ensures Chain(step, s, [a] + actions, t)
  {
    var states :| Visits(step, states, actions) && states[0] == n && states[|actions|] == t;
    var all, taken := [s] + states, [a] + actions;
    forall i | 0 <= i < |taken| ensures step(all[i], taken[i], all[i + 1]) {
      if i > 0 {
        assert step(states[i - 1], actions[i - 1], states[i]);
      }
    }
    assert Visits(step, all, taken) && all[|taken|] == t;
  }

  lemma ChainOfOne<S(!new), A>(step: (S, A, S) -> bool, s: S, a: A, t: S)
    requires step(s, a, t)
    ensures Chain(step, s, [a], t)
  {
    assert Visits(step, [s, t], [a]);
  }

  lemma {:induction false} ChainsAppend<S(!new), A>(step: (S, A, S) -> bool, s: S, xs: seq<A>, t: S, ys: seq<A>, u: S)
    requires Chain(step, s, xs, t) && Chain(step, t, ys, u)
    ensures Chain(step, s, xs + ys, u)
    decreases |xs|
  {
    if xs == [] {
      ChainOfNone<S, A>(step, s, t);
      assert xs + ys == ys;
    } else {
      var n := ChainHead(step, s, xs, t);
      ChainsAppend(step, n, xs[1..], t, ys, u);
      ChainCons(step, s, xs[0], n, xs[1..] + ys, u);
      assert [xs[0]] + (xs[1..] + ys) == xs + ys;
    }
  }

  lemma ChainSnoc<S(!new), A>(step: (S, A, S) -> bool, s: S, actions: seq<A>, t: S, a: A, u: S)
    requires Chain(step, s, actions, t) && step(t, a, u)
    ensures Chain(step, s, actions + [a], u)
  {
    ChainOfOne(step, t, a, u);
    ChainsAppend(step, s, actions, t, [a], u);
  }

  lemma ChainWeaker<S(!new), A(!new)>(step: (S, A, S) -> bool, weaker: (S, A, S) -> bool, s: S, actions: seq<A>, t: S)
    requires Chain(step, s, actions, t) && forall x, a, y :: step(x, a, y) ==> weaker(x, a, y)
    ensures Chain(weaker, s, actions, t)
  {
    var states :| Visits(step, states, actions) && states[0] == s && states[|actions|] == t;
    assert Visits(weaker, states, actions);
  }

  lemma ChainAll<S(!new), A(!new)>(step: (S, A, S) -> bool, p: A -> bool, s: S, actions: seq<A>, t: S)
    requires Chain(step, s, actions, t) && forall x, a, y :: step(x, a, y) ==> p(a)
    ensures forall i :: 0 <= i < |actions| ==> p(actions[i])
  {
    var states :| Visits(step, states, actions) && states[0] == s && states[|actions|] == t;
    forall i | 0 <= i < |actions| ensures p(actions[i]) {
      assert step(states[i], actions[i], states[i + 1]);
    }
  }
}
