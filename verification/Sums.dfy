/** Sums of a weight over a sequence and over a finite set. */
module Sums {
  function SumBy<T>(weight: T -> nat, xs: seq<T>): nat {
    if xs == [] then 0 else weight(xs[0]) + SumBy(weight, xs[1..])
  }

  lemma {:induction false} SumByAppend<T>(weight: T -> nat, xs: seq<T>, ys: seq<T>)
    ensures SumBy(weight, xs + ys) == SumBy(weight, xs) + SumBy(weight, ys)
  {
    if xs == [] {
      assert xs + ys == ys;
    } else {
      assert (xs + ys)[1..] == xs[1..] + ys;
      SumByAppend(weight, xs[1..], ys);
    }
  }

  lemma {:induction false} SumByUpdate<T>(weight: T -> nat, xs: seq<T>, i: nat, x: T)
    requires i < |xs|
    ensures SumBy(weight, xs[i := x]) + weight(xs[i]) == SumBy(weight, xs) + weight(x)
  {
    if i == 0 {
      assert xs[0 := x][1..] == xs[1..];
    } else {
      assert xs[i := x][1..] == xs[1..][i - 1 := x];
      SumByUpdate(weight, xs[1..], i - 1, x);
    }
  }

  lemma SumByOne<T>(weight: T -> nat, x: T)
    ensures SumBy(weight, [x]) == weight(x)
  {
  }
}
