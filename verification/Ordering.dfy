/** ORDER BY created_at, id: a finite set of keys as the one sorted sequence of its elements. */
module Ordering {
  datatype Key = Key(at: nat, id: nat)
  datatype Direction = Ascending | Descending

  predicate Less(a: Key, b: Key) {
    a.at < b.at || (a.at == b.at && a.id < b.id)
  }

  predicate Before(dir: Direction, a: Key, b: Key) {
    if dir.Ascending? then Less(a, b) else Less(b, a)
  }

  predicate Sorted(dir: Direction, keys: seq<Key>) {
    forall i, j :: 0 <= i < j < |keys| ==> Before(dir, keys[i], keys[j])
  }

  function Elements(keys: seq<Key>): set<Key> {
    set k | k in keys
  }

  predicate IsFirst(dir: Direction, s: set<Key>, k: Key) {
    k in s && forall other :: other in s && other != k ==> Before(dir, k, other)
  }

  lemma {:induction false} FirstExists(dir: Direction, s: set<Key>) returns (k: Key)
    requires s != {}
    ensures IsFirst(dir, s, k)
    decreases |s|
  {
    k :| k in s;
    if s - {k} != {} {
      var least := FirstExists(dir, s - {k});
      assert s == (s - {k}) + {k};
      k := if Before(dir, k, least) then k else least;
    } else {
      assert s == {k};
    }
  }

  lemma PrependSorted(dir: Direction, s: set<Key>, k: Key, rest: seq<Key>)
    requires IsFirst(dir, s, k) && Sorted(dir, rest) && Elements(rest) == s - {k} && |rest| == |s - {k}|
    ensures Sorted(dir, [k] + rest) && Elements([k] + rest) == s && |[k] + rest| == |s|
  {
    assert forall j :: 0 <= j < |rest| ==> rest[j] in Elements(rest);
    forall x ensures x in Elements([k] + rest) <==> x in s {
      assert x in [k] + rest <==> x == k || x in rest;
      assert x in rest <==> x in Elements(rest);
    }
  }

  ghost predicate Orders(dir: Direction, s: set<Key>, keys: seq<Key>) {
    Sorted(dir, keys) && Elements(keys) == s && |keys| == |s|
  }

  lemma {:induction false} OrderExists(dir: Direction, s: set<Key>)
    ensures exists keys :: Orders(dir, s, keys)
    decreases |s|
  {
    if s == {} {
      assert Orders(dir, s, []);
    } else {
      var k := FirstExists(dir, s);
      OrderExists(dir, s - {k});
      var rest :| Orders(dir, s - {k}, rest);
      PrependSorted(dir, s, k, rest);
      assert Orders(dir, s, [k] + rest);
    }
  }

  /** The result of the query, before its LIMIT. */
  ghost function OrderBy(dir: Direction, s: set<Key>): (keys: seq<Key>)
    ensures Sorted(dir, keys) && Elements(keys) == s && |keys| == |s|
  {
    OrderExists(dir, s);
    var keys :| Orders(dir, s, keys);
    keys
  }

  lemma NoElements(keys: seq<Key>)
    ensures Elements(keys) == {} <==> keys == []
  {
    if keys != [] {
      assert keys[0] in Elements(keys);
    }
  }

  /** There is only one way to sort a set of keys. */
  lemma {:induction false} SortedUnique(dir: Direction, a: seq<Key>, b: seq<Key>)
    requires Sorted(dir, a) && Sorted(dir, b) && Elements(a) == Elements(b)
    ensures a == b
    decreases |a|
  {
    NoElements(a);
    NoElements(b);
    if a != [] {
      assert a[0] in Elements(b) && b[0] in Elements(a);
      assert a[0] == b[0];
      assert forall k :: k in a[1..] <==> k in Elements(a) && k != a[0];
      assert forall k :: k in b[1..] <==> k in Elements(b) && k != b[0];
      assert Elements(a[1..]) == Elements(b[1..]);
      SortedUnique(dir, a[1..], b[1..]);
    }
  }

  lemma OrderByFirst(dir: Direction, s: set<Key>, k: Key)
    requires IsFirst(dir, s, k)
    ensures OrderBy(dir, s) == [k] + OrderBy(dir, s - {k})
  {
    PrependSorted(dir, s, k, OrderBy(dir, s - {k}));
    SortedUnique(dir, OrderBy(dir, s), [k] + OrderBy(dir, s - {k}));
  }

  lemma SplitSorted(dir: Direction, keys: seq<Key>, n: nat, k: Key)
    requires Sorted(dir, keys) && n <= |keys| && k in keys
    ensures k in keys[n..] <==> k !in keys[..n]
    ensures 0 < n ==> (k in keys[n..] <==> Before(dir, keys[n - 1], k))
  {
    var i :| 0 <= i < |keys| && keys[i] == k;
    if i < n {
      assert keys[..n][i] == k;
      assert i < n - 1 ==> Before(dir, keys[i], keys[n - 1]);
      assert forall j :: n <= j < |keys| ==> Before(dir, keys[i], keys[j]);
    } else {
      assert keys[n..][i - n] == k;
    }
  }

  lemma SuffixIs(dir: Direction, s: set<Key>, n: nat, rest: set<Key>)
    requires n <= |s| && rest <= s
    requires forall k :: k in s ==> (k in rest <==> k in OrderBy(dir, s)[n..])
    ensures OrderBy(dir, rest) == OrderBy(dir, s)[n..]
  {
    var keys := OrderBy(dir, s);
    assert forall k :: k in keys[n..] ==> k in Elements(keys);
    assert Elements(keys[n..]) == rest;
    SortedUnique(dir, keys[n..], OrderBy(dir, rest));
  }

  /** Taking a prefix of the sorted sequence away from the set leaves the sorted rest. */
  lemma OrderByRest(dir: Direction, s: set<Key>, n: nat)
    requires n <= |s|
    ensures OrderBy(dir, s - Elements(OrderBy(dir, s)[..n])) == OrderBy(dir, s)[n..]
  {
    var keys := OrderBy(dir, s);
    forall k | k in s ensures k in keys[n..] <==> k !in Elements(keys[..n]) {
      assert k in Elements(keys);
      SplitSorted(dir, keys, n, k);
    }
    SuffixIs(dir, s, n, s - Elements(keys[..n]));
  }

  /** The keys after the n-th one are those it precedes: a keyset cursor is as good as an offset. */
  lemma KeysetIsOffset(dir: Direction, s: set<Key>, n: nat)
    requires 0 < n <= |s|
    ensures OrderBy(dir, set k | k in s && Before(dir, OrderBy(dir, s)[n - 1], k)) == OrderBy(dir, s)[n..]
  {
    var keys := OrderBy(dir, s);
    forall k | k in s ensures k in keys[n..] <==> Before(dir, keys[n - 1], k) {
      assert k in Elements(keys);
      SplitSorted(dir, keys, n, k);
    }
    SuffixIs(dir, s, n, set k | k in s && Before(dir, keys[n - 1], k));
  }

  function Take<T>(xs: seq<T>, limit: nat): seq<T> {
    if |xs| <= limit then xs else xs[..limit]
  }
}
