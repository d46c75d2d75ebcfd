/** Array combinators the source uses (`filter`, `find`, `findIndex`), as pure
    functions over sequences, with the facts the rest of the model relies on. */
module Seqs {
  import opened Optional

  /** `s.filter(keep)`: the elements that satisfy `keep`, in their original order. */
  function Filter<T(!new)>(s: seq<T>, keep: T -> bool): (r: seq<T>)
    ensures |r| <= |s|
    ensures forall x :: x in r <==> x in s && keep(x)
  {
    if |s| == 0 then []
    else (if keep(s[0]) then [s[0]] else []) + Filter(s[1..], keep)
  }

  /** Filtering distributes over concatenation: the survivors of `a` all come
      before the survivors of `b`, so filtering keeps the original order. */
  lemma {:induction false} FilterAppend<T(!new)>(a: seq<T>, b: seq<T>, keep: T -> bool)
    ensures Filter(a + b, keep) == Filter(a, keep) + Filter(b, keep)
  {
    if |a| == 0 {
      assert a + b == b;
    } else {
      assert (a + b)[0] == a[0];
      assert (a + b)[1..] == a[1..] + b;
      FilterAppend(a[1..], b, keep);
    }
  }

  /** When every element survives, filtering is the identity. */
  lemma {:induction false} FilterKeepsAll<T(!new)>(s: seq<T>, keep: T -> bool)
    requires forall i :: 0 <= i < |s| ==> keep(s[i])
    ensures Filter(s, keep) == s
  {
    if |s| > 0 {
      FilterKeepsAll(s[1..], keep);
      assert [s[0]] + s[1..] == s;
    }
  }

  /** No two elements of `s` share a key. */
  predicate DistinctBy<T, K(==)>(s: seq<T>, key: T -> K) {
    forall i, j :: 0 <= i < j < |s| ==> key(s[i]) != key(s[j])
  }

  /** Filtering never introduces a repeated key. */
  lemma {:induction false} FilterKeepsDistinct<T(!new), K>(s: seq<T>, keep: T -> bool, key: T -> K)
    requires DistinctBy(s, key)
    ensures DistinctBy(Filter(s, keep), key)
  {
    if |s| > 0 {
      var rest := Filter(s[1..], keep);
      FilterKeepsDistinct(s[1..], keep, key);
      forall y | y in rest
        ensures key(y) != key(s[0])
      {
        var j :| 0 <= j < |s[1..]| && s[1..][j] == y;
        assert s[j + 1] == y;
      }
    }
  }

  /** `s.findIndex(x => key(x) === k)`, with `|s|` standing for "not found". */
  function FirstIndex<T, K(==)>(s: seq<T>, key: T -> K, k: K): (i: nat)
    ensures i <= |s|
    ensures forall j :: 0 <= j < i ==> key(s[j]) != k
    ensures i < |s| ==> key(s[i]) == k
  {
    if |s| == 0 then 0
    else if key(s[0]) == k then 0
    else 1 + FirstIndex(s[1..], key, k)
  }

  /** `s.find(x => key(x) === k)`: the first element with key `k`, if any. */
  function Find<T, K(==)>(s: seq<T>, key: T -> K, k: K): (r: Option<T>)
    ensures r.Some? <==> exists j :: 0 <= j < |s| && key(s[j]) == k
    ensures r.Some? ==> key(r.value) == k && r.value in s
    ensures r.Some? ==> r.value == s[FirstIndex(s, key, k)]
  {
    var i := FirstIndex(s, key, k);
    if i < |s| then Some(s[i]) else None
  }

  /** With distinct keys, the element `find` returns is the only one with that key. */
  lemma FindDistinct<T, K>(s: seq<T>, key: T -> K, j: nat)
    requires DistinctBy(s, key)
    requires j < |s|
    ensures Find(s, key, key(s[j])) == Some(s[j])
  {
    var i := FirstIndex(s, key, key(s[j]));
    assert i == j;
  }

  /** Appending an element does not move an earlier first occurrence; a key
      first seen in the new element is found at its position. */
  lemma {:induction false} FirstIndexSnoc<T, K>(s: seq<T>, x: T, key: T -> K, k: K)
    ensures FirstIndex(s + [x], key, k) ==
            if FirstIndex(s, key, k) < |s| then FirstIndex(s, key, k)
            else if key(x) == k then |s|
            else |s| + 1
  {
    if |s| > 0 {
      assert (s + [x])[1..] == s[1..] + [x];
      FirstIndexSnoc(s[1..], x, key, k);
    }
  }
}
