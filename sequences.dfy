/** The three JavaScript array operations the controller is built from:
    `filter`, `find`, and a `map` that rewrites the elements satisfying a test
    and passes the others through. */
module Sequences {
  import opened Wrappers

  /** `s.filter(keep)`: the elements of `s` that satisfy `keep`, in order. */
  function Filter<T(!new)>(s: seq<T>, keep: T -> bool): (r: seq<T>)
    ensures |r| <= |s|
    ensures forall x :: x in r <==> x in s && keep(x)
  {
    if s == [] then []
    else
      assert s == [s[0]] + s[1..];
      (if keep(s[0]) then [s[0]] else []) + Filter(s[1..], keep)
  }

  /** Filtering distributes over concatenation, so it keeps the relative
      order of the elements it keeps. */
  lemma {:induction false} FilterAppend<T(!new)>(a: seq<T>, b: seq<T>, keep: T -> bool)
    ensures Filter(a + b, keep) == Filter(a, keep) + Filter(b, keep)
  {
    if a == [] {
      assert a + b == b;
    } else {
      assert (a + b)[1..] == a[1..] + b;
      FilterAppend(a[1..], b, keep);
    }
  }

  /** When every element passes, nothing is dropped. */
  lemma {:induction false} FilterKeepsAll<T(!new)>(s: seq<T>, keep: T -> bool)
    requires forall x :: x in s ==> keep(x)
    ensures Filter(s, keep) == s
  {
    if s != [] {
      assert s == [s[0]] + s[1..];
      FilterKeepsAll(s[1..], keep);
    }
  }

  /** Filtering twice with the same test is filtering once. */
  lemma FilterIdempotent<T(!new)>(s: seq<T>, keep: T -> bool)
    ensures Filter(Filter(s, keep), keep) == Filter(s, keep)
  {
    FilterKeepsAll(Filter(s, keep), keep);
  }

  /** `s.find(hit)`: the first element of `s` that satisfies `hit`. */
  function Find<T(!new)>(s: seq<T>, hit: T -> bool): (r: Option<T>)
    ensures r.None? <==> forall x :: x in s ==> !hit(x)
    ensures r.Some? ==> r.value in s && hit(r.value)
  {
    if s == [] then None
    else if hit(s[0]) then Some(s[0])
    else
      assert s == [s[0]] + s[1..];
      Find(s[1..], hit)
  }

  /** The element `find` returns is the one at the first index that passes. */
  lemma {:induction false} FindFirst<T(!new)>(s: seq<T>, hit: T -> bool, i: nat)
    requires i < |s| && hit(s[i])
    requires forall j :: 0 <= j < i ==> !hit(s[j])
    ensures Find(s, hit) == Some(s[i])
  {
    if i > 0 {
      assert !hit(s[0]);
      FindFirst(s[1..], hit, i - 1);
    }
  }

  /** `s.map(x => hit(x) ? change(x) : x)`. */
  function MapWhere<T>(s: seq<T>, hit: T -> bool, change: T -> T): (r: seq<T>)
    ensures |r| == |s|
    ensures forall i :: 0 <= i < |s| && !hit(s[i]) ==> r[i] == s[i]
    ensures forall i :: 0 <= i < |s| && hit(s[i]) ==> r[i] == change(s[i])
  {
    if s == [] then []
    else [if hit(s[0]) then change(s[0]) else s[0]] + MapWhere(s[1..], hit, change)
  }

  /** When no element passes the test, the mapped sequence is the original. */
  lemma MapWhereMissing<T>(s: seq<T>, hit: T -> bool, change: T -> T)
    requires forall x :: x in s ==> !hit(x)
    ensures MapWhere(s, hit, change) == s
  {
    var r := MapWhere(s, hit, change);
    forall i | 0 <= i < |s| ensures r[i] == s[i] {
      assert s[i] in s;
    }
  }
}
