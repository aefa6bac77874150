/**
 * The two list primitives the app builds everything on: `find` (the first
 * element that matches) and `filter` (the matching elements, in order).
 */
module Seqs {
  import opened Types

  /** `i` is the position at which a left-to-right search for `p` stops. */
  ghost predicate FirstAt<T>(s: seq<T>, p: T -> bool, i: int) {
    0 <= i < |s| && p(s[i]) && forall j :: 0 <= j < i ==> !p(s[j])
  }

  /** The first element of `s` that satisfies `p`, if any. */
  function Find<T>(s: seq<T>, p: T -> bool): (r: Option<T>)
    ensures r.None? <==> forall i :: 0 <= i < |s| ==> !p(s[i])
    ensures r.Some? ==> exists i :: FirstAt(s, p, i) && s[i] == r.value
  {
    if |s| == 0 then None
    else if p(s[0]) then
      assert FirstAt(s, p, 0);
      Some(s[0])
    else
      var r := Find(s[1..], p);
      assert r.Some? ==> exists i :: FirstAt(s, p, i) && s[i] == r.value by {
        if r.Some? {
          var i :| FirstAt(s[1..], p, i) && s[1..][i] == r.value;
          assert FirstAt(s, p, i + 1);
        }
      }
      r
  }

  /** Only one position can be the first match. */
  lemma FirstAtUnique<T>(s: seq<T>, p: T -> bool, i: int, j: int)
    requires FirstAt(s, p, i) && FirstAt(s, p, j)
    ensures i == j
  {
  }

  /** `r` can be obtained from `s` by deleting elements, keeping the order of the rest. */
  ghost predicate IsSubsequence<T>(r: seq<T>, s: seq<T>)
    decreases |s|
  {
    |r| <= |s| &&
    (r == [] || (r[0] == s[0] && IsSubsequence(r[1..], s[1..])) || IsSubsequence(r, s[1..]))
  }

  /** The elements of `s` that satisfy `p`, in their original order. */
  function Filter<T>(s: seq<T>, p: T -> bool): (r: seq<T>)
    ensures |r| <= |s|
    ensures forall i :: 0 <= i < |r| ==> r[i] in s && p(r[i])
    ensures forall i :: 0 <= i < |s| && p(s[i]) ==> s[i] in r
    ensures IsSubsequence(r, s)
  {
    if |s| == 0 then []
    else
      var rest := Filter(s[1..], p);
      if p(s[0]) then
        assert ([s[0]] + rest)[1..] == rest;
        [s[0]] + rest
      else
        rest
  }

  /** Filtering distributes over concatenation: the relative order of kept elements never changes. */
  lemma {:induction false} FilterAppend<T>(a: seq<T>, b: seq<T>, p: T -> bool)
    ensures Filter(a + b, p) == Filter(a, p) + Filter(b, p)
  {
    if |a| > 0 {
      assert (a + b)[1..] == a[1..] + b;
      FilterAppend(a[1..], b, p);
    } else {
      assert a + b == b;
    }
  }

  /** When every element is kept, filtering is the identity. */
  lemma {:induction false} FilterKeepsAll<T>(s: seq<T>, p: T -> bool)
    requires forall i :: 0 <= i < |s| ==> p(s[i])
    ensures Filter(s, p) == s
  {
    if |s| > 0 {
      FilterKeepsAll(s[1..], p);
      assert [s[0]] + s[1..] == s;
    }
  }

  /** A sequence is the part before position `k`, the element at `k` and the part after it. */
  lemma SplitAround<T>(s: seq<T>, k: int)
    requires 0 <= k < |s|
    ensures s == s[..k] + [s[k]] + s[k + 1..]
  {
  }

  /**
   * Filtering by a predicate and by its complement splits `s` into two
   * lists that together hold every element exactly as often as `s` does.
   */
  lemma {:induction false} FilterPartition<T>(s: seq<T>, p: T -> bool, q: T -> bool)
    requires forall x :: q(x) == !p(x)
    ensures multiset(Filter(s, p)) + multiset(Filter(s, q)) == multiset(s)
    ensures |Filter(s, p)| + |Filter(s, q)| == |s|
  {
    if |s| > 0 {
      var rest := s[1..];
      FilterPartition(rest, p, q);
      assert s == [s[0]] + rest;
      assert multiset(s) == multiset{s[0]} + multiset(rest);
      if p(s[0]) {
        assert Filter(s, p) == [s[0]] + Filter(rest, p);
        assert multiset(Filter(s, p)) == multiset{s[0]} + multiset(Filter(rest, p));
        assert Filter(s, q) == Filter(rest, q);
      } else {
        assert Filter(s, p) == Filter(rest, p);
        assert Filter(s, q) == [s[0]] + Filter(rest, q);
        assert multiset(Filter(s, q)) == multiset{s[0]} + multiset(Filter(rest, q));
      }
    }
  }

  /** Filtering keeps every matching element exactly as often as `s` holds it, and nothing else. */
  lemma FilterCounts<T>(s: seq<T>, p: T -> bool)
    ensures forall x :: multiset(Filter(s, p))[x] == if p(x) then multiset(s)[x] else 0
  {
    var q := (x: T) => !p(x);
    FilterPartition(s, p, q);
    forall x
      ensures multiset(Filter(s, p))[x] == if p(x) then multiset(s)[x] else 0
    {
      if p(x) {
        assert x !in multiset(Filter(s, q));
      } else {
        assert x !in multiset(Filter(s, p));
      }
    }
  }
}
