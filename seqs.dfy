/**
  The array operations the components chain together: `filter`,
  `filter(...).length` and `slice(0, n)`, with the facts about them the
  other modules use.
 */
module Seqs {

  /** `s.filter(p)`: the elements that satisfy `p`, in their order. */
  function Filter<T>(s: seq<T>, p: T -> bool): (r: seq<T>)
    ensures |r| <= |s|
    ensures forall i :: 0 <= i < |r| ==> r[i] in s && p(r[i])
    ensures forall i :: 0 <= i < |s| && p(s[i]) ==> s[i] in r
    decreases |s|
  {
    if s == [] then []
    else
      assert s == s[..|s| - 1] + [s[|s| - 1]];
      Filter(s[..|s| - 1], p) + (if p(s[|s| - 1]) then [s[|s| - 1]] else [])
  }

  /** `s.filter(p).length` */
  function Count<T>(s: seq<T>, p: T -> bool): nat
  {
    |Filter(s, p)|
  }

  /** `s.slice(0, n)` for a non-negative `n`. */
  function Take<T>(s: seq<T>, n: nat): (r: seq<T>)
    ensures |r| == if |s| < n then |s| else n
    ensures forall i :: 0 <= i < |r| ==> r[i] == s[i]
  {
    if |s| <= n then s else s[..n]
  }

  predicate NoDup<T(==)>(s: seq<T>)
  {
    forall i, j :: 0 <= i < j < |s| ==> s[i] != s[j]
  }

  lemma {:induction false} FilterAppend<T>(a: seq<T>, b: seq<T>, p: T -> bool)
    ensures Filter(a + b, p) == Filter(a, p) + Filter(b, p)
    decreases |b|
  {
    if b == [] {
      assert a + b == a;
    } else {
      var b' := b[..|b| - 1];
      var x := b[|b| - 1];
      assert (a + b)[..|a + b| - 1] == a + b';
      assert (a + b)[|a + b| - 1] == x;
      FilterAppend(a, b', p);
    }
  }

  lemma FilterSingle<T>(x: T, p: T -> bool)
    ensures Filter([x], p) == if p(x) then [x] else []
  {
    assert [x][..0] == [];
  }

  /** Filtering keeps every element when all satisfy the predicate. */
  lemma {:induction false} FilterAll<T>(s: seq<T>, p: T -> bool)
    requires forall i :: 0 <= i < |s| ==> p(s[i])
    ensures Filter(s, p) == s
    decreases |s|
  {
    if s != [] {
      FilterAll(s[..|s| - 1], p);
      assert s == s[..|s| - 1] + [s[|s| - 1]];
    }
  }

  /** Filtering keeps nothing when no element satisfies the predicate. */
  lemma {:induction false} FilterNone<T>(s: seq<T>, p: T -> bool)
    requires forall i :: 0 <= i < |s| ==> !p(s[i])
    ensures Filter(s, p) == []
    decreases |s|
  {
    if s != [] {
      FilterNone(s[..|s| - 1], p);
    }
  }

  /** Filtering a duplicate-free sequence gives a duplicate-free sequence. */
  lemma {:induction false} FilterNoDup<T>(s: seq<T>, p: T -> bool)
    requires NoDup(s)
    ensures NoDup(Filter(s, p))
    decreases |s|
  {
    if s != [] {
      var s' := s[..|s| - 1];
      var x := s[|s| - 1];
      FilterNoDup(s', p);
      assert x !in s';
    }
  }

  /** Filters with pairwise exclusive predicates count at most every element once. */
  lemma {:induction false} CountExclusive<T>(s: seq<T>, p: T -> bool, q: T -> bool, w: T -> bool)
    requires forall x :: !(p(x) && q(x)) && !(p(x) && w(x)) && !(q(x) && w(x))
    ensures Count(s, p) + Count(s, q) + Count(s, w) <= |s|
    decreases |s|
  {
    if s != [] {
      CountExclusive(s[..|s| - 1], p, q, w);
    }
  }

  /** Filtering by two predicates one after the other is filtering by both. */
  lemma {:induction false} FilterTwice<T>(s: seq<T>, p: T -> bool, q: T -> bool, pq: T -> bool)
    requires forall x :: pq(x) == (p(x) && q(x))
    ensures Filter(Filter(s, p), q) == Filter(s, pq)
    decreases |s|
  {
    if s != [] {
      var s' := s[..|s| - 1];
      var x := s[|s| - 1];
      FilterTwice(s', p, q, pq);
      FilterAppend(Filter(s', p), if p(x) then [x] else [], q);
      FilterSingle(x, q);
    }
  }
}
