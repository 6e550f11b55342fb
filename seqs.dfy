/**
 * Folds the planner applies to lists of records: `reduce` sums of amounts and
 * `filter`. Everything is stated once, generically, and used by the pages.
 */
module Seqs {
  import opened Records

  /** `s.reduce((sum, x) => sum + f(x), 0)`. */
  function SumBy<T>(s: seq<T>, f: T -> real): real
  {
    if |s| == 0 then 0.0 else SumBy(s[..|s| - 1], f) + f(s[|s| - 1])
  }

  /** `s.filter(p)`: the elements satisfying `p`, in their original order. */
  function Filter<T(!new)>(s: seq<T>, p: T -> bool): (r: seq<T>)
    ensures |r| <= |s|
    ensures forall x :: x in r <==> x in s && p(x)
    ensures multiset(r) <= multiset(s)
  {
    if |s| == 0 then []
    else
      var rest := Filter(s[..|s| - 1], p);
      assert s == s[..|s| - 1] + [s[|s| - 1]];
      if p(s[|s| - 1]) then rest + [s[|s| - 1]] else rest
  }

  lemma {:induction false} SumByAppend<T>(a: seq<T>, b: seq<T>, f: T -> real)
    ensures SumBy(a + b, f) == SumBy(a, f) + SumBy(b, f)
    decreases |b|
  {
    if b == [] {
      assert a + b == a;
    } else {
      assert (a + b)[..|a + b| - 1] == a + b[..|b| - 1];
      SumByAppend(a, b[..|b| - 1], f);
    }
  }

  /** A sum does not depend on the order of its terms. */
  lemma {:induction false} SumByPermutation<T>(a: seq<T>, b: seq<T>, f: T -> real)
    requires multiset(a) == multiset(b)
    ensures SumBy(a, f) == SumBy(b, f)
    decreases |a|
  {
    if a != [] {
      var x := a[|a| - 1];
      var a' := a[..|a| - 1];
      assert a == a' + [x];
      assert x in multiset(b);
      var k :| 0 <= k < |b| && b[k] == x;
      var b' := b[..k] + b[k + 1..];
      assert b == b[..k] + [x] + b[k + 1..];
      assert multiset(a) == multiset(a') + multiset{x};
      assert multiset(b) == multiset(b[..k]) + multiset{x} + multiset(b[k + 1..]);
      assert multiset(b') == multiset(b[..k]) + multiset(b[k + 1..]);
      assert multiset(a') == multiset(a) - multiset{x};
      assert multiset(b') == multiset(b) - multiset{x};
      SumByPermutation(a', b', f);
      SumByAppend(b[..k] + [x], b[k + 1..], f);
      SumByAppend(b[..k], [x], f);
      SumByAppend(b[..k], b[k + 1..], f);
      assert SumBy([x], f) == f(x) by {
        assert [x][..0] == [];
      }
    } else {
      assert b == [];
    }
  }

  /** Sums of non-negative terms are non-negative. */
  lemma {:induction false} SumByNonnegative<T>(s: seq<T>, f: T -> real)
    requires forall x :: x in s ==> f(x) >= 0.0
    ensures SumBy(s, f) >= 0.0
  {
    if s != [] {
      SumByNonnegative(s[..|s| - 1], f);
    }
  }

  /** Filtering out non-negative terms can only lower a sum. */
  lemma {:induction false} SumByFilterBound<T(!new)>(s: seq<T>, f: T -> real, p: T -> bool)
    requires forall x :: x in s ==> f(x) >= 0.0
    ensures SumBy(Filter(s, p), f) <= SumBy(s, f)
  {
    if s != [] {
      var last := s[|s| - 1];
      SumByFilterBound(s[..|s| - 1], f, p);
      if p(last) {
        SumByAppend(Filter(s[..|s| - 1], p), [last], f);
        assert [last][..0] == [];
      }
    }
  }

  /** Summing `f` over the elements that pass `p` is summing, over all
      elements, `f` where `p` holds and 0 elsewhere. */
  lemma {:induction false} SumByFilter<T(!new)>(s: seq<T>, f: T -> real, p: T -> bool, g: T -> real)
    requires forall x :: x in s ==> g(x) == (if p(x) then f(x) else 0.0)
    ensures SumBy(Filter(s, p), f) == SumBy(s, g)
  {
    if |s| > 0 {
      var last := s[|s| - 1];
      SumByFilter(s[..|s| - 1], f, p, g);
      if p(last) {
        SumByAppend(Filter(s[..|s| - 1], p), [last], f);
        assert [last][..0] == [];
      }
    }
  }

  /** A sum whose terms are all zero is zero. */
  lemma {:induction false} SumByZero<T>(s: seq<T>, f: T -> real)
    requires forall x :: x in s ==> f(x) == 0.0
    ensures SumBy(s, f) == 0.0
  {
    if s != [] {
      SumByZero(s[..|s| - 1], f);
    }
  }

  /** Two term functions that agree on `s` give the same sum. */
  lemma {:induction false} SumByCongruent<T>(s: seq<T>, f: T -> real, g: T -> real)
    requires forall x :: x in s ==> f(x) == g(x)
    ensures SumBy(s, f) == SumBy(s, g)
  {
    if s != [] {
      SumByCongruent(s[..|s| - 1], f, g);
    }
  }

  /** Term-wise `f <= g` gives `SumBy(s, f) <= SumBy(s, g)`. */
  lemma {:induction false} SumByMonotone<T>(s: seq<T>, f: T -> real, g: T -> real)
    requires forall x :: x in s ==> f(x) <= g(x)
    ensures SumBy(s, f) <= SumBy(s, g)
  {
    if s != [] {
      SumByMonotone(s[..|s| - 1], f, g);
    }
  }
  /** A predicate and its negation split a list: every element goes to
      exactly one side. */
  lemma {:induction false} FilterPartition<T(!new)>(s: seq<T>, p: T -> bool, q: T -> bool)
    requires forall x :: q(x) <==> !p(x)
    ensures |Filter(s, p)| + |Filter(s, q)| == |s|
  {
    if s != [] {
      FilterPartition(s[..|s| - 1], p, q);
    }
  }

  /** The position of the last element of `s` satisfying `p`, if any. */
  function LastIndex<T>(s: seq<T>, p: T -> bool): (r: Option<nat>)
    ensures r.None? <==> forall i :: 0 <= i < |s| ==> !p(s[i])
    ensures r.Some? ==>
      r.value < |s| && p(s[r.value]) &&
      forall j :: r.value < j < |s| ==> !p(s[j])
  {
    if |s| == 0 then None
    else if p(s[|s| - 1]) then Some(|s| - 1)
    else
      var r := LastIndex(s[..|s| - 1], p);
      assert forall i :: 0 <= i < |s| - 1 ==> s[..|s| - 1][i] == s[i];
      r
  }
  /** The positions in `s` of the elements `Filter(s, p)` keeps, ascending. */
  function FilterPositions<T>(s: seq<T>, p: T -> bool): (pos: seq<nat>)
    ensures forall k :: 0 <= k < |pos| ==> pos[k] < |s|
    ensures forall k, l :: 0 <= k < l < |pos| ==> pos[k] < pos[l]
  {
    if |s| == 0 then []
    else
      var rest := FilterPositions(s[..|s| - 1], p);
      if p(s[|s| - 1]) then rest + [|s| - 1] else rest
  }

  /** `Filter` keeps the order of the list: its k-th element is the one at
      the k-th kept position. */
  lemma {:induction false} FilterKeepsOrder<T(!new)>(s: seq<T>, p: T -> bool)
    ensures |FilterPositions(s, p)| == |Filter(s, p)|
    ensures forall k :: 0 <= k < |Filter(s, p)| ==> s[FilterPositions(s, p)[k]] == Filter(s, p)[k]
  {
    if s != [] {
      var prefix := s[..|s| - 1];
      var last := s[|s| - 1];
      FilterKeepsOrder(prefix, p);
      var pos, rest := FilterPositions(prefix, p), Filter(prefix, p);
      forall k | 0 <= k < |rest|
        ensures s[pos[k]] == rest[k]
      {
        assert s[pos[k]] == prefix[pos[k]];
      }
      if p(last) {
        assert FilterPositions(s, p) == pos + [|s| - 1];
        assert Filter(s, p) == rest + [last];
      } else {
        assert FilterPositions(s, p) == pos;
        assert Filter(s, p) == rest;
      }
    }
  }

  /** `Filter` keeps every occurrence of a kept value and drops every
      occurrence of a rejected one. */
  lemma {:induction false} FilterCount<T(!new)>(s: seq<T>, p: T -> bool, x: T)
    ensures multiset(Filter(s, p))[x] == if p(x) then multiset(s)[x] else 0
  {
    if s != [] {
      var prefix := s[..|s| - 1];
      var last := s[|s| - 1];
      FilterCount(prefix, p, x);
      assert s == prefix + [last];
      assert multiset(s) == multiset(prefix) + multiset{last};
    }
  }

  /** A list whose elements all pass is its own filter. */
  lemma {:induction false} FilterAllKept<T(!new)>(s: seq<T>, p: T -> bool)
    requires forall i :: 0 <= i < |s| ==> p(s[i])
    ensures Filter(s, p) == s
  {
    if s != [] {
      var prefix := s[..|s| - 1];
      assert forall i :: 0 <= i < |prefix| ==> prefix[i] == s[i];
      FilterAllKept(prefix, p);
      assert s == prefix + [s[|s| - 1]];
    }
  }

  /** Filtering a list with one more element at the end. */
  lemma FilterSnoc<T(!new)>(s: seq<T>, x: T, p: T -> bool)
    ensures Filter(s + [x], p) == if p(x) then Filter(s, p) + [x] else Filter(s, p)
  {
    assert (s + [x])[..|s + [x]| - 1] == s;
  }
}
