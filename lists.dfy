/**
 * The array operations the pages use: `Array.prototype.filter` and the
 * `reduce` that totals a nullable numeric column with null counted as 0.
 */
module Lists {
  import opened Wrappers

  /** `s.filter(keep)`: the elements satisfying `keep`, in their original order. */
  function Filter<T(==)>(s: seq<T>, keep: T -> bool): (r: seq<T>)
    ensures |r| <= |s|
    ensures forall i :: 0 <= i < |r| ==> r[i] in s && keep(r[i])
    ensures forall i :: 0 <= i < |s| && keep(s[i]) ==> s[i] in r
  {
    if s == [] then [] else (if keep(s[0]) then [s[0]] else []) + Filter(s[1..], keep)
  }

  /** The filter of a non-empty array: its first element if kept, then the filter of the rest. */
  lemma FilterFront<T>(s: seq<T>, keep: T -> bool)
    requires s != []
    ensures Filter(s, keep) == (if keep(s[0]) then [s[0]] else []) + Filter(s[1..], keep)
  {
  }

  /** Filtering keeps every copy of a kept value and no copy of any other value. */
  lemma {:induction false} FilterCount<T>(s: seq<T>, keep: T -> bool, x: T)
    ensures multiset(Filter(s, keep))[x] == if keep(x) then multiset(s)[x] else 0
  {
    if s != [] {
      FilterCount(s[1..], keep, x);
      FilterFront(s, keep);
      assert s == [s[0]] + s[1..];
    }
  }

  /** `a` is obtained from `b` by deleting elements: same elements, same relative order. */
  predicate IsSubsequence<T(==)>(a: seq<T>, b: seq<T>)
    decreases |b|
  {
    if a == [] then true
    else if b == [] then false
    else if a[0] == b[0] then IsSubsequence(a[1..], b[1..])
    else IsSubsequence(a, b[1..])
  }

  /** A subsequence stays one when an element is put in front of the longer sequence. */
  lemma {:induction false} SubsequenceCons<T>(a: seq<T>, x: T, b: seq<T>)
    requires IsSubsequence(a, b)
    ensures IsSubsequence(a, [x] + b)
    decreases |b|, 1
  {
    assert ([x] + b)[1..] == b;
    if a != [] && a[0] == x {
      SubsequenceTail(a, b);
    }
  }

  /** Dropping the first element of a subsequence keeps it a subsequence. */
  lemma {:induction false} SubsequenceTail<T>(a: seq<T>, b: seq<T>)
    requires a != [] && IsSubsequence(a, b)
    ensures IsSubsequence(a[1..], b)
    decreases |b|, 0
  {
    assert [b[0]] + b[1..] == b;
    if a[0] == b[0] {
      SubsequenceCons(a[1..], b[0], b[1..]);
    } else {
      SubsequenceTail(a, b[1..]);
      SubsequenceCons(a[1..], b[0], b[1..]);
    }
  }

  /** Filtering keeps the surviving elements in their relative order. */
  lemma {:induction false} FilterIsSubsequence<T>(s: seq<T>, keep: T -> bool)
    ensures IsSubsequence(Filter(s, keep), s)
  {
    if s != [] {
      FilterIsSubsequence(s[1..], keep);
      var r := Filter(s, keep);
      if keep(s[0]) {
        assert r[0] == s[0] && r[1..] == Filter(s[1..], keep);
      } else {
        assert r == Filter(s[1..], keep);
        SubsequenceCons(r, s[0], s[1..]);
        assert [s[0]] + s[1..] == s;
      }
    }
  }

  /** A filter that keeps every element returns the array unchanged. */
  lemma {:induction false} FilterKeepsAll<T>(s: seq<T>, keep: T -> bool)
    requires forall i :: 0 <= i < |s| ==> keep(s[i])
    ensures Filter(s, keep) == s
  {
    if s != [] {
      FilterKeepsAll(s[1..], keep);
      assert [s[0]] + s[1..] == s;
    }
  }

  /** `v || 0` on a nullable number. */
  function OrZero(v: Option<real>): real {
    v.GetOr(0.0)
  }

  /** `s.reduce((sum, x) => sum + (value(x) || 0), 0)`: a left fold from 0. */
  function SumBy<T>(s: seq<T>, value: T -> Option<real>): real
    decreases |s|
  {
    if s == [] then 0.0 else SumBy(s[..|s| - 1], value) + OrZero(value(s[|s| - 1]))
  }

  /** The total of a concatenation is the sum of the totals. */
  lemma {:induction false} SumByAppend<T>(a: seq<T>, b: seq<T>, value: T -> Option<real>)
    ensures SumBy(a + b, value) == SumBy(a, value) + SumBy(b, value)
    decreases |b|
  {
    if b != [] {
      var last := |b| - 1;
      assert (a + b)[..|a + b| - 1] == a + b[..last];
      SumByAppend(a, b[..last], value);
    } else {
      assert a + b == a;
    }
  }

  /** The fold read from the front: the first element's value plus the rest. */
  lemma SumByCons<T>(x: T, s: seq<T>, value: T -> Option<real>)
    ensures SumBy([x] + s, value) == OrZero(value(x)) + SumBy(s, value)
  {
    SumByAppend([x], s, value);
    assert [x][..0] == [];
  }

  /** Null values contribute nothing; non-negative values give a non-negative total. */
  lemma {:induction false} SumByNonNegative<T>(s: seq<T>, value: T -> Option<real>)
    requires forall i :: 0 <= i < |s| ==> value(s[i]).Some? ==> value(s[i]).value >= 0.0
    ensures SumBy(s, value) >= 0.0
    decreases |s|
  {
    if s != [] {
      SumByNonNegative(s[..|s| - 1], value);
    }
  }

  /** Splitting an array by a predicate and its negation splits its total. */
  lemma {:induction false} SumByPartition<T>(s: seq<T>, keep: T -> bool, drop: T -> bool,
                                             value: T -> Option<real>)
    requires forall i :: 0 <= i < |s| ==> drop(s[i]) == !keep(s[i])
    ensures SumBy(s, value) == SumBy(Filter(s, keep), value) + SumBy(Filter(s, drop), value)
  {
    if s != [] {
      var rest := s[1..];
      SumByPartition(rest, keep, drop, value);
      assert s == [s[0]] + rest;
      SumByCons(s[0], rest, value);
      if keep(s[0]) {
        assert Filter(s, keep) == [s[0]] + Filter(rest, keep);
        assert Filter(s, drop) == Filter(rest, drop);
        SumByCons(s[0], Filter(rest, keep), value);
      } else {
        assert Filter(s, keep) == Filter(rest, keep);
        assert Filter(s, drop) == [s[0]] + Filter(rest, drop);
        SumByCons(s[0], Filter(rest, drop), value);
      }
    }
  }

  /** The values `f` picks out of `s`, in order (a `filter` followed by a `map`). */
  function Project<T, U>(s: seq<T>, f: T -> Option<U>): (r: seq<U>)
    decreases |s|
  {
    if s == [] then []
    else Project(s[..|s| - 1], f) + (match f(s[|s| - 1]) case Some(u) => [u] case None => [])
  }

  /** Projection distributes over concatenation. */
  lemma {:induction false} ProjectAppend<T, U>(a: seq<T>, b: seq<T>, f: T -> Option<U>)
    ensures Project(a + b, f) == Project(a, f) + Project(b, f)
    decreases |b|
  {
    if b == [] {
      assert a + b == a;
    } else {
      assert (a + b)[..|a + b| - 1] == a + b[..|b| - 1];
      ProjectAppend(a, b[..|b| - 1], f);
    }
  }

  /** The first position of `s` whose element satisfies `p`, when some element does. */
  lemma {:induction false} FirstWhere<T>(s: seq<T>, p: T -> bool) returns (k: nat)
    requires exists i :: 0 <= i < |s| && p(s[i])
    ensures k < |s| && p(s[k])
    ensures forall j :: 0 <= j < k ==> !p(s[j])
  {
    if p(s[0]) {
      k := 0;
    } else {
      var i :| 0 <= i < |s| && p(s[i]);
      assert s[1..][i - 1] == s[i];
      var k' := FirstWhere(s[1..], p);
      k := k' + 1;
      forall j | 0 < j < k ensures !p(s[j]) {
        assert s[j] == s[1..][j - 1];
      }
    }
  }

  /** Filters with predicates that agree on every element agree. */
  lemma {:induction false} FilterSamePredicate<T>(s: seq<T>, p: T -> bool, q: T -> bool)
    requires forall i :: 0 <= i < |s| ==> p(s[i]) == q(s[i])
    ensures Filter(s, p) == Filter(s, q)
  {
    if s != [] {
      FilterSamePredicate(s[1..], p, q);
    }
  }

  /** Two arrays whose values agree position by position have the same total. */
  lemma {:induction false} SumBySameValues<T, U>(s: seq<T>, t: seq<U>, f: T -> Option<real>, g: U -> Option<real>)
    requires |s| == |t| && forall i :: 0 <= i < |s| ==> f(s[i]) == g(t[i])
    ensures SumBy(s, f) == SumBy(t, g)
    decreases |s|
  {
    if s != [] {
      SumBySameValues(s[..|s| - 1], t[..|t| - 1], f, g);
    }
  }
}
