/** Sequence helpers shared by the model: Python slicing `xs[:n]`, filtering,
    counting, sums, and the stable `sorted(..., key=k, reverse=True)` that the
    services use to rank projects, topics, categories and actions.
 */
module Seqs {

  import opened Wrappers

  // ---------------------------------------------------------------------------
  // Slicing
  // ---------------------------------------------------------------------------

  /** Python's `xs[:n]`: a non-negative `n` keeps the first `n` elements (all of
      them when `n` is larger), a negative `n` drops the last `-n`. */
  function Take<T>(xs: seq<T>, n: int): (r: seq<T>)
    ensures r <= xs
    ensures 0 <= n ==> |r| == if n <= |xs| then n else |xs|
    ensures n < 0 ==> |r| == if -n <= |xs| then |xs| + n else 0
  {
    if 0 <= n then (if n <= |xs| then xs[..n] else xs)
    else if -n <= |xs| then xs[..|xs| + n]
    else []
  }

  // ---------------------------------------------------------------------------
  // Filtering and counting
  // ---------------------------------------------------------------------------

  /** `[x for x in xs if keep(x)]`. */
  function Filter<T>(xs: seq<T>, keep: T -> bool): (r: seq<T>)
    ensures |r| <= |xs|
    ensures forall i :: 0 <= i < |r| ==> keep(r[i]) && r[i] in xs
    ensures forall i :: 0 <= i < |xs| && keep(xs[i]) ==> xs[i] in r
  {
    if |xs| == 0 then []
    else if keep(xs[0]) then [xs[0]] + Filter(xs[1..], keep)
    else Filter(xs[1..], keep)
  }

  /** Filtering by a test and by its negation splits the list: together
      the two parts hold every element exactly once. */
  lemma {:induction false} FilterComplement<T>(xs: seq<T>, p: T -> bool, q: T -> bool)
    requires forall x :: q(x) == !p(x)
    ensures multiset(Filter(xs, p)) + multiset(Filter(xs, q)) == multiset(xs)
    decreases |xs|
  {
    if |xs| > 0 {
      var x, rest := xs[0], xs[1..];
      FilterComplement(rest, p, q);
      assert xs == [x] + rest;
      assert multiset(xs) == multiset{x} + multiset(rest);
      if p(x) {
        assert Filter(xs, p) == [x] + Filter(rest, p);
        assert Filter(xs, q) == Filter(rest, q);
      } else {
        assert Filter(xs, p) == Filter(rest, p);
        assert Filter(xs, q) == [x] + Filter(rest, q);
      }
    }
  }

  /** Filtering distributes over concatenation. */
  lemma {:induction false} FilterAppend<T>(a: seq<T>, b: seq<T>, keep: T -> bool)
    ensures Filter(a + b, keep) == Filter(a, keep) + Filter(b, keep)
    decreases |a|
  {
    if |a| > 0 {
      assert (a + b)[1..] == a[1..] + b;
      FilterAppend(a[1..], b, keep);
    } else {
      assert a + b == b;
    }
  }

  /** Filtering a one-element list keeps the element exactly when it passes. */
  lemma FilterSingleton<T>(x: T, keep: T -> bool)
    ensures Filter([x], keep) == if keep(x) then [x] else []
  {
    assert [x][1..] == [];
  }

  /** Filtering a list extended at the end gives the filtered list, extended
      by the new element when it passes. With `Filter([], keep) == []` this
      fixes the result: the passing elements in their order, each as often
      as it occurs. */
  lemma FilterSnoc<T>(xs: seq<T>, x: T, keep: T -> bool)
    ensures Filter(xs + [x], keep) == Filter(xs, keep) + (if keep(x) then [x] else [])
  {
    FilterAppend(xs, [x], keep);
    FilterSingleton(x, keep);
  }

  /** `r` is obtained from `xs` by deleting elements: its elements occur in
      `xs` in the same order. */
  predicate Subsequence<T(==)>(r: seq<T>, xs: seq<T>)
    decreases |xs|
  {
    if |xs| == 0 then |r| == 0
    else Subsequence(r, xs[1..]) || (|r| > 0 && r[0] == xs[0] && Subsequence(r[1..], xs[1..]))
  }

  /** The filtered list keeps the input order, and it holds every passing
      value exactly as often as the input does and no other value. */
  lemma {:induction false} FilterOrder<T>(xs: seq<T>, keep: T -> bool)
    ensures Subsequence(Filter(xs, keep), xs)
    ensures forall x :: Count(Filter(xs, keep), x) == if keep(x) then Count(xs, x) else 0
    decreases |xs|
  {
    if |xs| > 0 {
      FilterOrder(xs[1..], keep);
      var f, rest := Filter(xs, keep), Filter(xs[1..], keep);
      if keep(xs[0]) {
        assert f == [xs[0]] + rest && f[1..] == rest;
      } else {
        assert f == rest;
      }
    }
  }

  /** Filtering keeps everything when every element passes. */
  lemma {:induction false} FilterAll<T>(xs: seq<T>, keep: T -> bool)
    requires forall i :: 0 <= i < |xs| ==> keep(xs[i])
    ensures Filter(xs, keep) == xs
  {
    if |xs| > 0 {
      FilterAll(xs[1..], keep);
    }
  }

  /** Filtering keeps nothing when no element passes. */
  lemma {:induction false} FilterNone<T>(xs: seq<T>, keep: T -> bool)
    requires forall i :: 0 <= i < |xs| ==> !keep(xs[i])
    ensures Filter(xs, keep) == []
  {
    if |xs| > 0 {
      FilterNone(xs[1..], keep);
    }
  }

  /** `xs.count(x)`. */
  function Count<T(==)>(xs: seq<T>, x: T): (r: nat)
    ensures r <= |xs|
    ensures r > 0 <==> x in xs
  {
    if |xs| == 0 then 0
    else (if xs[0] == x then 1 else 0) + Count(xs[1..], x)
  }

  /** Number of elements satisfying a predicate: `sum(1 for x in xs if p(x))`. */
  function CountIf<T>(xs: seq<T>, p: T -> bool): (r: nat)
    ensures r <= |xs|
    ensures r == |Filter(xs, p)|
  {
    if |xs| == 0 then 0
    else (if p(xs[0]) then 1 else 0) + CountIf(xs[1..], p)
  }

  /** An element of `xs` whose count is maximal, the first such in list order.
      Python's `max(set(xs), key=xs.count)` returns one of the maximal ones;
      which one depends on set iteration order. */
  function MostCommon<T(==)>(xs: seq<T>): (r: T)
    requires |xs| > 0
    ensures r in xs
    ensures forall y :: y in xs ==> Count(xs, y) <= Count(xs, r)
  {
    MostCommonFrom(xs, xs)
  }

  function MostCommonFrom<T(==)>(xs: seq<T>, cands: seq<T>): (r: T)
    requires |cands| > 0
    ensures r in cands
    ensures forall y :: y in cands ==> Count(xs, y) <= Count(xs, r)
  {
    if |cands| == 1 then cands[0]
    else
      var best := MostCommonFrom(xs, cands[1..]);
      assert forall y :: y in cands && y != cands[0] ==> y in cands[1..];
      if Count(xs, cands[0]) >= Count(xs, best) then cands[0] else best
  }

  /** The first index at or after `p` whose flag is set, if any. */
  function FirstTrue(bs: seq<bool>, p: nat): (r: Option<nat>)
    requires p <= |bs|
    ensures r.None? <==> forall q :: p <= q < |bs| ==> !bs[q]
    ensures r.Some? ==> p <= r.value < |bs| && bs[r.value] && forall q :: p <= q < r.value ==> !bs[q]
    decreases |bs| - p
  {
    if p == |bs| then None
    else if bs[p] then Some(p)
    else FirstTrue(bs, p + 1)
  }

  /** Position of the first maximal element: Python's `max` over a
      sequence keeps the first of several equal maxima. */
  function ArgMax(xs: seq<int>): (r: nat)
    requires |xs| > 0
    ensures r < |xs|
    ensures forall j :: 0 <= j < |xs| ==> xs[j] <= xs[r]
    ensures forall j :: 0 <= j < r ==> xs[j] < xs[r]
  {
    if |xs| == 1 then 0
    else
      var k := ArgMax(xs[..|xs| - 1]);
      if xs[|xs| - 1] > xs[k] then |xs| - 1 else k
  }

  /** Keeps the first occurrence of every element (the element set of
      Python's `list(set(xs))`). */
  function Dedup<T(==)>(xs: seq<T>): (r: seq<T>)
    ensures forall i :: 0 <= i < |r| ==> r[i] in xs
    ensures forall i :: 0 <= i < |xs| ==> xs[i] in r
    ensures forall i, j :: 0 <= i < j < |r| ==> r[i] != r[j]
  {
    DedupFrom(xs, [])
  }

  function DedupFrom<T(==)>(xs: seq<T>, seen: seq<T>): (r: seq<T>)
    requires forall i, j :: 0 <= i < j < |seen| ==> seen[i] != seen[j]
    ensures forall i :: 0 <= i < |r| ==> r[i] in xs || r[i] in seen
    ensures forall i :: 0 <= i < |xs| ==> xs[i] in r
    ensures seen <= r
    ensures forall i, j :: 0 <= i < j < |r| ==> r[i] != r[j]
    decreases |xs|
  {
    if |xs| == 0 then seen
    else if xs[0] in seen then
      var r := DedupFrom(xs[1..], seen);
      assert forall i :: 0 <= i < |seen| ==> seen[i] == r[i];
      r
    else
      var seen' := seen + [xs[0]];
      var r := DedupFrom(xs[1..], seen');
      assert r[|seen|] == seen'[|seen|] == xs[0];
      r
  }

  // ---------------------------------------------------------------------------
  // Sums
  // ---------------------------------------------------------------------------

  /** `f` applied to each element, the results joined in order. */
  function FlatMap<A, B>(xs: seq<A>, f: A -> seq<B>): seq<B> {
    if |xs| == 0 then [] else f(xs[0]) + FlatMap(xs[1..], f)
  }

  /** When `f` always gives two elements, the `k`-th pair of the result is
      what `f` gives for the `k`-th element. */
  lemma {:induction false} FlatMapPairs<A, B>(xs: seq<A>, f: A -> seq<B>)
    requires forall i :: 0 <= i < |xs| ==> |f(xs[i])| == 2
    ensures |FlatMap(xs, f)| == 2 * |xs|
    ensures forall k :: 0 <= k < |xs| ==> FlatMap(xs, f)[2 * k] == f(xs[k])[0]
    ensures forall k :: 0 <= k < |xs| ==> FlatMap(xs, f)[2 * k + 1] == f(xs[k])[1]
  {
    if |xs| > 0 {
      var resto := xs[1..];
      forall i | 0 <= i < |resto|
        ensures |f(resto[i])| == 2
      {
        assert resto[i] == xs[i + 1];
      }
      FlatMapPairs(resto, f);
      var a := f(xs[0]);
      var cola := FlatMap(resto, f);
      forall k | 1 <= k < |xs|
        ensures (a + cola)[2 * k] == f(xs[k])[0] && (a + cola)[2 * k + 1] == f(xs[k])[1]
      {
        assert xs[k] == resto[k - 1];
      }
    }
  }

  function SumInt(xs: seq<int>): int {
    if |xs| == 0 then 0 else xs[0] + SumInt(xs[1..])
  }

  function SumReal(xs: seq<real>): real {
    if |xs| == 0 then 0.0 else xs[0] + SumReal(xs[1..])
  }

  lemma {:induction false} SumIntAppend(a: seq<int>, b: seq<int>)
    ensures SumInt(a + b) == SumInt(a) + SumInt(b)
    decreases |a|
  {
    if |a| == 0 {
      assert a + b == b;
    } else {
      assert (a + b)[1..] == a[1..] + b;
      SumIntAppend(a[1..], b);
    }
  }

  lemma {:induction false} SumRealAppend(a: seq<real>, b: seq<real>)
    ensures SumReal(a + b) == SumReal(a) + SumReal(b)
    decreases |a|
  {
    if |a| == 0 {
      assert a + b == b;
    } else {
      assert (a + b)[1..] == a[1..] + b;
      SumRealAppend(a[1..], b);
    }
  }

  /** A sum of terms that each lie in `[lo, hi]` lies in `[n*lo, n*hi]`. */
  lemma {:induction false} SumRealBounds(xs: seq<real>, lo: real, hi: real)
    requires forall i :: 0 <= i < |xs| ==> lo <= xs[i] <= hi
    ensures |xs| as real * lo <= SumReal(xs) <= |xs| as real * hi
    decreases |xs|
  {
    if |xs| > 0 {
      SumRealBounds(xs[1..], lo, hi);
    }
  }

  /** The arithmetic mean of a non-empty list. */
  function Mean(xs: seq<real>): real
    requires |xs| > 0
  {
    SumReal(xs) / |xs| as real
  }

  /** The mean of terms that each lie in `[lo, hi]` lies in `[lo, hi]`. */
  lemma MeanBounds(xs: seq<real>, lo: real, hi: real)
    requires |xs| > 0
    requires forall i :: 0 <= i < |xs| ==> lo <= xs[i] <= hi
    ensures lo <= Mean(xs) <= hi
  {
    SumRealBounds(xs, lo, hi);
    var n := |xs| as real;
    var m := Mean(xs);
    assert m * n == SumReal(xs);
    assert lo * n <= m * n <= hi * n;
  }

  lemma {:induction false} SumIntNonNeg(xs: seq<int>)
    requires forall i :: 0 <= i < |xs| ==> 0 <= xs[i]
    ensures 0 <= SumInt(xs)
    decreases |xs|
  {
    if |xs| > 0 {
      SumIntNonNeg(xs[1..]);
    }
  }

  // ---------------------------------------------------------------------------
  // Stable sort, highest key first
  // ---------------------------------------------------------------------------

  /** Index `a` goes before index `b` in a stable descending sort: a higher
      key first, and on equal keys the earlier index first. */
  predicate Before(keys: seq<real>, a: nat, b: nat)
    requires a < |keys| && b < |keys|
  {
    keys[a] > keys[b] || (keys[a] == keys[b] && a < b)
  }

  predicate InRange(keys: seq<real>, l: seq<nat>) {
    forall i :: 0 <= i < |l| ==> l[i] < |keys|
  }

  predicate Ordered(keys: seq<real>, l: seq<nat>)
    requires InRange(keys, l)
  {
    forall i, j :: 0 <= i < j < |l| ==> Before(keys, l[i], l[j])
  }

  /** Inserts index `x` before the first index whose key is strictly lower. */
  function Insert(keys: seq<real>, x: nat, l: seq<nat>): (r: seq<nat>)
    requires x < |keys| && InRange(keys, l)
    ensures InRange(keys, r)
    ensures |r| == |l| + 1
    ensures multiset(r) == multiset(l) + multiset{x}
  {
    if |l| == 0 then [x]
    else if keys[l[0]] < keys[x] then [x] + l
    else
      var rest := Insert(keys, x, l[1..]);
      assert l == [l[0]] + l[1..];
      [l[0]] + rest
  }

  lemma {:induction false} InsertOrdered(keys: seq<real>, x: nat, l: seq<nat>)
    requires x < |keys| && InRange(keys, l) && Ordered(keys, l)
    requires forall i :: 0 <= i < |l| ==> l[i] < x
    ensures Ordered(keys, Insert(keys, x, l))
    decreases |l|
  {
    if |l| > 0 && keys[l[0]] >= keys[x] {
      InsertOrdered(keys, x, l[1..]);
      var rest := Insert(keys, x, l[1..]);
      var r := Insert(keys, x, l);
      assert r == [l[0]] + rest;
      forall k | 0 <= k < |rest|
        ensures Before(keys, l[0], rest[k])
      {
        assert rest[k] in multiset(rest);
        assert rest[k] in multiset(l[1..]) + multiset{x};
        if rest[k] != x {
          assert rest[k] in multiset(l[1..]);
          var m :| 0 <= m < |l[1..]| && l[1..][m] == rest[k];
          assert Before(keys, l[0], l[m + 1]);
        }
      }
    }
  }

  /** The indices `0..n-1` in stable descending order of their keys. */
  function SortIndices(keys: seq<real>, n: nat): (r: seq<nat>)
    requires n <= |keys|
    ensures InRange(keys, r)
    ensures |r| == n
    ensures forall i :: 0 <= i < |r| ==> r[i] < n
    ensures multiset(r) == multiset(Range(n))
    ensures Ordered(keys, r)
  {
    if n == 0 then []
    else
      var prev := SortIndices(keys, n - 1);
      InsertOrdered(keys, n - 1, prev);
      var r := Insert(keys, n - 1, prev);
      assert Range(n) == Range(n - 1) + [n - 1];
      forall i | 0 <= i < |r|
        ensures r[i] < n
      {
        assert r[i] in multiset(r);
        if r[i] != n - 1 {
          assert r[i] in multiset(prev);
        }
      }
      r
  }

  function Range(n: nat): (r: seq<nat>)
    ensures |r| == n
    ensures forall i :: 0 <= i < n ==> r[i] == i
  {
    if n == 0 then [] else Range(n - 1) + [n - 1]
  }

  /** Python's `sorted(xs, key=key, reverse=True)`: ties keep their original
      relative order. */
  function SortDesc<T>(xs: seq<T>, key: T -> real): (r: seq<T>)
    ensures |r| == |xs|
  {
    var keys := seq(|xs|, i requires 0 <= i < |xs| => key(xs[i]));
    var p := SortIndices(keys, |xs|);
    seq(|xs|, i requires 0 <= i < |xs| => xs[p[i]])
  }

  /** The permutation behind `SortDesc`: `SortDesc(xs, key)[i] == xs[p[i]]`. */
  function SortPerm<T>(xs: seq<T>, key: T -> real): (p: seq<nat>)
    ensures |p| == |xs|
    ensures forall i :: 0 <= i < |p| ==> p[i] < |xs|
    ensures forall i :: 0 <= i < |xs| ==> SortDesc(xs, key)[i] == xs[p[i]]
  {
    var keys := seq(|xs|, i requires 0 <= i < |xs| => key(xs[i]));
    SortIndices(keys, |xs|)
  }

  /** `SortDesc` is a stable descending sort: it rearranges `xs` by a
      permutation, puts higher keys first, and keeps the original order of
      equal keys. */
  lemma SortDescSpec<T>(xs: seq<T>, key: T -> real)
    ensures var r, p := SortDesc(xs, key), SortPerm(xs, key);
      && multiset(p) == multiset(Range(|xs|))
      && (forall i, j :: 0 <= i < j < |r| ==> key(r[i]) >= key(r[j]))
      && (forall i, j :: 0 <= i < j < |r| && key(r[i]) == key(r[j]) ==> p[i] < p[j])
  {
    var keys := seq(|xs|, i requires 0 <= i < |xs| => key(xs[i]));
  }

  /** Two stable passes, by `k1` and then by `k2`: the `i`-th element is the
      `p1[p2[i]]`-th of the input, and elements equal under both keys keep
      their input order. */
  lemma SortDescTwice<T>(xs: seq<T>, k1: T -> real, k2: T -> real)
    ensures var s1 := SortDesc(xs, k1);
      var p1, p2, r := SortPerm(xs, k1), SortPerm(s1, k2), SortDesc(s1, k2);
      && (forall i :: 0 <= i < |r| ==> p2[i] < |xs| && p1[p2[i]] < |xs| && r[i] == xs[p1[p2[i]]])
      && (forall i, j :: 0 <= i < j < |r| && k1(r[i]) == k1(r[j]) && k2(r[i]) == k2(r[j]) ==> p1[p2[i]] < p1[p2[j]])
  {
    var s1 := SortDesc(xs, k1);
    var p1, p2, r := SortPerm(xs, k1), SortPerm(s1, k2), SortDesc(s1, k2);
    SortDescSpec(xs, k1);
    SortDescSpec(s1, k2);
    forall i, j | 0 <= i < j < |r| && k1(r[i]) == k1(r[j]) && k2(r[i]) == k2(r[j])
      ensures p1[p2[i]] < p1[p2[j]]
    {
      assert p2[i] < p2[j];
      assert r[i] == s1[p2[i]] && r[j] == s1[p2[j]];
    }
  }

  /** When every key is the same, the stable sort leaves the list as it is. */
  lemma SortDescConstant<T>(xs: seq<T>, key: T -> real)
    requires forall i :: 0 <= i < |xs| ==> key(xs[i]) == key(xs[0])
    ensures SortDesc(xs, key) == xs
  {
    var r, p := SortDesc(xs, key), SortPerm(xs, key);
    SortDescSpec(xs, key);
    forall i, j | 0 <= i < j < |p|
      ensures p[i] < p[j]
    {
      assert key(r[i]) == key(xs[p[i]]) == key(xs[0]) == key(xs[p[j]]) == key(r[j]);
    }
    IncreasingIndices(p, |xs|);
  }

  /** A strictly increasing list of `n` indices below `n` is `0, 1, ..., n-1`. */
  lemma IncreasingIndices(p: seq<nat>, n: nat)
    requires |p| == n && forall i :: 0 <= i < n ==> p[i] < n
    requires forall i, j :: 0 <= i < j < n ==> p[i] < p[j]
    ensures forall i :: 0 <= i < n ==> p[i] == i
  {
    forall i | 0 <= i < n
      ensures p[i] == i
    {
      IndexAtLeast(p, i);
      IndexAtMost(p, n, i);
    }
  }

  lemma {:induction false} IndexAtLeast(p: seq<nat>, i: nat)
    requires i < |p| && forall a, b :: 0 <= a < b < |p| ==> p[a] < p[b]
    ensures p[i] >= i
    decreases i
  {
    if i > 0 {
      IndexAtLeast(p, i - 1);
    }
  }

  lemma {:induction false} IndexAtMost(p: seq<nat>, n: nat, i: nat)
    requires i < |p| && forall a :: 0 <= a < |p| ==> p[a] < n
    requires forall a, b :: 0 <= a < b < |p| ==> p[a] < p[b]
    ensures p[i] + |p| - i <= n
    decreases |p| - i
  {
    if i + 1 < |p| {
      IndexAtMost(p, n, i + 1);
    }
  }

  /** Every element of the sorted sequence comes from the input and vice versa. */
  lemma SortDescSameElements<T>(xs: seq<T>, key: T -> real)
    ensures forall i :: 0 <= i < |xs| ==> xs[i] in SortDesc(xs, key)
    ensures forall i :: 0 <= i < |xs| ==> SortDesc(xs, key)[i] in xs
  {
    var r, p := SortDesc(xs, key), SortPerm(xs, key);
    SortDescSpec(xs, key);
    forall k | 0 <= k < |xs|
      ensures xs[k] in r
    {
      assert Range(|xs|)[k] == k;
      assert k in multiset(Range(|xs|));
      assert k in multiset(p);
      var i :| 0 <= i < |p| && p[i] == k;
      assert r[i] == xs[k];
    }
  }

  /** The elements of `xs` at the positions `p`, in the order of `p`. */
  function At<T>(xs: seq<T>, p: seq<nat>): (r: seq<T>)
    requires forall i :: 0 <= i < |p| ==> p[i] < |xs|
    ensures |r| == |p|
    ensures forall i :: 0 <= i < |p| ==> r[i] == xs[p[i]]
  {
    seq(|p|, i requires 0 <= i < |p| => xs[p[i]])
  }

  /** Picking elements at two rearrangements of the same positions gives
      rearrangements of the same elements. */
  lemma {:induction false} AtPermutes<T>(xs: seq<T>, p: seq<nat>, q: seq<nat>)
    requires forall i :: 0 <= i < |p| ==> p[i] < |xs|
    requires forall i :: 0 <= i < |q| ==> q[i] < |xs|
    requires multiset(p) == multiset(q)
    ensures multiset(At(xs, p)) == multiset(At(xs, q))
    decreases |p|
  {
    if |p| == 0 {
      assert |multiset(q)| == 0;
      assert |q| == 0;
    } else {
      var k := Locate(p[0], q, p);
      var rest, q1, q2 := p[1..], q[..k], q[k + 1..];
      Reparto(xs, p, q, k, rest, q1 + q2);
      AtPermutes(xs, rest, q1 + q2);
      AtPermutesStep(xs, p[0], rest, q1, q2);
      assert p == [p[0]] + rest && q == q1 + [p[0]] + q2;
    }
  }

  /** A position of `a` in `q`, which rearranges `p` and so holds it. */
  lemma Locate(a: nat, q: seq<nat>, p: seq<nat>) returns (k: nat)
    requires |p| > 0 && a == p[0] && multiset(p) == multiset(q)
    ensures k < |q| && q[k] == a
  {
    assert a in multiset(p);
    assert a in multiset(q);
    k :| 0 <= k < |q| && q[k] == a;
  }

  /** Taking the first position of `p` out of both rearrangements leaves
      two rearrangements of the same positions. */
  lemma Reparto<T>(xs: seq<T>, p: seq<nat>, q: seq<nat>, k: nat, rest: seq<nat>, r: seq<nat>)
    requires forall i :: 0 <= i < |p| ==> p[i] < |xs|
    requires forall i :: 0 <= i < |q| ==> q[i] < |xs|
    requires multiset(p) == multiset(q)
    requires |p| > 0 && k < |q| && q[k] == p[0]
    requires rest == p[1..] && r == q[..k] + q[k + 1..]
    ensures forall i :: 0 <= i < |rest| ==> rest[i] < |xs|
    ensures forall i :: 0 <= i < |r| ==> r[i] < |xs|
    ensures multiset(rest) == multiset(r)
  {
    var q1, q2 := q[..k], q[k + 1..];
    assert q == q1 + [p[0]] + q2;
    assert p == [p[0]] + p[1..];
    RemoveCommon(p[0], p[1..], q1, q2);
    forall i | 0 <= i < |q| - 1
      ensures (q1 + q2)[i] < |xs|
    {
      if i < k {
        assert (q1 + q2)[i] == q[i];
      } else {
        assert (q1 + q2)[i] == q[i + 1];
      }
    }
    forall i | 0 <= i < |p| - 1
      ensures p[1..][i] < |xs|
    {
      assert p[1..][i] == p[i + 1];
    }
  }

  /** One step of `AtPermutes`: moving the first position to its place in
      the other rearrangement. */
  lemma AtPermutesStep<T>(xs: seq<T>, a: nat, rest: seq<nat>, q1: seq<nat>, q2: seq<nat>)
    requires a < |xs|
    requires forall i :: 0 <= i < |rest| ==> rest[i] < |xs|
    requires forall i :: 0 <= i < |q1| ==> q1[i] < |xs|
    requires forall i :: 0 <= i < |q2| ==> q2[i] < |xs|
    requires multiset(At(xs, rest)) == multiset(At(xs, q1 + q2))
    ensures multiset(At(xs, [a] + rest)) == multiset(At(xs, q1 + [a] + q2))
  {
    AtAppend(xs, [a], rest);
    AtAppend(xs, q1 + [a], q2);
    AtAppend(xs, q1, [a]);
    AtAppend(xs, q1, q2);
    assert At(xs, [a]) == [xs[a]];
    MultisetSwap(At(xs, q1), [xs[a]], At(xs, q2), At(xs, rest));
  }

  lemma RemoveCommon(a: nat, p: seq<nat>, q1: seq<nat>, q2: seq<nat>)
    requires multiset([a] + p) == multiset(q1 + [a] + q2)
    ensures multiset(p) == multiset(q1 + q2)
  {
    var m, n := multiset(p), multiset(q1) + multiset(q2);
    assert multiset([a] + p) == m + multiset{a};
    assert multiset(q1 + [a] + q2) == n + multiset{a};
    forall x
      ensures m[x] == n[x]
    {
      assert (m + multiset{a})[x] == (n + multiset{a})[x];
    }
    assert m == n;
  }

  lemma MultisetSwap<T>(r1: seq<T>, x: seq<T>, r2: seq<T>, rest: seq<T>)
    requires multiset(rest) == multiset(r1 + r2)
    ensures multiset(x + rest) == multiset(r1 + x + r2)
  {
    assert multiset(r1 + r2) == multiset(r1) + multiset(r2);
    assert multiset(r1 + x + r2) == multiset(r1) + multiset(x) + multiset(r2);
  }

  lemma AtAppend<T>(xs: seq<T>, p: seq<nat>, q: seq<nat>)
    requires forall i :: 0 <= i < |p| ==> p[i] < |xs|
    requires forall i :: 0 <= i < |q| ==> q[i] < |xs|
    ensures At(xs, p + q) == At(xs, p) + At(xs, q)
  {
  }

  /** `SortDesc` returns a permutation of its input. */
  lemma SortDescPermutes<T>(xs: seq<T>, key: T -> real)
    ensures multiset(SortDesc(xs, key)) == multiset(xs)
  {
    var p := SortPerm(xs, key);
    SortDescSpec(xs, key);
    assert SortDesc(xs, key) == At(xs, p);
    AtPermutes(xs, p, Range(|xs|));
    assert At(xs, Range(|xs|)) == xs;
  }

  lemma {:induction false} SumIntAtLeast(xs: seq<int>, lo: int)
    requires forall i :: 0 <= i < |xs| ==> lo <= xs[i]
    ensures lo * |xs| <= SumInt(xs)
    decreases |xs|
  {
    if |xs| > 0 {
      SumIntAtLeast(xs[1..], lo);
    }
  }

  /** The first `n` of a descending sort are a top `n`: any element with a
      strictly higher key than a chosen one is chosen too. */
  lemma TopK<T>(xs: seq<T>, key: T -> real, n: nat)
    ensures var r := Take(SortDesc(xs, key), n);
      forall j, i :: 0 <= j < |xs| && 0 <= i < |r| && key(xs[j]) > key(r[i]) ==> xs[j] in r
  {
    var s := SortDesc(xs, key);
    var r := Take(s, n);
    SortDescSpec(xs, key);
    SortDescSameElements(xs, key);
    assert r == s[..|r|];
    forall j, i | 0 <= j < |xs| && 0 <= i < |r| && key(xs[j]) > key(r[i])
      ensures xs[j] in r
    {
      var k :| 0 <= k < |s| && s[k] == xs[j];
      assert forall m :: |r| <= m < |s| ==> key(s[i]) >= key(s[m]);
      assert r[k] == xs[j];
    }
  }

  predicate Distinct<T(==)>(xs: seq<T>) {
    forall i, j :: 0 <= i < j < |xs| ==> xs[i] != xs[j]
  }

  function Elements<T>(xs: seq<T>): set<T> {
    set x | x in xs
  }

  /** A sequence without repetitions has as many elements as its set. */
  lemma {:induction false} DistinctCard<T>(xs: seq<T>)
    requires Distinct(xs)
    ensures |Elements(xs)| == |xs|
  {
    if |xs| > 0 {
      var rest := xs[1..];
      assert Distinct(rest) by {
        assert forall i :: 0 <= i < |rest| ==> rest[i] == xs[i + 1];
      }
      DistinctCard(rest);
      assert Elements(xs) == {xs[0]} + Elements(rest);
      assert xs[0] !in Elements(rest);
    }
  }

  /** A subset is no larger than its superset. */
  lemma {:induction false} SubsetCard<T>(a: set<T>, b: set<T>)
    requires a <= b
    ensures |a| <= |b|
    decreases |a|
  {
    if a != {} {
      var x :| x in a;
      SubsetCard(a - {x}, b - {x});
    }
  }

  /** A sequence without repetitions drawn from a set is no longer than the set. */
  lemma DistinctWithin<T>(xs: seq<T>, s: set<T>)
    requires Distinct(xs)
    requires forall i :: 0 <= i < |xs| ==> xs[i] in s
    ensures |xs| <= |s|
  {
    DistinctCard(xs);
    SubsetCard(Elements(xs), s);
  }
}
