/** Order statistics and means of math-helpers.js. */
module Statistics {
  import opened Prelude
  import Sorting

  function Total(v: seq<real>): real {
    if v == [] then 0.0 else Total(v[..|v| - 1]) + v[|v| - 1]
  }

  function Mean(v: seq<real>): real {
    if v == [] then 0.0 else Total(v) / |v| as real
  }

  /** `Math.min(...values)` and `Math.max(...values)`. */
  function Least(v: seq<real>): real
    requires v != []
  {
    if |v| == 1 then v[0] else MinReal(Least(v[..|v| - 1]), v[|v| - 1])
  }

  function Greatest(v: seq<real>): real
    requires v != []
  {
    if |v| == 1 then v[0] else MaxReal(Greatest(v[..|v| - 1]), v[|v| - 1])
  }

  lemma {:induction false} ExtremesBound(v: seq<real>, i: nat)
    requires i < |v|
    ensures Least(v) <= v[i] <= Greatest(v)
  {
    if i == |v| - 1 {
    } else {
      ExtremesBound(v[..|v| - 1], i);
    }
  }

  lemma {:induction false} ExtremesAreMembers(v: seq<real>)
    requires v != []
    ensures Least(v) in v && Greatest(v) in v
  {
    if |v| == 1 {
    } else {
      ExtremesAreMembers(v[..|v| - 1]);
      assert forall x :: x in v[..|v| - 1] ==> x in v;
    }
  }

  /** n copies of x added up. */
  function Times(n: nat, x: real): real {
    if n == 0 then 0.0 else Times(n - 1, x) + x
  }

  lemma {:induction false} TimesIsProduct(n: nat, x: real)
    ensures Times(n, x) == n as real * x
  {
    if n == 0 {
    } else {
      TimesIsProduct(n - 1, x);
    }
  }

  lemma {:induction false} TotalBounds(v: seq<real>, lo: real, hi: real)
    requires forall i :: 0 <= i < |v| ==> lo <= v[i] <= hi
    ensures Times(|v|, lo) <= Total(v) <= Times(|v|, hi)
  {
    if v == [] {
    } else {
      TotalBounds(v[..|v| - 1], lo, hi);
    }
  }

  lemma QuotientBounds(t: real, n: real, lo: real, hi: real)
    requires n > 0.0 && n * lo <= t <= n * hi
    ensures lo <= t / n <= hi
  {
    var q := t / n;
    assert q * n == t;
  }

  lemma TimesCount(t: real, n: real)
    requires n > 0.0
    ensures t / n * n == t
  {
  }

  lemma MeanWithinExtremes(v: seq<real>)
    requires v != []
    ensures Least(v) <= Mean(v) <= Greatest(v)
    ensures Mean(v) * |v| as real == Total(v)
  {
    hide Least, Greatest, Total, Times;
    var lo, hi := Least(v), Greatest(v);
    forall i | 0 <= i < |v| ensures lo <= v[i] <= hi { ExtremesBound(v, i); }
    TotalBounds(v, lo, hi);
    TimesIsProduct(|v|, lo);
    TimesIsProduct(|v|, hi);
    QuotientBounds(Total(v), |v| as real, lo, hi);
    TimesCount(Total(v), |v| as real);
  }

  // ----- sorting, as `[...values].sort((a, b) => a - b)` -----

  ghost predicate Ascending(v: seq<real>) { forall i, j :: 0 <= i < j < |v| ==> v[i] <= v[j] }

  predicate NotAbove(a: real, b: real) { a <= b }

  function SortAsc(v: seq<real>): seq<real> { Sorting.Sort(NotAbove, v) }

  lemma SortAscSorts(v: seq<real>)
    ensures Ascending(SortAsc(v)) && multiset(SortAsc(v)) == multiset(v) && |SortAsc(v)| == |v|
  {
    Sorting.SortOrders(NotAbove, v);
    Sorting.SortPermutes(NotAbove, v);
    forall i, j | 0 <= i < j < |v| ensures SortAsc(v)[i] <= SortAsc(v)[j] {
      assert NotAbove(SortAsc(v)[i], SortAsc(v)[j]);
    }
  }

  /** Index that `percentile` reads from the sorted copy. */
  function RankIndex(rank: real, n: nat): (i: int)
    requires n > 0
    ensures 0 <= i < n
  {
    Min(n - 1, Max(0, (rank * n as real).Floor))
  }

  function Percentile(v: seq<real>, rank: real): real {
    if v == [] then 0.0
    else
      SortAscSorts(v);
      SortAsc(v)[RankIndex(rank, |v|)]
  }

  /** A percentile is one of the values... */
  lemma PercentileIsMember(v: seq<real>, rank: real)
    requires v != []
    ensures Percentile(v, rank) in v
  {
    hide RankIndex;
    SortAscSorts(v);
    assert Percentile(v, rank) in multiset(SortAsc(v));
    assert Percentile(v, rank) in multiset(v);
  }

  /**
   * ... and splits the sorted copy at its rank: a proportion `rank` of the values, rounded down, stands before it; a
   * rank below 0 gives the least value, one of 1 or more the greatest.
   */
  lemma PercentileIsRanked(v: seq<real>, rank: real)
    requires v != []
    ensures 0.0 <= rank < 1.0 ==>
      RankIndex(rank, |v|) as real <= rank * |v| as real < RankIndex(rank, |v|) as real + 1.0
    ensures rank < 0.0 ==> RankIndex(rank, |v|) == 0
    ensures rank >= 1.0 ==> RankIndex(rank, |v|) == |v| - 1
    ensures |SortAsc(v)| == |v| && multiset(SortAsc(v)) == multiset(v)
    ensures forall i :: 0 <= i <= RankIndex(rank, |v|) ==> SortAsc(v)[i] <= Percentile(v, rank)
    ensures forall i :: RankIndex(rank, |v|) <= i < |v| ==> Percentile(v, rank) <= SortAsc(v)[i]
  {
    RankInUnit(rank, |v|);
    hide RankIndex;
    SortAscSorts(v);
  }

  lemma RankInUnit(rank: real, n: nat)
    requires n > 0
    ensures 0.0 <= rank < 1.0 ==> RankIndex(rank, n) as real <= rank * n as real < RankIndex(rank, n) as real + 1.0
    ensures rank < 0.0 ==> RankIndex(rank, n) == 0
    ensures rank >= 1.0 ==> RankIndex(rank, n) == n - 1
  {
    ShareOfCount(rank, n as real);
    IndexOfShare(rank * n as real, n);
  }

  lemma ShareOfCount(rank: real, n: real)
    requires n > 0.0
    ensures 0.0 <= rank < 1.0 ==> 0.0 <= rank * n < n
    ensures rank < 0.0 ==> rank * n < 0.0
    ensures rank >= 1.0 ==> rank * n >= n
  {
  }

  lemma IndexOfShare(x: real, n: nat)
    requires n > 0
    ensures 0.0 <= x < n as real ==> 0 <= x.Floor < n && Min(n - 1, Max(0, x.Floor)) == x.Floor
    ensures x < 0.0 ==> Min(n - 1, Max(0, x.Floor)) == 0
    ensures x >= n as real ==> Min(n - 1, Max(0, x.Floor)) == n - 1
  {
  }

  lemma RankMonotone(p: real, q: real, n: nat)
    requires n > 0 && p <= q
    ensures RankIndex(p, n) <= RankIndex(q, n)
  {
    var r := n as real;
    assert p * r <= q * r;
  }

  lemma PercentileWithinExtremes(v: seq<real>, p: real)
    requires v != []
    ensures Least(v) <= Percentile(v, p) <= Greatest(v)
  {
    PercentileIsMember(v, p);
    var i :| 0 <= i < |v| && v[i] == Percentile(v, p);
    ExtremesBound(v, i);
  }

  lemma PercentileMonotone(v: seq<real>, p: real, q: real)
    requires v != [] && p <= q
    ensures Percentile(v, p) <= Percentile(v, q)
  {
    hide RankIndex;
    RankMonotone(p, q, |v|);
    SortAscSorts(v);
  }
}
