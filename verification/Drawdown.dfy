/** `cumulativeSum` and the one-pass `maxDrawdown` of math-helpers.js. */
module Drawdown {
  import opened Prelude
  import opened Statistics

  // ----- running totals -----

  /** Entry k of the curve is the sum of the first k + 1 values. */
  ghost predicate IsCurveOf(curve: seq<real>, v: seq<real>) {
    |curve| == |v| && forall k :: 0 <= k < |v| ==> curve[k] == Total(v[..k + 1])
  }

  method CumulativeSum(values: seq<real>) returns (result: seq<real>)
    ensures IsCurveOf(result, values)
  {
    result := [];
    var running := 0.0;
    for i := 0 to |values|
      invariant |result| == i
      invariant running == Total(values[..i])
      invariant forall k :: 0 <= k < i ==> result[k] == Total(values[..k + 1])
    {
      assert values[..i + 1][..i] == values[..i];
      running := running + values[i];
      result := result + [running];
    }
  }

  // ----- drawdown -----

  /** Highest value among v[0..j]. */
  function PrefixPeak(v: seq<real>, j: nat): real
    requires j < |v|
  {
    if j == 0 then v[0] else MaxReal(PrefixPeak(v, j - 1), v[j])
  }

  function Relative(x: real, p: real): real
    requires p != 0.0
  {
    (x - p) / p
  }

  /** Relative fall of v[j] below the peak reached so far; a peak that is not positive contributes nothing. */
  function Fall(v: seq<real>, j: nat): real
    requires j < |v|
  {
    var p := PrefixPeak(v, j);
    if p > 0.0 then Relative(v[j], p) else 0.0
  }

  function WorstFall(v: seq<real>, n: nat): real
    requires n <= |v|
  {
    if n == 0 then 0.0 else MinReal(WorstFall(v, n - 1), Fall(v, n - 1))
  }

  lemma FallOrder(a: real, b: real, p: real)
    requires p > 0.0 && a <= b
    ensures Relative(a, p) <= Relative(b, p)
  {
  }

  /**
   * The trough is the lowest value since the final peak was first reached,
   * which is why skipping bars that make no new trough loses nothing.
   */
  method MaxDrawdown(curve: seq<real>) returns (maxDd: real, peak: real, trough: real)
    ensures curve == [] ==> maxDd == peak == trough == 0.0
    ensures maxDd == WorstFall(curve, |curve|)
    ensures curve != [] ==> peak == PrefixPeak(curve, |curve| - 1)
    ensures curve != [] ==>
      exists k :: 0 <= k < |curve| && curve[k] == peak && (forall i :: 0 <= i < k ==> curve[i] < peak)
        && (forall i :: k <= i < |curve| ==> trough <= curve[i]) && trough in curve[k..]
    ensures forall j :: 0 <= j < |curve| && PrefixPeak(curve, j) > 0.0 ==>
      NoDeeper(curve[j], PrefixPeak(curve, j), maxDd)
    ensures maxDd < 0.0 ==>
      exists j :: 0 <= j < |curve| && PrefixPeak(curve, j) > 0.0 && JustAsDeep(curve[j], PrefixPeak(curve, j), maxDd)
  {
    if curve == [] {
      return 0.0, 0.0, 0.0;
    }
    DrawdownInPrices(curve);
    hide Relative, NoDeeper, JustAsDeep;
    peak, trough, maxDd := curve[0], curve[0], 0.0;
    ghost var since := 0;
    for i := 0 to |curve|
      invariant i == 0 ==> peak == trough == curve[0] && maxDd == 0.0 && since == 0
      invariant i > 0 ==> peak == PrefixPeak(curve, i - 1) && since < i
      invariant maxDd == WorstFall(curve, i) <= 0.0
      invariant trough <= peak
      invariant peak > 0.0 ==> maxDd <= Relative(trough, peak)
      invariant 0 <= since < |curve| && curve[since] == peak
      invariant forall k :: 0 <= k < since ==> curve[k] < peak
      invariant forall k :: since <= k < i ==> trough <= curve[k] <= peak
      invariant exists k :: since <= k < Max(i, 1) && curve[k] == trough
    {
      var value := curve[i];
      if value > peak {
        peak, trough := value, value;
        since := i;
        if peak > 0.0 {
          FallSign(value, peak);
        }
      }
      if value < trough {
        trough := value;
        var drawdown := if peak == 0.0 then 0.0 else Relative(trough, peak);
        if drawdown < maxDd {
          maxDd := drawdown;
        }
        if peak < 0.0 {
          NegativePeakGains(trough, peak);
        }
      } else if peak > 0.0 {
        FallOrder(trough, value, peak);
      }
    }
  }

  lemma NegativePeakGains(t: real, p: real)
    requires t <= p < 0.0
    ensures Relative(t, p) >= 0.0
  {
  }

  /** `WorstFall` is the minimum of 0 and of every fall: a lower bound that is attained. */
  lemma {:induction false} WorstFallIsMinimum(v: seq<real>, n: nat)
    requires n <= |v|
    ensures WorstFall(v, n) <= 0.0
    ensures forall j :: 0 <= j < n ==> WorstFall(v, n) <= Fall(v, j)
    ensures WorstFall(v, n) == 0.0 || exists j :: 0 <= j < n && WorstFall(v, n) == Fall(v, j)
  {
    if n == 0 {
    } else {
      WorstFallIsMinimum(v, n - 1);
    }
  }

  lemma {:induction false} PeakIsHighest(v: seq<real>, j: nat)
    requires j < |v|
    ensures forall i :: 0 <= i <= j ==> v[i] <= PrefixPeak(v, j)
    ensures exists i :: 0 <= i <= j && v[i] == PrefixPeak(v, j)
  {
    if j == 0 {
      assert v[0] == PrefixPeak(v, 0);
    } else {
      PeakIsHighest(v, j - 1);
      var i :| 0 <= i <= j - 1 && v[i] == PrefixPeak(v, j - 1);
      assert v[if v[j] > v[i] then j else i] == PrefixPeak(v, j);
    }
  }

  /** No drawdown is reported exactly when the curve never sits below a positive peak. */
  lemma NoDrawdownIff(v: seq<real>)
    ensures WorstFall(v, |v|) == 0.0 <==>
      forall j :: 0 <= j < |v| && PrefixPeak(v, j) > 0.0 ==> v[j] == PrefixPeak(v, j)
  {
    WorstFallIsMinimum(v, |v|);
    forall j | 0 <= j < |v| && PrefixPeak(v, j) > 0.0
      ensures v[j] <= PrefixPeak(v, j) && (Fall(v, j) >= 0.0 <==> v[j] == PrefixPeak(v, j))
    {
      PeakIsHighest(v, j);
      FallSign(v[j], PrefixPeak(v, j));
    }
  }

  lemma FallSign(x: real, p: real)
    requires x <= p && p > 0.0
    ensures Relative(x, p) >= 0.0 <==> x == p
    ensures Relative(x, p) <= 0.0
  {
    var q := (x - p) / p;
    assert q * p == x - p;
  }

  ghost predicate AllPositive(v: seq<real>) { forall i :: 0 <= i < |v| ==> v[i] > 0.0 }

  function PairFall(v: seq<real>, i: nat, j: nat): real
    requires i < |v| && j < |v| && v[i] != 0.0
  {
    Relative(v[j], v[i])
  }

  /** On a positive curve the one-pass value is the textbook drawdown over all pairs i <= j, and lies in (-1, 0]. */
  lemma PositiveCurveDrawdown(v: seq<real>)
    requires AllPositive(v)
    ensures -1.0 < WorstFall(v, |v|) <= 0.0
    ensures forall i, j :: 0 <= i <= j < |v| ==> WorstFall(v, |v|) <= PairFall(v, i, j)
    ensures v != [] ==> exists i, j :: 0 <= i <= j < |v| && WorstFall(v, |v|) == PairFall(v, i, j)
  {
    WorstFallIsMinimum(v, |v|);
    forall i, j | 0 <= i <= j < |v| ensures WorstFall(v, |v|) <= PairFall(v, i, j) {
      PeakIsHighest(v, j);
      assert v[i] > 0.0 && v[j] > 0.0;
      HigherBaseFallsMore(v[j], v[i], PrefixPeak(v, j));
      assert WorstFall(v, |v|) <= Fall(v, j);
    }
    if v != [] {
      if WorstFall(v, |v|) == 0.0 {
        assert PairFall(v, 0, 0) == 0.0;
      } else {
        var j :| 0 <= j < |v| && WorstFall(v, |v|) == Fall(v, j);
        PeakIsHighest(v, j);
        var i :| 0 <= i <= j && v[i] == PrefixPeak(v, j);
        HigherBaseFallsMore(v[j], v[i], v[i]);
        assert WorstFall(v, |v|) == PairFall(v, i, j);
      }
    }
  }

  lemma HigherBaseFallsMore(x: real, a: real, p: real)
    requires x > 0.0 && 0.0 < a <= p
    ensures -1.0 < Relative(x, p) <= Relative(x, a)
  {
    var q, r := (x - p) / p, (x - a) / a;
    assert q * p == x - p && r * a == x - a;
    assert (q + 1.0) * p == x && (r + 1.0) * a == x;
    PositiveFactor(q + 1.0, p);
    if q > r {
      ProductOrder(r + 1.0, q + 1.0, a, p);
    }
  }

  // ----- in plain arithmetic -----

  /** x lies no further below p than dd times p. */
  ghost predicate NoDeeper(x: real, p: real, dd: real) { x - p >= dd * p }

  /** x lies below p by exactly dd times p. */
  ghost predicate JustAsDeep(x: real, p: real, dd: real) { x - p == dd * p }

  lemma DepthOf(x: real, p: real, dd: real)
    requires p > 0.0
    ensures dd <= Relative(x, p) ==> NoDeeper(x, p, dd)
    ensures dd == Relative(x, p) ==> JustAsDeep(x, p, dd)
  {
    var q := (x - p) / p;
    assert q * p == x - p;
    if dd <= q {
      TimesKeepsOrder(dd, q, p);
    }
  }

  lemma TimesKeepsOrder(a: real, b: real, p: real)
    requires p > 0.0 && a <= b
    ensures a * p <= b * p
  {
  }

  /**
   * No value lies further below a positive running peak than the drawdown times that peak, and a drawdown that is not
   * zero is reached: some value lies just that far below.
   */
  lemma DrawdownInPrices(v: seq<real>)
    ensures var dd := WorstFall(v, |v|);
      && (forall j :: 0 <= j < |v| && PrefixPeak(v, j) > 0.0 ==> NoDeeper(v[j], PrefixPeak(v, j), dd))
      && (dd < 0.0 ==>
        exists j :: 0 <= j < |v| && PrefixPeak(v, j) > 0.0 && JustAsDeep(v[j], PrefixPeak(v, j), dd))
  {
    WorstFallIsMinimum(v, |v|);
    hide WorstFall, Relative, NoDeeper, JustAsDeep;
    var dd := WorstFall(v, |v|);
    forall j | 0 <= j < |v| && PrefixPeak(v, j) > 0.0 ensures NoDeeper(v[j], PrefixPeak(v, j), dd) {
      assert dd <= Fall(v, j);
      DepthOf(v[j], PrefixPeak(v, j), dd);
    }
    if dd < 0.0 {
      var j :| 0 <= j < |v| && dd == Fall(v, j);
      DepthOf(v[j], PrefixPeak(v, j), dd);
    }
  }

  /** On a positive curve: no fall between any two moments exceeds the drawdown, and some fall is just as deep. */
  lemma PositiveDrawdownInPrices(v: seq<real>)
    requires AllPositive(v)
    ensures var dd := WorstFall(v, |v|);
      && (forall i, j :: 0 <= i <= j < |v| ==> NoDeeper(v[j], v[i], dd))
      && (v != [] ==> exists i, j :: 0 <= i <= j < |v| && JustAsDeep(v[j], v[i], dd))
  {
    PositiveCurveDrawdown(v);
    hide WorstFall, Relative, NoDeeper, JustAsDeep;
    var dd := WorstFall(v, |v|);
    forall i, j | 0 <= i <= j < |v| ensures NoDeeper(v[j], v[i], dd) {
      assert dd <= PairFall(v, i, j);
      DepthOf(v[j], v[i], dd);
    }
    if v != [] {
      var i, j :| 0 <= i <= j < |v| && dd == PairFall(v, i, j);
      DepthOf(v[j], v[i], dd);
    }
  }

  lemma PositiveFactor(a: real, p: real)
    requires p > 0.0 && a * p > 0.0
    ensures a > 0.0
  {
  }

  lemma ProductOrder(r: real, q: real, a: real, p: real)
    requires r < q && 0.0 < a <= p && r * a > 0.0
    ensures r * a < q * p
  {
    assert r > 0.0;
    assert r * a <= r * p;
    assert r * p < q * p;
  }
}
