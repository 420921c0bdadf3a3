/** Swing detection of technical-analyzer.js. */
module Swings {
  import opened Prelude

  datatype Candle = Candle(time: real, high: real, low: real)
  datatype Swing = Swing(time: real, price: real, index: nat)

  /** Strictly above `w` neighbours on the left, not below `w` neighbours on the right. */
  ghost predicate IsPeak(v: seq<real>, w: nat, i: int) {
    w <= i < |v| - w && Dominates(v, i, w)
  }

  ghost predicate Dominates(v: seq<real>, i: int, r: nat)
    requires r <= i < |v| - r
  {
    (forall k :: i - r <= k < i ==> v[k] < v[i]) && forall k :: i < k <= i + r ==> v[k] <= v[i]
  }

  function Highs(data: seq<Candle>): (v: seq<real>)
    ensures |v| == |data|
  {
    seq(|data|, i requires 0 <= i < |data| => data[i].high)
  }

  /** Lows upside down, so that a swing low is a peak here. */
  function Depths(data: seq<Candle>): (v: seq<real>)
    ensures |v| == |data|
  {
    seq(|data|, i requires 0 <= i < |data| => -data[i].low)
  }

  /** The peaks below index n, in order. */
  ghost function Peaks(v: seq<real>, w: nat, n: nat): seq<nat> {
    if n == 0 then [] else Peaks(v, w, n - 1) + (if IsPeak(v, w, n - 1) then [n - 1] else [])
  }

  ghost predicate ListsPeaks(swings: seq<Swing>, data: seq<Candle>, price: seq<real>, peaks: seq<nat>) {
    |swings| == |peaks| && |price| == |data|
    && forall k :: 0 <= k < |peaks| ==>
      peaks[k] < |data| && swings[k] == Swing(data[peaks[k]].time, price[peaks[k]], peaks[k])
  }

  function Lows(data: seq<Candle>): (v: seq<real>)
    ensures |v| == |data|
  {
    seq(|data|, i requires 0 <= i < |data| => data[i].low)
  }

  /** The early exit of the scan changes nothing: all peaks and nothing but peaks are listed. */
  method IdentifySwings(data: seq<Candle>, lookback: int) returns (highs: seq<Swing>, lows: seq<Swing>)
    ensures ListsPeaks(highs, data, Highs(data), Peaks(Highs(data), Max(1, lookback), |data|))
    ensures ListsPeaks(lows, data, Lows(data), Peaks(Depths(data), Max(1, lookback), |data|))
  {
    hide Peaks, ListsPeaks;
    highs, lows := [], [];
    var w := Max(1, lookback);
    ghost var hs, ds := Highs(data), Depths(data);
    EmptyList(data, hs, w);
    EmptyList(data, ds, w);
    var i := w;
    while i < |data| - w
      invariant w <= i <= Max(w, |data| - w)
      invariant ListsPeaks(highs, data, Highs(data), Peaks(hs, w, i))
      invariant ListsPeaks(lows, data, Lows(data), Peaks(ds, w, i))
    {
      var isHigh, isLow := Scan(data, w, i);
      NextIndex(data, hs, Highs(data), w, i, highs);
      NextIndex(data, ds, Lows(data), w, i, lows);
      if isHigh {
        highs := highs + [Swing(data[i].time, data[i].high, i)];
      }
      if isLow {
        lows := lows + [Swing(data[i].time, data[i].low, i)];
      }
      i := i + 1;
    }
    NoPeakNearEnd(hs, w, Min(i, |data|), Max(i, |data|));
    NoPeakNearEnd(ds, w, Min(i, |data|), Max(i, |data|));
  }

  lemma EmptyList(data: seq<Candle>, v: seq<real>, w: nat)
    ensures ListsPeaks([], data, Highs(data), Peaks(v, w, w)) && ListsPeaks([], data, Lows(data), Peaks(v, w, w))
  {
    NoPeakNearStart(v, w, w);
  }

  lemma NextIndex(data: seq<Candle>, v: seq<real>, price: seq<real>, w: nat, i: nat, swings: seq<Swing>)
    requires i < |data| && ListsPeaks(swings, data, price, Peaks(v, w, i))
    ensures IsPeak(v, w, i) ==> ListsPeaks(swings + [Swing(data[i].time, price[i], i)], data, price, Peaks(v, w, i + 1))
    ensures !IsPeak(v, w, i) ==> ListsPeaks(swings, data, price, Peaks(v, w, i + 1))
  {
    hide IsPeak;
  }

  /** The inner loop for one candle. */
  method Scan(data: seq<Candle>, w: nat, i: nat) returns (isHigh: bool, isLow: bool)
    requires w <= i < |data| - w
    ensures isHigh <==> IsPeak(Highs(data), w, i)
    ensures isLow <==> IsPeak(Depths(data), w, i)
  {
    ghost var hs, ds := Highs(data), Depths(data);
    isHigh, isLow := true, true;
    for j := 1 to w + 1
      invariant isHigh <==> Dominates(hs, i, j - 1)
      invariant isLow <==> Dominates(ds, i, j - 1)
    {
      Widen(hs, i, j);
      Widen(ds, i, j);
      hide Dominates;
      if data[i - j].high >= data[i].high || data[i + j].high > data[i].high {
        isHigh := false;
      }
      if data[i - j].low <= data[i].low || data[i + j].low < data[i].low {
        isLow := false;
      }
      if !isHigh && !isLow {
        if Dominates(hs, i, w) { Narrow(hs, i, j, w); }
        if Dominates(ds, i, w) { Narrow(ds, i, j, w); }
        break;
      }
    }
  }

  /**
   * In prices: a swing high is above the highs of the w candles before it and no lower than those of the w after it, a
   * swing low below the lows before and no higher than those after.
   */
  lemma PeaksInPrices(data: seq<Candle>, w: nat, i: nat)
    requires i < |data|
    ensures IsPeak(Highs(data), w, i) <==> (
      && w <= i < |data| - w
      && (forall k :: i - w <= k < i ==> data[k].high < data[i].high)
      && forall k :: i < k <= i + w ==> data[k].high <= data[i].high)
    ensures IsPeak(Depths(data), w, i) <==> (
      && w <= i < |data| - w
      && (forall k :: i - w <= k < i ==> data[k].low > data[i].low)
      && forall k :: i < k <= i + w ==> data[k].low >= data[i].low)
  {
    var hs, ds := Highs(data), Depths(data);
    if w <= i < |data| - w {
      assert forall k :: i - w <= k <= i + w ==> hs[k] == data[k].high && ds[k] == -data[k].low;
      forall k | i - w <= k <= i + w ensures data[k].high == hs[k] && data[k].low == -ds[k] {
      }
    }
  }

  lemma Widen(v: seq<real>, i: nat, j: nat)
    requires 1 <= j <= i < |v| - j
    ensures Dominates(v, i, j) <==> Dominates(v, i, j - 1) && v[i - j] < v[i] && v[i + j] <= v[i]
  {
  }

  lemma Narrow(v: seq<real>, i: nat, j: nat, w: nat)
    requires j <= w <= i < |v| - w && Dominates(v, i, w)
    ensures Dominates(v, i, j)
  {
  }

  lemma {:induction false} NoPeakNearStart(v: seq<real>, w: nat, n: nat)
    requires n <= w
    ensures Peaks(v, w, n) == []
  {
    if n == 0 {
    } else {
      NoPeakNearStart(v, w, n - 1);
    }
  }

  lemma {:induction false} NoPeakNearEnd(v: seq<real>, w: nat, m: nat, n: nat)
    requires |v| - w <= m <= n
    ensures Peaks(v, w, n) == Peaks(v, w, m)
  {
    if m == n {
    } else {
      NoPeakNearEnd(v, w, m, n - 1);
    }
  }

  /** `Peaks` is the increasing list of exactly the peak indices. */
  lemma {:induction false} PeaksAreExact(v: seq<real>, w: nat, n: nat)
    ensures forall i :: i in Peaks(v, w, n) <==> 0 <= i < n && IsPeak(v, w, i)
    ensures forall a, b :: 0 <= a < b < |Peaks(v, w, n)| ==> Peaks(v, w, n)[a] < Peaks(v, w, n)[b]
  {
    if n == 0 {
    } else {
      PeaksAreExact(v, w, n - 1);
      var p := Peaks(v, w, n - 1);
      forall a | 0 <= a < |p| ensures p[a] < n - 1 {
        assert p[a] in p;
      }
    }
  }

  lemma PeakAboveLeft(v: seq<real>, w: nat, i: int, k: int)
    requires IsPeak(v, w, i) && i - w <= k < i
    ensures 0 <= k < i < |v| && v[k] < v[i]
  {
  }

  lemma PeakNotBelowRight(v: seq<real>, w: nat, i: int, k: int)
    requires IsPeak(v, w, i) && i < k <= i + w
    ensures 0 <= i < k < |v| && v[k] <= v[i]
  {
  }

  lemma PeaksAreApart(v: seq<real>, w: nat, i: int, k: int)
    requires IsPeak(v, w, i) && IsPeak(v, w, k) && i < k
    ensures k - i > w
  {
    hide IsPeak;
    if k - i <= w {
      PeakAboveLeft(v, w, k, i);
      PeakNotBelowRight(v, w, i, k);
    }
  }

  /** k steps of length m. */
  function Span(k: nat, m: nat): int { k * m }

  /** Most peaks that n candles can hold: ceil((n - 2w) / (w + 1)). */
  function MostPeaks(n: nat, w: nat): int
    requires n >= 2 * w
  {
    (n - 2 * w + w) / (w + 1)
  }

  /** Any two listed swings are more than the window apart, which bounds their number. */
  lemma PeakCount(v: seq<real>, w: nat)
    requires |v| >= 2 * w
    ensures |Peaks(v, w, |v|)| <= MostPeaks(|v|, w)
  {
    var p := Peaks(v, w, |v|);
    PeaksAreExact(v, w, |v|);
    hide Peaks, IsPeak, Span, MostPeaks;
    if p != [] {
      assert p[0] in p && p[|p| - 1] in p;
      PeakBounds(v, w, p[0]);
      PeakBounds(v, w, p[|p| - 1]);
      Spread(v, w, p, |p| - 1);
      Steps(|p|, |v|, w, p[|p| - 1] - p[0]);
    } else {
      Steps(0, |v|, w, 0);
    }
  }

  lemma PeakBounds(v: seq<real>, w: nat, i: int)
    requires IsPeak(v, w, i)
    ensures w <= i < |v| - w
  {
  }

  lemma Steps(k: nat, n: nat, w: nat, span: int)
    requires n >= 2 * w && (k > 0 ==> Span(k - 1, w + 1) <= span && span + w + 1 <= n - w)
    ensures k <= MostPeaks(n, w)
  {
    if k > 0 {
      assert k * (w + 1) == (k - 1) * (w + 1) + (w + 1);
    }
    QuotientBound(k, w + 1, n - w);
  }

  lemma {:induction false} Spread(v: seq<real>, w: nat, p: seq<nat>, b: nat)
    requires b < |p| && (forall a :: 0 <= a < |p| ==> IsPeak(v, w, p[a]))
    requires forall a, c :: 0 <= a < c < |p| ==> p[a] < p[c]
    ensures Span(b, w + 1) <= p[b] - p[0]
  {
    hide IsPeak, Span;
    if b > 0 {
      Spread(v, w, p, b - 1);
      PeaksAreApart(v, w, p[b - 1], p[b]);
    }
    SpanStep(b, w + 1);
  }

  lemma SpanStep(b: nat, m: nat)
    ensures Span(b, m) == if b == 0 then 0 else Span(b - 1, m) + m
  {
  }

  lemma QuotientBound(k: int, m: int, t: int)
    requires m > 0 && k * m <= t
    ensures k <= t / m
  {
    var q := t / m;
    assert t < (q + 1) * m;
    Cancel(k, q + 1, m);
  }

  lemma Cancel(a: int, b: int, m: int)
    requires m > 0 && a * m < b * m
    ensures a < b
  {
  }
}
