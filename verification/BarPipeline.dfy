/** The bar-sanitising pipeline of price-data-fetcher.js: validation, sorting, quality assessment, trimming. */
module BarPipeline {
  import opened Prelude
  import Sorting

  /** One raw entry with its fields already read as numbers; None where the value is not a finite number. */
  datatype Raw = Raw(time: Option<real>, open: Option<real>, high: Option<real>, low: Option<real>,
                     close: Option<real>, volume: Option<real>)

  datatype Bar = Bar(time: real, open: real, high: real, low: real, close: real, volume: real)

  datatype Stats = Stats(total: nat, kept: nat, duplicates: nat, future: nat, invalid: nat, adjusted: nat)

  const MILLISECOND_FLOOR := 10_000_000_000.0

  predicate Complete(r: Raw) { r.time.Some? && r.open.Some? && r.high.Some? && r.low.Some? && r.close.Some? }

  /** `Math.trunc`. */
  function Trunc(x: real): real { if x >= 0.0 then x.Floor as real else -((-x).Floor as real) }

  /** Times that are too small to be milliseconds are taken for seconds. */
  function Rescale(t: real): real { if t < MILLISECOND_FLOOR then Trunc(t * 1000.0) else t }

  function Clean(r: Raw): Bar
    requires Complete(r)
  {
    var o, h, l, c := r.open.value, r.high.value, r.low.value, r.close.value;
    Bar(Rescale(r.time.value), o, MaxReal(h, MaxReal(o, MaxReal(c, l))), MinReal(l, MinReal(o, MinReal(c, h))), c,
        if r.volume.Some? then r.volume.value else 0.0)
  }

  predicate TooNew(t: real, now: real, maxFuture: real) { t - now > maxFuture }

  // ----- what validation keeps -----

  datatype Fate = Invalid | Future | Duplicate | Kept

  function Times(bars: seq<Bar>): set<real> { set b | b in bars :: b.time }

  function FateOf(r: Raw, before: seq<Bar>, now: real, maxFuture: real): Fate {
    if !Complete(r) then Invalid
    else if TooNew(Clean(r).time, now, maxFuture) then Future
    else if Clean(r).time in Times(before) then Duplicate
    else Kept
  }

  /** The bars that survive, in input order. */
  function Survivors(s: seq<Raw>, now: real, maxFuture: real): seq<Bar> {
    if s == [] then []
    else
      var before := Survivors(s[..|s| - 1], now, maxFuture);
      var r := s[|s| - 1];
      if FateOf(r, before, now, maxFuture) == Kept then before + [Clean(r)] else before
  }

  /** How many entries met a given fate. */
  function Tally(s: seq<Raw>, now: real, maxFuture: real, f: Fate): nat {
    if s == [] then 0
    else
      Tally(s[..|s| - 1], now, maxFuture, f)
      + if FateOf(s[|s| - 1], Survivors(s[..|s| - 1], now, maxFuture), now, maxFuture) == f then 1 else 0
  }

  /** How many kept entries had a high or low that did not enclose their prices. */
  function TallyAdjusted(s: seq<Raw>, now: real, maxFuture: real): nat {
    if s == [] then 0
    else
      TallyAdjusted(s[..|s| - 1], now, maxFuture)
      + if FateOf(s[|s| - 1], Survivors(s[..|s| - 1], now, maxFuture), now, maxFuture) == Kept && Adjusted(s[|s| - 1])
        then 1 else 0
  }

  method ValidatePriceBars(series: seq<Raw>, now: real, maxFuture: real) returns (bars: seq<Bar>, stats: Stats)
    ensures bars == Survivors(series, now, maxFuture)
    ensures stats.total == |series| && stats.kept == |bars|
    ensures stats.duplicates == Tally(series, now, maxFuture, Duplicate)
    ensures stats.future == Tally(series, now, maxFuture, Future)
    ensures stats.invalid == Tally(series, now, maxFuture, Invalid)
    ensures stats.adjusted == TallyAdjusted(series, now, maxFuture)
    ensures stats.kept + stats.duplicates + stats.future + stats.invalid == stats.total
  {
    hide Clean, Complete, TooNew, Adjusted;
    bars := [];
    stats := Stats(|series|, 0, 0, 0, 0, 0);
    var seen: set<real> := {};
    for i := 0 to |series|
      invariant bars == Survivors(series[..i], now, maxFuture) && seen == Times(bars)
      invariant stats.total == |series| && stats.kept == |bars|
      invariant stats.duplicates == Tally(series[..i], now, maxFuture, Duplicate)
      invariant stats.future == Tally(series[..i], now, maxFuture, Future)
      invariant stats.invalid == Tally(series[..i], now, maxFuture, Invalid)
      invariant stats.adjusted == TallyAdjusted(series[..i], now, maxFuture)
      invariant stats.kept + stats.duplicates + stats.future + stats.invalid == i
    {
      assert series[..i + 1][..i] == series[..i];
      var entry := series[i];
      if !Complete(entry) {
        stats := stats.(invalid := stats.invalid + 1);
        continue;
      }
      var bar := Clean(entry);
      if TooNew(bar.time, now, maxFuture) {
        stats := stats.(future := stats.future + 1);
        continue;
      }
      if bar.time in seen {
        stats := stats.(duplicates := stats.duplicates + 1);
        continue;
      }
      seen := seen + {bar.time};
      if Adjusted(entry) {
        stats := stats.(adjusted := stats.adjusted + 1);
      }
      bars := bars + [bar];
      stats := stats.(kept := stats.kept + 1);
    }
    assert series[..|series|] == series;
  }

  predicate Adjusted(r: Raw)
    requires Complete(r)
  {
    Clean(r).high != r.high.value || Clean(r).low != r.low.value
  }

  ghost predicate Sound(b: Bar) { b.low <= b.open <= b.high && b.low <= b.close <= b.high }
  ghost predicate AllSound(bars: seq<Bar>) { forall i :: 0 <= i < |bars| ==> Sound(bars[i]) }
  ghost predicate DistinctTimes(bars: seq<Bar>) { forall i, j :: 0 <= i < j < |bars| ==> bars[i].time != bars[j].time }

  lemma TruncCutsOff(x: real)
    ensures Trunc(x) == Trunc(x).Floor as real
    ensures x >= 0.0 ==> Trunc(x) <= x < Trunc(x) + 1.0
    ensures x < 0.0 ==> Trunc(x) - 1.0 < x <= Trunc(x)
  {
    if x < 0.0 {
      var n := (-x).Floor;
      assert Trunc(x) == (-n) as real;
    }
  }

  /** Times below the floor are seconds, turned into whole milliseconds by cutting off what is left. */
  lemma RescaleIsMilliseconds(t: real)
    ensures var r := Rescale(t);
      && (t >= 10_000_000_000.0 ==> r == t)
      && (t < 10_000_000_000.0 ==> r == r.Floor as real)
      && (0.0 <= t < 10_000_000_000.0 ==> r <= 1000.0 * t < r + 1.0)
      && (t < 0.0 ==> r - 1.0 < 1000.0 * t <= r)
  {
    TruncCutsOff(t * 1000.0);
    hide Trunc;
  }

  /** Cleaning keeps open and close, reads a missing volume as 0, and widens high and low no further than needed. */
  lemma CleanEncloses(r: Raw)
    requires Complete(r)
    ensures var b, prices := Clean(r), {r.open.value, r.high.value, r.low.value, r.close.value};
      && b.time == Rescale(r.time.value) && b.open == r.open.value && b.close == r.close.value
      && b.volume == Or(r.volume, 0.0)
      && b.high in prices && b.low in prices && (forall p :: p in prices ==> b.low <= p <= b.high)
      && (Adjusted(r) <==> exists p :: p in prices && (p > r.high.value || p < r.low.value))
  {
  }

  /** Prices and time must be there; a volume need not be. */
  lemma CompleteIff(r: Raw)
    ensures Complete(r) <==> None !in [r.time, r.open, r.high, r.low, r.close]
  {
    var fields := [r.time, r.open, r.high, r.low, r.close];
    assert fields[0] == r.time && fields[1] == r.open && fields[2] == r.high && fields[3] == r.low;
    assert fields[4] == r.close;
  }

  /** An entry that came before the others of its time, and is not too far in the future. */
  ghost predicate FirstOfTime(s: seq<Raw>, i: nat, now: real, maxFuture: real) {
    && i < |s| && Complete(s[i]) && Clean(s[i]).time - now <= maxFuture
    && forall j :: 0 <= j < i && Complete(s[j]) ==> Clean(s[j]).time != Clean(s[i]).time
  }

  ghost predicate ComesFrom(b: Bar, s: seq<Raw>, now: real, maxFuture: real) {
    exists i: nat :: FirstOfTime(s, i, now, maxFuture) && Clean(s[i]) == b
  }

  lemma FirstStaysFirst(s: seq<Raw>, x: Raw, i: nat, now: real, maxFuture: real)
    requires i < |s|
    ensures FirstOfTime(s + [x], i, now, maxFuture) <==> FirstOfTime(s, i, now, maxFuture)
  {
    hide Complete, Clean;
    assert forall j :: 0 <= j < |s| ==> (s + [x])[j] == s[j];
  }

  lemma {:induction false} TimeTaken(s: seq<Raw>, now: real, maxFuture: real, t: real)
    requires t - now <= maxFuture
    ensures t in Times(Survivors(s, now, maxFuture)) <==>
      exists j :: 0 <= j < |s| && Complete(s[j]) && Clean(s[j]).time == t
  {
    if s == [] {
    } else {
      hide Complete, Clean;
      TimeTaken(s[..|s| - 1], now, maxFuture, t);
    }
  }

  /** Validation keeps exactly the cleaned first entry of every time that is not too far in the future. */
  lemma {:induction false} SurvivorsAreFirsts(s: seq<Raw>, now: real, maxFuture: real)
    ensures forall b :: b in Survivors(s, now, maxFuture) <==> ComesFrom(b, s, now, maxFuture)
  {
    if s == [] {
    } else {
      var rest, x := s[..|s| - 1], s[|s| - 1];
      SurvivorsAreFirsts(rest, now, maxFuture);
      assert s == rest + [x];
      hide Complete, Clean, Survivors;
      forall i: nat | i < |rest| ensures FirstOfTime(s, i, now, maxFuture) <==> FirstOfTime(rest, i, now, maxFuture) {
        FirstStaysFirst(rest, x, i, now, maxFuture);
      }
      LastSurvives(s, now, maxFuture);
      forall b ensures b in Survivors(s, now, maxFuture) <==> ComesFrom(b, s, now, maxFuture) {
        OneMoreSurvivor(s, now, maxFuture, b);
      }
    }
  }

  /** The last entry survives exactly when it is the first of its time. */
  lemma LastSurvives(s: seq<Raw>, now: real, maxFuture: real)
    requires s != []
    ensures var before := Survivors(s[..|s| - 1], now, maxFuture);
      Survivors(s, now, maxFuture) ==
        if FirstOfTime(s, |s| - 1, now, maxFuture) then before + [Clean(s[|s| - 1])] else before
  {
    var x := s[|s| - 1];
    hide Clean;
    if Complete(x) && Clean(x).time - now <= maxFuture {
      TimeTaken(s[..|s| - 1], now, maxFuture, Clean(x).time);
    }
    hide Complete;
  }

  lemma OneMoreSurvivor(s: seq<Raw>, now: real, maxFuture: real, b: Bar)
    requires s != []
    requires var rest := s[..|s| - 1];
      && (b in Survivors(rest, now, maxFuture) <==> ComesFrom(b, rest, now, maxFuture))
      && Survivors(s, now, maxFuture) ==
        (if FirstOfTime(s, |s| - 1, now, maxFuture) then Survivors(rest, now, maxFuture) + [Clean(s[|s| - 1])]
         else Survivors(rest, now, maxFuture))
      && forall i: nat :: i < |rest| ==> (FirstOfTime(s, i, now, maxFuture) <==> FirstOfTime(rest, i, now, maxFuture))
    ensures b in Survivors(s, now, maxFuture) <==> ComesFrom(b, s, now, maxFuture)
  {
    var rest := s[..|s| - 1];
    hide Survivors, Complete, Clean;
    if ComesFrom(b, s, now, maxFuture) {
      var i: nat :| FirstOfTime(s, i, now, maxFuture) && Clean(s[i]) == b;
      if i < |rest| {
        assert rest[i] == s[i] && FirstOfTime(rest, i, now, maxFuture);
      }
    }
    if ComesFrom(b, rest, now, maxFuture) {
      var i: nat :| FirstOfTime(rest, i, now, maxFuture) && Clean(rest[i]) == b;
      assert rest[i] == s[i] && FirstOfTime(s, i, now, maxFuture);
    }
    if FirstOfTime(s, |s| - 1, now, maxFuture) && b == Clean(s[|s| - 1]) {
      assert ComesFrom(b, s, now, maxFuture);
    }
  }

  lemma CleanIsSound(r: Raw)
    requires Complete(r)
    ensures Sound(Clean(r))
  {
  }

  lemma {:induction false} SurvivorsAreGood(s: seq<Raw>, now: real, maxFuture: real)
    ensures var k := Survivors(s, now, maxFuture); AllSound(k) && DistinctTimes(k) && |k| <= |s|
    ensures forall b :: b in Survivors(s, now, maxFuture) ==> !TooNew(b.time, now, maxFuture)
    ensures forall b :: b in Survivors(s, now, maxFuture) ==> b.time <= now + maxFuture
  {
    if s == [] {
    } else {
      hide Clean, Sound, Complete;
      SurvivorsAreGood(s[..|s| - 1], now, maxFuture);
      if Complete(s[|s| - 1]) {
        CleanIsSound(s[|s| - 1]);
      }
    }
  }

  // ----- sorting -----

  predicate NotLater(a: Bar, b: Bar) { a.time <= b.time }

  /** `sort((a, b) => a.time - b.time)`. */
  function SortByTime(v: seq<Bar>): seq<Bar> { Sorting.Sort(NotLater, v) }

  function TimeOf(b: Bar): real { b.time }

  ghost predicate Increasing(v: seq<Bar>) { forall i, j :: 0 <= i < j < |v| ==> v[i].time < v[j].time }

  lemma SortKeepsAll(v: seq<Bar>)
    ensures multiset(SortByTime(v)) == multiset(v) && |SortByTime(v)| == |v|
  {
    Sorting.SortPermutes(NotLater, v);
  }

  lemma SortOrders(v: seq<Bar>)
    requires DistinctTimes(v)
    ensures Increasing(SortByTime(v))
  {
    Sorting.SortOrders(NotLater, v);
    forall i, j | 0 <= i < j < |v| ensures TimeOf(v[i]) != TimeOf(v[j]) {
    }
    Sorting.SortKeepsDistinct(NotLater, TimeOf, v);
    var r := SortByTime(v);
    forall i, j | 0 <= i < j < |r| ensures r[i].time < r[j].time {
      assert NotLater(r[i], r[j]) && TimeOf(r[i]) != TimeOf(r[j]);
    }
  }

  // ----- quality -----

  datatype Quality = Quality(gapRatio: real, gaps: nat, maxGap: real, outOfOrder: nat, lastTime: real, stale: bool)

  /** `expected` is the timeframe in milliseconds, when it is known. */
  datatype Limits = Limits(
    expected: Option<real>, gapMultiplier: real, maxAgeMultiplier: real, maxGapRatio: real, enforce: bool)

  predicate Skipped(prev: real, curr: real) { prev == 0.0 || curr == 0.0 }

  /** The longest step between two bars that is not a gap. */
  function GapLimit(l: Limits): real
    requires l.expected.Some?
  {
    l.expected.value * l.gapMultiplier
  }

  function AgeLimit(l: Limits): real
    requires l.expected.Some?
  {
    l.expected.value * l.maxAgeMultiplier
  }

  predicate IsGap(prev: real, curr: real, l: Limits) {
    !Skipped(prev, curr) && curr > prev && l.expected.Some? && l.expected.value != 0.0
    && curr - prev > GapLimit(l)
  }

  predicate IsDisorder(prev: real, curr: real) { !Skipped(prev, curr) && curr <= prev }

  function CountGaps(v: seq<Bar>, l: Limits, n: nat): nat
    requires n <= |v|
  {
    if n <= 1 then 0 else CountGaps(v, l, n - 1) + if IsGap(v[n - 2].time, v[n - 1].time, l) then 1 else 0
  }

  function CountDisorder(v: seq<Bar>, n: nat): nat
    requires n <= |v|
  {
    if n <= 1 then 0 else CountDisorder(v, n - 1) + if IsDisorder(v[n - 2].time, v[n - 1].time) then 1 else 0
  }

  function WidestGap(v: seq<Bar>, l: Limits, n: nat): real
    requires n <= |v|
  {
    if n <= 1 then 0.0
    else if IsGap(v[n - 2].time, v[n - 1].time, l) then MaxReal(WidestGap(v, l, n - 1), v[n - 1].time - v[n - 2].time)
    else WidestGap(v, l, n - 1)
  }

  function GapRatio(v: seq<Bar>, l: Limits): real {
    if |v| > 1 then CountGaps(v, l, |v|) as real / (|v| - 1) as real else 0.0
  }

  predicate IsStale(v: seq<Bar>, now: real, l: Limits)
    requires v != []
  {
    l.expected.Some? && l.expected.value != 0.0 && now - v[|v| - 1].time > AgeLimit(l)
  }

  function QualityOf(v: seq<Bar>, now: real, l: Limits): Quality
    requires v != []
  {
    Quality(GapRatio(v, l), CountGaps(v, l, |v|), WidestGap(v, l, |v|),
      CountDisorder(v, |v|), v[|v| - 1].time, IsStale(v, now, l))
  }

  method AssessSeriesQuality(series: seq<Bar>, now: real, l: Limits) returns (q: Quality)
    requires series != []
    ensures q == QualityOf(series, now, l)
  {
    hide GapLimit, AgeLimit;
    var gaps, outOfOrder, maxGap := 0, 0, 0.0;
    var known := l.expected.Some? && l.expected.value != 0.0;
    var i := 1;
    while i < |series|
      invariant 1 <= i <= |series|
      invariant gaps == CountGaps(series, l, i)
        && outOfOrder == CountDisorder(series, i) && maxGap == WidestGap(series, l, i)
    {
      var prev, curr := series[i - 1].time, series[i].time;
      i := i + 1;
      if prev == 0.0 || curr == 0.0 {
        continue;
      }
      var delta := curr - prev;
      if delta <= 0.0 {
        outOfOrder := outOfOrder + 1;
        continue;
      }
      if known && delta > GapLimit(l) {
        gaps := gaps + 1;
        if delta > maxGap {
          maxGap := delta;
        }
      }
    }
    var gapRatio := if |series| > 1 then gaps as real / (|series| - 1) as real else 0.0;
    var last := series[|series| - 1].time;
    var stale := known && now - last > AgeLimit(l);
    q := Quality(gapRatio, gaps, maxGap, outOfOrder, last, stale);
  }

  lemma {:induction false} GapsAtMostSteps(v: seq<Bar>, l: Limits, n: nat)
    requires 1 <= n <= |v|
    ensures CountGaps(v, l, n) <= n - 1
  {
    if n <= 1 {
    } else {
      hide IsGap;
      GapsAtMostSteps(v, l, n - 1);
    }
  }

  lemma {:induction false} NoDisorderWhenIncreasing(v: seq<Bar>, n: nat)
    requires n <= |v| && Increasing(v)
    ensures CountDisorder(v, n) == 0
  {
    if n <= 1 {
    } else {
      NoDisorderWhenIncreasing(v, n - 1);
    }
  }

  lemma Ratio(a: nat, b: nat)
    requires a <= b && b > 0
    ensures 0.0 <= a as real / b as real <= 1.0
  {
  }

  // ----- what the figures count -----

  /** Before bar i more time passes than the timeframe times the gap multiplier; zero times do not count. */
  ghost predicate LeavesGap(v: seq<Bar>, l: Limits, i: int)
    requires 0 < i < |v|
  {
    && v[i - 1].time != 0.0 && v[i].time != 0.0 && l.expected.Some? && l.expected.value != 0.0
    && v[i].time > v[i - 1].time && v[i].time - v[i - 1].time > l.expected.value * l.gapMultiplier
  }

  ghost predicate Disordered(v: seq<Bar>, i: int)
    requires 0 < i < |v|
  {
    v[i - 1].time != 0.0 && v[i].time != 0.0 && v[i].time <= v[i - 1].time
  }

  ghost function GapsAt(v: seq<Bar>, l: Limits, n: nat): set<int>
    requires n <= |v|
  {
    set i | 0 < i < n && LeavesGap(v, l, i)
  }

  ghost function DisorderAt(v: seq<Bar>, n: nat): set<int>
    requires n <= |v|
  {
    set i | 0 < i < n && Disordered(v, i)
  }

  lemma GapInTimes(v: seq<Bar>, l: Limits, i: int)
    requires 0 < i < |v|
    ensures IsGap(v[i - 1].time, v[i].time, l) <==> LeavesGap(v, l, i)
    ensures IsDisorder(v[i - 1].time, v[i].time) <==> Disordered(v, i)
  {
  }

  lemma {:induction false} GapsAreCounted(v: seq<Bar>, l: Limits, n: nat)
    requires n <= |v|
    ensures CountGaps(v, l, n) == |GapsAt(v, l, n)|
  {
    hide IsGap, LeavesGap;
    if n <= 1 {
      assert GapsAt(v, l, n) == {};
    } else {
      GapsAreCounted(v, l, n - 1);
      GapInTimes(v, l, n - 1);
      assert GapsAt(v, l, n) == GapsAt(v, l, n - 1) + if LeavesGap(v, l, n - 1) then {n - 1} else {};
    }
  }

  lemma {:induction false} DisorderIsCounted(v: seq<Bar>, l: Limits, n: nat)
    requires n <= |v|
    ensures CountDisorder(v, n) == |DisorderAt(v, n)|
  {
    hide IsDisorder, Disordered;
    if n <= 1 {
      assert DisorderAt(v, n) == {};
    } else {
      DisorderIsCounted(v, l, n - 1);
      GapInTimes(v, l, n - 1);
      assert DisorderAt(v, n) == DisorderAt(v, n - 1) + if Disordered(v, n - 1) then {n - 1} else {};
    }
  }

  /** w is the widest of the gaps below n, or 0 where there is none. */
  ghost predicate Widest(w: real, v: seq<Bar>, l: Limits, n: nat)
    requires n <= |v|
  {
    && (forall i :: 0 < i < n && LeavesGap(v, l, i) ==> v[i].time - v[i - 1].time <= w)
    && if GapsAt(v, l, n) == {} then w == 0.0
       else exists i :: i in GapsAt(v, l, n) && v[i].time - v[i - 1].time == w
  }

  lemma GapIsPositive(v: seq<Bar>, l: Limits, i: int)
    requires 0 < i < |v| && LeavesGap(v, l, i)
    ensures v[i].time - v[i - 1].time > 0.0
  {
  }

  lemma {:induction false} WidestIsMaximum(v: seq<Bar>, l: Limits, n: nat)
    requires n <= |v|
    ensures Widest(WidestGap(v, l, n), v, l, n) && WidestGap(v, l, n) >= 0.0
  {
    hide IsGap, LeavesGap;
    if n <= 1 {
      assert GapsAt(v, l, n) == {};
    } else {
      hide Widest, GapsAt;
      WidestIsMaximum(v, l, n - 1);
      GapInTimes(v, l, n - 1);
      if LeavesGap(v, l, n - 1) {
        GapIsPositive(v, l, n - 1);
      }
      WidestGrows(WidestGap(v, l, n - 1), v, l, n - 1);
    }
  }

  lemma WidestGrows(w: real, v: seq<Bar>, l: Limits, k: nat)
    requires 0 < k < |v| && Widest(w, v, l, k) && w >= 0.0
    requires LeavesGap(v, l, k) ==> v[k].time - v[k - 1].time > 0.0
    ensures Widest(if LeavesGap(v, l, k) then MaxReal(w, v[k].time - v[k - 1].time) else w, v, l, k + 1)
  {
    hide LeavesGap;
    assert GapsAt(v, l, k + 1) == GapsAt(v, l, k) + if LeavesGap(v, l, k) then {k} else {};
    if LeavesGap(v, l, k) {
      assert k in GapsAt(v, l, k + 1);
    }
  }

  /**
   * What the quality record of a series says: how many steps leave a gap and how wide the widest is, which share of the
   * steps that is, how many steps go back in time, and whether the last bar is older than the timeframe times the age
   * multiplier.
   */
  ghost predicate RecordsQuality(q: Quality, v: seq<Bar>, now: real, l: Limits)
    requires v != []
  {
    && q.gaps == |GapsAt(v, l, |v|)| && q.outOfOrder == |DisorderAt(v, |v|)| && q.lastTime == v[|v| - 1].time
    && Widest(q.maxGap, v, l, |v|)
    && IsShare(q.gapRatio, q.gaps, |v| - 1) && (q.stale <==> TooOld(v[|v| - 1], now, l))
  }

  ghost predicate IsShare(ratio: real, part: nat, whole: nat) { ratio * whole as real == part as real }

  /** The bar is older than the timeframe times the age multiplier. */
  ghost predicate TooOld(b: Bar, now: real, l: Limits) {
    l.expected.Some? && l.expected.value != 0.0 && now - b.time > l.expected.value * l.maxAgeMultiplier
  }

  lemma QualityIsRecorded(v: seq<Bar>, now: real, l: Limits)
    requires v != []
    ensures RecordsQuality(QualityOf(v, now, l), v, now, l)
  {
    GapsAreCounted(v, l, |v|);
    DisorderIsCounted(v, l, |v|);
    WidestIsMaximum(v, l, |v|);
    StaleInTimes(v, now, l);
    RatioTimesSteps(v, l);
    hide Widest, GapsAt, DisorderAt, CountGaps, CountDisorder, WidestGap, GapRatio, IsStale, IsShare, TooOld;
  }

  lemma StaleInTimes(v: seq<Bar>, now: real, l: Limits)
    requires v != []
    ensures IsStale(v, now, l) <==> TooOld(v[|v| - 1], now, l)
  {
  }

  lemma RatioTimesSteps(v: seq<Bar>, l: Limits)
    requires v != []
    ensures IsShare(GapRatio(v, l), CountGaps(v, l, |v|), |v| - 1)
  {
    hide CountGaps;
    if |v| == 1 {
      GapsAtMostSteps(v, l, 1);
    } else {
      Back(CountGaps(v, l, |v|) as real, (|v| - 1) as real);
    }
  }

  lemma Back(a: real, b: real)
    requires b != 0.0
    ensures a / b * b == a
  {
  }

  // ----- the pipeline -----

  /** `series.slice(-bars || series.length)`: a zero count keeps nothing, a negative one drops from the front. */
  function LastBars(v: seq<Bar>, bars: int): seq<Bar> {
    if bars == 0 then []
    else if bars > 0 then v[|v| - Min(bars, |v|)..]
    else v[Min(-bars, |v|)..]
  }

  function Sorted(s: seq<Raw>, now: real, maxFuture: real): seq<Bar> { SortByTime(Survivors(s, now, maxFuture)) }

  function Processed(s: seq<Raw>, now: real, maxFuture: real, l: Limits, bars: int): Option<seq<Bar>> {
    var v := Sorted(s, now, maxFuture);
    if v == [] then None
    else if l.enforce && (IsStale(v, now, l) || GapRatio(v, l) > l.maxGapRatio) then None
    else Some(LastBars(v, bars))
  }

  method PostProcessSeries(series: seq<Raw>, now: real, maxFuture: real, l: Limits, bars: int)
    returns (result: Option<seq<Bar>>, quality: Option<Quality>)
    ensures result == Processed(series, now, maxFuture, l, bars)
    ensures quality.Some? <==> Survivors(series, now, maxFuture) != []
    ensures quality.Some? ==>
      Sorted(series, now, maxFuture) != [] && quality.value == QualityOf(Sorted(series, now, maxFuture), now, l)
  {
    if |series| == 0 {
      return None, None;
    }
    var sanitized, stats := ValidatePriceBars(series, now, maxFuture);
    if |sanitized| == 0 {
      return None, None;
    }
    SortKeepsAll(sanitized);
    sanitized := SortByTime(sanitized);
    var q := AssessSeriesQuality(sanitized, now, l);
    quality := Some(q);
    if q.stale || q.gapRatio > l.maxGapRatio {
      if l.enforce {
        return None, quality;
      }
    }
    result := Some(LastBars(sanitized, bars));
  }

  predicate TooPoor(q: Quality, l: Limits) { q.stale || q.gapRatio > l.maxGapRatio }

  /**
   * A series is returned unless nothing survives or, where quality is enforced, the last bar is too old or too large a
   * share of the steps leave a gap; a count of 0 returns no bars and a negative one all but that many of the oldest.
   */
  lemma ReturnedUnlessPoor(s: seq<Raw>, now: real, maxFuture: real, l: Limits, bars: int)
    ensures var r, v := Processed(s, now, maxFuture, l, bars), Sorted(s, now, maxFuture);
      && (v != [] ==> RecordsQuality(QualityOf(v, now, l), v, now, l))
      && (r == None <==> (v == [] || (l.enforce && TooPoor(QualityOf(v, now, l), l))))
      && (r.Some? && bars == 0 ==> r.value == [])
      && (r.Some? && bars < 0 ==> r.value == v[Min(-bars, |v|)..])
  {
    if Sorted(s, now, maxFuture) != [] {
      QualityIsRecorded(Sorted(s, now, maxFuture), now, l);
    }
    hide Sorted, RecordsQuality, IsStale, GapRatio, CountGaps, CountDisorder, WidestGap;
  }

  /**
   * Whatever came in: the output is sound, strictly ordered, made of survivors only, and its recorded quality is clean.
   */
  lemma OutputIsOrdered(s: seq<Raw>, now: real, maxFuture: real, l: Limits, bars: int)
    requires Processed(s, now, maxFuture, l, bars).Some?
    ensures var out, v := Processed(s, now, maxFuture, l, bars).value, Sorted(s, now, maxFuture);
      && AllSound(out) && Increasing(out)
      && (bars > 0 ==> |out| == Min(bars, |v|) && out == v[|v| - |out|..])
      && multiset(v) == multiset(Survivors(s, now, maxFuture))
      && CountDisorder(v, |v|) == 0 && 0.0 <= GapRatio(v, l) <= 1.0
  {
    SortedIsGood(s, now, maxFuture);
    var v := Sorted(s, now, maxFuture);
    NoDisorderWhenIncreasing(v, |v|);
    GapRatioInUnit(v, l);
    hide Sorted, Survivors, Sound, IsStale, GapRatio, CountDisorder, Increasing;
    SuffixIsGood(v, bars);
  }

  lemma SortedIsGood(s: seq<Raw>, now: real, maxFuture: real)
    ensures var v := Sorted(s, now, maxFuture);
      AllSound(v) && Increasing(v) && multiset(v) == multiset(Survivors(s, now, maxFuture))
  {
    var k, v := Survivors(s, now, maxFuture), Sorted(s, now, maxFuture);
    SurvivorsAreGood(s, now, maxFuture);
    SortKeepsAll(k);
    SortOrders(k);
    hide Sound, Survivors, SortByTime, Increasing, DistinctTimes;
    forall i | 0 <= i < |v| ensures Sound(v[i]) {
      assert v[i] in multiset(v);
      assert v[i] in multiset(k);
      assert v[i] in k;
    }
  }

  lemma SuffixIsGood(v: seq<Bar>, bars: int)
    requires AllSound(v) && Increasing(v)
    ensures var out := LastBars(v, bars);
      AllSound(out) && Increasing(out) && (bars > 0 ==> |out| == Min(bars, |v|) && out == v[|v| - |out|..])
  {
    hide Sound;
  }

  lemma GapRatioInUnit(v: seq<Bar>, l: Limits)
    ensures 0.0 <= GapRatio(v, l) <= 1.0
  {
    if |v| > 1 {
      GapsAtMostSteps(v, l, |v|);
      Ratio(CountGaps(v, l, |v|), |v| - 1);
    }
  }

  // ----- validating twice -----

  /** A bar fed back as a raw entry. */
  function AsRaw(b: Bar): Raw {
    Raw(Some(b.time), Some(b.open), Some(b.high), Some(b.low), Some(b.close), Some(b.volume))
  }

  function AllRaw(v: seq<Bar>): (s: seq<Raw>)
    ensures |s| == |v|
  {
    seq(|v|, i requires 0 <= i < |v| => AsRaw(v[i]))
  }

  predicate Settled(t: real) { t >= MILLISECOND_FLOOR || t == 0.0 }

  lemma SettledIsFixed(t: real)
    ensures Rescale(t) == t <==> Settled(t)
  {
  }

  lemma CleanAgain(b: Bar)
    requires Sound(b)
    ensures Complete(AsRaw(b)) && Clean(AsRaw(b)) == b.(time := Rescale(b.time))
  {
  }

  lemma {:induction false} SettledSurvive(v: seq<Bar>, now: real, maxFuture: real)
    requires AllSound(v) && DistinctTimes(v)
    requires forall b :: b in v ==> Settled(b.time) && !TooNew(b.time, now, maxFuture)
    ensures Survivors(AllRaw(v), now, maxFuture) == v
  {
    if v == [] {
    } else {
      var u, x := v[..|v| - 1], v[|v| - 1];
      SettledSurvive(u, now, maxFuture);
      assert AllRaw(v)[..|v| - 1] == AllRaw(u);
      CleanAgain(x);
      SettledIsFixed(x.time);
      assert x.time !in Times(u);
      assert v == u + [x];
    }
  }

  lemma {:induction false} NoneDropped(s: seq<Raw>, now: real, maxFuture: real)
    requires |Survivors(s, now, maxFuture)| == |s|
    ensures forall i :: 0 <= i < |s| ==> Complete(s[i]) && Survivors(s, now, maxFuture)[i] == Clean(s[i])
  {
    if s == [] {
    } else {
      hide Clean, Complete, TooNew;
      SurvivorsAreGood(s[..|s| - 1], now, maxFuture);
      NoneDropped(s[..|s| - 1], now, maxFuture);
    }
  }

  /**
   * Validating the validated bars again, at the same or a later time, changes nothing exactly when no kept
   * time is still small enough to be taken for seconds (zero excepted).
   */
  lemma ValidationIsIdempotentIff(s: seq<Raw>, now: real, later: real, maxFuture: real)
    requires now <= later
    ensures var v := Survivors(s, now, maxFuture);
      Survivors(AllRaw(v), later, maxFuture) == v <==> forall b :: b in v ==> Settled(b.time)
  {
    var v := Survivors(s, now, maxFuture);
    SurvivorsAreGood(s, now, maxFuture);
    if forall b :: b in v ==> Settled(b.time) {
      SettledSurvive(v, later, maxFuture);
    }
    if Survivors(AllRaw(v), later, maxFuture) == v {
      NoneDropped(AllRaw(v), later, maxFuture);
      forall b | b in v ensures Settled(b.time) {
        var i :| 0 <= i < |v| && v[i] == b;
        CleanAgain(v[i]);
        SettledIsFixed(b.time);
      }
    }
  }
}
