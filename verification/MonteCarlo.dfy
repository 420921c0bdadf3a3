/** The Lehmer generator and the resampling simulation of monte-carlo-simulator.js. */
module MonteCarlo {
  import opened Prelude
  import opened Statistics
  import opened Rounding

  const MODULUS := 2147483647
  const MULTIPLIER := 16807
  const INVERSE := 1407677000  // of MULTIPLIER, modulo MODULUS
  const DEFAULT_ITERATIONS := 500

  /** The remainder operator of JavaScript: it takes the sign of the dividend. */
  function JsRem(a: int, m: int): int
    requires m > 0
  {
    if a >= 0 then a % m else -((-a) % m)
  }

  function StartState(seed: int): int {
    var s := JsRem(seed, MODULUS);
    if s <= 0 then s + (MODULUS - 1) else s
  }

  function NextState(s: int): int { s * MULTIPLIER % MODULUS }
  function PrevState(s: int): int { s * INVERSE % MODULUS }

  predicate Live(s: int) { 1 <= s < MODULUS }

  /** The seeds that would freeze the generator: their remainder is -(MODULUS - 1). */
  predicate DeadSeed(seed: int) { JsRem(seed, MODULUS) == -(MODULUS - 1) }

  function DrawOf(s: int): real { (s - 1) as real / (MODULUS - 1) as real }
  function Pick(draw: real, n: nat): int { (draw * n as real).Floor }
  function IndexOf(s: int, n: nat): int { Pick(DrawOf(s), n) }

  // ----- arithmetic of one step -----

  lemma RemainderUnique(a: int, q: int, r: int, m: int)
    requires m > 0 && a == q * m + r && 0 <= r < m
    ensures a % m == r
  {
    var d := a / m - q;
    assert a == (a / m) * m + a % m;
    assert d * m == r - a % m;
    assert -m < d * m < m;
    MultipleWithin(d, m);
  }

  lemma MultipleWithin(d: int, m: int)
    requires m > 0 && -m < d * m < m
    ensures d == 0
  {
  }

  lemma UndoStep(s: int)
    requires Live(s)
    ensures PrevState(NextState(s)) == s && NextState(PrevState(s)) == s
  {
    Cancel(s, MULTIPLIER, INVERSE);
    Cancel(s, INVERSE, MULTIPLIER);
  }

  /** (s*a % m)*b is congruent to s because a*b == 11017*m + 1. */
  lemma Cancel(s: int, a: int, b: int)
    requires Live(s) && a * b == 11017 * MODULUS + 1
    ensures (s * a % MODULUS) * b % MODULUS == s
  {
    var q, r := s * a / MODULUS, s * a % MODULUS;
    assert s * a == q * MODULUS + r;
    calc {
      r * b;
      (s * a - q * MODULUS) * b;
      s * (a * b) - (q * b) * MODULUS;
      s * (11017 * MODULUS + 1) - (q * b) * MODULUS;
      (s * 11017 - q * b) * MODULUS + s;
    }
    RemainderUnique(r * b, s * 11017 - q * b, s, MODULUS);
  }

  lemma ZeroStays(a: int)
    ensures 0 * a % MODULUS == 0
  {
  }

  /** One step never leaves the live range, and its product is exact in a double. */
  lemma StepStaysLive(s: int)
    requires Live(s)
    ensures Live(NextState(s)) && Live(PrevState(s)) && s * MULTIPLIER < 0x20_0000_0000_0000
  {
    UndoStep(s);
  }

  /** The step is a bijection of the live range: one-to-one and onto. */
  lemma StepIsBijection()
    ensures forall s, t :: Live(s) && Live(t) && NextState(s) == NextState(t) ==> s == t
    ensures forall t :: Live(t) ==> Live(PrevState(t)) && NextState(PrevState(t)) == t
  {
    forall s, t | Live(s) && Live(t) && NextState(s) == NextState(t) ensures s == t {
      UndoStep(s);
      UndoStep(t);
    }
    forall t | Live(t) ensures Live(PrevState(t)) && NextState(PrevState(t)) == t {
      UndoStep(t);
      StepStaysLive(t);
    }
  }

  lemma IndexInBounds(s: int, n: nat)
    requires Live(s) && n > 0
    ensures 0.0 <= DrawOf(s) < 1.0 && 0 <= IndexOf(s, n) < n
  {
    var d := DrawOf(s);
    assert d * (MODULUS - 1) as real == (s - 1) as real;
    FractionOfCount(d, n);
  }

  lemma FractionOfCount(d: real, n: nat)
    requires n > 0 && 0.0 <= d < 1.0
    ensures 0 <= Pick(d, n) < n
  {
    var r := n as real;
    assert 0.0 <= d * r < r;
  }

  /** State s picks the return at which its share of the live range lies: the states are spread evenly over the pool. */
  lemma PickIsProportional(s: int, n: nat)
    requires Live(s) && n > 0
    ensures IndexOf(s, n) * 2147483646 <= (s - 1) * n < (IndexOf(s, n) + 1) * 2147483646
  {
    var m, d, k := 2147483646 as real, DrawOf(s), IndexOf(s, n);
    assert d * m == (s - 1) as real;
    hide DrawOf;
    FloorTimes(d * n as real, m);
    assert d * n as real * m == (s - 1) as real * n as real by { Swap(d, n as real, m); }
    InReals(s - 1, n, k);
  }

  lemma Swap(a: real, b: real, c: real)
    ensures a * b * c == (a * c) * b
  {
  }

  lemma FloorTimes(x: real, m: real)
    requires m > 0.0
    ensures x.Floor as real * m <= x * m < (x.Floor as real + 1.0) * m
  {
  }

  lemma InReals(a: int, b: int, k: int)
    requires k as real * 2147483646.0 <= a as real * b as real < (k as real + 1.0) * 2147483646.0
    ensures k * 2147483646 <= a * b < (k + 1) * 2147483646
  {
    assert (a * b) as real == a as real * b as real;
  }

  lemma DeadDrawIsNegative(n: nat)
    requires n > 0
    ensures NextState(0) == 0 && IndexOf(0, n) < 0
  {
    ZeroStays(MULTIPLIER);
    var d := DrawOf(0);
    assert d * n as real < 0.0;
  }

  // ----- which seeds work -----

  function StateAfter(seed: int, k: nat): int {
    if k == 0 then StartState(seed) else NextState(StateAfter(seed, k - 1))
  }

  lemma StartIsLiveIff(seed: int)
    ensures Live(StartState(seed)) <==> !DeadSeed(seed)
    ensures DeadSeed(seed) ==> StartState(seed) == 0
    ensures seed >= 0 ==> !DeadSeed(seed)
    ensures 0 < seed < 2147483647 ==> StartState(seed) == seed
    ensures seed >= 0 && seed % 2147483647 == 0 ==> StartState(seed) == 2147483646
    ensures -2147483647 < seed <= 0 ==> StartState(seed) == seed + 2147483646
    ensures seed >= 0 ==> StartState(seed + 2147483647) == StartState(seed)
    ensures seed <= 0 ==> StartState(seed - 2147483647) == StartState(seed)
  {
  }

  lemma {:induction false} StateStaysLive(seed: int, k: nat)
    requires !DeadSeed(seed)
    ensures Live(StateAfter(seed, k))
  {
    if k == 0 {
      StartIsLiveIff(seed);
    } else {
      StateStaysLive(seed, k - 1);
      StepStaysLive(StateAfter(seed, k - 1));
    }
  }

  lemma {:induction false} DeadStaysZero(seed: int, k: nat)
    requires DeadSeed(seed)
    ensures StateAfter(seed, k) == 0
  {
    if k == 0 {
    } else {
      DeadStaysZero(seed, k - 1);
      ZeroStays(MULTIPLIER);
    }
  }

  /** Every draw of every run indexes inside the returns, exactly when the seed is not a dead one. */
  lemma AllDrawsInBoundsIff(seed: int, n: nat)
    requires n > 0
    ensures (forall k: nat {:trigger StateAfter(seed, k)} :: k > 0 ==> 0 <= IndexOf(StateAfter(seed, k), n) < n) <==>
      !DeadSeed(seed)
  {
    if DeadSeed(seed) {
      DeadStaysZero(seed, 1);
      DeadDrawIsNegative(n);
      assert IndexOf(StateAfter(seed, 1), n) < 0;
    } else {
      forall k: nat | k > 0 ensures 0 <= IndexOf(StateAfter(seed, k), n) < n {
        StateStaysLive(seed, k);
        IndexInBounds(StateAfter(seed, k), n);
      }
    }
  }

  // ----- the generator object -----

  class Random {
    var state: int

    constructor (seed: int)
      ensures state == StartState(seed)
    {
      var s := JsRem(seed, MODULUS);
      if s <= 0 {
        s := s + 2147483646;
      }
      state := s;
    }

    method Next() returns (r: real)
      modifies this
      ensures state == NextState(old(state)) && r == DrawOf(state)
    {
      state := state * 16807 % 2147483647;
      r := (state - 1) as real / 2147483646.0;
    }
  }

  // ----- simulation -----

  /** Sum of `size` returns drawn one after the other from state s. */
  function RunSum(pool: seq<real>, s: int, size: nat): real
    requires pool != [] && Live(s)
  {
    if size == 0 then 0.0
    else
      IndexInBounds(Walk(s, size), |pool|);
      RunSum(pool, s, size - 1) + pool[IndexOf(Walk(s, size), |pool|)]
  }

  function Walk(s: int, k: nat): (t: int)
    requires Live(s)
    ensures Live(t)
  {
    if k == 0 then s
    else
      StepStaysLive(Walk(s, k - 1));
      NextState(Walk(s, k - 1))
  }

  /** State in which run k starts. */
  function RunStart(s: int, size: nat, k: nat): (t: int)
    requires Live(s)
    ensures Live(t)
  {
    if k == 0 then s else Walk(RunStart(s, size, k - 1), size)
  }

  function RunSums(pool: seq<real>, s: int, size: nat, runs: nat): (sums: seq<real>)
    requires pool != [] && Live(s)
    ensures |sums| == runs
  {
    if runs == 0 then []
    else RunSums(pool, s, size, runs - 1) + [RunSum(pool, RunStart(s, size, runs - 1), size)]
  }

  lemma {:induction false} WalkAdds(s: int, j: nat, k: nat)
    requires Live(s)
    ensures Walk(Walk(s, j), k) == Walk(s, j + k)
  {
    if k == 0 {
    } else {
      WalkAdds(s, j, k - 1);
    }
  }

  /** The runs consume one single stream: run k begins where draw size * k of the stream left off. */
  lemma {:induction false} RunsShareOneStream(s: int, size: nat, k: nat)
    requires Live(s)
    ensures RunStart(s, size, k) == Walk(s, size * k)
  {
    if k == 0 {
    } else {
      RunsShareOneStream(s, size, k - 1);
      WalkAdds(s, size * (k - 1), size);
      assert size * (k - 1) + size == size * k;
    }
  }

  /** A figure of the report; None is the `null` that `toFixedNumber` gives for NaN. */
  datatype Report = Report(
    iterations: nat, sampleSize: nat, meanPct: Option<real>, p5Pct: Option<real>, p95Pct: Option<real>,
    worstPct: Option<real>, bestPct: Option<real>)

  /** The absent and the zero option both select the default. */
  function OptionOr(o: Option<int>, default: nat): (n: nat)
    ensures default > 0 ==> n > 0
  {
    match o
    case None => default
    case Some(v) => if v == 0 then default else Max(1, v)
  }

  function Percent(x: real): real { ToFixed(x * 100.0, 3) }

  function Summary(iterations: nat, size: nat, sums: seq<real>): Report
    requires sums != []
  {
    Report(iterations, size, Some(Percent(Mean(sums))), Some(Percent(Percentile(sums, 0.05))),
           Some(Percent(Percentile(sums, 0.95))), Some(Percent(Least(sums))), Some(Percent(Greatest(sums))))
  }

  function NullSummary(iterations: nat, size: nat): Report {
    Report(iterations, size, None, None, None, None, None)
  }

  function ReturnsOf(trades: seq<Option<real>>): (r: seq<real>)
    ensures |r| == |trades|
  {
    seq(|trades|, i requires 0 <= i < |trades| => if trades[i].Some? then trades[i].value else 0.0)
  }

  /** Adding `pool[index]`: an index outside the pool reads `undefined` and turns the sum into NaN, here None. */
  function AddDrawn(sum: Option<real>, pool: seq<real>, index: int): Option<real> {
    if sum.Some? && 0 <= index < |pool| then Some(sum.value + pool[index]) else None
  }

  /**
   * `seed` is `options.seed || Date.now()`. The statistics are those of the resampled sums,
   * except that a dead seed makes every sum NaN and every figure null.
   */
  method RunMonteCarlo(trades: seq<Option<real>>, iterations: Option<int>, sampleSize: Option<int>, seed: int)
    returns (report: Report)
    ensures trades == [] ==> report == Report(0, 0, Some(0.0), Some(0.0), Some(0.0), Some(0.0), Some(0.0))
    ensures trades != [] && DeadSeed(seed) ==>
      report == NullSummary(OptionOr(iterations, DEFAULT_ITERATIONS), OptionOr(sampleSize, |trades|))
    ensures trades != [] && !DeadSeed(seed) ==>
      Live(StartState(seed)) &&
      report.iterations == (if iterations == None || iterations == Some(0) then 500 else Max(1, iterations.value)) &&
      report.sampleSize ==
        (if sampleSize == None || sampleSize == Some(0) then |trades| else Max(1, sampleSize.value)) &&
      var runs, size := OptionOr(iterations, DEFAULT_ITERATIONS), OptionOr(sampleSize, |trades|);
      report == Summary(runs, size, RunSums(ReturnsOf(trades), StartState(seed), size, runs))
  {
    var pool := seq(|trades|, i requires 0 <= i < |trades| => if trades[i].Some? then trades[i].value else 0.0);
    assert pool == ReturnsOf(trades);
    if |pool| == 0 {
      return Report(0, 0, Some(0.0), Some(0.0), Some(0.0), Some(0.0), Some(0.0));
    }
    var iters := OptionOr(iterations, 500);
    var size := OptionOr(sampleSize, |pool|);
    var rng := new Random(seed);
    StartIsLiveIff(seed);
    ghost var live := !DeadSeed(seed);
    ghost var s := if live then StartState(seed) else 1;
    var results: seq<real> := [];
    var nan := false;
    for i := 0 to iters
      invariant !live ==> rng.state == 0 && (i > 0 ==> nan)
      invariant live ==> !nan && rng.state == RunStart(s, size, i) && results == RunSums(pool, s, size, i)
    {
      var cumulative := DrawAndAdd(rng, pool, size);
      if cumulative.Some? {
        results := results + [cumulative.value];
      } else {
        nan := true;
      }
    }
    if nan {
      report := NullSummary(iters, size);
    } else {
      report := Report(iters, size, Some(ToFixed(Mean(results) * 100.0, 3)),
                       Some(ToFixed(Percentile(results, 0.05) * 100.0, 3)),
                       Some(ToFixed(Percentile(results, 0.95) * 100.0, 3)),
                       Some(ToFixed(Least(results) * 100.0, 3)), Some(ToFixed(Greatest(results) * 100.0, 3)));
    }
  }

  /** The inner loop: `size` draws added up; from the frozen state the sum is NaN. */
  method DrawAndAdd(rng: Random, pool: seq<real>, size: nat) returns (cumulative: Option<real>)
    requires pool != [] && size > 0 && (Live(rng.state) || rng.state == 0)
    modifies rng
    ensures old(rng.state) == 0 ==> rng.state == 0 && cumulative == None
    ensures Live(old(rng.state)) ==>
      rng.state == Walk(old(rng.state), size) && cumulative == Some(RunSum(pool, old(rng.state), size))
  {
    hide NextState, DrawOf, Pick;
    ghost var from := rng.state;
    cumulative := Some(0.0);
    for j := 0 to size
      invariant from == 0 ==> rng.state == 0 && (j > 0 ==> cumulative == None)
      invariant Live(from) ==> rng.state == Walk(from, j) && cumulative == Some(RunSum(pool, from, j))
    {
      var draw := rng.Next();
      if from == 0 {
        DeadDrawIsNegative(|pool|);
      } else {
        assert rng.state == Walk(from, j + 1);
        IndexInBounds(rng.state, |pool|);
      }
      cumulative := AddDrawn(cumulative, pool, Pick(draw, |pool|));
    }
  }

  lemma {:induction false} RunSumBounds(pool: seq<real>, s: int, size: nat)
    requires pool != [] && Live(s)
    ensures Times(size, Least(pool)) <= RunSum(pool, s, size) <= Times(size, Greatest(pool))
  {
    if size == 0 {
    } else {
      RunSumBounds(pool, s, size - 1);
      IndexInBounds(Walk(s, size), |pool|);
      ExtremesBound(pool, IndexOf(Walk(s, size), |pool|));
    }
  }

  lemma RunSumWithin(pool: seq<real>, s: int, size: nat)
    requires pool != [] && Live(s)
    ensures size as real * Least(pool) <= RunSum(pool, s, size) <= size as real * Greatest(pool)
  {
    hide RunSum, Least, Greatest;
    RunSumBounds(pool, s, size);
    TimesIsProduct(size, Least(pool));
    TimesIsProduct(size, Greatest(pool));
  }

  /** Whatever the seed, every resampled run lies between size times the worst and size times the best return. */
  lemma {:induction false} EveryRunIsBounded(pool: seq<real>, s: int, size: nat, runs: nat, k: nat)
    requires pool != [] && Live(s) && k < runs
    ensures size as real * Least(pool) <= RunSums(pool, s, size, runs)[k] <= size as real * Greatest(pool)
  {
    hide NextState, DrawOf, Pick, RunSum, Times;
    if k == runs - 1 {
      RunSumWithin(pool, RunStart(s, size, k), size);
    } else {
      EveryRunIsBounded(pool, s, size, runs - 1, k);
    }
  }

  lemma PercentMonotone(x: real, y: real)
    requires x <= y
    ensures Percent(x) <= Percent(y)
  {
    ToFixedMonotone(x * 100.0, y * 100.0, 3);
  }

  /**
   * The percentiles of a report are the sums that stand a twentieth and nineteen twentieths up the sorted list, and
   * every figure is in percent, on the grid of three digits.
   */
  lemma ReportReadsRanks(iterations: nat, size: nat, sums: seq<real>) returns (i: nat, j: nat)
    requires sums != []
    ensures 20 * i <= |sums| < 20 * (i + 1) && 20 * j <= 19 * |sums| < 20 * (j + 1)
    ensures i < |sums| == |SortAsc(sums)| && j < |sums|
    ensures var r := Summary(iterations, size, sums);
      && r.p5Pct == Some(ToFixed(100.0 * SortAsc(sums)[i], 3)) && r.p95Pct == Some(ToFixed(100.0 * SortAsc(sums)[j], 3))
      && r.meanPct == Some(ToFixed(100.0 * Mean(sums), 3))
      && r.worstPct == Some(ToFixed(100.0 * Least(sums), 3)) && r.bestPct == Some(ToFixed(100.0 * Greatest(sums), 3))
  {
    i, j := RankIndex(0.05, |sums|), RankIndex(0.95, |sums|);
    RankInUnit(0.05, |sums|);
    RankInUnit(0.95, |sums|);
    Twentieths(i, |sums|, 1);
    Twentieths(j, |sums|, 19);
    SortAscSorts(sums);
    hide RankIndex, ToFixed, SortAsc, Least, Greatest, Mean;
  }

  lemma Twentieths(i: nat, n: nat, parts: nat)
    requires parts <= 20
    ensures i as real <= parts as real / 20.0 * n as real < i as real + 1.0 ==> 20 * i <= parts * n < 20 * (i + 1)
  {
    assert (parts * n) as real == parts as real * n as real;
  }

  /** The published figures are in order even after each was rounded on its own. */
  lemma ReportIsOrdered(iterations: nat, size: nat, sums: seq<real>)
    requires sums != []
    ensures var r := Summary(iterations, size, sums);
      r.worstPct.value <= r.p5Pct.value <= r.p95Pct.value <= r.bestPct.value
      && r.worstPct.value <= r.meanPct.value <= r.bestPct.value
  {
    PercentileMonotone(sums, 0.05, 0.95);
    PercentileWithinExtremes(sums, 0.05);
    PercentileWithinExtremes(sums, 0.95);
    MeanWithinExtremes(sums);
    PercentMonotone(Least(sums), Percentile(sums, 0.05));
    PercentMonotone(Percentile(sums, 0.05), Percentile(sums, 0.95));
    PercentMonotone(Percentile(sums, 0.95), Greatest(sums));
    PercentMonotone(Least(sums), Mean(sums));
    PercentMonotone(Mean(sums), Greatest(sums));
  }
}
