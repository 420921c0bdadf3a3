/** What the counters of a provider mean over every run, with breakers lapsing in between. */
module AdmissionCounters {
  import opened Prelude
  import opened Admission
  import opened AdmissionRuns
  import Statistics

  // ----- a provider's history, read off its log -----

  /** The outcomes recorded, in order. */
  function Outcomes(log: seq<Entry>): seq<Payload> {
    if log == [] then []
    else if log[|log| - 1].Recorded? then Outcomes(log[..|log| - 1]) + [log[|log| - 1].payload]
    else Outcomes(log[..|log| - 1])
  }

  /** A bare `false`, or an object that says so; saying nothing is success. */
  predicate Failed(p: Payload) { p == Flag(false) || (p.Details? && p.success == Some(false)) }

  /** The latency an outcome reports; a negative one counts as none. */
  function LatencyOf(p: Payload): Option<real> {
    match p
    case Details(_, Some(ms), _) => if ms < 0.0 then None else Some(ms)
    case _ => None
  }

  /** The quality an outcome reports, 1 or 0 where it reports none, brought into the unit interval. */
  function Grade(p: Payload): real {
    match p
    case Details(_, _, Some(q)) => if q < 0.0 then 0.0 else if q > 1.0 then 1.0 else q
    case _ => if Failed(p) then 0.0 else 1.0
  }

  /** `recordRequest` reads its payload that way. */
  lemma ReadsPayload(p: Payload)
    ensures Succeeded(p) <==> !Failed(p)
    ensures LatencyIn(p) == LatencyOf(p)
    ensures Clamp01(QualityIn(p)) == Grade(p)
  {
  }

  function Successes(ps: seq<Payload>): nat {
    if ps == [] then 0 else Successes(ps[..|ps| - 1]) + if Failed(ps[|ps| - 1]) then 0 else 1
  }

  /** Failures recorded since the last success, or since a breaker was last cleared. */
  function Streak(log: seq<Entry>): nat {
    if log == [] then 0
    else
      match log[|log| - 1]
      case Cleared(_) => 0
      case Recorded(_, p) => if Failed(p) then Streak(log[..|log| - 1]) + 1 else 0
      case _ => Streak(log[..|log| - 1])
  }

  function Latencies(ps: seq<Payload>): seq<real> {
    if ps == [] then []
    else if LatencyOf(ps[|ps| - 1]).Some? then Latencies(ps[..|ps| - 1]) + [LatencyOf(ps[|ps| - 1]).value]
    else Latencies(ps[..|ps| - 1])
  }

  function LastOf(v: seq<real>, n: nat): seq<real> { if |v| > n then v[|v| - n..] else v }

  function Recent(ps: seq<Payload>): seq<real> { LastOf(Latencies(ps), 20) }

  /** The figures that depend on the recorded outcomes alone. */
  ghost predicate Tallied(m: Metrics, ps: seq<Payload>) {
    && m.samples == |ps| && m.success == Successes(ps) && m.failed == |ps| - Successes(ps)
    && m.latencySamples == Recent(ps)
    && m.avgLatencyMs == (if Recent(ps) == [] then None else Some(Statistics.Mean(Recent(ps))))
    && m.normalizedQuality == (if ps == [] then 1.0 else Grade(ps[|ps| - 1]))
  }

  ghost predicate Truthful(s: State, log: seq<Entry>) {
    Tallied(s.metrics, Outcomes(log)) && s.metrics.consecutiveFailures == Streak(log)
  }

  // ----- one outcome more -----

  lemma WindowSlides(v: seq<real>, x: real)
    ensures PushLatency(LastOf(v, LATENCY_WINDOW), x) == LastOf(v + [x], LATENCY_WINDOW)
  {
    if |v| >= LATENCY_WINDOW {
      assert (v[|v| - LATENCY_WINDOW..] + [x])[1..] == (v + [x])[|v| + 1 - LATENCY_WINDOW..];
    }
  }

  lemma RecentAfter(ps: seq<Payload>, p: Payload)
    ensures Recent(ps + [p]) == if LatencyOf(p).Some? then PushLatency(Recent(ps), LatencyOf(p).value) else Recent(ps)
  {
    assert (ps + [p])[..|ps|] == ps;
    hide PushLatency, LatencyOf, LastOf;
    if LatencyOf(p).Some? {
      WindowSlides(Latencies(ps), LatencyOf(p).value);
    }
  }

  lemma CountTallies(m: Metrics, ps: seq<Payload>, p: Payload)
    requires Tallied(m, ps)
    ensures Tallied(Count(m, p), ps + [p])
    ensures Count(m, p).consecutiveFailures == if Failed(p) then m.consecutiveFailures + 1 else 0
  {
    ReadsPayload(p);
    RecentAfter(ps, p);
    assert (ps + [p])[..|ps|] == ps;
    hide Succeeded, Failed, QualityIn, Grade, Recent, PushLatency, LatencyIn, LatencyOf, Clamp01;
  }

  lemma LogSnoc(log: seq<Entry>, e: Entry)
    ensures Outcomes(log + [e]) == if e.Recorded? then Outcomes(log) + [e.payload] else Outcomes(log)
    ensures Streak(log + [e]) ==
      if e.Cleared? then 0
      else if e.Recorded? then if Failed(e.payload) then Streak(log) + 1 else 0
      else Streak(log)
  {
    assert (log + [e])[..|log|] == log;
    hide Failed;
  }

  lemma LogIf(log: seq<Entry>, b: bool, e: Entry)
    requires !e.Recorded?
    ensures Outcomes(log + EntryIf(b, e)) == Outcomes(log)
    ensures Streak(log + EntryIf(b, e)) == if b && e.Cleared? then 0 else Streak(log)
  {
    LogSnoc(log, e);
    assert log + [] == log;
  }

  // ----- what each operation does to the metrics -----

  /** The figures of `Tallied`. */
  ghost predicate SameFigures(m: Metrics, n: Metrics) {
    && m.samples == n.samples && m.success == n.success && m.failed == n.failed && m.latencySamples == n.latencySamples
    && m.avgLatencyMs == n.avgLatencyMs && m.normalizedQuality == n.normalizedQuality
  }

  lemma AskFigures(c: Config, s: State, now: int, clock: int)
    ensures SameFigures(AfterAsk(c, s, now, clock).metrics, s.metrics)
    ensures AfterAsk(c, s, now, clock).metrics.consecutiveFailures ==
      if Configured(c) && Expired(s, now) then 0 else s.metrics.consecutiveFailures
  {
    hide Since, Configured, WindowFull;
  }

  lemma EvaluateFigures(c: Config, s: State, ok: bool, clock: int)
    ensures SameFigures(Evaluate(c, s, ok, clock).metrics, s.metrics)
    ensures Evaluate(c, s, ok, clock).metrics.consecutiveFailures ==
      if Expired(s, clock) then 0 else s.metrics.consecutiveFailures
  {
    hide TooManyFailures, TooSlow, TooPoor, SuccessRatio;
  }

  lemma CountedFigures(c: Config, s: State, p: Payload, clock: int)
    ensures Counted(c, s, p, clock).metrics == Count(s.metrics, p)
    ensures Expired(Counted(c, s, p, clock), clock) == Expired(s, clock)
  {
    hide Since, Succeeded, QualityIn, LatencyIn, Clamp01;
  }

  // ----- one provider's moves -----

  lemma TalliedByFigures(m: Metrics, n: Metrics, ps: seq<Payload>)
    requires SameFigures(m, n) && Tallied(n, ps)
    ensures Tallied(m, ps)
  {
    hide Recent, Successes, Grade;
  }

  lemma SkipFigures(s: State)
    ensures SameFigures(Skip(s).metrics, s.metrics)
      && Skip(s).metrics.consecutiveFailures == s.metrics.consecutiveFailures
  {
  }

  lemma {:induction false} AskIsTruthful(c: Config, g: Gate, now: int, clock: int)
    requires Truthful(g.state, g.log)
    ensures var g' := AskAt(c, g, now, clock); Truthful(g'.state, g'.log)
  {
    hide AfterAsk, Admits, Configured, Expired, Outcomes, Streak, EntryIf, Skip, SameFigures, Tallied;
    var cleared := Configured(c) && Expired(g.state, now);
    var log, s := g.log + EntryIf(cleared, Cleared(clock)), AfterAsk(c, g.state, now, clock);
    AskFigures(c, g.state, now, clock);
    LogIf(g.log, cleared, Cleared(clock));
    LogSnoc(log, Granted(clock));
    TalliedByFigures(s.metrics, g.state.metrics, Outcomes(g.log));
    SkipFigures(s);
    TalliedByFigures(Skip(s).metrics, s.metrics, Outcomes(g.log));
  }

  lemma {:induction false} RecordIsTruthful(c: Config, g: Gate, p: Payload, clock: int)
    requires Truthful(g.state, g.log)
    ensures var g' := RecordAt(c, g, p, clock); Truthful(g'.state, g'.log)
  {
    hide Evaluate, Counted, Count, RecordTrips, Succeeded, Expired, Outcomes, Streak, EntryIf, SameFigures, Tallied;
    var log := g.log + [Recorded(clock, p)];
    var log' := log + EntryIf(Expired(g.state, clock), Cleared(clock));
    CountTallies(g.state.metrics, Outcomes(g.log), p);
    CountedFigures(c, g.state, p, clock);
    EvaluateFigures(c, Counted(c, g.state, p, clock), Succeeded(p), clock);
    LogSnoc(g.log, Recorded(clock, p));
    LogIf(log, Expired(g.state, clock), Cleared(clock));
    LogIf(log', RecordTrips(c, g.state, p, clock), Tripped(clock));
    TalliedByFigures(Record(c, g.state, p, clock).metrics, Count(g.state.metrics, p), Outcomes(g.log) + [p]);
  }

  lemma HitIsTruthful(c: Config, g: Gate, retry: Option<int>, clock: int)
    requires Truthful(g.state, g.log)
    ensures var g' := HitAt(c, g, retry, clock); Truthful(g'.state, g'.log)
  {
    LogSnoc(g.log, HitLimit(clock));
    TalliedByFigures(HitAt(c, g, retry, clock).state.metrics, g.state.metrics, Outcomes(g.log));
    hide Outcomes, Streak, Tallied;
  }

  lemma TrimIsTruthful(c: Config, g: Gate, now: int)
    requires Truthful(g.state, g.log)
    ensures Truthful(Trim(c, g.state, now), g.log)
  {
    hide Since, Outcomes, Streak, Tallied;
  }

  lemma MoveIsTruthful(c: Config, g: Gate, clock: int, m: Move)
    requires Truthful(g.state, g.log)
    ensures var g' := MoveGate(c, g, clock, m); Truthful(g'.state, g'.log)
  {
    hide Truthful, AskAt, RecordAt, HitAt, Trim;
    match m
    case Rest =>
    case Ask(now) => AskIsTruthful(c, g, now, clock);
    case Recording(payload) => RecordIsTruthful(c, g, payload, clock);
    case Hitting(retry) => HitIsTruthful(c, g, retry, clock);
    case Trimming(now) => TrimIsTruthful(c, g, now);
  }

  // ----- every run -----

  ghost predicate WorldTruthful(w: World, p: Provider) {
    AllProviders(w) && ReadingsPast(w) && Truthful(w.gates[p].state, w.gates[p].log)
  }

  lemma StepIsTruthful(cfg: Configs, w: World, e: Event, p: Provider)
    requires WorldTruthful(w, p)
    ensures WorldTruthful(Apply(cfg, w, e), p)
  {
    hide Truthful, MoveGate, Flight, InFlight, MoveOf, Apply;
    StepsAreMoves(cfg, w, e, p);
    MoveIsTruthful(cfg(p), w.gates[p], w.clock, MoveOf(cfg, w, e, p));
  }

  /**
   * In every run, breakers tripping and lapsing: every recorded outcome is counted exactly once, as a success or a
   * failure; the streak that trips the breaker is the failures since the last success or clearing; the average is that
   * of the last 20 latencies; the quality is that of the last outcome.
   */
  lemma {:induction false} CountersMeanHistory(cfg: Configs, clock: int, es: seq<Event>, p: Provider)
    ensures WorldTruthful(After(cfg, Begin(cfg, clock), es), p)
  {
    if es == [] {
    } else {
      var w, e := After(cfg, Begin(cfg, clock), es[..|es| - 1]), es[|es| - 1];
      hide WorldTruthful;
      CountersMeanHistory(cfg, clock, es[..|es| - 1], p);
      StepIsTruthful(cfg, w, e, p);
    }
  }

  // ----- when the breaker trips -----

  /** At least five outcomes, and the mean of the last 20 latencies exceeds the scaled target; zeros do not count. */
  ghost predicate SlowByLog(c: Config, ps: seq<Payload>) {
    && |ps| >= 5 && Recent(ps) != [] && Statistics.Mean(Recent(ps)) != 0.0
    && c.latencyTarget.Some? && c.latencyTarget.value != 0.0
    && Statistics.Mean(Recent(ps)) > c.latencyTarget.value * c.latencyMultiplier
  }

  /** The last outcome is a failure, and so many were recorded since the last success or clearing. */
  ghost predicate FailingByLog(c: Config, log: seq<Entry>, last: Payload) {
    Failed(last) && Streak(log) >= c.failureThreshold
  }

  /** The breaker was set and its time is up. */
  ghost predicate Lapsed(g: Gate, clock: int) {
    g.state.metrics.breaker.Some? && g.state.metrics.breaker.value.expiresAt <= clock
  }

  /** What is written for an outcome, apart from a trip. */
  ghost function LogOf(g: Gate, p: Payload, clock: int): seq<Entry> {
    g.log + [Recorded(clock, p)] + if Lapsed(g, clock) then [Cleared(clock)] else []
  }

  /** The breaker that the last applicable cause leaves: low quality, else latency, else failures. */
  ghost function BreakerLeft(c: Config, poor: bool, slow: bool, failing: bool, before: Option<Breaker>, clock: int)
    : Option<Breaker>
  {
    if poor then Some(Breaker(Quality, clock, clock + Max(c.qualityCooldownMs, 30_000)))
    else if slow then Some(Breaker(Latency, clock, clock + Max(c.latencyCooldownMs, 30_000)))
    else if failing then Some(Breaker(Failures, clock, clock + Max(c.failureCooldownMs, 30_000)))
    else before
  }

  ghost function BreakerByLog(c: Config, g: Gate, p: Payload, clock: int): Option<Breaker> {
    var log := LogOf(g, p, clock);
    BreakerLeft(c, Grade(p) < c.qualityThreshold, SlowByLog(c, Outcomes(log)), FailingByLog(c, log, p),
      if Lapsed(g, clock) then None else g.state.metrics.breaker, clock)
  }

  /** Six successes in ten outcomes and a last quality of 0.6 keep a provider from being degraded. */
  ghost function StatusByLog(breaker: Option<Breaker>, ps: seq<Payload>, p: Payload): Status {
    if breaker.Some? then Blocked
    else if Successes(ps) as real < 0.6 * |ps| as real || Grade(p) < 0.6 then Degraded
    else Healthy
  }

  /** The metrics on which the breaker conditions of a record are tested mean what the log says. */
  lemma TestedFigures(c: Config, g: Gate, p: Payload, clock: int)
    requires Truthful(g.state, g.log)
    ensures var m, log := ClearIfExpired(Counted(c, g.state, p, clock), clock, clock).metrics, LogOf(g, p, clock);
      && Tallied(m, Outcomes(log)) && Outcomes(log) == Outcomes(g.log) + [p] && m.consecutiveFailures == Streak(log)
      && m.breaker == if Lapsed(g, clock) then None else g.state.metrics.breaker
  {
    hide Count, Since, Outcomes, Streak, Tallied, SameFigures;
    CountTallies(g.state.metrics, Outcomes(g.log), p);
    CountedFigures(c, g.state, p, clock);
    LogSnoc(g.log, Recorded(clock, p));
    LogSnoc(g.log + [Recorded(clock, p)], Cleared(clock));
    assert g.log + [Recorded(clock, p)] + [] == g.log + [Recorded(clock, p)];
    var m := ClearIfExpired(Counted(c, g.state, p, clock), clock, clock).metrics;
    assert SameFigures(m, Count(g.state.metrics, p)) by { ClearFigures(Counted(c, g.state, p, clock), clock); }
    TalliedByFigures(m, Count(g.state.metrics, p), Outcomes(g.log) + [p]);
    CountKeepsBreaker(g.state.metrics, p);
  }

  lemma ClearFigures(s: State, clock: int)
    ensures SameFigures(ClearIfExpired(s, clock, clock).metrics, s.metrics)
  {
  }

  lemma CountKeepsBreaker(m: Metrics, p: Payload)
    ensures Count(m, p).breaker == m.breaker
  {
    hide Succeeded, QualityIn, LatencyIn, Clamp01, PushLatency;
  }

  lemma TestsByLog(c: Config, m: Metrics, log: seq<Entry>, ps: seq<Payload>, p: Payload)
    requires Tallied(m, ps + [p]) && m.consecutiveFailures == Streak(log)
    ensures TooSlow(c, m) <==> SlowByLog(c, ps + [p])
    ensures TooPoor(c, m) <==> Grade(p) < c.qualityThreshold
    ensures TooManyFailures(c, m, Succeeded(p)) <==> FailingByLog(c, log, p)
  {
    ReadsPayload(p);
    hide Recent, Streak, Grade, Failed, Succeeded, Successes;
  }

  lemma StatusOf(m: Metrics, ps: seq<Payload>, p: Payload)
    requires Tallied(m, ps + [p])
    ensures SuccessRatio(m) < 0.6 <==> Successes(ps + [p]) as real < 0.6 * |ps + [p]| as real
    ensures m.normalizedQuality == Grade(p)
  {
    hide Recent, Successes, Grade;
    RatioBelow(m.success, m.failed);
  }

  lemma RatioBelow(a: nat, b: nat)
    requires a + b > 0
    ensures a as real / (a + b) as real < 0.6 <==> a as real < 0.6 * (a + b) as real
  {
    QuotientBelow(a as real, (a + b) as real, 0.6);
  }

  lemma QuotientBelow(x: real, n: real, bound: real)
    requires n > 0.0
    ensures x / n < bound <==> x < bound * n
  {
    var q := x / n;
    assert q * n == x;
    if q < bound {
      assert q * n < bound * n;
    } else {
      assert q * n >= bound * n;
    }
  }

  /**
   * In every run, what recording an outcome does to the breaker can be read off the log: it trips exactly when the
   * outcome is a failure and the failures since the last success or clearing reach the threshold, or five outcomes are
   * recorded and the mean of the last 20 latencies exceeds target times multiplier, or the outcome's quality is below
   * the threshold. The last of the causes that apply is left, for at least 30 seconds.
   */
  lemma TripsExactlyByLog(cfg: Configs, clock: int, es: seq<Event>, i: nat, payload: Payload)
    requires Enabled(After(cfg, Begin(cfg, clock), es), Finish(i, payload))
    ensures var w := After(cfg, Begin(cfg, clock), es);
      var p := w.fetches[i].order[w.fetches[i].pos];
      var g, g', c := w.gates[p], Apply(cfg, w, Finish(i, payload)).gates[p], cfg(p);
      var log := LogOf(g, payload, w.clock);
      && g'.log == log + (if FailingByLog(c, log, payload) || SlowByLog(c, Outcomes(log))
                            || Grade(payload) < c.qualityThreshold then [Tripped(w.clock)] else [])
      && g'.state.metrics.breaker == BreakerByLog(c, g, payload, w.clock)
      && g'.state.metrics.status == StatusByLog(g'.state.metrics.breaker, Outcomes(log), payload)
  {
    var w := After(cfg, Begin(cfg, clock), es);
    var p := w.fetches[i].order[w.fetches[i].pos];
    CountersMeanHistory(cfg, clock, es, p);
    RecordByLog(cfg(p), w.gates[p], payload, w.clock);
    hide After, RecordAt, LogOf, BreakerByLog, StatusByLog, Truthful, FailingByLog, SlowByLog;
  }

  /** The causes are tried one after the other, and each that applies replaces the breaker. */
  lemma LastCauseStays(c: Config, s: State, ok: bool, clock: int)
    ensures TripAll(c, s, ok, clock).metrics == s.metrics.(breaker := BreakerLeft(c, TooPoor(c, s.metrics),
      TooSlow(c, s.metrics), TooManyFailures(c, s.metrics, ok), s.metrics.breaker, clock))
  {
  }

  /** What is published after the causes were tried. */
  lemma PublishedMetrics(c: Config, s: State, ok: bool, clock: int)
    ensures var b := TripAll(c, s, ok, clock).metrics.breaker;
      Publish(TripAll(c, s, ok, clock), clock).metrics == s.metrics.(breaker := b, status :=
        if b.Some? then Blocked
        else if SuccessRatio(s.metrics) < 0.6 || s.metrics.normalizedQuality < 0.6 then Degraded else Healthy)
  {
    LastCauseStays(c, s, ok, clock);
    hide TripAll, TooPoor, TooSlow, TooManyFailures;
  }

  /** What a record leaves, in terms of the metrics on which the causes are tested. */
  lemma RecordedMetrics(c: Config, s0: State, p: Payload, clock: int)
    ensures var s, m := ClearIfExpired(Counted(c, s0, p, clock), clock, clock), Record(c, s0, p, clock).metrics;
      && m.breaker == BreakerLeft(c, TooPoor(c, s.metrics), TooSlow(c, s.metrics),
        TooManyFailures(c, s.metrics, Succeeded(p)), s.metrics.breaker, clock)
      && m.status == (
        if m.breaker.Some? then Blocked
        else if SuccessRatio(s.metrics) < 0.6 || s.metrics.normalizedQuality < 0.6 then Degraded else Healthy)
  {
    var s := ClearIfExpired(Counted(c, s0, p, clock), clock, clock);
    LastCauseStays(c, s, Succeeded(p), clock);
    PublishedMetrics(c, s, Succeeded(p), clock);
    hide Counted, ClearIfExpired, TripAll, Publish, SuccessRatio, TooSlow, TooPoor, TooManyFailures, Succeeded,
      BreakerLeft;
  }

  lemma TripByLog(c: Config, g: Gate, p: Payload, clock: int)
    requires Truthful(g.state, g.log)
    ensures var log := LogOf(g, p, clock);
      RecordTrips(c, g.state, p, clock) <==>
        FailingByLog(c, log, p) || SlowByLog(c, Outcomes(log)) || Grade(p) < c.qualityThreshold
  {
    var log, s := LogOf(g, p, clock), ClearIfExpired(Counted(c, g.state, p, clock), clock, clock);
    TestedFigures(c, g, p, clock);
    TestsByLog(c, s.metrics, log, Outcomes(g.log), p);
    hide LogOf, Truthful, Counted, ClearIfExpired, Tallied, Outcomes, Streak, Grade, SlowByLog, FailingByLog, TooSlow,
      TooPoor, TooManyFailures, Succeeded;
  }

  lemma BreakerFollowsLog(c: Config, g: Gate, p: Payload, clock: int)
    requires Truthful(g.state, g.log)
    ensures Record(c, g.state, p, clock).metrics.breaker == BreakerByLog(c, g, p, clock)
  {
    var log, s := LogOf(g, p, clock), ClearIfExpired(Counted(c, g.state, p, clock), clock, clock);
    TestedFigures(c, g, p, clock);
    TestsByLog(c, s.metrics, log, Outcomes(g.log), p);
    RecordedMetrics(c, g.state, p, clock);
    hide LogOf, Truthful, Record, Counted, ClearIfExpired, Tallied, Outcomes, Streak, Grade, SlowByLog, FailingByLog,
      TooSlow, TooPoor, TooManyFailures, Succeeded, SuccessRatio, BreakerLeft, Lapsed;
  }

  lemma StatusFollowsLog(c: Config, g: Gate, p: Payload, clock: int)
    requires Truthful(g.state, g.log)
    ensures var m := Record(c, g.state, p, clock).metrics;
      m.status == StatusByLog(m.breaker, Outcomes(LogOf(g, p, clock)), p)
  {
    var s := ClearIfExpired(Counted(c, g.state, p, clock), clock, clock);
    TestedFigures(c, g, p, clock);
    StatusOf(s.metrics, Outcomes(g.log), p);
    RecordedMetrics(c, g.state, p, clock);
    hide LogOf, Truthful, Record, Counted, ClearIfExpired, Tallied, Outcomes, Successes, Grade, SuccessRatio, TooSlow,
      TooPoor, TooManyFailures, Succeeded;
  }

  lemma RecordByLog(c: Config, g: Gate, p: Payload, clock: int)
    requires Truthful(g.state, g.log)
    ensures var g', log := RecordAt(c, g, p, clock), LogOf(g, p, clock);
      && g'.log == log + (if FailingByLog(c, log, p) || SlowByLog(c, Outcomes(log)) || Grade(p) < c.qualityThreshold
                          then [Tripped(clock)] else [])
      && g'.state.metrics.breaker == BreakerByLog(c, g, p, clock)
      && g'.state.metrics.status == StatusByLog(g'.state.metrics.breaker, Outcomes(log), p)
  {
    TripByLog(c, g, p, clock);
    BreakerFollowsLog(c, g, p, clock);
    StatusFollowsLog(c, g, p, clock);
    hide Truthful, Record, RecordTrips, BreakerByLog, StatusByLog, Outcomes, Grade, SlowByLog, FailingByLog;
  }
}
