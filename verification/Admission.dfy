/**
 * Admission control for one data provider (price-data-fetcher.js): sliding-window rate limiter, backoff clock,
 * latency window and a circuit breaker that is stored twice, once with the metrics and once with the health entry.
 * The functions say what each operation makes of the state; class `ProviderGate` performs them in place.
 */
module Admission {
  import opened Prelude
  import opened Statistics

  // ----- configuration -----

  /** The API key of a provider, or the answer of its adapter where it has one. */
  datatype Credential = Adapter(configured: bool) | NoKey | BlankKey | PlaceholderKey | RealKey

  datatype Config = Config(
    windowMs: nat, maxRequests: Option<int>, cooldownMs: nat, disabled: bool, credential: Credential,
    allowUnconfigured: bool, latencyTarget: Option<real>, latencyMultiplier: real, failureThreshold: int,
    qualityThreshold: real, failureCooldownMs: int, latencyCooldownMs: int, qualityCooldownMs: int)

  const MIN_BREAKER_MS := 30_000
  const MIN_BACKOFF_MS := 2000
  const DEFAULT_BACKOFF_MS := 10_000
  const LATENCY_WINDOW := 20

  /** `providerConfigured`: any key that is not blank will do. */
  predicate Configured(c: Config) {
    !c.disabled &&
    (c.allowUnconfigured
     || match c.credential
        case Adapter(b) => b
        case NoKey | BlankKey => false
        case PlaceholderKey | RealKey => true)
  }

  /** `providerHasCredentials`: placeholder keys do not count. */
  predicate HasCredentials(c: Config) {
    match c.credential
    case Adapter(b) => b
    case RealKey => true
    case _ => false
  }

  // ----- state -----

  datatype Cause = Failures | Latency | Quality
  datatype Breaker = Breaker(cause: Cause, activatedAt: int, expiresAt: int)
  datatype Status = Unknown | Healthy | Degraded | Blocked

  datatype Limit = Limit(
    usage: seq<int>, count: nat, remaining: Option<int>, resetTime: int, backoffUntil: int, lastRateLimit: int)

  datatype Metrics = Metrics(
    success: nat, failed: nat, samples: nat, rateLimited: nat, consecutiveFailures: nat,
    latencySamples: seq<real>, avgLatencyMs: Option<real>, normalizedQuality: real,
    breaker: Option<Breaker>, backoffUntil: Option<int>, status: Status)

  datatype Health = Health(
    status: Status, breaker: Option<Breaker>, consecutiveFailures: nat,
    backoffUntil: int, rateLimited: nat, lastUpdated: int)

  datatype State = State(limit: Limit, metrics: Metrics, health: Health)

  const UNUSED := Metrics(0, 0, 0, 0, 0, [], None, 1.0, None, None, Unknown)

  function Initial(c: Config, clock: int): State {
    State(Limit([], 0, RemainingOf(c, 0), clock + c.windowMs, 0, 0),
          UNUSED,
          Health(Unknown, None, 0, 0, 0, 0))
  }

  function RemainingOf(c: Config, count: nat): Option<int> {
    if c.maxRequests.Some? then Some(Max(0, c.maxRequests.value - count)) else None
  }

  // ----- usage window -----

  /** The entries not older than `cutoff`, in order. */
  function Since(usage: seq<int>, cutoff: int): seq<int> {
    if usage == [] then []
    else if usage[|usage| - 1] >= cutoff then Since(usage[..|usage| - 1], cutoff) + [usage[|usage| - 1]]
    else Since(usage[..|usage| - 1], cutoff)
  }

  function Trim(c: Config, s: State, now: int): State {
    var usage := Since(s.limit.usage, now - c.windowMs);
    s.(limit := s.limit.(usage := usage, count := |usage|, remaining := RemainingOf(c, |usage|),
                         resetTime := (if usage != [] then usage[0] else now) + c.windowMs))
  }

  function AddSample(c: Config, s: State, at: int): State {
    Trim(c, s.(limit := s.limit.(usage := s.limit.usage + [at])), at)
  }

  // ----- breaker -----

  function Activate(s: State, cause: Cause, duration: int, clock: int): State {
    var b := Some(Breaker(cause, clock, clock + Max(duration, MIN_BREAKER_MS)));
    s.(metrics := s.metrics.(breaker := b), health := s.health.(breaker := b, status := Blocked, lastUpdated := clock))
  }

  function Clear(s: State, clock: int): State {
    s.(metrics := s.metrics.(breaker := None, consecutiveFailures := 0),
       health := s.health.(breaker := None, status := Healthy, lastUpdated := clock))
  }

  predicate Expired(s: State, now: int) { s.metrics.breaker.Some? && s.metrics.breaker.value.expiresAt <= now }

  function ClearIfExpired(s: State, now: int, clock: int): State {
    if Expired(s, now) then Clear(s, clock) else s
  }

  // ----- admission -----

  predicate Limited(c: Config) { c.maxRequests.Some? && c.maxRequests.value != 0 }

  predicate WindowFull(c: Config, s: State, now: int) {
    Limited(c) && |Since(s.limit.usage, now - c.windowMs)| >= c.maxRequests.value
  }

  predicate InBackoff(s: State, now: int) { s.limit.backoffUntil != 0 && s.limit.backoffUntil > now }

  /** The answer of `canMakeRequest` for the moment `now`, which may lie before the clock. */
  predicate Admits(c: Config, s: State, now: int) {
    && Configured(c)
    && (s.metrics.breaker == None || Expired(s, now))
    && !InBackoff(s, now)
    && !WindowFull(c, s, now)
  }

  /** The state `canMakeRequest` leaves behind. */
  function AfterAsk(c: Config, s: State, now: int, clock: int): State {
    if !Configured(c) then s
    else
      var s1 := ClearIfExpired(s, now, clock);
      if s1.metrics.breaker.Some? then s1
      else
        var s2 := Trim(c, s1, now);
        if !InBackoff(s2, now) && WindowFull(c, s2, now)
          then s2.(health := s2.health.(rateLimited := s2.health.rateLimited + 1))
        else s2
  }

  datatype Refusal = Disabled | Unconfigured | BreakerOpen(cause: Cause) | Backoff | RateLimit

  datatype Allowance = Allowance(allowed: bool, reason: Option<Refusal>, waitMs: int)

  /** `getRequestAllowance`, read off the state that `canMakeRequest` left. */
  function AllowanceFor(c: Config, s: State, now: int, clock: int): Allowance {
    var t := AfterAsk(c, s, now, clock);
    if Admits(c, s, now) then Allowance(true, None, 0)
    else if c.disabled then Allowance(false, Some(Disabled), 0)
    else if !Configured(c) then Allowance(false, Some(Unconfigured), 0)
    else if t.metrics.breaker.Some? then
      Allowance(false, Some(BreakerOpen(t.metrics.breaker.value.cause)),
        Max(0, t.metrics.breaker.value.expiresAt - now))
    else if InBackoff(t, now) then Allowance(false, Some(Backoff), Max(0, t.limit.backoffUntil - now))
    else Allowance(false, Some(RateLimit),
      if Limited(c) && t.limit.usage != [] then Max(0, t.limit.usage[0] + c.windowMs - now) else 0)
  }

  function Skip(s: State): State {
    s.(metrics := s.metrics.(rateLimited := s.metrics.rateLimited + 1),
      health := s.health.(rateLimited := s.health.rateLimited + 1))
  }

  /** First of the values that is present and not zero, as `a || b || c`. */
  function BackoffFor(c: Config, retryAfterMs: Option<int>): int {
    var wanted := if retryAfterMs.Some? then retryAfterMs.value else c.cooldownMs;
    var chosen := if wanted != 0 then wanted else if c.cooldownMs != 0 then c.cooldownMs else DEFAULT_BACKOFF_MS;
    Max(chosen, MIN_BACKOFF_MS)
  }

  function LimitHit(c: Config, s: State, retryAfterMs: Option<int>, clock: int): State {
    var until := clock + BackoffFor(c, retryAfterMs);
    State(s.limit.(backoffUntil := until, lastRateLimit := clock,
      remaining := if c.maxRequests.Some? then Some(0) else None),
          s.metrics.(rateLimited := s.metrics.rateLimited + 1, backoffUntil := Some(until)),
          s.health.(backoffUntil := until, rateLimited := s.health.rateLimited + 1, lastUpdated := clock))
  }

  // ----- recording a finished request -----

  /** The payload of `recordRequest`: a bare flag, or an object whose fields may be missing. */
  datatype Payload =
    | Flag(ok: bool)
    | Details(success: Option<bool>, latencyMs: Option<real>, qualityScore: Option<real>)

  function Succeeded(p: Payload): bool {
    match p
    case Flag(ok) => ok
    case Details(success, _, _) => success == None || success.value
  }

  function LatencyIn(p: Payload): Option<real> {
    if p.Details? && p.latencyMs.Some? && p.latencyMs.value >= 0.0 then p.latencyMs else None
  }

  function QualityIn(p: Payload): real {
    if p.Details? && p.qualityScore.Some? then p.qualityScore.value else if Succeeded(p) then 1.0 else 0.0
  }

  function Clamp01(q: real): real { MaxReal(0.0, MinReal(1.0, q)) }

  /** The last LATENCY_WINDOW samples. */
  function PushLatency(samples: seq<real>, x: real): (r: seq<real>)
    ensures r != []
  {
    var longer := samples + [x];
    if |longer| > LATENCY_WINDOW then longer[1..] else longer
  }

  /** Counters, latency window and quality after one outcome. */
  function Count(m: Metrics, p: Payload): Metrics {
    var ok := Succeeded(p);
    var m1 := m.(samples := m.samples + 1, success := if ok then m.success + 1 else m.success,
                 failed := if ok then m.failed else m.failed + 1,
                 consecutiveFailures := if ok then 0 else m.consecutiveFailures + 1,
                 normalizedQuality := Clamp01(QualityIn(p)));
    match LatencyIn(p)
    case None => m1
    case Some(x) =>
      var samples := PushLatency(m.latencySamples, x);
      m1.(latencySamples := samples, avgLatencyMs := Some(Total(samples) / |samples| as real))
  }

  predicate TooManyFailures(c: Config, m: Metrics, ok: bool) { !ok && m.consecutiveFailures >= c.failureThreshold }

  predicate TooSlow(c: Config, m: Metrics) {
    m.avgLatencyMs.Some? && m.avgLatencyMs.value != 0.0 && c.latencyTarget.Some? && c.latencyTarget.value != 0.0
    && m.avgLatencyMs.value > c.latencyTarget.value * c.latencyMultiplier && m.samples >= 5
  }

  predicate TooPoor(c: Config, m: Metrics) { m.normalizedQuality < c.qualityThreshold }

  /** The breaker trips for every cause that applies, one after the other; the last one stays. */
  function TripAll(c: Config, s: State, ok: bool, clock: int): State {
    var s1 := if TooManyFailures(c, s.metrics, ok) then Activate(s, Failures, c.failureCooldownMs, clock) else s;
    var s2 := if TooSlow(c, s1.metrics) then Activate(s1, Latency, c.latencyCooldownMs, clock) else s1;
    if TooPoor(c, s2.metrics) then Activate(s2, Quality, c.qualityCooldownMs, clock) else s2
  }

  predicate Trips(c: Config, s: State, ok: bool) {
    TooManyFailures(c, s.metrics, ok) || TooSlow(c, s.metrics) || TooPoor(c, s.metrics)
  }

  function SuccessRatio(m: Metrics): real {
    if m.success + m.failed > 0 then m.success as real / (m.success + m.failed) as real else 1.0
  }

  function Publish(s: State, clock: int): State {
    var status := if s.metrics.breaker.Some? then Blocked
                  else if SuccessRatio(s.metrics) < 0.6 || s.metrics.normalizedQuality < 0.6 then Degraded else Healthy;
    s.(metrics := s.metrics.(status := status),
       health := Health(status, s.metrics.breaker, s.metrics.consecutiveFailures,
         s.limit.backoffUntil, s.health.rateLimited, clock))
  }

  /** `evaluateProviderHealth`. */
  function Evaluate(c: Config, s: State, ok: bool, clock: int): State {
    Publish(TripAll(c, ClearIfExpired(s, clock, clock), ok, clock), clock)
  }

  /** The state on which the breaker conditions of `recordRequest` are evaluated. */
  function Counted(c: Config, s: State, p: Payload, clock: int): State {
    var s1 := AddSample(c, s, clock);
    s1.(metrics := Count(s1.metrics, p))
  }

  function Record(c: Config, s: State, p: Payload, clock: int): State {
    Evaluate(c, Counted(c, s, p, clock), Succeeded(p), clock)
  }

  predicate RecordTrips(c: Config, s: State, p: Payload, clock: int) {
    Trips(c, ClearIfExpired(Counted(c, s, p, clock), clock, clock), Succeeded(p))
  }

  // ----- what every operation keeps -----

  /** Both copies of the breaker agree, and `blocked` is shown exactly while one is set. */
  ghost predicate Consistent(s: State) {
    s.health.breaker == s.metrics.breaker && (s.health.status == Blocked <==> s.metrics.breaker.Some?)
  }

  ghost predicate NonDecreasing(u: seq<int>) { forall i, j :: 0 <= i < j < |u| ==> u[i] <= u[j] }
  ghost predicate AllAtMost(u: seq<int>, t: int) { forall i :: 0 <= i < |u| ==> u[i] <= t }
  ghost predicate AllAtLeast(u: seq<int>, t: int) { forall i :: 0 <= i < |u| ==> u[i] >= t }

  lemma {:induction false} SinceProperties(u: seq<int>, cutoff: int)
    ensures AllAtLeast(Since(u, cutoff), cutoff) && |Since(u, cutoff)| <= |u|
    ensures NonDecreasing(u) ==> NonDecreasing(Since(u, cutoff))
    ensures forall t :: AllAtMost(u, t) ==> AllAtMost(Since(u, cutoff), t)
  {
    if u == [] {
    } else {
      SinceProperties(u[..|u| - 1], cutoff);
      forall t | AllAtMost(u, t) ensures AllAtMost(Since(u, cutoff), t) {
        assert AllAtMost(u[..|u| - 1], t);
      }
      if NonDecreasing(u) {
        assert AllAtMost(u[..|u| - 1], u[|u| - 1]);
      }
    }
  }

  lemma SinceSnoc(h: seq<int>, x: int, cut: int)
    ensures Since(h + [x], cut) == if x >= cut then Since(h, cut) + [x] else Since(h, cut)
  {
    assert (h + [x])[..|h|] == h;
  }

  /** Two trims make one trim at the later cutoff. */
  lemma {:induction false} SinceTwice(u: seq<int>, a: int, b: int)
    ensures Since(Since(u, a), b) == Since(u, Max(a, b))
  {
    if u == [] {
    } else {
      var x, v := u[|u| - 1], u[..|u| - 1];
      SinceTwice(v, a, b);
      SinceSnoc(Since(v, a), x, b);
    }
  }

  lemma {:induction false} SinceIsMonotone(u: seq<int>, a: int, b: int)
    requires a <= b
    ensures |Since(u, b)| <= |Since(u, a)|
  {
    if u == [] {
    } else {
      SinceIsMonotone(u[..|u| - 1], a, b);
    }
  }

  /** Every operation, in any order, keeps the two copies of the breaker and the published status in step. */
  lemma OperationsKeepConsistent(c: Config, s: State, now: int, clock: int, p: Payload, retry: Option<int>)
    requires Consistent(s)
    ensures Consistent(Trim(c, s, now)) && Consistent(AfterAsk(c, s, now, clock)) && Consistent(Skip(s))
    ensures Consistent(LimitHit(c, s, retry, clock)) && Consistent(Record(c, s, p, clock))
  {
    hide Since, Count, TooManyFailures, TooSlow, TooPoor, SuccessRatio;
  }

  lemma InitialIsConsistent(c: Config, clock: int)
    ensures Consistent(Initial(c, clock))
  {
  }

  // ----- the object -----

  class ProviderGate {
    const c: Config
    var usage: seq<int>
    var count: nat
    var remaining: Option<int>
    var resetTime: int
    var backoffUntil: int
    var lastRateLimit: int
    var metrics: Metrics
    var health: Health

    function Now(): State
      reads this
    {
      State(Limit(usage, count, remaining, resetTime, backoffUntil, lastRateLimit), metrics, health)
    }

    constructor (config: Config, clock: int)
      ensures c == config && Now() == Initial(config, clock) && Consistent(Now())
    {
      c := config;
      usage, count, remaining := [], 0, RemainingOf(config, 0);
      resetTime, backoffUntil, lastRateLimit := clock + config.windowMs, 0, 0;
      metrics := Metrics(0, 0, 0, 0, 0, [], None, 1.0, None, None, Unknown);
      health := Health(Unknown, None, 0, 0, 0, 0);
    }

    method TrimUsage(now: int)
      modifies this
      ensures Now() == Trim(c, old(Now()), now)
      ensures old(Consistent(Now())) ==> Consistent(Now())
    {
      var cutoff := now - c.windowMs;
      var kept: seq<int> := [];
      for i := 0 to |usage|
        invariant kept == Since(usage[..i], cutoff)
        invariant Now() == old(Now())
      {
        assert usage[..i + 1][..i] == usage[..i];
        if usage[i] >= cutoff {
          kept := kept + [usage[i]];
        }
      }
      assert usage[..|usage|] == usage;
      usage := kept;
      count := |usage|;
      remaining := if c.maxRequests.Some? then Some(Max(0, c.maxRequests.value - count)) else None;
      resetTime := if |usage| > 0 then usage[0] + c.windowMs else now + c.windowMs;
    }

    method ActivateCircuitBreaker(cause: Cause, duration: int, clock: int)
      modifies this
      ensures Now() == Activate(old(Now()), cause, duration, clock)
    {
      var expiresAt := clock + Max(duration, MIN_BREAKER_MS);
      metrics := metrics.(breaker := Some(Breaker(cause, clock, expiresAt)));
      health := health.(breaker := metrics.breaker, status := Blocked, lastUpdated := clock);
    }

    method ClearCircuitBreaker(clock: int)
      modifies this
      ensures Now() == Clear(old(Now()), clock)
    {
      metrics := metrics.(breaker := None, consecutiveFailures := 0);
      health := health.(breaker := None, status := Healthy, lastUpdated := clock);
    }

    method CanMakeRequest(now: int, clock: int) returns (allowed: bool)
      modifies this
      ensures allowed <==> Admits(c, old(Now()), now)
      ensures Now() == AfterAsk(c, old(Now()), now, clock)
      ensures old(Consistent(Now())) ==> Consistent(Now())
    {
      ghost var before := Now();
      if !Configured(c) {
        return false;
      }
      if metrics.breaker.Some? && metrics.breaker.value.expiresAt <= now {
        ClearCircuitBreaker(clock);
      }
      if metrics.breaker.Some? {
        return false;
      }
      TrimUsage(now);
      SinceTwice(before.limit.usage, now - c.windowMs, now - c.windowMs);
      if backoffUntil != 0 && backoffUntil > now {
        return false;
      }
      if c.maxRequests.Some? && c.maxRequests.value != 0 {
        var usageInWindow := |Since(usage, now - c.windowMs)|;
        if usageInWindow >= c.maxRequests.value {
          health := health.(rateLimited := health.rateLimited + 1);
          return false;
        }
      }
      return true;
    }

    method GetRequestAllowance(now: int, clock: int) returns (a: Allowance)
      modifies this
      ensures a == AllowanceFor(c, old(Now()), now, clock)
      ensures Now() == AfterAsk(c, old(Now()), now, clock)
    {
      hide AfterAsk, Admits, Configured;
      var allowed := CanMakeRequest(now, clock);
      if allowed {
        return Allowance(true, None, 0);
      }
      var waitMs, reason := 0, RateLimit;
      if c.disabled {
        reason := Disabled;
      } else if !Configured(c) {
        reason := Unconfigured;
      } else if metrics.breaker.Some? {
        reason := BreakerOpen(metrics.breaker.value.cause);
        waitMs := Max(0, metrics.breaker.value.expiresAt - now);
      } else if backoffUntil != 0 && backoffUntil > now {
        reason := Backoff;
        waitMs := Max(0, backoffUntil - now);
      } else if c.maxRequests.Some? && c.maxRequests.value != 0 {
        if |usage| > 0 {
          waitMs := Max(0, usage[0] + c.windowMs - now);
        }
      }
      return Allowance(false, Some(reason), waitMs);
    }

    method HandleRateLimitSkip()
      modifies this
      ensures Now() == Skip(old(Now()))
    {
      metrics := metrics.(rateLimited := metrics.rateLimited + 1);
      health := health.(rateLimited := health.rateLimited + 1);
    }

    method RegisterRateLimitHit(retryAfterMs: Option<int>, clock: int)
      modifies this
      ensures Now() == LimitHit(c, old(Now()), retryAfterMs, clock)
    {
      var wanted := if retryAfterMs.Some? then retryAfterMs.value else c.cooldownMs;
      var backoff := if wanted != 0 then wanted else if c.cooldownMs != 0 then c.cooldownMs else DEFAULT_BACKOFF_MS;
      backoff := Max(backoff, MIN_BACKOFF_MS);
      backoffUntil := clock + backoff;
      lastRateLimit := clock;
      remaining := if c.maxRequests.Some? then Some(0) else None;
      metrics := metrics.(rateLimited := metrics.rateLimited + 1, backoffUntil := Some(backoffUntil));
      health := health.(backoffUntil := backoffUntil, rateLimited := health.rateLimited + 1, lastUpdated := clock);
    }

    method RecordRequest(p: Payload, clock: int)
      modifies this
      ensures Now() == Record(c, old(Now()), p, clock)
    {
      hide Since, TripAll, Publish, ClearIfExpired;
      usage := usage + [clock];
      TrimUsage(clock);
      var ok, quality := Succeeded(p), QualityIn(p);
      metrics := metrics.(samples := metrics.samples + 1);
      if ok {
        metrics := metrics.(success := metrics.success + 1, consecutiveFailures := 0);
      } else {
        metrics := metrics.(failed := metrics.failed + 1, consecutiveFailures := metrics.consecutiveFailures + 1);
      }
      var latency := LatencyIn(p);
      if latency.Some? {
        var samples := metrics.latencySamples + [latency.value];
        if |samples| > LATENCY_WINDOW {
          samples := samples[1..];
        }
        metrics := metrics.(latencySamples := samples, avgLatencyMs := Some(Total(samples) / |samples| as real));
      }
      metrics := metrics.(normalizedQuality := Clamp01(quality));
      EvaluateProviderHealth(ok, clock);
    }

    method EvaluateProviderHealth(ok: bool, clock: int)
      modifies this
      ensures Now() == Evaluate(c, old(Now()), ok, clock)
    {
      hide SuccessRatio, TooSlow;
      if metrics.breaker.Some? && metrics.breaker.value.expiresAt <= clock {
        ClearCircuitBreaker(clock);
      }
      if !ok && metrics.consecutiveFailures >= c.failureThreshold {
        ActivateCircuitBreaker(Failures, c.failureCooldownMs, clock);
      }
      if TooSlow(c, metrics) {
        ActivateCircuitBreaker(Latency, c.latencyCooldownMs, clock);
      }
      if metrics.normalizedQuality < c.qualityThreshold {
        ActivateCircuitBreaker(Quality, c.qualityCooldownMs, clock);
      }
      var status := Healthy;
      if metrics.breaker.Some? {
        status := Blocked;
      } else if SuccessRatio(metrics) < 0.6 || metrics.normalizedQuality < 0.6 {
        status := Degraded;
      }
      metrics := metrics.(status := status);
      health := Health(status, metrics.breaker, metrics.consecutiveFailures, backoffUntil, health.rateLimited, clock);
    }
  }
}
