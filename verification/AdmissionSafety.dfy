/** What the breaker and the backoff guarantee over every run, and that the quota bound is the best possible. */
module AdmissionSafety {
  import opened Prelude
  import Statistics
  import opened Admission
  import opened AdmissionRuns

  // ----- quiet periods -----

  /** Entry e forbids grants for a while: 30 s after a trip, 2 s after a rate-limit hit. */
  function QuietMs(e: Entry): int {
    match e
    case Tripped(_) => MIN_BREAKER_MS
    case HitLimit(_) => MIN_BACKOFF_MS
    case _ => 0
  }

  /** No grant follows a trip or a hit before its quiet period is over. */
  ghost predicate QuietLog(log: seq<Entry>) {
    forall i, j :: 0 <= i < j < |log| && log[j].Granted? ==> log[i].at + QuietMs(log[i]) <= log[j].at
  }

  /** The quiet period of e is over, or the state still holds the breaker or backoff that enforces it. */
  ghost predicate Enforced(s: State, e: Entry, clock: int) {
    && 0 <= e.at <= clock
    && (e.at + QuietMs(e) <= clock
        || (e.Tripped? && s.metrics.breaker.Some? && s.metrics.breaker.value.expiresAt >= e.at + MIN_BREAKER_MS)
        || (e.HitLimit? && s.limit.backoffUntil >= e.at + MIN_BACKOFF_MS))
  }

  ghost predicate AllEnforced(g: Gate, clock: int) {
    forall i :: 0 <= i < |g.log| ==> Enforced(g.state, g.log[i], clock)
  }

  ghost predicate Safe(g: Gate, clock: int) { AllEnforced(g, clock) && QuietLog(g.log) && Consistent(g.state) }

  lemma AskEffect(c: Config, s: State, now: int, clock: int)
    ensures var t := AfterAsk(c, s, now, clock);
      t.limit.backoffUntil == s.limit.backoffUntil
      && (t.metrics.breaker == s.metrics.breaker || (t.metrics.breaker == None && Expired(s, now)))
  {
    hide Since;
  }

  lemma TripEffect(c: Config, s: State, ok: bool, clock: int)
    ensures TripAll(c, s, ok, clock).limit == s.limit
    ensures if Trips(c, s, ok) then
        var b := TripAll(c, s, ok, clock).metrics.breaker;
        b.Some? && b.value.activatedAt == clock && b.value.expiresAt >= clock + MIN_BREAKER_MS
      else TripAll(c, s, ok, clock) == s
  {
    hide TooManyFailures, TooSlow;
  }

  lemma RecordEffect(c: Config, s: State, p: Payload, clock: int)
    ensures var t := Record(c, s, p, clock);
      t.limit.backoffUntil == s.limit.backoffUntil
      && if RecordTrips(c, s, p, clock) then
        t.metrics.breaker.Some? && t.metrics.breaker.value.expiresAt >= clock + MIN_BREAKER_MS
      else t.metrics.breaker == (if Expired(s, clock) then None else s.metrics.breaker)
  {
    var s1 := Counted(c, s, p, clock);
    assert s1.metrics.breaker == s.metrics.breaker && s1.limit.backoffUntil == s.limit.backoffUntil by {
      hide Since, LatencyIn, QualityIn, Succeeded;
    }
    hide Trips, TripAll, Counted, SuccessRatio;
    TripEffect(c, ClearIfExpired(s1, clock, clock), Succeeded(p), clock);
  }

  /** A state change that may only let a breaker lapse once it has expired keeps every promise made. */
  lemma StillEnforced(s: State, t: State, e: Entry, clock: int)
    requires Enforced(s, e, clock)
    requires t.metrics.breaker == s.metrics.breaker
      || (t.metrics.breaker.Some? && t.metrics.breaker.value.expiresAt >= clock + MIN_BREAKER_MS)
      || (t.metrics.breaker == None && Expired(s, clock))
    requires t.limit.backoffUntil == s.limit.backoffUntil || t.limit.backoffUntil >= clock + MIN_BACKOFF_MS
    ensures Enforced(t, e, clock)
  {
  }

  lemma Append(g: Gate, s: State, e: Entry, clock: int)
    requires forall i :: 0 <= i < |g.log| ==> Enforced(s, g.log[i], clock)
    requires QuietLog(g.log) && Consistent(s) && Enforced(s, e, clock)
    requires e.Granted? ==> forall i :: 0 <= i < |g.log| ==> g.log[i].at + QuietMs(g.log[i]) <= e.at
    ensures Safe(Gate(s, g.log + [e]), clock)
  {
  }

  lemma Harmless(s: State, e: Entry, clock: int)
    requires e.at == clock && clock >= 0 && (e.Granted? || e.Recorded? || e.Cleared?)
    ensures Enforced(s, e, clock)
  {
  }

  lemma TripEnforced(c: Config, s: State, p: Payload, clock: int)
    requires RecordTrips(c, s, p, clock) && clock >= 0
    ensures Enforced(Record(c, s, p, clock), Tripped(clock), clock)
  {
    RecordEffect(c, s, p, clock);
    hide Record, RecordTrips;
  }

  lemma AppendIf(g: Gate, s: State, b: bool, e: Entry, clock: int)
    requires forall i :: 0 <= i < |g.log| ==> Enforced(s, g.log[i], clock)
    requires QuietLog(g.log) && Consistent(s) && e == Cleared(clock) && clock >= 0
    ensures Safe(Gate(s, g.log + EntryIf(b, e)), clock)
  {
    Harmless(s, e, clock);
    if b {
      Append(g, s, e, clock);
    } else {
      assert g.log + [] == g.log;
    }
  }

  lemma AskIsSafe(c: Config, g: Gate, now: int, clock: int)
    requires Safe(g, clock) && 0 <= clock && now <= clock
    ensures Safe(AskAt(c, g, now, clock), clock)
  {
    AskEffect(c, g.state, now, clock);
    OperationsKeepConsistent(c, g.state, now, clock, Flag(true), None);
    OperationsKeepConsistent(c, AfterAsk(c, g.state, now, clock), now, clock, Flag(true), None);
    var t := AskAt(c, g, now, clock).state;
    hide AfterAsk, WindowFull, Configured, Consistent;
    forall i | 0 <= i < |g.log| ensures Enforced(t, g.log[i], clock) {
      StillEnforced(g.state, t, g.log[i], clock);
    }
    if Admits(c, g.state, now) {
      forall i | 0 <= i < |g.log| ensures g.log[i].at + QuietMs(g.log[i]) <= clock {
        assert Enforced(g.state, g.log[i], clock);
      }
    }
    hide Enforced, QuietLog;
    AppendIf(g, t, Configured(c) && Expired(g.state, now), Cleared(clock), clock);
    var log := g.log + EntryIf(Configured(c) && Expired(g.state, now), Cleared(clock));
    if Admits(c, g.state, now) {
      assert forall i :: |g.log| <= i < |log| ==> log[i] == Cleared(clock);
      assert Enforced(t, Granted(clock), clock) by { Harmless(t, Granted(clock), clock); }
      Append(Gate(t, log), t, Granted(clock), clock);
    }
  }

  lemma RecordIsSafe(c: Config, g: Gate, p: Payload, clock: int)
    requires Safe(g, clock) && 0 <= clock
    ensures Safe(RecordAt(c, g, p, clock), clock)
  {
    RecordEffect(c, g.state, p, clock);
    OperationsKeepConsistent(c, g.state, clock, clock, p, None);
    var t := Record(c, g.state, p, clock);
    hide Record, RecordTrips, Consistent;
    forall i | 0 <= i < |g.log| ensures Enforced(t, g.log[i], clock) {
      StillEnforced(g.state, t, g.log[i], clock);
    }
    Append(g, t, Recorded(clock, p), clock);
    var log := g.log + [Recorded(clock, p)];
    hide Enforced, QuietLog, Expired;
    AppendIf(Gate(t, log), t, Expired(g.state, clock), Cleared(clock), clock);
    var log' := log + EntryIf(Expired(g.state, clock), Cleared(clock));
    if RecordTrips(c, g.state, p, clock) {
      TripEnforced(c, g.state, p, clock);
      Append(Gate(t, log'), t, Tripped(clock), clock);
    } else {
      assert log' + EntryIf(false, Tripped(clock)) == log';
    }
  }

  lemma HitIsSafe(c: Config, g: Gate, retry: Option<int>, clock: int)
    requires Safe(g, clock) && 0 <= clock
    ensures Safe(HitAt(c, g, retry, clock), clock)
  {
    OperationsKeepConsistent(c, g.state, clock, clock, Flag(true), retry);
    var t := LimitHit(c, g.state, retry, clock);
    hide Consistent;
    forall i | 0 <= i < |g.log| ensures Enforced(t, g.log[i], clock) {
      StillEnforced(g.state, t, g.log[i], clock);
    }
    Append(g, t, HitLimit(clock), clock);
  }

  lemma TrimIsSafe(c: Config, g: Gate, now: int, clock: int)
    requires Safe(g, clock)
    ensures Safe(g.(state := Trim(c, g.state, now)), clock)
  {
    hide Since, QuietLog;
    forall i | 0 <= i < |g.log| ensures Enforced(Trim(c, g.state, now), g.log[i], clock) {
      StillEnforced(g.state, Trim(c, g.state, now), g.log[i], clock);
    }
  }

  lemma TickIsSafe(g: Gate, clock: int, later: int)
    requires Safe(g, clock) && clock <= later
    ensures Safe(g, later)
  {
    hide QuietLog, Consistent;
    forall i | 0 <= i < |g.log| ensures Enforced(g.state, g.log[i], later) {
      assert Enforced(g.state, g.log[i], clock);
    }
  }

  ghost predicate WorldSafe(w: World, p: Provider) {
    AllProviders(w) && 0 <= w.clock && ReadingsPast(w) && Safe(w.gates[p], w.clock)
  }

  lemma MoveIsSafe(c: Config, g: Gate, clock: int, m: Move)
    requires Safe(g, clock) && 0 <= clock && Timely(m, clock)
    ensures Safe(MoveGate(c, g, clock, m), clock)
  {
    hide Safe, AskAt, RecordAt, HitAt, Trim;
    match m
    case Rest =>
    case Ask(now) => AskIsSafe(c, g, now, clock);
    case Recording(payload) => RecordIsSafe(c, g, payload, clock);
    case Hitting(retry) => HitIsSafe(c, g, retry, clock);
    case Trimming(now) => TrimIsSafe(c, g, now, clock);
  }

  lemma StepIsSafe(cfg: Configs, w: World, e: Event, p: Provider)
    requires WorldSafe(w, p)
    ensures WorldSafe(Apply(cfg, w, e), p)
  {
    var w', m := Apply(cfg, w, e), MoveOf(cfg, w, e, p);
    hide Safe, MoveGate, Flight, InFlight, MoveOf, Apply;
    StepsAreMoves(cfg, w, e, p);
    MoveIsSafe(cfg(p), w.gates[p], w.clock, m);
    TickIsSafe(w'.gates[p], w.clock, w'.clock);
  }

  lemma {:induction false} SafeThroughout(cfg: Configs, clock: nat, es: seq<Event>, p: Provider)
    ensures WorldSafe(After(cfg, Begin(cfg, clock), es), p)
  {
    if es == [] {
      InitialIsConsistent(cfg(p), clock);
    } else {
      var w, e := After(cfg, Begin(cfg, clock), es[..|es| - 1]), es[|es| - 1];
      hide WorldSafe;
      SafeThroughout(cfg, clock, es[..|es| - 1], p);
      StepIsSafe(cfg, w, e, p);
    }
  }

  /**
   * Over every run, with no bound on concurrency: a grant comes at least 30 s after every earlier breaker
   * activation and at least 2 s after every earlier rate-limit hit of the same provider, although the check is
   * made with an old clock reading and later activations and hits overwrite earlier ones; and health shows
   * `blocked` exactly while both copies of the breaker are set, which are equal throughout.
   */
  lemma QuietPeriodTheorem(cfg: Configs, clock: nat, es: seq<Event>, p: Provider, i: nat, j: nat)
    ensures var w := After(cfg, Begin(cfg, clock), es);
      Consistent(w.gates[p].state)
      && (i < j < |w.gates[p].log| && w.gates[p].log[j].Granted? ==>
        (w.gates[p].log[i].Tripped? ==> w.gates[p].log[j].at >= w.gates[p].log[i].at + 30_000)
        && (w.gates[p].log[i].HitLimit? ==> w.gates[p].log[j].at >= w.gates[p].log[i].at + 2000))
  {
    SafeThroughout(cfg, clock, es, p);
  }

  // ----- the quota bound is attained -----

  function Copies(x: int, n: nat): (r: seq<int>)
    ensures |r| == n
  {
    if n == 0 then [] else Copies(x, n - 1) + [x]
  }

  lemma {:induction false} CopiesCount(x: int, n: nat, a: int, b: int, cut: int)
    requires a <= x <= b && cut <= x
    ensures CountIn(Copies(x, n), a, b) == n && Since(Copies(x, n), cut) == Copies(x, n)
  {
    if n == 0 {
    } else {
      CopiesCount(x, n - 1, a, b, cut);
      assert Copies(x, n)[..n - 1] == Copies(x, n - 1);
    }
  }

  /** A provider that admits requests and whose breaker a perfect outcome never trips. */
  ghost predicate AdmitsPerfect(c: Config) {
    Configured(c) && Limited(c) && c.maxRequests.value >= 1 && c.qualityThreshold <= 1.0
  }

  /** What a fetch records that got every bar at once: a latency of zero, which no target calls slow. */
  const PERFECT := Details(Some(true), Some(0.0), Some(1.0))

  /** All at one instant: `done` fetches have recorded a request to p, `flying` more are waiting for theirs. */
  ghost predicate Stage(w: World, p: Provider, clock: int, done: nat, flying: nat) {
    && AllProviders(w) && w.clock == clock && |w.fetches| == done + flying
    && (forall i :: 0 <= i < done ==> w.fetches[i] == Fetch(clock, [p], 1, false))
    && (forall i :: done <= i < done + flying ==> w.fetches[i] == Fetch(clock, [p], 0, true))
    && StageGate(w.gates[p], clock, done)
  }

  ghost predicate StageGate(g: Gate, clock: int, done: nat) {
    && g.state.limit.usage == Copies(clock, done) && Times(g.log) == Copies(clock, done)
    && g.state.limit.backoffUntil == 0 && g.state.metrics.breaker == None && NeverSlow(g.state.metrics)
  }

  /** Every latency so far was zero, so the average, if any, is zero too. */
  ghost predicate NeverSlow(m: Metrics) {
    AllZero(m.latencySamples) && (m.avgLatencyMs.Some? ==> m.avgLatencyMs.value == 0.0)
  }

  ghost predicate AllZero(v: seq<real>) { forall i :: 0 <= i < |v| ==> v[i] == 0.0 }

  lemma {:induction false} ZeroTotal(v: seq<real>)
    requires AllZero(v)
    ensures Statistics.Total(v) == 0.0
  {
    if v == [] {
    } else {
      ZeroTotal(v[..|v| - 1]);
    }
  }

  lemma {:induction false} StageInFlight(fetches: seq<Fetch>, p: Provider, clock: int, done: nat, flying: nat)
    requires |fetches| == done + flying
    requires forall i :: 0 <= i < done ==> fetches[i] == Fetch(clock, [p], 1, false)
    requires forall i :: done <= i < done + flying ==> fetches[i] == Fetch(clock, [p], 0, true)
    ensures InFlight(fetches, p) == flying
  {
    if flying > 0 {
      StageInFlight(fetches[..|fetches| - 1], p, clock, done, flying - 1);
    } else if done > 0 {
      StageInFlight(fetches[..|fetches| - 1], p, clock, done - 1, 0);
    }
  }

  lemma RoomAtStage(c: Config, s: State, clock: int, done: nat)
    requires Limited(c) && s.limit.usage == Copies(clock, done) && done < c.maxRequests.value
    ensures !WindowFull(c, s, clock) && Since(s.limit.usage, clock - c.windowMs) == Copies(clock, done)
  {
    CopiesCount(clock, done, clock, clock, clock - c.windowMs);
    hide Since, Copies, CountIn;
  }

  lemma AdmitsAtStage(c: Config, g: Gate, clock: int, done: nat)
    requires AdmitsPerfect(c) && StageGate(g, clock, done) && done < c.maxRequests.value
    ensures Admits(c, g.state, clock)
    ensures AfterAsk(c, g.state, clock, clock).limit.usage == Copies(clock, done)
  {
    hide Since, Copies, Times, Configured, AfterAsk, NeverSlow, WindowFull;
    RoomAtStage(c, g.state, clock, done);
    UsageAfterAsk(c, g.state, clock, clock);
  }

  lemma GrantAtStage(c: Config, g: Gate, clock: int, done: nat)
    requires AdmitsPerfect(c) && StageGate(g, clock, done) && done < c.maxRequests.value
    ensures Admits(c, g.state, clock) && StageGate(AskAt(c, g, clock, clock), clock, done)
  {
    AdmitsAtStage(c, g, clock, done);
    TimesSnoc(g.log, Granted(clock));
    AskEffect(c, g.state, clock, clock);
    LatencyAfterAsk(c, g.state, clock, clock);
    hide AfterAsk, Admits, Configured, Copies, Times, AllZero;
    assert g.log + [] == g.log;
  }

  lemma LatencyAfterAsk(c: Config, s: State, now: int, clock: int)
    ensures AfterAsk(c, s, now, clock).metrics.latencySamples == s.metrics.latencySamples
    ensures AfterAsk(c, s, now, clock).metrics.avgLatencyMs == s.metrics.avgLatencyMs
  {
    hide Since;
  }

  lemma RecordAtStage(c: Config, g: Gate, clock: int, done: nat)
    requires AdmitsPerfect(c) && StageGate(g, clock, done)
    ensures StageGate(RecordAt(c, g, PERFECT, clock), clock, done + 1)
  {
    CopiesCount(clock, done + 1, clock, clock, clock - c.windowMs);
    assert Copies(clock, done) + [clock] == Copies(clock, done + 1);
    UsageAfterRecord(c, g.state, PERFECT, clock);
    TimesAfterRecord(c, g, PERFECT, clock);
    PerfectNeverTrips(c, g.state, clock);
    RecordEffect(c, g.state, PERFECT, clock);
    hide Since, Record, RecordTrips, Times, Copies, NeverSlow, Configured;
  }

  lemma PerfectCount(m: Metrics)
    requires NeverSlow(m)
    ensures NeverSlow(Count(m, PERFECT)) && Count(m, PERFECT).normalizedQuality == 1.0
  {
    var samples := PushLatency(m.latencySamples, 0.0);
    assert AllZero(samples);
    ZeroTotal(samples);
    hide PushLatency;
  }

  lemma PerfectNeverTrips(c: Config, s: State, clock: int)
    requires c.qualityThreshold <= 1.0 && NeverSlow(s.metrics) && s.metrics.breaker == None
    ensures !RecordTrips(c, s, PERFECT, clock)
    ensures NeverSlow(Record(c, s, PERFECT, clock).metrics)
  {
    PerfectCount(s.metrics);
    hide Since, Count, NeverSlow, PushLatency;
    var m := Count(s.metrics, PERFECT);
    assert m.avgLatencyMs.Some? ==> m.avgLatencyMs.value == 0.0 by { assert NeverSlow(m); NeverSlowMeans(m); }
    assert Counted(c, s, PERFECT, clock).metrics == m;
    BreakerAfterCount(s.metrics, PERFECT);
    hide Counted, Trim;
    NeverSlowKept(c, s, clock, m);
  }

  lemma NeverSlowMeans(m: Metrics)
    requires NeverSlow(m)
    ensures m.avgLatencyMs.Some? ==> m.avgLatencyMs.value == 0.0
  {
  }

  lemma BreakerAfterCount(m: Metrics, p: Payload)
    ensures Count(m, p).breaker == m.breaker
  {
  }

  /** Evaluating a perfect outcome trips nothing and leaves the latencies alone. */
  lemma NeverSlowKept(c: Config, s: State, clock: int, m: Metrics)
    requires c.qualityThreshold <= 1.0 && Counted(c, s, PERFECT, clock).metrics == m && m.breaker == None
    requires m.normalizedQuality == 1.0 && NeverSlow(m) && (m.avgLatencyMs.Some? ==> m.avgLatencyMs.value == 0.0)
    ensures !RecordTrips(c, s, PERFECT, clock)
    ensures NeverSlow(Record(c, s, PERFECT, clock).metrics)
  {
    hide Counted, SuccessRatio;
  }

  lemma TakeOff(cfg: Configs, w: World, p: Provider, clock: int, done: nat, flying: nat)
    requires AdmitsPerfect(cfg(p)) && Stage(w, p, clock, done, flying) && done < cfg(p).maxRequests.value
    ensures var w1 := Apply(cfg, w, Start([p]));
      InFlight(w1.fetches, p) == flying && Stage(Apply(cfg, w1, Advance(done + flying)), p, clock, done, flying + 1)
  {
    var w1 := Apply(cfg, w, Start([p]));
    StageInFlight(w.fetches, p, clock, done, flying);
    StartEffect(w, [p], p);
    GrantAtStage(cfg(p), w.gates[p], clock, done);
    hide StageGate, AskAt, Admits, InFlight;
    assert w1.fetches[done + flying] == Fetch(clock, [p], 0, false);
    FlyOne(cfg, w1, p, clock, done, flying);
  }

  lemma FlyOne(cfg: Configs, w: World, p: Provider, clock: int, done: nat, flying: nat)
    requires AllProviders(w) && w.clock == clock && |w.fetches| == done + flying + 1 && Configured(cfg(p))
    requires forall i :: 0 <= i < done ==> w.fetches[i] == Fetch(clock, [p], 1, false)
    requires forall i :: done <= i < done + flying ==> w.fetches[i] == Fetch(clock, [p], 0, true)
    requires w.fetches[done + flying] == Fetch(clock, [p], 0, false)
    requires Admits(cfg(p), w.gates[p].state, clock) && StageGate(AskAt(cfg(p), w.gates[p], clock, clock), clock, done)
    ensures Stage(Apply(cfg, w, Advance(done + flying)), p, clock, done, flying + 1)
  {
    hide StageGate, AskAt, Admits, Configured;
  }

  lemma Land(cfg: Configs, w: World, p: Provider, clock: int, done: nat, flying: nat)
    requires AdmitsPerfect(cfg(p)) && Stage(w, p, clock, done, flying) && flying > 0
    ensures Stage(Apply(cfg, w, Finish(done, PERFECT)), p, clock, done + 1, flying - 1)
  {
    hide StageGate, RecordAt, AdmitsPerfect, Configured;
    RecordAtStage(cfg(p), w.gates[p], clock, done);
  }

  lemma Extend(cfg: Configs, w: World, es: seq<Event>, e: Event, p: Provider, k: nat)
    requires AllProviders(w) && AtMostInFlight(cfg, w, es, p, k)
    requires InFlight(Apply(cfg, After(cfg, w, es), e).fetches, p) <= k
    ensures After(cfg, w, es + [e]) == Apply(cfg, After(cfg, w, es), e) && AtMostInFlight(cfg, w, es + [e], p, k)
  {
    assert (es + [e])[..|es|] == es;
    hide Apply, InFlight;
  }

  /** A run to any stage: fill the quota one by one, then let k fetches ask before any of them records. */
  lemma {:induction false} Reach(cfg: Configs, clock: int, p: Provider, k: nat, done: nat, flying: nat)
    returns (es: seq<Event>)
    requires AdmitsPerfect(cfg(p)) && k >= 1 && flying <= k && done + flying <= cfg(p).maxRequests.value - 1 + k
    ensures Stage(After(cfg, Begin(cfg, clock), es), p, clock, done, flying)
    ensures AtMostInFlight(cfg, Begin(cfg, clock), es, p, k)
    decreases 2 * done + flying
  {
    hide Stage, AtMostInFlight, After, Apply, Begin, Configured;
    var w0 := Begin(cfg, clock);
    if done == 0 && flying == 0 {
      es := [];
      EmptyStage(cfg, clock, p, k);
    } else if flying > 0 && done < cfg(p).maxRequests.value {
      var es0 := Reach(cfg, clock, p, k, done, flying - 1);
      TakeOffRun(cfg, w0, es0, p, clock, done, flying - 1, k);
      es := es0 + [Start([p])] + [Advance(done + flying - 1)];
    } else {
      var es0 := Reach(cfg, clock, p, k, done - 1, flying + 1);
      LandRun(cfg, w0, es0, p, clock, done - 1, flying + 1, k);
      es := es0 + [Finish(done - 1, PERFECT)];
    }
  }

  lemma EmptyStage(cfg: Configs, clock: int, p: Provider, k: nat)
    ensures Stage(After(cfg, Begin(cfg, clock), []), p, clock, 0, 0)
    ensures AtMostInFlight(cfg, Begin(cfg, clock), [], p, k)
  {
  }

  lemma TakeOffRun(cfg: Configs, w0: World, es: seq<Event>, p: Provider, clock: int, done: nat, flying: nat, k: nat)
    requires AllProviders(w0) && AtMostInFlight(cfg, w0, es, p, k) && flying < k
    requires AdmitsPerfect(cfg(p)) && Stage(After(cfg, w0, es), p, clock, done, flying)
      && done < cfg(p).maxRequests.value
    ensures var es' := es + [Start([p])] + [Advance(done + flying)];
      Stage(After(cfg, w0, es'), p, clock, done, flying + 1) && AtMostInFlight(cfg, w0, es', p, k)
  {
    hide Stage, AdmitsPerfect, AtMostInFlight, After, Apply;
    TakeOff(cfg, After(cfg, w0, es), p, clock, done, flying);
    Extend(cfg, w0, es, Start([p]), p, k);
    var es1 := es + [Start([p])];
    StageFlying(Apply(cfg, After(cfg, w0, es1), Advance(done + flying)), p, clock, done, flying + 1);
    Extend(cfg, w0, es1, Advance(done + flying), p, k);
  }

  lemma LandRun(cfg: Configs, w0: World, es: seq<Event>, p: Provider, clock: int, done: nat, flying: nat, k: nat)
    requires AllProviders(w0) && AtMostInFlight(cfg, w0, es, p, k) && 0 < flying <= k
    requires AdmitsPerfect(cfg(p)) && Stage(After(cfg, w0, es), p, clock, done, flying)
    ensures var es' := es + [Finish(done, PERFECT)];
      Stage(After(cfg, w0, es'), p, clock, done + 1, flying - 1) && AtMostInFlight(cfg, w0, es', p, k)
  {
    hide Stage, AdmitsPerfect, AtMostInFlight, After, Apply;
    Land(cfg, After(cfg, w0, es), p, clock, done, flying);
    StageFlying(Apply(cfg, After(cfg, w0, es), Finish(done, PERFECT)), p, clock, done + 1, flying - 1);
    Extend(cfg, w0, es, Finish(done, PERFECT), p, k);
  }

  lemma StageFlying(w: World, p: Provider, clock: int, done: nat, flying: nat)
    requires Stage(w, p, clock, done, flying)
    ensures InFlight(w.fetches, p) == flying
  {
    StageInFlight(w.fetches, p, clock, done, flying);
  }

  lemma StageWindow(w: World, p: Provider, clock: int, done: nat, flying: nat, c: Config)
    requires Stage(w, p, clock, done, flying)
    ensures InWindow(c, Times(w.gates[p].log), clock) == done
  {
    CopiesCount(clock, done, clock, clock + c.windowMs, clock);
    hide Times, Copies, NeverSlow;
  }

  /** The run has at most k requests in flight and yet fills the window that starts at `clock` up to the bound. */
  ghost predicate Attains(cfg: Configs, clock: int, p: Provider, k: nat, es: seq<Event>) {
    && AtMostInFlight(cfg, Begin(cfg, clock), es, p, k) && cfg(p).maxRequests.Some?
    && InWindow(cfg(p), Times(After(cfg, Begin(cfg, clock), es).gates[p].log), clock)
      == cfg(p).maxRequests.value + k - 1
  }

  /**
   * The bound of the quota theorem cannot be improved: for every limit, window and k >= 1 some run with at most
   * k requests in flight puts maxRequests + k - 1 of them into one window. With k >= 2 the configured limit is
   * really exceeded.
   */
  lemma QuotaBoundIsAttained(cfg: Configs, clock: int, p: Provider, k: nat)
    requires AdmitsPerfect(cfg(p)) && k >= 1
    ensures exists es :: Attains(cfg, clock, p, k, es)
  {
    var n := cfg(p).maxRequests.value + k - 1;
    assert cfg(p).maxRequests.Some?;
    hide AdmitsPerfect, AtMostInFlight, After, Begin, Stage, InWindow, Times;
    var es := Reach(cfg, clock, p, k, n, 0);
    StageWindow(After(cfg, Begin(cfg, clock), es), p, clock, n, 0, cfg(p));
    assert Attains(cfg, clock, p, k, es);
  }
}
