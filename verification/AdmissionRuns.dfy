/**
 * All interleavings of provider fetches. A fetch reads the clock once, walks its provider order, asks for
 * permission with that old reading, waits for the network, and only then records its usage.
 */
module AdmissionRuns {
  import opened Prelude
  import opened Admission

  datatype Provider = TwelveData | Polygon | Finnhub | AlphaVantage

  /**
   * One `executeProviderFetch`: the time it started, its providers, the one it is at, and whether it awaits the
   * network.
   */
  datatype Fetch = Fetch(now: int, order: seq<Provider>, pos: nat, waiting: bool)

  /** What happened at a provider, with the true time of the event. */
  datatype Entry =
    | Granted(at: int)
    | Recorded(at: int, payload: Payload)
    | Cleared(at: int)
    | Tripped(at: int)
    | HitLimit(at: int)

  datatype Gate = Gate(state: State, log: seq<Entry>)

  datatype World = World(clock: int, gates: map<Provider, Gate>, fetches: seq<Fetch>)

  datatype Event =
    | Tick(ms: nat)
    | Start(order: seq<Provider>)
    | Advance(i: nat)
    | Finish(i: nat, payload: Payload)
    | Hit(p: Provider, retryAfterMs: Option<int>)
    | Observe(p: Provider, now: int)

  type Configs = Provider -> Config

  predicate AllProviders(w: World) { forall p: Provider :: p in w.gates }

  function Begin(cfg: Configs, clock: int): (w: World)
    ensures AllProviders(w)
  {
    World(clock, map p: Provider | true :: Gate(Initial(cfg(p), clock), []), [])
  }

  predicate Enabled(w: World, e: Event) {
    match e
    case Advance(i) => i < |w.fetches| && !w.fetches[i].waiting && w.fetches[i].pos < |w.fetches[i].order|
    case Finish(i, _) => i < |w.fetches| && w.fetches[i].waiting && w.fetches[i].pos < |w.fetches[i].order|
    case Observe(_, now) => now <= w.clock
    case _ => true
  }

  function EntryIf(b: bool, e: Entry): seq<Entry> { if b then [e] else [] }

  /** A breaker found expired is cleared before the question is answered. */
  function AskAt(c: Config, g: Gate, now: int, clock: int): Gate {
    var s := AfterAsk(c, g.state, now, clock);
    var log := g.log + EntryIf(Configured(c) && Expired(g.state, now), Cleared(clock));
    if Admits(c, g.state, now) then Gate(s, log + [Granted(clock)]) else Gate(Skip(s), log)
  }

  function RecordAt(c: Config, g: Gate, payload: Payload, clock: int): Gate {
    Gate(Record(c, g.state, payload, clock),
         g.log + [Recorded(clock, payload)] + EntryIf(Expired(g.state, clock), Cleared(clock))
         + EntryIf(RecordTrips(c, g.state, payload, clock), Tripped(clock)))
  }

  function HitAt(c: Config, g: Gate, retryAfterMs: Option<int>, clock: int): Gate {
    Gate(LimitHit(c, g.state, retryAfterMs, clock), g.log + [HitLimit(clock)])
  }

  /** One step; an event that is not enabled leaves the world as it is. */
  function Apply(cfg: Configs, w: World, e: Event): (w': World)
    requires AllProviders(w)
    ensures AllProviders(w')
  {
    if !Enabled(w, e) then w
    else
      match e
      case Tick(ms) => w.(clock := w.clock + ms)
      case Start(order) => w.(fetches := w.fetches + [Fetch(w.clock, order, 0, false)])
      case Advance(i) =>
        var f := w.fetches[i];
        var p := f.order[f.pos];
        if !Configured(cfg(p)) then w.(fetches := w.fetches[i := f.(pos := f.pos + 1)])
        else
          w.(gates := w.gates[p := AskAt(cfg(p), w.gates[p], f.now, w.clock)],
             fetches := w.fetches[i :=
               if Admits(cfg(p), w.gates[p].state, f.now) then f.(waiting := true) else f.(pos := f.pos + 1)])
      case Finish(i, payload) =>
        var f := w.fetches[i];
        var p := f.order[f.pos];
        w.(gates := w.gates[p := RecordAt(cfg(p), w.gates[p], payload, w.clock)],
           fetches := w.fetches[i := f.(waiting := false, pos := if Succeeded(payload) then |f.order| else f.pos + 1)])
      case Hit(p, retry) => w.(gates := w.gates[p := HitAt(cfg(p), w.gates[p], retry, w.clock)])
      case Observe(p, now) => w.(gates := w.gates[p := w.gates[p].(state := Trim(cfg(p), w.gates[p].state, now))])
  }

  predicate Waits(f: Fetch, p: Provider) { f.waiting && f.pos < |f.order| && f.order[f.pos] == p }

  /** Requests to p that were granted and not yet recorded. */
  function InFlight(fetches: seq<Fetch>, p: Provider): nat {
    if fetches == [] then 0
    else InFlight(fetches[..|fetches| - 1], p) + if Waits(fetches[|fetches| - 1], p) then 1 else 0
  }

  /** The world after a run; every sequence of events is a run. */
  function After(cfg: Configs, w: World, es: seq<Event>): (w': World)
    requires AllProviders(w)
    ensures AllProviders(w')
  {
    if es == [] then w else Apply(cfg, After(cfg, w, es[..|es| - 1]), es[|es| - 1])
  }

  /** At no point of the run are more than k requests to p in flight. */
  predicate AtMostInFlight(cfg: Configs, w: World, es: seq<Event>, p: Provider, k: nat)
    requires AllProviders(w)
  {
    InFlight(After(cfg, w, es).fetches, p) <= k && (es == [] || AtMostInFlight(cfg, w, es[..|es| - 1], p, k))
  }

  // ----- counting -----

  function Times(log: seq<Entry>): seq<int> {
    if log == [] then []
    else if log[|log| - 1].Recorded? then Times(log[..|log| - 1]) + [log[|log| - 1].at]
    else Times(log[..|log| - 1])
  }

  /** Requests recorded in the closed interval [a, b]. */
  function CountIn(h: seq<int>, a: int, b: int): nat {
    if h == [] then 0 else CountIn(h[..|h| - 1], a, b) + if a <= h[|h| - 1] <= b then 1 else 0
  }

  lemma {:induction false} CountInAtMostSince(h: seq<int>, a: int, b: int)
    ensures CountIn(h, a, b) <= |Since(h, a)|
  {
    if h == [] {
    } else {
      CountInAtMostSince(h[..|h| - 1], a, b);
    }
  }

  lemma {:induction false} CountInShrinks(h: seq<int>, a: int, a': int, b: int)
    requires a <= a'
    ensures CountIn(h, a', b) <= CountIn(h, a, b)
  {
    if h == [] {
    } else {
      CountInShrinks(h[..|h| - 1], a, a', b);
    }
  }

  lemma {:induction false} InFlightUpdate(fetches: seq<Fetch>, i: nat, f: Fetch, p: Provider)
    requires i < |fetches|
    ensures InFlight(fetches[i := f], p) ==
      InFlight(fetches, p) - (if Waits(fetches[i], p) then 1 else 0) + (if Waits(f, p) then 1 else 0)
  {
    var u := fetches[i := f];
    if i == |fetches| - 1 {
      assert u[..|u| - 1] == fetches[..|u| - 1];
    } else {
      assert u[..|u| - 1] == fetches[..|u| - 1][i := f];
      InFlightUpdate(fetches[..|u| - 1], i, f, p);
    }
  }

  lemma TimesSnoc(log: seq<Entry>, e: Entry)
    ensures Times(log + [e]) == if e.Recorded? then Times(log) + [e.at] else Times(log)
  {
    assert (log + [e])[..|log|] == log;
  }

  lemma TimesIf(log: seq<Entry>, b: bool, e: Entry)
    requires !e.Recorded?
    ensures Times(log + EntryIf(b, e)) == Times(log)
  {
    TimesSnoc(log, e);
    assert log + [] == log;
  }

  // ----- the quota -----

  /** The usage list is the recorded history cut off somewhere before the current window. */
  ghost predicate UsageIsTail(c: Config, usage: seq<int>, h: seq<int>, clock: int) {
    exists floor :: CutAt(c, usage, h, clock, floor)
  }

  ghost predicate CutAt(c: Config, usage: seq<int>, h: seq<int>, clock: int, floor: int) {
    floor <= clock - c.windowMs && usage == Since(h, floor)
  }

  function InWindow(c: Config, h: seq<int>, a: int): nat { CountIn(h, a, a + c.windowMs) }

  ghost predicate EveryWindow(c: Config, h: seq<int>, most: int) {
    forall a :: InWindow(c, h, a) <= most
  }

  ghost predicate QuotaInv(c: Config, usage: seq<int>, h: seq<int>, clock: int, inFlight: nat, most: int) {
    && NonDecreasing(h) && AllAtMost(h, clock)
    && UsageIsTail(c, usage, h, clock)
    && |Since(h, clock - c.windowMs)| + inFlight <= most
    && EveryWindow(c, h, most)
  }

  lemma QuotaTick(c: Config, usage: seq<int>, h: seq<int>, clock: int, later: int, inFlight: nat, most: int)
    requires QuotaInv(c, usage, h, clock, inFlight, most) && clock <= later
    ensures QuotaInv(c, usage, h, later, inFlight, most)
  {
    SinceIsMonotone(h, clock - c.windowMs, later - c.windowMs);
    var floor :| CutAt(c, usage, h, clock, floor);
    assert CutAt(c, usage, h, later, floor);
  }

  /** Trimming with any reading of the clock, however old, loses nothing of the current window. */
  lemma QuotaTrim(c: Config, usage: seq<int>, h: seq<int>, clock: int, now: int, inFlight: nat, most: int)
    requires QuotaInv(c, usage, h, clock, inFlight, most) && now <= clock
    ensures QuotaInv(c, Since(usage, now - c.windowMs), h, clock, inFlight, most)
    ensures |Since(h, clock - c.windowMs)| <= |Since(usage, now - c.windowMs)|
  {
    var floor :| CutAt(c, usage, h, clock, floor);
    var floor' := Max(floor, now - c.windowMs);
    SinceTwice(h, floor, now - c.windowMs);
    assert CutAt(c, Since(usage, now - c.windowMs), h, clock, floor');
    SinceIsMonotone(h, floor', clock - c.windowMs);
  }

  lemma WindowsAfterRecord(c: Config, h: seq<int>, clock: int, most: int, a: int)
    requires EveryWindow(c, h, most) && |Since(h, clock - c.windowMs)| + 1 <= most
    ensures InWindow(c, h + [clock], a) <= most
  {
    assert (h + [clock])[..|h|] == h;
    assert InWindow(c, h, a) <= most;
    if a <= clock <= a + c.windowMs {
      CountInAtMostSince(h, clock - c.windowMs, a + c.windowMs);
      CountInShrinks(h, clock - c.windowMs, a, a + c.windowMs);
    }
  }

  lemma QuotaRecord(c: Config, usage: seq<int>, h: seq<int>, clock: int, inFlight: nat, most: int)
    requires QuotaInv(c, usage, h, clock, inFlight, most) && inFlight > 0
    ensures QuotaInv(c, Since(usage + [clock], clock - c.windowMs), h + [clock], clock, inFlight - 1, most)
  {
    var cut, h' := clock - c.windowMs, h + [clock];
    forall a ensures InWindow(c, h', a) <= most {
      WindowsAfterRecord(c, h, clock, most, a);
    }
    SinceSnoc(h, clock, cut);
    hide Since, InWindow;
    TailAfterRecord(c, usage, h, clock);
  }

  lemma TailAfterRecord(c: Config, usage: seq<int>, h: seq<int>, clock: int)
    requires UsageIsTail(c, usage, h, clock)
    ensures UsageIsTail(c, Since(usage + [clock], clock - c.windowMs), h + [clock], clock)
  {
    var cut := clock - c.windowMs;
    var floor :| CutAt(c, usage, h, clock, floor);
    SinceTwice(h, floor, cut);
    SinceSnoc(usage, clock, cut);
    SinceSnoc(h, clock, cut);
    assert CutAt(c, Since(usage + [clock], cut), h + [clock], clock, cut);
  }

  lemma UsageAfterAsk(c: Config, s: State, now: int, clock: int)
    ensures var u := AfterAsk(c, s, now, clock).limit.usage;
      (u == s.limit.usage || u == Since(s.limit.usage, now - c.windowMs))
      && (Admits(c, s, now) ==> u == Since(s.limit.usage, now - c.windowMs) && !WindowFull(c, s, now))
  {
    hide Since;
  }

  lemma UsageAfterRecord(c: Config, s: State, p: Payload, clock: int)
    ensures Record(c, s, p, clock).limit.usage == Since(s.limit.usage + [clock], clock - c.windowMs)
  {
    hide Since, Count, Succeeded, TooManyFailures, TooSlow, TooPoor, SuccessRatio;
  }

  ghost predicate GateQuota(c: Config, g: Gate, clock: int, inFlight: nat, most: int) {
    QuotaInv(c, g.state.limit.usage, Times(g.log), clock, inFlight, most)
  }

  ghost predicate WorldQuota(cfg: Configs, w: World, p: Provider, k: nat) {
    AllProviders(w) && Limited(cfg(p)) && cfg(p).maxRequests.value >= 1
    && ReadingsPast(w)
    && GateQuota(cfg(p), w.gates[p], w.clock, InFlight(w.fetches, p), cfg(p).maxRequests.value - 1 + k)
  }

  lemma AskKeepsQuota(c: Config, g: Gate, now: int, clock: int, inFlight: nat, k: nat)
    requires Limited(c) && c.maxRequests.value >= 1 && now <= clock
    requires GateQuota(c, g, clock, inFlight, c.maxRequests.value - 1 + k)
    ensures Admits(c, g.state, now) && inFlight + 1 <= k ==>
      GateQuota(c, AskAt(c, g, now, clock), clock, inFlight + 1, c.maxRequests.value - 1 + k)
    ensures !Admits(c, g.state, now) ==>
      GateQuota(c, AskAt(c, g, now, clock), clock, inFlight, c.maxRequests.value - 1 + k)
  {
    UsageAfterAsk(c, g.state, now, clock);
    QuotaTrim(c, g.state.limit.usage, Times(g.log), clock, now, inFlight, c.maxRequests.value - 1 + k);
    var log := g.log + EntryIf(Configured(c) && Expired(g.state, now), Cleared(clock));
    TimesIf(g.log, Configured(c) && Expired(g.state, now), Cleared(clock));
    TimesSnoc(log, Granted(clock));
    hide Since, AfterAsk, Admits, UsageIsTail, EveryWindow, NonDecreasing, AllAtMost, Times;
  }

  lemma TimesAfterRecord(c: Config, g: Gate, p: Payload, clock: int)
    ensures Times(RecordAt(c, g, p, clock).log) == Times(g.log) + [clock]
  {
    hide Record, RecordTrips, Expired, Times;
    var log := g.log + [Recorded(clock, p)];
    TimesSnoc(g.log, Recorded(clock, p));
    TimesIf(log, Expired(g.state, clock), Cleared(clock));
    TimesIf(log + EntryIf(Expired(g.state, clock), Cleared(clock)), RecordTrips(c, g.state, p, clock), Tripped(clock));
  }

  lemma RecordKeepsQuota(c: Config, g: Gate, p: Payload, clock: int, inFlight: nat, most: int)
    requires GateQuota(c, g, clock, inFlight, most) && inFlight > 0
    ensures GateQuota(c, RecordAt(c, g, p, clock), clock, inFlight - 1, most)
  {
    hide Since, Record, RecordTrips, QuotaInv, Times;
    UsageAfterRecord(c, g.state, p, clock);
    QuotaRecord(c, g.state.limit.usage, Times(g.log), clock, inFlight, most);
    TimesAfterRecord(c, g, p, clock);
  }

  // ----- one provider at a time -----

  /** What a step does at a given provider. */
  datatype Move =
    | Rest
    | Ask(now: int)
    | Recording(payload: Payload)
    | Hitting(retryAfterMs: Option<int>)
    | Trimming(now: int)

  function MoveOf(cfg: Configs, w: World, e: Event, p: Provider): Move {
    if !Enabled(w, e) then Rest
    else
      match e
      case Tick(_) => Rest
      case Start(_) => Rest
      case Advance(i) =>
        var f := w.fetches[i];
        if f.order[f.pos] == p && Configured(cfg(p)) then Ask(f.now) else Rest
      case Finish(i, payload) =>
        var f := w.fetches[i];
        if f.order[f.pos] == p then Recording(payload) else Rest
      case Hit(q, retry) => if q == p then Hitting(retry) else Rest
      case Observe(q, now) => if q == p then Trimming(now) else Rest
  }

  function MoveGate(c: Config, g: Gate, clock: int, m: Move): Gate {
    match m
    case Rest => g
    case Ask(now) => AskAt(c, g, now, clock)
    case Recording(payload) => RecordAt(c, g, payload, clock)
    case Hitting(retry) => HitAt(c, g, retry, clock)
    case Trimming(now) => g.(state := Trim(c, g.state, now))
  }

  /** Change in the number of requests in flight. */
  function Flight(c: Config, g: Gate, m: Move): int {
    match m
    case Ask(now) => if Admits(c, g.state, now) then 1 else 0
    case Recording(_) => -1
    case _ => 0
  }

  /** Clock readings come from the past. */
  predicate Timely(m: Move, clock: int) { (m.Ask? ==> m.now <= clock) && (m.Trimming? ==> m.now <= clock) }

  lemma StepsAreMoves(cfg: Configs, w: World, e: Event, p: Provider)
    requires AllProviders(w) && ReadingsPast(w)
    ensures var w', m := Apply(cfg, w, e), MoveOf(cfg, w, e, p);
      && w'.gates[p] == MoveGate(cfg(p), w.gates[p], w.clock, m)
      && InFlight(w'.fetches, p) == InFlight(w.fetches, p) + Flight(cfg(p), w.gates[p], m)
      && w.clock <= w'.clock && Timely(m, w.clock) && ReadingsPast(w')
  {
    hide AskAt, RecordAt, HitAt, Trim, Admits, Configured, Succeeded, InFlight;
    if Enabled(w, e) {
      match e
      case Tick(ms) =>
      case Start(order) =>
        StartEffect(w, order, p);
      case Advance(i) =>
        InFlightUpdate(w.fetches, i, w.fetches[i].(pos := w.fetches[i].pos + 1), p);
        InFlightUpdate(w.fetches, i, w.fetches[i].(waiting := true), p);
      case Finish(i, payload) =>
        var f := w.fetches[i];
        InFlightUpdate(w.fetches, i,
          f.(waiting := false, pos := if Succeeded(payload) then |f.order| else f.pos + 1), p);
      case Hit(q, retry) =>
      case Observe(q, now) =>
    }
  }

  lemma StartEffect(w: World, order: seq<Provider>, p: Provider)
    ensures InFlight(w.fetches + [Fetch(w.clock, order, 0, false)], p) == InFlight(w.fetches, p)
  {
    assert (w.fetches + [Fetch(w.clock, order, 0, false)])[..|w.fetches|] == w.fetches;
  }

  /** No fetch carries a reading from the future. */
  ghost predicate ReadingsPast(w: World) { forall i :: 0 <= i < |w.fetches| ==> w.fetches[i].now <= w.clock }

  lemma MoveKeepsQuota(c: Config, g: Gate, clock: int, m: Move, inFlight: nat, k: nat)
    requires Limited(c) && c.maxRequests.value >= 1 && Timely(m, clock)
    requires GateQuota(c, g, clock, inFlight, c.maxRequests.value - 1 + k)
    requires 0 <= inFlight + Flight(c, g, m) <= k
    ensures GateQuota(c, MoveGate(c, g, clock, m), clock, inFlight + Flight(c, g, m), c.maxRequests.value - 1 + k)
  {
    hide GateQuota, AskAt, RecordAt, HitAt, Trim, Admits;
    match m
    case Rest =>
    case Ask(now) => AskKeepsQuota(c, g, now, clock, inFlight, k);
    case Recording(payload) => RecordKeepsQuota(c, g, payload, clock, inFlight, c.maxRequests.value - 1 + k);
    case Hitting(retry) => HitKeepsQuota(c, g, retry, clock, inFlight, c.maxRequests.value - 1 + k);
    case Trimming(now) => TrimKeepsQuota(c, g, now, clock, inFlight, c.maxRequests.value - 1 + k);
  }

  lemma StepKeepsQuota(cfg: Configs, w: World, e: Event, p: Provider, k: nat)
    requires WorldQuota(cfg, w, p, k)
    requires InFlight(Apply(cfg, w, e).fetches, p) <= k
    ensures WorldQuota(cfg, Apply(cfg, w, e), p, k)
  {
    hide GateQuota, MoveGate, Flight, InFlight, MoveOf, Apply, ReadingsPast, Timely;
    var c, g, most, w' := cfg(p), w.gates[p], cfg(p).maxRequests.value - 1 + k, Apply(cfg, w, e);
    var m := MoveOf(cfg, w, e, p);
    StepsAreMoves(cfg, w, e, p);
    MoveKeepsQuota(c, g, w.clock, m, InFlight(w.fetches, p), k);
    TickKeepsQuota(c, w'.gates[p], w.clock, w'.clock, InFlight(w'.fetches, p), most);
  }

  lemma TickKeepsQuota(c: Config, g: Gate, clock: int, later: int, inFlight: nat, most: int)
    requires GateQuota(c, g, clock, inFlight, most) && clock <= later
    ensures GateQuota(c, g, later, inFlight, most)
  {
    QuotaTick(c, g.state.limit.usage, Times(g.log), clock, later, inFlight, most);
  }

  lemma TrimKeepsQuota(c: Config, g: Gate, now: int, clock: int, inFlight: nat, most: int)
    requires GateQuota(c, g, clock, inFlight, most) && now <= clock
    ensures GateQuota(c, g.(state := Trim(c, g.state, now)), clock, inFlight, most)
  {
    hide QuotaInv;
    QuotaTrim(c, g.state.limit.usage, Times(g.log), clock, now, inFlight, most);
  }

  lemma HitKeepsQuota(c: Config, g: Gate, retry: Option<int>, clock: int, inFlight: nat, most: int)
    requires GateQuota(c, g, clock, inFlight, most)
    ensures GateQuota(c, HitAt(c, g, retry, clock), clock, inFlight, most)
  {
    hide QuotaInv;
    UsageAfterHit(c, g, retry, clock);
  }

  lemma UsageAfterHit(c: Config, g: Gate, retry: Option<int>, clock: int)
    ensures HitAt(c, g, retry, clock).state.limit.usage == g.state.limit.usage
    ensures Times(HitAt(c, g, retry, clock).log) == Times(g.log)
  {
    TimesSnoc(g.log, HitLimit(clock));
  }

  lemma QuotaStart(c: Config, clock: int, most: nat)
    ensures QuotaInv(c, [], [], clock, 0, most)
  {
    assert CutAt(c, [], [], clock, clock - c.windowMs);
  }

  lemma {:induction false} QuotaThroughout(cfg: Configs, clock: int, es: seq<Event>, p: Provider, k: nat)
    requires AtMostInFlight(cfg, Begin(cfg, clock), es, p, k)
    requires Limited(cfg(p)) && cfg(p).maxRequests.value >= 1
    ensures WorldQuota(cfg, After(cfg, Begin(cfg, clock), es), p, k)
  {
    if es == [] {
      QuotaStart(cfg(p), clock, cfg(p).maxRequests.value - 1 + k);
    } else {
      hide WorldQuota;
      QuotaThroughout(cfg, clock, es[..|es| - 1], p, k);
      var w, e := After(cfg, Begin(cfg, clock), es[..|es| - 1]), es[|es| - 1];
      StepKeepsQuota(cfg, w, e, p, k);
    }
  }

  /**
   * The quota: with at most k requests to p between grant and record, no closed interval as long as the window
   * ever holds more than maxRequests + k - 1 recorded requests, whatever the interleaving and however stale the
   * clock readings; with k = 1 the limit itself is never exceeded. At any moment, requests in the current window
   * and requests in flight together respect the same bound.
   */
  lemma QuotaTheorem(cfg: Configs, clock: int, es: seq<Event>, p: Provider, k: nat, a: int)
    requires AtMostInFlight(cfg, Begin(cfg, clock), es, p, k)
    requires Limited(cfg(p)) && cfg(p).maxRequests.value >= 1
    ensures var w, c := After(cfg, Begin(cfg, clock), es), cfg(p);
      && InWindow(c, Times(w.gates[p].log), a) <= c.maxRequests.value + k - 1
      && |Since(Times(w.gates[p].log), w.clock - c.windowMs)| + InFlight(w.fetches, p) <= c.maxRequests.value - 1 + k
  {
    QuotaThroughout(cfg, clock, es, p, k);
    hide AtMostInFlight, After, Begin, Times, Since, InFlight, UsageIsTail, CountIn;
  }
}
