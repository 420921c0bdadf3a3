/** How one provider fetch walks its order, and what the rate-limit counters count, in every interleaving. */
module AdmissionFetch {
  import opened Prelude
  import opened Admission
  import opened AdmissionRuns

  // ----- walking the order -----

  /** The event that moves fetch i, if any. */
  predicate Moves(e: Event, i: nat) { (e.Advance? || e.Finish?) && e.i == i }

  lemma OthersStay(cfg: Configs, w: World, e: Event, i: nat)
    requires AllProviders(w) && i < |w.fetches| && !Moves(e, i)
    ensures i < |Apply(cfg, w, e).fetches| && Apply(cfg, w, e).fetches[i] == w.fetches[i]
  {
    hide Admits, Configured, Succeeded;
  }

  lemma {:induction false} FetchStays(cfg: Configs, w: World, more: seq<Event>, i: nat)
    requires AllProviders(w) && i < |w.fetches| && forall n :: 0 <= n < |more| ==> !Moves(more[n], i)
    ensures var w' := After(cfg, w, more); i < |w'.fetches| && w'.fetches[i] == w.fetches[i]
  {
    if more == [] {
    } else {
      hide Apply, Moves;
      FetchStays(cfg, w, more[..|more| - 1], i);
      OthersStay(cfg, After(cfg, w, more[..|more| - 1]), more[|more| - 1], i);
    }
  }

  /** Nothing is left to do for the fetch. */
  predicate Over(f: Fetch) { !f.waiting && f.pos >= |f.order| }

  lemma OverStaysOver(cfg: Configs, w: World, e: Event, i: nat)
    requires AllProviders(w) && i < |w.fetches| && Over(w.fetches[i])
    ensures var w' := Apply(cfg, w, e); i < |w'.fetches| && Over(w'.fetches[i])
  {
    hide Admits, Configured, Succeeded;
  }

  lemma {:induction false} OverForGood(cfg: Configs, w: World, more: seq<Event>, i: nat)
    requires AllProviders(w) && i < |w.fetches| && Over(w.fetches[i])
    ensures var w' := After(cfg, w, more); i < |w'.fetches| && Over(w'.fetches[i])
  {
    if more == [] {
    } else {
      hide Apply, Over;
      OverForGood(cfg, w, more[..|more| - 1], i);
      OverStaysOver(cfg, After(cfg, w, more[..|more| - 1]), more[|more| - 1], i);
    }
  }

  /** A payload that does not say `false` is a success. */
  predicate SaysFalse(p: Payload) { p == Flag(false) || (p.Details? && p.success == Some(false)) }

  /** The first success ends a fetch: whatever happens later, it asks and records nothing any more. */
  lemma SuccessEndsFetch(cfg: Configs, w: World, i: nat, payload: Payload, more: seq<Event>, e: Event)
    requires AllProviders(w) && Enabled(w, Finish(i, payload)) && !SaysFalse(payload)
    requires Moves(e, i)
    ensures var w' := After(cfg, Apply(cfg, w, Finish(i, payload)), more); Apply(cfg, w', e) == w'
  {
    var w1 := Apply(cfg, w, Finish(i, payload));
    hide Record, RecordTrips;
    assert i < |w1.fetches| && Over(w1.fetches[i]);
    OverForGood(cfg, w1, more, i);
    hide After;
  }

  /** The providers a fetch may still ask, in order. */
  function Ahead(f: Fetch): seq<Provider> { if f.pos <= |f.order| then f.order[f.pos..] else [] }

  /**
   * A fetch that is refused by a provider or gets a failure from it goes on with the next one in its order, whatever
   * others do in between; one that is granted waits for that provider first.
   */
  lemma FailureGoesOn(cfg: Configs, w: World, e: Event, i: nat, more: seq<Event>)
    requires AllProviders(w) && Moves(e, i) && Enabled(w, e) && (e.Finish? ==> SaysFalse(e.payload))
    requires forall n :: 0 <= n < |more| ==> !Moves(more[n], i)
    ensures i < |After(cfg, Apply(cfg, w, e), more).fetches|
    ensures var f, f' := w.fetches[i], After(cfg, Apply(cfg, w, e), more).fetches[i];
      var granted := e.Advance? && Admits(cfg(f.order[f.pos]), w.gates[f.order[f.pos]].state, f.now);
      && f'.waiting == granted && Ahead(f') == (if granted then Ahead(f) else Ahead(f)[1..])
      && f'.order == f.order && f'.now == f.now
  {
    var w1 := Apply(cfg, w, e);
    assert i < |w1.fetches|;
    FetchStays(cfg, w1, more, i);
    hide After, Record, RecordTrips, AskAt, WindowFull, InBackoff;
  }

  // ----- rate limits -----

  /** Provider refused at this event: a fetch's turn at it came and the answer was no. */
  ghost predicate RefusedAt(cfg: Configs, w: World, e: Event, p: Provider)
    requires AllProviders(w)
  {
    && e.Advance? && Enabled(w, e) && w.fetches[e.i].order[w.fetches[e.i].pos] == p
    && Configured(cfg(p)) && !Admits(cfg(p), w.gates[p].state, w.fetches[e.i].now)
  }

  /** The refusal was for a full window, with neither breaker nor backoff in the way. */
  ghost predicate FullAt(cfg: Configs, w: World, e: Event, p: Provider)
    requires AllProviders(w)
  {
    && RefusedAt(cfg, w, e, p)
    && (w.gates[p].state.metrics.breaker.None? || Expired(w.gates[p].state, w.fetches[e.i].now))
    && !InBackoff(w.gates[p].state, w.fetches[e.i].now)
  }

  /** Refused turns of a provider plus rate-limit hits; refusals for a full window count twice where asked to. */
  ghost function RateLimits(cfg: Configs, clock: int, es: seq<Event>, p: Provider, fullTwice: bool): nat {
    if es == [] then 0
    else
      var w, e := After(cfg, Begin(cfg, clock), es[..|es| - 1]), es[|es| - 1];
      RateLimits(cfg, clock, es[..|es| - 1], p, fullTwice)
      + (if RefusedAt(cfg, w, e, p) || (e.Hit? && e.p == p) then 1 else 0)
      + (if fullTwice && FullAt(cfg, w, e, p) then 1 else 0)
  }

  lemma AskCounts(c: Config, s: State, now: int, clock: int)
    requires Configured(c)
    ensures var t := AfterAsk(c, s, now, clock);
      && t.metrics.rateLimited == s.metrics.rateLimited
      && t.health.rateLimited == s.health.rateLimited +
        if !Admits(c, s, now) && (s.metrics.breaker.None? || Expired(s, now)) && !InBackoff(s, now) then 1 else 0
  {
    SinceTwice(s.limit.usage, now - c.windowMs, now - c.windowMs);
    hide Since;
  }

  lemma RecordCounts(c: Config, s: State, p: Payload, clock: int)
    ensures Record(c, s, p, clock).metrics.rateLimited == s.metrics.rateLimited
    ensures Record(c, s, p, clock).health.rateLimited == s.health.rateLimited
  {
    hide Since, TooManyFailures, TooSlow, TooPoor, SuccessRatio, Succeeded, QualityIn, LatencyIn, Clamp01;
  }

  lemma StepCounts(cfg: Configs, w: World, e: Event, p: Provider)
    requires AllProviders(w)
    ensures var s, s' := w.gates[p].state, Apply(cfg, w, e).gates[p].state;
      var once := if RefusedAt(cfg, w, e, p) || (e.Hit? && e.p == p) then 1 else 0;
      && s'.metrics.rateLimited == s.metrics.rateLimited + once
      && s'.health.rateLimited == s.health.rateLimited + once + if FullAt(cfg, w, e, p) then 1 else 0
  {
    hide AfterAsk, Record, RecordTrips, WindowFull, Configured, InBackoff, Since;
    if Enabled(w, e) {
      match e
      case Advance(i) =>
        var f := w.fetches[i];
        var q := f.order[f.pos];
        if Configured(cfg(q)) {
          AskCounts(cfg(q), w.gates[q].state, f.now, w.clock);
        }
      case Finish(i, payload) =>
        var f := w.fetches[i];
        RecordCounts(cfg(f.order[f.pos]), w.gates[f.order[f.pos]].state, payload, w.clock);
      case _ =>
    }
  }

  /**
   * In every run the metrics count each refused turn and each rate-limit hit once; the health entry counts refusals for
   * a full window twice, once in the check and once when the provider is skipped.
   */
  lemma {:induction false} RateLimitsAreCounted(cfg: Configs, clock: int, es: seq<Event>, p: Provider)
    ensures var s := After(cfg, Begin(cfg, clock), es).gates[p].state;
      && s.metrics.rateLimited == RateLimits(cfg, clock, es, p, false)
      && s.health.rateLimited == RateLimits(cfg, clock, es, p, true)
  {
    if es == [] {
    } else {
      RateLimitsAreCounted(cfg, clock, es[..|es| - 1], p);
      StepCounts(cfg, After(cfg, Begin(cfg, clock), es[..|es| - 1]), es[|es| - 1], p);
      hide Apply, RefusedAt, FullAt, Begin;
    }
  }
}
