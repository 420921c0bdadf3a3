/** The availability report against the admission check, and how exact the announced waiting time is. */
module AdmissionReport {
  import opened Prelude
  import opened Admission
  import opened AdmissionRuns

  // ----- the report -----

  datatype ReportReason = IsDisabled | MissingCredentials | BreakerReason(cause: Cause) | BackoffActive | WindowReason

  datatype Report = Report(
    available: bool, reasons: seq<ReportReason>, hasCredentials: bool, disabled: bool, breakerActive: bool,
    backoffUntil: int, remaining: Option<int>)

  function If(b: bool, r: ReportReason): seq<ReportReason> { if b then [r] else [] }

  function ReasonsFor(c: Config, s: State, now: int, allow: bool): seq<ReportReason> {
    If(c.disabled, IsDisabled) + If(!HasCredentials(c) && !allow, MissingCredentials)
    + (if BreakerHolds(s, now) then [BreakerReason(s.metrics.breaker.value.cause)] else [])
    + If(InBackoff(s, now), BackoffActive) + If(WindowFull(c, s, now), WindowReason)
  }

  function Allow(c: Config, option: Option<bool>): bool { if option.Some? then option.value else c.allowUnconfigured }

  /** `getProviderAvailability`; it trims the usage but, unlike the admission check, never clears a breaker. */
  method GetProviderAvailability(gate: ProviderGate, now: int, allowOption: Option<bool>) returns (r: Report)
    modifies gate
    ensures gate.Now() == Trim(gate.c, old(gate.Now()), now)
    ensures r == Report(ReportsAvailable(gate.c, old(gate.Now()), now, allowOption),
                        ReasonsFor(gate.c, old(gate.Now()), now, Allow(gate.c, allowOption)),
                        HasCredentials(gate.c), gate.c.disabled, BreakerHolds(old(gate.Now()), now),
                        old(gate.backoffUntil), gate.remaining)
  {
    hide Since, If;
    var c := gate.c;
    var reasons := If(c.disabled, IsDisabled);
    var allow := if allowOption.Some? then allowOption.value else c.allowUnconfigured;
    var hasCredentials := HasCredentials(c);
    reasons := reasons + If(!hasCredentials && !allow, MissingCredentials);
    var breakerActive := gate.metrics.breaker.Some? && gate.metrics.breaker.value.expiresAt > now;
    if breakerActive {
      reasons := reasons + [BreakerReason(gate.metrics.breaker.value.cause)];
    } else {
      assert reasons == reasons + [];
    }
    gate.TrimUsage(now);
    var backoffActive := gate.backoffUntil != 0 && gate.backoffUntil > now;
    reasons := reasons + If(backoffActive, BackoffActive);
    var rateLimited := c.maxRequests.Some? && c.maxRequests.value != 0 && gate.count >= c.maxRequests.value;
    reasons := reasons + If(rateLimited, WindowReason);
    var available := !c.disabled && (hasCredentials || allow) && !breakerActive && !backoffActive && !rateLimited;
    r := Report(available, reasons, hasCredentials, c.disabled, breakerActive, gate.backoffUntil, gate.remaining);
  }

  /**
   * A provider is reported available exactly when no reason is listed, and each obstacle is listed under its own name.
   */
  lemma ReasonsExplain(c: Config, s: State, now: int, option: Option<bool>)
    ensures var rs := ReasonsFor(c, s, now, Allow(c, option));
      && (rs == [] <==> ReportsAvailable(c, s, now, option))
      && (BackoffActive in rs <==> InBackoff(s, now)) && (WindowReason in rs <==> WindowFull(c, s, now))
      && ((exists r :: r in rs && r.BreakerReason?) <==> BreakerHolds(s, now))
      && (IsDisabled in rs <==> c.disabled)
      && (MissingCredentials in rs <==> !HasCredentials(c) && !Or(option, c.allowUnconfigured))
      && (BreakerHolds(s, now) ==> BreakerReason(s.metrics.breaker.value.cause) in rs)
  {
    hide WindowFull, InBackoff, HasCredentials;
    if BreakerHolds(s, now) {
      assert BreakerReason(s.metrics.breaker.value.cause) in ReasonsFor(c, s, now, Allow(c, option));
    }
  }

  predicate Eligible(c: Config, allowOption: Option<bool>) {
    !c.disabled && (HasCredentials(c) || Allow(c, allowOption))
  }

  predicate BreakerHolds(s: State, now: int) { s.metrics.breaker.Some? && s.metrics.breaker.value.expiresAt > now }

  /** Nothing but credentials stands in the way. */
  predicate Open(c: Config, s: State, now: int) {
    !BreakerHolds(s, now) && !InBackoff(s, now) && !WindowFull(c, s, now)
  }

  predicate ReportsAvailable(c: Config, s: State, now: int, allowOption: Option<bool>) {
    Eligible(c, allowOption) && Open(c, s, now)
  }

  /** Report and admission check agree exactly when their credential tests do, or something else blocks both. */
  lemma ReportAgreesIff(c: Config, s: State, now: int, allowOption: Option<bool>)
    ensures (ReportsAvailable(c, s, now, allowOption) <==> Admits(c, s, now))
      <==> (Eligible(c, allowOption) == Configured(c) || !Open(c, s, now))
  {
    hide WindowFull;
  }

  /**
   * With the default option the two differ for one kind of provider only: an enabled one whose key is a placeholder.
   */
  lemma DefaultReportAgreesIff(c: Config, s: State, now: int)
    ensures (ReportsAvailable(c, s, now, None) <==> Admits(c, s, now))
      <==> !(c.credential == PlaceholderKey && !c.disabled && !c.allowUnconfigured && Open(c, s, now))
  {
    hide WindowFull;
  }

  // ----- asking changes no later answer -----

  lemma TrimmedWindow(c: Config, s: State, usage: seq<int>, t0: int, t: int)
    requires t0 <= t && (usage == s.limit.usage || usage == Since(s.limit.usage, t0 - c.windowMs))
    ensures Since(usage, t - c.windowMs) == Since(s.limit.usage, t - c.windowMs)
  {
    SinceTwice(s.limit.usage, t0 - c.windowMs, t - c.windowMs);
  }

  /** Whoever asks or looks at t0 leaves every answer for a later moment as it was. */
  lemma AskingIsHarmless(c: Config, s: State, t0: int, clock: int, t: int)
    requires t0 <= t
    ensures Admits(c, AfterAsk(c, s, t0, clock), t) <==> Admits(c, s, t)
    ensures Admits(c, Trim(c, s, t0), t) <==> Admits(c, s, t)
    ensures Refused(c, AfterAsk(c, s, t0, clock), t) == Refused(c, s, t)
  {
    UsageAfterAsk(c, s, t0, clock);
    TrimmedWindow(c, s, AfterAsk(c, s, t0, clock).limit.usage, t0, t);
    TrimmedWindow(c, s, Since(s.limit.usage, t0 - c.windowMs), t0, t);
    hide Since;
  }

  /** Polling at rising moments. */
  function AfterPolls(c: Config, s: State, polls: seq<int>): State {
    if polls == [] then s
    else
      var t := polls[|polls| - 1];
      AfterAsk(c, AfterPolls(c, s, polls[..|polls| - 1]), t, t)
  }

  lemma {:induction false} PollingIsHarmless(c: Config, s: State, polls: seq<int>, t: int)
    requires forall i :: 0 <= i < |polls| ==> polls[i] <= t
    ensures Admits(c, AfterPolls(c, s, polls), t) <==> Admits(c, s, t)
    ensures Refused(c, AfterPolls(c, s, polls), t) == Refused(c, s, t)
  {
    if polls == [] {
    } else {
      hide Admits, AfterAsk, Refused;
      PollingIsHarmless(c, s, polls[..|polls| - 1], t);
      AskingIsHarmless(c, AfterPolls(c, s, polls[..|polls| - 1]), polls[|polls| - 1], polls[|polls| - 1], t);
    }
  }

  // ----- the waiting time -----

  /** Why a request would be refused at t, in the order the check looks; None when it is granted. */
  function Refused(c: Config, s: State, t: int): Option<Refusal> {
    if c.disabled then Some(Disabled)
    else if !Configured(c) then Some(Unconfigured)
    else if BreakerHolds(s, t) then Some(BreakerOpen(s.metrics.breaker.value.cause))
    else if InBackoff(s, t) then Some(Backoff)
    else if WindowFull(c, s, t) then Some(RateLimit)
    else None
  }

  lemma AllowanceSaysWhy(c: Config, s: State, now: int, clock: int)
    ensures AllowanceFor(c, s, now, clock).reason == Refused(c, s, now)
    ensures AllowanceFor(c, s, now, clock).allowed <==> Refused(c, s, now) == None
    ensures AllowanceFor(c, s, now, clock).waitMs >= 0
  {
    UsageAfterAsk(c, s, now, clock);
    hide Since;
  }

  /** A breaker is announced to the millisecond: it refuses up to, and no longer than, now + waitMs. */
  lemma BreakerWaitIsExact(c: Config, s: State, now: int, clock: int, t: int)
    requires AllowanceFor(c, s, now, clock).reason.Some? && AllowanceFor(c, s, now, clock).reason.value.BreakerOpen?
    requires now <= t
    ensures var a := AllowanceFor(c, s, now, clock);
      a.waitMs > 0 && (Refused(c, s, t) == a.reason <==> t < now + a.waitMs)
      && (t >= now + a.waitMs ==> !(Refused(c, s, t).Some? && Refused(c, s, t).value.BreakerOpen?))
  {
    AllowanceSaysWhy(c, s, now, clock);
    hide Since, WindowFull;
  }

  /** So is a backoff. */
  lemma BackoffWaitIsExact(c: Config, s: State, now: int, clock: int, t: int)
    requires AllowanceFor(c, s, now, clock).reason == Some(Backoff) && now <= t
    ensures var a := AllowanceFor(c, s, now, clock);
      a.waitMs > 0 && (Refused(c, s, t) == Some(Backoff) <==> t < now + a.waitMs)
  {
    AllowanceSaysWhy(c, s, now, clock);
    BackoffAfterAsk(c, s, now, clock);
    hide Since, WindowFull, AfterAsk;
  }

  /**
   * A rate-limit hit refuses for as long as the provider asked, else for the configured cooldown, else for ten seconds,
   * and never for less than two.
   */
  lemma HitRefusesFor(c: Config, s: State, retryAfterMs: Option<int>, clock: int, t: int)
    requires clock >= 0 && Configured(c) && !BreakerHolds(s, t)
    ensures var wait :=
        if retryAfterMs.Some? && retryAfterMs.value != 0 then Max(retryAfterMs.value, 2000)
        else if c.cooldownMs != 0 then Max(c.cooldownMs, 2000)
        else 10_000;
      Refused(c, LimitHit(c, s, retryAfterMs, clock), t) == Some(Backoff) <==> t < clock + wait
    ensures c.maxRequests.Some? ==> LimitHit(c, s, retryAfterMs, clock).limit.remaining == Some(0)
  {
    hide WindowFull;
  }

  /** After a trim: `remaining` says how many requests still fit... */
  lemma RemainingIsRoom(c: Config, s: State, now: int)
    requires Limited(c) && c.maxRequests.value > 0
    ensures var l := Trim(c, s, now).limit;
      && l.count == |l.usage| && l.remaining.Some? && l.remaining.value >= 0
      && (WindowFull(c, s, now) <==> l.remaining == Some(0))
      && (!WindowFull(c, s, now) ==> l.count + l.remaining.value == c.maxRequests.value)
  {
    hide Since;
  }

  /** ... and `resetTime` until when the window keeps all its entries. */
  lemma ResetIsWhenOldestLeaves(c: Config, s: State, now: int)
    requires NonDecreasing(s.limit.usage)
    ensures var l := Trim(c, s, now).limit;
      && (l.usage == [] ==> l.resetTime == now + c.windowMs)
      && (l.usage != [] ==>
        Since(l.usage, l.resetTime - c.windowMs) == l.usage
        && |Since(l.usage, l.resetTime - c.windowMs + 1)| < |l.usage|)
  {
    var u := Trim(c, s, now).limit.usage;
    SinceProperties(s.limit.usage, now - c.windowMs);
    hide NonDecreasing, Since;
    if u != [] {
      FirstDrops(u);
    }
  }

  lemma FirstDrops(u: seq<int>)
    requires NonDecreasing(u) && u != []
    ensures Since(u, u[0]) == u && |Since(u, u[0] + 1)| < |u|
  {
    SuffixCount(u, u[0], |u|);
    SuffixCount(u, u[0] + 1, |u|);
    SinceProperties(u, u[0]);
    SameLength(u, u[0]);
  }

  lemma {:induction false} SameLength(u: seq<int>, cut: int)
    ensures |Since(u, cut)| == |u| ==> Since(u, cut) == u
    ensures |Since(u, cut)| <= |u|
  {
    if u == [] {
    } else {
      SameLength(u[..|u| - 1], cut);
    }
  }

  lemma BackoffAfterAsk(c: Config, s: State, now: int, clock: int)
    ensures AfterAsk(c, s, now, clock).limit.backoffUntil == s.limit.backoffUntil
  {
    hide Since;
  }

  /** A sorted list holds at least m entries from `cut` on exactly when its m-th entry from the end is one of them. */
  lemma {:induction false} SuffixCount(u: seq<int>, cut: int, m: nat)
    requires NonDecreasing(u) && m > 0
    ensures |Since(u, cut)| >= m <==> m <= |u| && u[|u| - m] >= cut
  {
    SinceProperties(u, cut);
    if u == [] {
    } else {
      var v := u[..|u| - 1];
      if m > 1 {
        SuffixCount(v, cut, m - 1);
      }
      if u[|u| - 1] < cut {
        AllOld(u, cut);
      }
    }
  }

  lemma {:induction false} AllOld(u: seq<int>, cut: int)
    requires NonDecreasing(u) && (u != [] ==> u[|u| - 1] < cut)
    ensures Since(u, cut) == []
  {
    if u == [] {
    } else {
      AllOld(u[..|u| - 1], cut);
    }
  }

  /**
   * A full window: with nothing else happening the refusal lasts exactly until the maxRequests-th newest entry
   * leaves the window, that is one millisecond past its age of windowMs. The announced wait counts from the oldest
   * entry instead: it is a lower bound always, and off by just that one millisecond exactly when those two entries
   * carry the same time, in particular when the window holds no more than maxRequests entries.
   */
  lemma WindowWaitTheorem(c: Config, s: State, now: int, clock: int, t: int)
    requires AllowanceFor(c, s, now, clock).reason == Some(RateLimit) && c.maxRequests.value >= 1
    requires NonDecreasing(s.limit.usage) && now <= t
    ensures var a, u, m := AllowanceFor(c, s, now, clock), Since(s.limit.usage, now - c.windowMs), c.maxRequests.value;
      && |u| >= m
      && (Refused(c, s, t) == Some(RateLimit) <==> t <= u[|u| - m] + c.windowMs)
      && (Refused(c, s, t) == None <==> t >= u[|u| - m] + c.windowMs + 1)
      && now + a.waitMs == u[0] + c.windowMs <= u[|u| - m] + c.windowMs
      && (t <= now + a.waitMs ==> Refused(c, s, t) == Some(RateLimit))
  {
    AllowanceSaysWhy(c, s, now, clock);
    var m, u := c.maxRequests.value, Since(s.limit.usage, now - c.windowMs);
    WindowAfterAsk(c, s, now, clock);
    SinceProperties(s.limit.usage, now - c.windowMs);
    WindowFullUntil(c, s, now, t);
    LaterBlocksLess(c, s, now, t);
    hide Since, AfterAsk, WindowFull, NonDecreasing;
    assert u[0] <= u[|u| - m] by { FirstIsLeast(u, |u| - m); }
  }

  lemma FirstIsLeast(u: seq<int>, i: nat)
    requires NonDecreasing(u) && i < |u|
    ensures u[0] <= u[i]
  {
  }

  lemma WindowAfterAsk(c: Config, s: State, now: int, clock: int)
    requires Refused(c, s, now) == Some(RateLimit)
    ensures var t := AfterAsk(c, s, now, clock);
      t.limit.usage == Since(s.limit.usage, now - c.windowMs) && t.metrics.breaker == None
      && t.limit.backoffUntil == s.limit.backoffUntil
  {
    SinceTwice(s.limit.usage, now - c.windowMs, now - c.windowMs);
    hide Since;
  }

  lemma WindowFullUntil(c: Config, s: State, now: int, t: int)
    requires Limited(c) && c.maxRequests.value >= 1 && NonDecreasing(s.limit.usage) && now <= t && WindowFull(c, s, now)
    ensures var u := Since(s.limit.usage, now - c.windowMs);
      |u| >= c.maxRequests.value && (WindowFull(c, s, t) <==> t <= u[|u| - c.maxRequests.value] + c.windowMs)
  {
    var u := Since(s.limit.usage, now - c.windowMs);
    SinceProperties(s.limit.usage, now - c.windowMs);
    TrimmedWindow(c, s, u, now, t);
    SuffixCount(u, t - c.windowMs, c.maxRequests.value);
    hide Since, NonDecreasing;
  }

  lemma LaterBlocksLess(c: Config, s: State, now: int, t: int)
    requires now <= t && !BreakerHolds(s, now) && !InBackoff(s, now)
    ensures !BreakerHolds(s, t) && !InBackoff(s, t)
  {
  }

  /** The announced wait misses the true one by a single millisecond exactly under this condition on the window. */
  lemma WindowWaitExactIff(c: Config, s: State, now: int, clock: int)
    requires AllowanceFor(c, s, now, clock).reason == Some(RateLimit) && c.maxRequests.value >= 1
    requires NonDecreasing(s.limit.usage)
    ensures var a, u, m := AllowanceFor(c, s, now, clock), Since(s.limit.usage, now - c.windowMs), c.maxRequests.value;
      |u| >= m
      && (Refused(c, s, now + a.waitMs + 1) == None <==> u[|u| - m] == u[0])
      && (|u| == m ==> Refused(c, s, now + a.waitMs + 1) == None)
  {
    AllowanceSaysWhy(c, s, now, clock);
    var a := AllowanceFor(c, s, now, clock);
    WindowWaitTheorem(c, s, now, clock, now + a.waitMs + 1);
    SinceProperties(s.limit.usage, now - c.windowMs);
    hide Since, Refused, AllowanceFor;
  }

  // ----- the usage list stays sorted -----

  ghost predicate UsageSorted(u: seq<int>, clock: int) { NonDecreasing(u) && AllAtMost(u, clock) }

  ghost predicate WorldSorted(w: World, p: Provider) {
    AllProviders(w) && ReadingsPast(w) && UsageSorted(w.gates[p].state.limit.usage, w.clock)
  }

  lemma SortedSince(u: seq<int>, clock: int, cut: int)
    requires UsageSorted(u, clock)
    ensures UsageSorted(Since(u, cut), clock) && UsageSorted(Since(u + [clock], cut), clock)
  {
    SinceProperties(u, cut);
    SinceProperties(u + [clock], cut);
    assert AllAtMost(u + [clock], clock);
  }

  lemma MoveKeepsSorted(c: Config, g: Gate, clock: int, m: Move)
    requires UsageSorted(g.state.limit.usage, clock)
    ensures UsageSorted(MoveGate(c, g, clock, m).state.limit.usage, clock)
  {
    var u := g.state.limit.usage;
    hide AskAt, RecordAt, HitAt, Trim, Since, UsageSorted;
    match m
    case Rest =>
    case Ask(now) =>
      AskUsage(c, g, now, clock);
      SortedSince(u, clock, now - c.windowMs);
    case Recording(payload) =>
      RecordUsage(c, g, payload, clock);
      SortedSince(u, clock, clock - c.windowMs);
    case Hitting(retry) =>
      UsageAfterHit(c, g, retry, clock);
    case Trimming(now) =>
      TrimmedUsage(c, g.state, now);
      SortedSince(u, clock, now - c.windowMs);
  }

  lemma StepKeepsSorted(cfg: Configs, w: World, e: Event, p: Provider)
    requires WorldSorted(w, p)
    ensures WorldSorted(Apply(cfg, w, e), p)
  {
    var w', m := Apply(cfg, w, e), MoveOf(cfg, w, e, p);
    hide MoveGate, Flight, InFlight, MoveOf, Apply;
    StepsAreMoves(cfg, w, e, p);
    MoveKeepsSorted(cfg(p), w.gates[p], w.clock, m);
    var u := w'.gates[p].state.limit.usage;
    assert UsageSorted(u, w'.clock);
  }

  lemma TrimmedUsage(c: Config, s: State, now: int)
    ensures Trim(c, s, now).limit.usage == Since(s.limit.usage, now - c.windowMs)
  {
  }

  lemma AskUsage(c: Config, g: Gate, now: int, clock: int)
    ensures var u := AskAt(c, g, now, clock).state.limit.usage;
      u == g.state.limit.usage || u == Since(g.state.limit.usage, now - c.windowMs)
  {
    UsageAfterAsk(c, g.state, now, clock);
    hide AfterAsk, Admits, Since;
  }

  lemma RecordUsage(c: Config, g: Gate, p: Payload, clock: int)
    ensures RecordAt(c, g, p, clock).state.limit.usage == Since(g.state.limit.usage + [clock], clock - c.windowMs)
  {
    UsageAfterRecord(c, g.state, p, clock);
    hide Record, RecordTrips, Since;
  }

  /** In every run the usage list is sorted, so the waiting-time results apply to every reachable state. */
  lemma {:induction false} UsageIsSortedThroughout(cfg: Configs, clock: int, es: seq<Event>, p: Provider)
    ensures WorldSorted(After(cfg, Begin(cfg, clock), es), p)
  {
    if es == [] {
    } else {
      var w, e := After(cfg, Begin(cfg, clock), es[..|es| - 1]), es[|es| - 1];
      hide WorldSorted;
      UsageIsSortedThroughout(cfg, clock, es[..|es| - 1], p);
      StepKeepsSorted(cfg, w, e, p);
    }
  }
}
