/**
 * Starting and stopping of trade-manager.js, the two intervals it owns, and the smart-exit evaluations they lead to.
 */
module TradeTimers {
  import opened Prelude

  type Broker = string

  /** `live` holds the intervals the runtime fires; the manager only sees its two handles. */
  datatype Intervals = Intervals(
    enabled: set<Broker>, monitor: Option<int>, signal: Option<int>, live: set<int>, next: int)

  const IDLE := Intervals({}, None, None, {}, 0)

  function EnsureMonitor(t: Intervals): Intervals {
    if t.monitor.Some? then t else t.(monitor := Some(t.next), live := t.live + {t.next}, next := t.next + 1)
  }

  function EnsureSignal(t: Intervals): Intervals {
    if t.signal.Some? then t else t.(signal := Some(t.next), live := t.live + {t.next}, next := t.next + 1)
  }

  function Ensure(t: Intervals): Intervals { EnsureSignal(EnsureMonitor(t)) }

  function Clear(live: set<int>, handle: Option<int>): set<int> { if handle.Some? then live - {handle.value} else live }

  function MaybeStop(t: Intervals, active: nat): Intervals {
    if t.enabled != {} then t
    else
      var u := t.(signal := None, live := Clear(t.live, t.signal));
      if active == 0 then u.(monitor := None, live := Clear(u.live, u.monitor)) else u
  }

  /** The rest of a start once connectivity is known. */
  function Resume(t: Intervals, b: Broker, connected: bool, allowDisconnected: bool): Intervals {
    if !connected && !allowDisconnected then t else Ensure(t.(enabled := t.enabled + {b}))
  }

  function Running(t: Intervals, broker: Option<Broker>): bool {
    if broker.Some? then broker.value in t.enabled else t.enabled != {}
  }

  function Stop(t: Intervals, broker: Option<Broker>, active: nat): Intervals {
    if !Running(t, broker) then t
    else MaybeStop(t.(enabled := if broker.Some? then t.enabled - {broker.value} else {}), active)
  }

  // ----- smart exits -----

  datatype ExitSettings = ExitSettings(reverseEnabled: bool, recheckMs: int)

  datatype Exits = Exits(inFlight: set<string>, lastCheck: map<string, int>)

  function LastCheck(x: Exits, id: string): int { if id in x.lastCheck then x.lastCheck[id] else 0 }

  predicate MayEvaluate(cfg: ExitSettings, x: Exits, id: string, pair: string, clock: int) {
    && cfg.reverseEnabled && id != "" && pair != ""
    && !(cfg.recheckMs > 0 && clock - LastCheck(x, id) < cfg.recheckMs) && id !in x.inFlight
  }

  function Begin(x: Exits, id: string, clock: int): Exits { Exits(x.inFlight + {id}, x.lastCheck[id := clock]) }

  function End(x: Exits, id: string): Exits { x.(inFlight := x.inFlight - {id}) }

  // ----- the object -----

  class Supervisor {
    const cfg: ExitSettings
    var enabled: set<Broker>
    var monitor: Option<int>
    var signal: Option<int>
    var live: set<int>
    var next: int
    var inFlight: set<string>
    var lastCheck: map<string, int>

    function Now(): Intervals
      reads this
    {
      Intervals(enabled, monitor, signal, live, next)
    }

    function NowExits(): Exits
      reads this
    {
      Exits(inFlight, lastCheck)
    }

    constructor (settings: ExitSettings)
      ensures cfg == settings && Now() == IDLE && NowExits() == Exits({}, map[])
    {
      cfg := settings;
      enabled, monitor, signal, live, next := {}, None, None, {}, 0;
      inFlight, lastCheck := {}, map[];
    }

    method EnsureIntervalsRunning()
      modifies this
      ensures Now() == Ensure(old(Now())) && NowExits() == old(NowExits())
    {
      if monitor.None? {
        monitor := Some(next);
        live := live + {next};
        next := next + 1;
      }
      if signal.None? {
        signal := Some(next);
        live := live + {next};
        next := next + 1;
      }
    }

    method MaybeStopIntervals(active: nat)
      modifies this
      ensures Now() == MaybeStop(old(Now()), active) && NowExits() == old(NowExits())
    {
      if enabled == {} && active == 0 {
        if monitor.Some? {
          live := live - {monitor.value};
          monitor := None;
        }
        if signal.Some? {
          live := live - {signal.value};
          signal := None;
        }
        assert live == MaybeStop(old(Now()), active).live;
        return;
      }
      if enabled == {} && signal.Some? {
        live := live - {signal.value};
        signal := None;
      }
    }

    /** A start after its connectivity check. */
    method ResumeStart(b: Broker, connected: bool, allowDisconnected: bool) returns (success: bool)
      modifies this
      ensures Now() == Resume(old(Now()), b, connected, allowDisconnected) && NowExits() == old(NowExits())
      ensures success <==> connected || allowDisconnected
    {
      if !connected && !allowDisconnected {
        return false;
      }
      enabled := enabled + {b};
      EnsureIntervalsRunning();
      return true;
    }

    method StopAutoTrading(broker: Option<Broker>, active: nat) returns (success: bool)
      modifies this
      ensures Now() == Stop(old(Now()), broker, active) && NowExits() == old(NowExits())
      ensures success == old(Running(Now(), broker))
    {
      if broker.None? {
        if enabled == {} {
          return false;
        }
        enabled := {};
        MaybeStopIntervals(active);
        return true;
      }
      if broker.value !in enabled {
        return false;
      }
      enabled := enabled - {broker.value};
      MaybeStopIntervals(active);
      return true;
    }

    /** Checks a visited trade and, if it is due, marks it as being evaluated. */
    method VisitTrade(id: string, pair: string, open: bool, clock: int) returns (evaluate: bool)
      modifies this
      ensures evaluate == (open && MayEvaluate(cfg, old(NowExits()), id, pair, clock))
      ensures Now() == old(Now()) && NowExits() ==
        if evaluate then Begin(old(NowExits()), id, clock) else old(NowExits())
    {
      if !open || !cfg.reverseEnabled || id == "" || pair == "" {
        return false;
      }
      var last := if id in lastCheck then lastCheck[id] else 0;
      if cfg.recheckMs > 0 && clock - last < cfg.recheckMs {
        return false;
      }
      if id in inFlight {
        return false;
      }
      lastCheck := lastCheck[id := clock];
      inFlight := inFlight + {id};
      return true;
    }

    method EndEvaluation(id: string)
      modifies this
      ensures Now() == old(Now()) && NowExits() == End(old(NowExits()), id)
    {
      inFlight := inFlight - {id};
    }
  }

  // ----- all interleavings -----

  datatype MonitorRun = Managing | Looping | Evaluating(id: string) | Done

  datatype Evaluation = Evaluation(id: string, at: int)

  /**
   * `starts` are the starts awaiting connectivity; `left` says whether the last stop that ended all trading left open
   * trades.
   */
  datatype World = World(
    clock: int, intervals: Intervals, starts: seq<Broker>,
    left: bool, exits: Exits, runs: seq<MonitorRun>, log: seq<Evaluation>)

  datatype Event =
    | Tick(ms: nat)
    | StartAsked(b: Broker)
    | StartResumes(s: nat, connected: bool, allow: bool)
    | Stopped(broker: Option<Broker>, active: nat)
    | MonitorFires(active: nat)
    | Managed(m: nat, ok: bool)
    | Visit(m: nat, id: string, pair: string, open: bool)
    | Judged(m: nat)
    | LoopEnds(m: nat)

  function Initially(clock: int): World { World(clock, IDLE, [], false, Exits({}, map[]), [], []) }

  /** An event that cannot happen leaves the world as it is. */
  function Apply(cfg: ExitSettings, w: World, e: Event): World {
    match e
    case Tick(ms) => w.(clock := w.clock + ms)
    case StartAsked(b) => if b in w.intervals.enabled then w else w.(starts := w.starts + [b])
    case StartResumes(i, connected, allow) =>
      if i >= |w.starts| then w
      else w.(intervals := Resume(w.intervals, w.starts[i], connected, allow),
        starts := w.starts[..i] + w.starts[i + 1..])
    case Stopped(broker, active) =>
      var t := Stop(w.intervals, broker, active);
      w.(intervals := t, left := if Running(w.intervals, broker) && t.enabled == {} then active > 0 else w.left)
    case MonitorFires(active) =>
      if w.intervals.monitor.Some? && (w.intervals.enabled != {} || active > 0)
        then w.(runs := w.runs + [Managing])
        else w
    case Managed(i, ok) =>
      if i < |w.runs| && w.runs[i].Managing?
        then w.(runs := w.runs[i := if ok && cfg.reverseEnabled then Looping else Done]) else w
    case Visit(i, id, pair, open) =>
      if i < |w.runs| && w.runs[i].Looping? && open && MayEvaluate(cfg, w.exits, id, pair, w.clock) then
        w.(exits := Begin(w.exits, id, w.clock),
          runs := w.runs[i := Evaluating(id)], log := w.log + [Evaluation(id, w.clock)])
      else w
    case Judged(i) =>
      if i < |w.runs| && w.runs[i].Evaluating?
        then w.(exits := End(w.exits, w.runs[i].id), runs := w.runs[i := Looping])
        else w
    case LoopEnds(i) => if i < |w.runs| && w.runs[i].Looping? then w.(runs := w.runs[i := Done]) else w
  }

  function After(cfg: ExitSettings, clock: int, es: seq<Event>): World {
    if es == [] then Initially(clock) else Apply(cfg, After(cfg, clock, es[..|es| - 1]), es[|es| - 1])
  }

  // ----- intervals -----

  function HandleSet(o: Option<int>): set<int> { if o.Some? then {o.value} else {} }

  /** No interval is leaked or shared, and which of the two run is decided by the brokers and the last stop. */
  ghost predicate WellTimed(t: Intervals, left: bool) {
    && t.live == HandleSet(t.monitor) + HandleSet(t.signal)
    && (forall h :: h in t.live ==> h < t.next)
    && (t.monitor.Some? && t.signal.Some? ==> t.monitor != t.signal)
    && (t.signal.Some? <==> t.enabled != {})
    && (t.monitor.Some? <==> t.enabled != {} || left)
  }

  lemma ResumeKeepsTimed(t: Intervals, left: bool, b: Broker, connected: bool, allow: bool)
    requires WellTimed(t, left)
    ensures WellTimed(Resume(t, b, connected, allow), left)
  {
    assert b in t.enabled + {b};
  }

  lemma StopKeepsTimed(t: Intervals, left: bool, broker: Option<Broker>, active: nat)
    requires WellTimed(t, left)
    ensures var u := Stop(t, broker, active);
      WellTimed(u, if Running(t, broker) && u.enabled == {} then active > 0 else left)
  {
    if Running(t, broker) {
      assert t.enabled != {};
    }
  }

  lemma StepKeepsTimed(cfg: ExitSettings, w: World, e: Event)
    requires WellTimed(w.intervals, w.left)
    ensures var w' := Apply(cfg, w, e); WellTimed(w'.intervals, w'.left)
  {
    match e
    case StartResumes(i, connected, allow) =>
      if i < |w.starts| {
        ResumeKeepsTimed(w.intervals, w.left, w.starts[i], connected, allow);
      }
      hide WellTimed, Resume;
    case Stopped(broker, active) => StopKeepsTimed(w.intervals, w.left, broker, active); hide WellTimed, Stop;
    case _ => hide WellTimed;
  }

  lemma {:induction false} TimedThroughout(cfg: ExitSettings, clock: int, es: seq<Event>)
    ensures var w := After(cfg, clock, es); WellTimed(w.intervals, w.left)
  {
    if es == [] {
    } else {
      hide Apply, WellTimed;
      TimedThroughout(cfg, clock, es[..|es| - 1]);
      StepKeepsTimed(cfg, After(cfg, clock, es[..|es| - 1]), es[|es| - 1]);
    }
  }

  /**
   * In every reachable state the signal interval runs exactly while some broker is enabled, the monitor interval
   * exactly while one is or the last stop left trades open, and no interval runs that the manager cannot stop.
   */
  lemma IntervalsFollowBrokers(cfg: ExitSettings, clock: int, es: seq<Event>)
    ensures var w := After(cfg, clock, es); var t := w.intervals;
      && (t.signal.Some? <==> t.enabled != {})
      && (t.monitor.Some? <==> t.enabled != {} || w.left)
      && |t.live| == (if t.signal.Some? then 1 else 0) + (if t.monitor.Some? then 1 else 0)
  {
    TimedThroughout(cfg, clock, es);
    hide After;
    var t := After(cfg, clock, es).intervals;
    if t.monitor.Some? && t.signal.Some? {
      assert t.live == {t.monitor.value, t.signal.value};
    }
  }

  // ----- smart exits -----

  /** Trade ids in flight are those being evaluated, each by one run; the table knows the latest start of each. */
  ghost predicate OneEach(cfg: ExitSettings, w: World) {
    && (forall i :: 0 <= i < |w.runs| && w.runs[i].Evaluating? ==> w.runs[i].id in w.exits.inFlight)
    && (forall id :: id in w.exits.inFlight ==> Evaluating(id) in w.runs)
    && (forall i, j :: 0 <= i < j < |w.runs| && w.runs[i].Evaluating? && w.runs[j].Evaluating? ==>
      w.runs[i].id != w.runs[j].id)
  }

  ghost predicate Apart(cfg: ExitSettings, w: World) {
    && (forall i :: 0 <= i < |w.log| ==>
      w.log[i].id in w.exits.lastCheck && w.log[i].at <= w.exits.lastCheck[w.log[i].id])
    && (cfg.recheckMs > 0 ==> forall i, j :: 0 <= i < j < |w.log| && w.log[i].id == w.log[j].id ==>
      w.log[j].at - w.log[i].at >= cfg.recheckMs)
    && (forall i :: 0 <= i < |w.log| ==> w.log[i].at <= w.clock)
  }

  lemma BeginKeepsOneEach(cfg: ExitSettings, w: World, w': World, i: nat, id: string)
    requires OneEach(cfg, w) && i < |w.runs| && w.runs[i].Looping? && id !in w.exits.inFlight
    requires w'.runs == w.runs[i := Evaluating(id)] && w'.exits.inFlight == w.exits.inFlight + {id}
    ensures OneEach(cfg, w')
  {
    forall x | x in w'.exits.inFlight ensures Evaluating(x) in w'.runs {
      if x == id {
        assert w'.runs[i] == Evaluating(x);
      } else {
        var k :| 0 <= k < |w.runs| && w.runs[k] == Evaluating(x);
        assert w'.runs[k] == Evaluating(x);
      }
    }
  }

  lemma EndKeepsOneEach(cfg: ExitSettings, w: World, w': World, i: nat)
    requires OneEach(cfg, w) && i < |w.runs| && w.runs[i].Evaluating?
    requires w'.runs == w.runs[i := Looping] && w'.exits.inFlight == w.exits.inFlight - {w.runs[i].id}
    ensures OneEach(cfg, w')
  {
    forall x | x in w'.exits.inFlight ensures Evaluating(x) in w'.runs {
      var k :| 0 <= k < |w.runs| && w.runs[k] == Evaluating(x);
      assert w'.runs[k] == Evaluating(x);
    }
  }

  /** Runs that evaluate nothing come, go on or go. */
  lemma OtherKeepsOneEach(cfg: ExitSettings, w: World, w': World)
    requires OneEach(cfg, w) && w'.exits.inFlight == w.exits.inFlight && |w.runs| <= |w'.runs|
    requires forall i :: 0 <= i < |w.runs| && w.runs[i].Evaluating? ==> w'.runs[i] == w.runs[i]
    requires forall i :: 0 <= i < |w'.runs| && w'.runs[i].Evaluating? ==> i < |w.runs| && w'.runs[i] == w.runs[i]
    ensures OneEach(cfg, w')
  {
    forall x | x in w'.exits.inFlight ensures Evaluating(x) in w'.runs {
      var k :| 0 <= k < |w.runs| && w.runs[k] == Evaluating(x);
      assert w'.runs[k] == Evaluating(x);
    }
  }

  lemma StepKeepsOneEach(cfg: ExitSettings, w: World, e: Event)
    requires OneEach(cfg, w)
    ensures OneEach(cfg, Apply(cfg, w, e))
  {
    hide OneEach, Resume, Stop, LastCheck, Running;
    var w' := Apply(cfg, w, e);
    if e.Visit? && w'.runs != w.runs {
      BeginKeepsOneEach(cfg, w, w', e.m, e.id);
    } else if e.Judged? && w'.runs != w.runs {
      EndKeepsOneEach(cfg, w, w', e.m);
    } else {
      OtherKeepsOneEach(cfg, w, w');
    }
  }

  lemma StepKeepsApart(cfg: ExitSettings, w: World, e: Event)
    requires Apart(cfg, w)
    ensures Apart(cfg, Apply(cfg, w, e))
  {
    hide Resume, Stop;
  }

  lemma {:induction false} OneEachThroughout(cfg: ExitSettings, clock: int, es: seq<Event>)
    ensures OneEach(cfg, After(cfg, clock, es)) && Apart(cfg, After(cfg, clock, es))
  {
    if es == [] {
    } else {
      hide Apply, OneEach, Apart;
      OneEachThroughout(cfg, clock, es[..|es| - 1]);
      StepKeepsOneEach(cfg, After(cfg, clock, es[..|es| - 1]), es[|es| - 1]);
      StepKeepsApart(cfg, After(cfg, clock, es[..|es| - 1]), es[|es| - 1]);
    }
  }

  /**
   * However monitor runs overlap, a trade is evaluated by at most one of them at a time, the in-flight set names
   * exactly the trades being evaluated, and two evaluations of one trade start at least the recheck time apart.
   */
  lemma SmartExitsAreExclusive(cfg: ExitSettings, clock: int, es: seq<Event>, i: nat, j: nat, id: string)
    ensures var w := After(cfg, clock, es);
      && (i < j < |w.runs| && w.runs[i] == Evaluating(id) ==> w.runs[j] != Evaluating(id))
      && (id in w.exits.inFlight <==> Evaluating(id) in w.runs)
      && (i < j < |w.log| && w.log[i].id == w.log[j].id == id && cfg.recheckMs > 0 ==>
        w.log[j].at - w.log[i].at >= cfg.recheckMs)
  {
    OneEachThroughout(cfg, clock, es);
    hide After;
  }

  // ----- which brokers are enabled -----

  /** The brokers started, with connectivity or without needing it, since they or all were last stopped. */
  ghost function StartedSince(cfg: ExitSettings, clock: int, es: seq<Event>): set<Broker> {
    if es == [] then {}
    else
      var before, w := StartedSince(cfg, clock, es[..|es| - 1]), After(cfg, clock, es[..|es| - 1]);
      match es[|es| - 1]
      case StartResumes(i, connected, allow) =>
        if i < |w.starts| && (connected || allow) then before + {w.starts[i]} else before
      case Stopped(Some(b), _) => before - {b}
      case Stopped(None, _) => {}
      case _ => before
  }

  lemma EnabledAfter(cfg: ExitSettings, w: World, e: Event)
    ensures Apply(cfg, w, e).intervals.enabled ==
      match e
      case StartResumes(i, connected, allow) =>
        if i < |w.starts| && (connected || allow) then w.intervals.enabled + {w.starts[i]} else w.intervals.enabled
      case Stopped(Some(b), _) => w.intervals.enabled - {b}
      case Stopped(None, _) => {}
      case _ => w.intervals.enabled
  {
    hide MayEvaluate;
  }

  /** In every run exactly these are enabled, and so exactly while there is one the signal interval runs. */
  lemma {:induction false} EnabledSinceStart(cfg: ExitSettings, clock: int, es: seq<Event>)
    ensures var t := After(cfg, clock, es).intervals;
      t.enabled == StartedSince(cfg, clock, es) && (t.signal.Some? <==> StartedSince(cfg, clock, es) != {})
  {
    TimedThroughout(cfg, clock, es);
    if es == [] {
    } else {
      EnabledSinceStart(cfg, clock, es[..|es| - 1]);
      EnabledAfter(cfg, After(cfg, clock, es[..|es| - 1]), es[|es| - 1]);
      hide Apply;
    }
  }

  // ----- which trades are evaluated -----

  /** The table of evaluation starts holds nothing but starts. */
  ghost predicate ChecksAreStarts(w: World) {
    forall id :: id in w.exits.lastCheck ==> Evaluation(id, w.exits.lastCheck[id]) in w.log
  }

  lemma StepKeepsChecks(cfg: ExitSettings, w: World, e: Event)
    requires ChecksAreStarts(w)
    ensures ChecksAreStarts(Apply(cfg, w, e))
  {
    hide Resume, Stop, MayEvaluate;
    var w' := Apply(cfg, w, e);
    forall id | id in w'.exits.lastCheck ensures Evaluation(id, w'.exits.lastCheck[id]) in w'.log {
      if w'.log != w.log && id == e.id {
        assert w'.log[|w.log|] == Evaluation(id, w.clock);
      }
    }
  }

  lemma {:induction false} ChecksThroughout(cfg: ExitSettings, clock: int, es: seq<Event>)
    ensures ChecksAreStarts(After(cfg, clock, es))
  {
    if es == [] {
    } else {
      hide Apply, ChecksAreStarts;
      ChecksThroughout(cfg, clock, es[..|es| - 1]);
      StepKeepsChecks(cfg, After(cfg, clock, es[..|es| - 1]), es[|es| - 1]);
    }
  }

  /** Every start of an evaluation of this trade is the recheck time or more ago. */
  ghost predicate RestedSince(cfg: ExitSettings, w: World, id: string) {
    forall i :: 0 <= i < |w.log| && w.log[i].id == id ==> w.clock - w.log[i].at >= cfg.recheckMs
  }

  /**
   * In every run with a clock that has run for the recheck time, a monitor run evaluates the trade it visits exactly
   * when the trade is open, has an id and a pair, smart exits are on, nobody evaluates it, and no evaluation of it
   * started less than the recheck time ago.
   */
  lemma DueTradesAreEvaluated(cfg: ExitSettings, clock: int, es: seq<Event>, m: nat, id: string, pair: string,
      open: bool)
    requires var w := After(cfg, clock, es); m < |w.runs| && w.runs[m].Looping? && w.clock >= cfg.recheckMs
    ensures var w := After(cfg, clock, es);
      Apply(cfg, w, Visit(m, id, pair, open)).log ==
        if open && id != "" && pair != "" && cfg.reverseEnabled && Evaluating(id) !in w.runs
          && (cfg.recheckMs > 0 ==> RestedSince(cfg, w, id))
        then w.log + [Evaluation(id, w.clock)] else w.log
  {
    ChecksThroughout(cfg, clock, es);
    OneEachThroughout(cfg, clock, es);
    var w := After(cfg, clock, es);
    hide After;
    assert cfg.recheckMs > 0 ==> (w.clock - LastCheck(w.exits, id) >= cfg.recheckMs <==> RestedSince(cfg, w, id)) by {
      if id in w.exits.lastCheck {
        var i :| 0 <= i < |w.log| && w.log[i] == Evaluation(id, w.exits.lastCheck[id]);
      }
    }
  }

  // ----- when the monitor works -----

  /** In every run asking to start a broker leads to a start exactly when the broker is not enabled already. */
  lemma StartsWait(cfg: ExitSettings, clock: int, es: seq<Event>, b: Broker)
    ensures var w := After(cfg, clock, es);
      Apply(cfg, w, StartAsked(b)).starts == if b in StartedSince(cfg, clock, es) then w.starts else w.starts + [b]
  {
    EnabledSinceStart(cfg, clock, es);
    hide After, StartedSince;
  }

  /**
   * In every run the monitor does something exactly when a broker is enabled, or the last stop left trades open and
   * some still are.
   */
  lemma MonitorWorksWhileNeeded(cfg: ExitSettings, clock: int, es: seq<Event>, active: nat)
    ensures var w := After(cfg, clock, es);
      Apply(cfg, w, MonitorFires(active)).runs ==
        if StartedSince(cfg, clock, es) != {} || (w.left && active > 0) then w.runs + [Managing] else w.runs
  {
    TimedThroughout(cfg, clock, es);
    EnabledSinceStart(cfg, clock, es);
    hide After, StartedSince;
  }

  ghost predicate NoLoops(runs: seq<MonitorRun>) {
    forall m :: 0 <= m < |runs| ==> runs[m] == Managing || runs[m] == Done
  }

  lemma StepKeepsNoLoops(cfg: ExitSettings, w: World, e: Event)
    requires !cfg.reverseEnabled && NoLoops(w.runs)
    ensures NoLoops(Apply(cfg, w, e).runs)
  {
    hide Resume, Stop, MayEvaluate;
  }

  /** Without smart exits no monitor run ever visits a trade. */
  lemma {:induction false} LoopsOnlyForSmartExits(cfg: ExitSettings, clock: int, es: seq<Event>)
    requires !cfg.reverseEnabled
    ensures NoLoops(After(cfg, clock, es).runs)
  {
    if es == [] {
    } else {
      hide Apply, NoLoops;
      LoopsOnlyForSmartExits(cfg, clock, es[..|es| - 1]);
      StepKeepsNoLoops(cfg, After(cfg, clock, es[..|es| - 1]), es[|es| - 1]);
    }
  }
}
