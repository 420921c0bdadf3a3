/**
 * Two runs, one for each of the manager's two promises that fail without their conditions. They are given for every
 * broker, every two signals the manager would trade, and every configuration.
 */
module TradeMishaps {
  import opened Prelude
  import opened Sorting
  import opened TradeGate
  import opened TradeManager
  import opened TradeRuns
  import opened TradePairSafety
  import opened TradeCooldown

  /** Who trades what: g is the signal that goes wrong, e another one. */
  datatype Scene = Scene(cfg: Settings, clock: int, b: Broker, g: Signal, e: Signal)

  /**
   * Nothing special: both signals are of the kind that is traded, e ranks no lower, and no pair was checked recently.
   */
  ghost predicate Playable(x: Scene) {
    && x.clock > 0 && x.cfg.realtimeEnabled && x.cfg.signalCheckMs <= x.clock
    && x.g.isValid && Sends(x.cfg, [], x.g) && x.e.isValid && Sends(x.cfg, [], x.e)
    && Norm(x.g.pair) != Norm(x.e.pair) && Ahead(x.e, x.g)
    && ScanList(Both(x)) == Both(x)
  }

  function Both(x: Scene): seq<string> { [x.g.pair, x.e.pair] }

  /** The stage: the time, one enabled broker, its queue and when its flush is due, the trades and the processes. */
  ghost predicate Stage(
      x: Scene, w: World, clock: int, waiting: seq<Signal>, due: Option<int>, trades: seq<Trade>, procs: seq<Proc>) {
    && w.clock == clock && w.core.enabled == {x.b} && w.core.trades == trades && w.procs == procs
    && w.core.queue == w.since && w.since == (if waiting == [] then map[] else map[x.b := waiting])
    && w.core.timers == (if due.Some? then map[x.b := due.value] else map[])
  }

  /** The times at which the first and the second debounce are over. */
  function Later(x: Scene): int { x.clock + x.cfg.debounceMs }

  function MuchLater(x: Scene): int { Later(x) + x.cfg.debounceMs }

  function TradeOf(x: Scene, id: nat): Trade { Trade(id, x.g.pair, true) }

  /** The trade of the other signal, while the broker is asked. */
  function OtherTrade(x: Scene): Trade { Trade(0, x.e.pair, true) }

  // ----- single steps -----

  lemma RankedAlone(s: Signal)
    ensures SortRanked([s]) == [s]
  {
    hide Ahead;
    var none: seq<Signal> := [];
    assert [s][..0] == none && Sort(Ahead, none) == none && [s] + none == [s];
  }

  lemma RankedPair(e: Signal, g: Signal)
    requires Ahead(e, g)
    ensures SortRanked([e, g]) == [e, g]
  {
    RankedAlone(e);
    hide Ahead;
    var none: seq<Signal> := [];
    assert [e, g][..1] == [e] && [e][1..] == none && [g] + none == [g];
    assert Insert(Ahead, g, [e]) == [e] + Insert(Ahead, g, none);
  }

  lemma ArriveFirst(x: Scene, s: Signal, w: World)
    requires Playable(x) && (s == x.g || s == x.e) && !HasOpen(w.core.trades, Norm(s.pair))
    requires w.core.enabled == {x.b} && w.core.queue == w.since == map[]
      && w.core.timers == map[] && w.core.lastOpen == map[]
    ensures Apply(x.cfg, w, Arrive(x.b, s)) ==
      w.(core := w.core.(queue := map[x.b := [s]], timers := map[x.b := w.clock + x.cfg.debounceMs]),
        since := map[x.b := [s]])
  {
    hide Trim, Norm, Gate, ScanList, Ahead, HasOpen;
    var none: seq<Signal> := [];
    assert none + [s] == [s] && Upsert(none, s) == [s];
    assert Accepts(x.cfg, w.core, x.b, s, w.clock);
    hide Accepts;
    assert Queued(w.core.queue, x.b) == none && Queued(w.since, x.b) == none;
  }

  lemma ArriveSecond(x: Scene, w: World)
    requires Playable(x)
    requires w.core.enabled == {x.b} && w.core.queue == w.since == map[x.b := [x.e]] && x.b in w.core.timers
    requires w.core.lastOpen == map[] && w.core.trades == []
    ensures Apply(x.cfg, w, Arrive(x.b, x.g)) ==
      w.(core := w.core.(queue := map[x.b := [x.e, x.g]]), since := map[x.b := [x.e, x.g]])
  {
    OtherPairs(x);
    hide Trim, Norm, Gate, ScanList, Ahead;
    assert [x.e][1..] == [] && [x.e] + [x.g] == [x.e, x.g];
    assert Upsert([x.e], x.g) == [x.e, x.g];
    assert Accepts(x.cfg, w.core, x.b, x.g, w.clock);
    hide Accepts;
    assert Queued(w.core.queue, x.b) == [x.e] && Queued(w.since, x.b) == [x.e];
  }

  lemma OtherPairs(x: Scene)
    requires Playable(x)
    ensures Trim(x.e.pair) != Trim(x.g.pair) && x.e.pair != x.g.pair
  {
    hide Sends, ScanList, Ahead;
  }

  lemma Wait(cfg: Settings, w: World, ms: nat)
    ensures Apply(cfg, w, Tick(ms)) == w.(clock := w.clock + ms)
  {
  }

  lemma Fire(cfg: Settings, w: World, b: Broker, due: int)
    requires w.core.timers == map[b := due] && due <= w.clock && b in w.core.enabled
    ensures Apply(cfg, w, TimerFires(b)) == w.(core := w.core.(timers := map[]), procs := w.procs + [Checking(b)])
  {
    assert w.core.timers - {b} == map[];
  }

  lemma Drain(cfg: Settings, w: World, b: Broker, i: nat, v: seq<Signal>)
    requires i < |w.procs| && w.procs[i] == Checking(b) && w.core.queue == w.since == map[b := v] && SortRanked(v) == v
    ensures Apply(cfg, w, Connected(i, true, [])) ==
      w.(core := w.core.(queue := map[]), since := map[], procs := w.procs[i := Trying(b, v, 0, [])])
  {
    hide SortRanked, ScanList;
    assert w.core.queue - {b} == map[];
  }

  /** A turn that sends nothing. */
  lemma Turn(cfg: Settings, w: World, i: nat)
    requires Enabled(cfg, w, Next(i, false)) && Tries(cfg, w.core.trades, w.procs[i]) == None
    ensures Apply(cfg, w, Next(i, false)) == w.(procs := w.procs[i := AfterNext(cfg, w, w.procs[i], None)])
  {
    hide AfterNext, Tries;
  }

  lemma FlushSends(cfg: Settings, w: World, b: Broker, i: nat, v: seq<Signal>, pos: nat, registers: bool)
    requires i < |w.procs| && w.procs[i] == Trying(b, v, pos, [])
      && pos < |v| && w.core.trades == [] && Sends(cfg, [], v[pos])
    ensures Apply(cfg, w, Next(i, registers)) ==
      w.(procs := w.procs[i := Sending(b, v, pos, [], if registers then Some(w.core.nextId) else None)],
         core := if registers then Register(w.core, v[pos]) else w.core,
         sent := w.sent + [Sent(v[pos], [], false, registers)])
  {
    hide Sends, Register;
  }

  lemma FlushWithdrawn(cfg: Settings, w: World, b: Broker, i: nat, v: seq<Signal>, pos: nat, t: Trade)
    requires i < |w.procs| && w.procs[i] == Sending(b, v, pos, [], Some(t.id)) && pos < |v| && w.core.trades == [t]
    ensures Apply(cfg, w, Executed(i, Withdrawn)) ==
      w.(procs := w.procs[i := Trying(b, v, pos + 1, [])], core := w.core.(trades := []))
  {
    hide OpenOf, Trim;
    var none: seq<Trade> := [];
    assert [t][..0] == none && Without(none, t.id) == none;
  }

  lemma FlushOpens(cfg: Settings, w: World, b: Broker, i: nat, v: seq<Signal>, pos: nat, id: nat)
    requires i < |w.procs| && w.procs[i] == Sending(b, v, pos, [], Some(id)) && pos < |v|
    ensures Apply(cfg, w, Executed(i, Opened)) ==
      w.(procs := w.procs[i := Trying(b, v, pos + 1, [pos])], opens := w.opens + [OpenOf(w, b, v[pos])],
         core := w.core.(lastOpen := w.core.lastOpen[(b, Trim(v[pos].pair)) := w.clock]))
  {
    hide OpenOf, Trim;
    var none: seq<nat> := [];
    assert none + [pos] == [pos];
  }

  lemma Close(cfg: Settings, w: World, t: Trade)
    requires w.core.trades == [t]
    ensures Apply(cfg, w, CloseTrade(t.id)) == w.(core := w.core.(trades := []))
  {
    var none: seq<Trade> := [];
    assert [t][..0] == none && Without(none, t.id) == none;
  }

  // ----- a cycle opens what a flush has opened meanwhile -----

  /** The cycle collects g and waits for the signal of the next pair; a flush opens g; the cycle then executes g. */
  function ClashEvent(x: Scene, n: nat): Event {
    match n
    case 0 => Switch(x.b, true)
    case 1 => Arrive(x.b, x.g)
    case 2 => CycleStarts([x.b])
    case 3 => Next(0, false)
    case 4 => Connected(0, true, Both(x))
    case 5 => Next(0, false)
    case 6 => SignalReady(0, Got(Some(x.g), None))
    case 7 => Next(0, false)
    case 8 => Tick(x.cfg.debounceMs)
    case 9 => TimerFires(x.b)
    case 10 => Connected(1, true, [])
    case 11 => Next(1, true)
    case 12 => SignalReady(0, Got(None, None))
    case 13 => Next(0, false)
    case _ => Next(0, true)
  }

  function Clash(x: Scene, n: nat): seq<Event> { if n == 0 then [] else Clash(x, n - 1) + [ClashEvent(x, n - 1)] }

  function ClashAt(x: Scene, n: nat): World { After(x.cfg, x.clock, Clash(x, n)) }

  lemma ClashStep(x: Scene, n: nat)
    ensures ClashAt(x, n + 1) == Apply(x.cfg, ClashAt(x, n), ClashEvent(x, n))
  {
    AfterOneMore(x.cfg, x.clock, Clash(x, n), ClashEvent(x, n));
    hide After, Apply, ClashEvent;
  }

  lemma SwitchOn(cfg: Settings, clock: int, b: Broker)
    ensures Apply(cfg, Start(clock), Switch(b, true)) == Start(clock).(core := Start(clock).core.(enabled := {b}))
  {
    assert Start(clock).core.enabled + {b} == {b};
  }

  lemma Cycles(cfg: Settings, w: World, b: Broker)
    requires b in w.core.enabled
    ensures Apply(cfg, w, CycleStarts([b])) == w.(procs := w.procs + [CycleAt([b])])
  {
  }

  lemma Connects(cfg: Settings, w: World, b: Broker, pairs: seq<string>)
    requires w.procs == [Connecting(b, [])] && ScanList(pairs) == pairs
    ensures Apply(cfg, w, Connected(0, true, pairs)) == w.(procs := [Scanning(b, [], pairs, 0, [])])
  {
    hide ScanList, Drop, Drained;
  }

  lemma CycleAnswered(cfg: Settings, w: World, i: nat, g: Generated, b: Broker, pairs: seq<string>, k: nat,
      cands: seq<Signal>)
    requires i < |w.procs| && w.procs[i] == Generating(b, [], pairs, k, cands) && k < |pairs| && g.Got?
    ensures Apply(cfg, w, SignalReady(i, g)) ==
      if Collects(cfg, w.core.trades, g) then
        w.(core := Checked(w.core, b, pairs[k], g, w.clock),
          procs := w.procs[i := Scanning(b, [], pairs, k + 1, cands + [g.signal.value])],
           collected := w.collected + [Collected(g.signal.value, w.core.trades)])
      else w.(core := Checked(w.core, b, pairs[k], g, w.clock),
        procs := w.procs[i := Scanning(b, [], pairs, k + 1, cands)])
  {
    hide Collects, Checked;
  }

  lemma ClashQueued(x: Scene)
    requires Playable(x)
    ensures var w := ClashAt(x, 2);
      Stage(x, w, x.clock, [x.g], Some(Later(x)), [], [])
        && w.core.nextId == 0 && w.core.lastCheck == map[] && w.sent == []
  {
    assert ClashAt(x, 0) == Start(x.clock);
    ClashStep(x, 0);
    ClashStep(x, 1);
    hide Playable, ClashAt, Apply;
    SwitchOn(x.cfg, x.clock, x.b);
    assert ClashAt(x, 1).core.lastOpen == map[];
    NothingOpen(Norm(x.g.pair));
    ArriveFirst(x, x.g, ClashAt(x, 1));
  }

  lemma ClashStarted(x: Scene)
    requires Playable(x)
    ensures var w := ClashAt(x, 3);
      Stage(x, w, x.clock, [x.g], Some(Later(x)), [], [CycleAt([x.b])])
        && w.core.nextId == 0 && w.core.lastCheck == map[] && w.sent == []
  {
    ClashQueued(x);
    ClashStep(x, 2);
    hide Playable, ClashAt, Apply;
    Cycles(x.cfg, ClashAt(x, 2), x.b);
  }

  lemma ClashConnected(x: Scene)
    requires Playable(x)
    ensures var w := ClashAt(x, 5);
      Stage(x, w, x.clock, [x.g], Some(Later(x)), [], [Scanning(x.b, [], Both(x), 0, [])])
        && w.core.nextId == 0 && w.core.lastCheck == map[] && w.sent == []
  {
    ClashStarted(x);
    ClashStep(x, 3);
    ClashStep(x, 4);
    hide ClashAt, Apply, ScanList, Sends, Ahead, Trim;
    var w, rest: seq<Broker> := ClashAt(x, 3), [];
    assert [x.b][1..] == rest;
    Turn(x.cfg, w, 0);
    assert w.procs[0 := Connecting(x.b, rest)] == [Connecting(x.b, [])];
    Connects(x.cfg, ClashAt(x, 4), x.b, Both(x));
  }

  lemma ClashAsked(x: Scene)
    requires Playable(x)
    ensures var w := ClashAt(x, 6);
      Stage(x, w, x.clock, [x.g], Some(Later(x)), [], [Generating(x.b, [], Both(x), 0, [])])
        && w.core.nextId == 0 && w.core.lastCheck == map[] && w.sent == []
  {
    ClashConnected(x);
    ClashStep(x, 5);
    hide ClashAt, Apply, ScanList, Sends, Ahead, Trim;
    Turn(x.cfg, ClashAt(x, 5), 0);
  }

  lemma ClashAnswered(x: Scene)
    requires Playable(x)
    ensures var w := ClashAt(x, 7);
      && Stage(x, w, x.clock, [x.g], Some(Later(x)), [], [Scanning(x.b, [], Both(x), 1, [x.g])])
        && w.core.nextId == 0 && w.sent == []
      && (x.b, x.e.pair) !in w.core.lastCheck
  {
    ClashAsked(x);
    ClashStep(x, 6);
    Traded(x);
    hide ClashAt, Apply, Playable, Collects;
    var none: seq<Signal> := [];
    CycleAnswered(x.cfg, ClashAt(x, 6), 0, Got(Some(x.g), None), x.b, Both(x), 0, []);
    assert none + [x.g] == [x.g];
  }

  lemma ClashPicked(x: Scene)
    requires Playable(x)
    ensures var w := ClashAt(x, 8);
      Stage(x, w, x.clock, [x.g], Some(Later(x)), [], [Generating(x.b, [], Both(x), 1, [x.g])])
        && w.core.nextId == 0 && w.sent == []
  {
    ClashAnswered(x);
    ClashStep(x, 7);
    hide ClashAt, Apply, ScanList, Sends, Ahead, Trim;
    Turn(x.cfg, ClashAt(x, 7), 0);
  }

  lemma Traded(x: Scene)
    requires Playable(x)
    ensures Collects(x.cfg, [], Got(Some(x.g), None)) && x.g.pair != x.e.pair
  {
    hide ScanList, Ahead, Trim, Gate, HasOpen;
  }

  lemma ClashWaited(x: Scene)
    requires Playable(x)
    ensures var w := ClashAt(x, 9);
      && Stage(x, w, Later(x), [x.g], Some(Later(x)), [], [Generating(x.b, [], Both(x), 1, [x.g])])
      && w.core.nextId == 0 && w.sent == []
  {
    ClashPicked(x);
    ClashStep(x, 8);
    hide ClashAt, Apply, Playable;
    Wait(x.cfg, ClashAt(x, 8), x.cfg.debounceMs);
  }

  lemma ClashFired(x: Scene)
    requires Playable(x)
    ensures var w := ClashAt(x, 10);
      && Stage(x, w, Later(x), [x.g], None, [], [Generating(x.b, [], Both(x), 1, [x.g]), Checking(x.b)])
      && w.core.nextId == 0 && w.sent == []
  {
    ClashWaited(x);
    ClashStep(x, 9);
    hide ClashAt, Apply, Playable;
    Fire(x.cfg, ClashAt(x, 9), x.b, Later(x));
  }

  lemma ClashDrained(x: Scene)
    requires Playable(x)
    ensures var w := ClashAt(x, 11);
      && Stage(x, w, Later(x), [], None, [], [Generating(x.b, [], Both(x), 1, [x.g]), Trying(x.b, [x.g], 0, [])])
      && w.core.nextId == 0 && w.sent == []
  {
    ClashFired(x);
    ClashStep(x, 10);
    RankedAlone(x.g);
    hide ClashAt, Apply, Playable, SortRanked;
    Drain(x.cfg, ClashAt(x, 10), x.b, 1, [x.g]);
  }

  lemma ClashFlushed(x: Scene)
    requires Playable(x)
    ensures var w := ClashAt(x, 12);
      && Stage(x, w, Later(x), [], None, [TradeOf(x, 0)],
               [Generating(x.b, [], Both(x), 1, [x.g]), Sending(x.b, [x.g], 0, [], Some(0))])
      && w.core.nextId == 1 && w.sent == [Sent(x.g, [], false, true)]
  {
    ClashDrained(x);
    ClashStep(x, 11);
    assert Sends(x.cfg, [], x.g);
    hide ClashAt, Apply, Playable, Sends;
    FlushSends(x.cfg, ClashAt(x, 11), x.b, 1, [x.g], 0, true);
  }

  lemma ClashScanned(x: Scene)
    requires Playable(x)
    ensures var w := ClashAt(x, 13);
      && Stage(x, w, Later(x), [], None, [TradeOf(x, 0)],
        [Scanning(x.b, [], Both(x), 2, [x.g]), Sending(x.b, [x.g], 0, [], Some(0))])
      && w.core.nextId == 1 && w.sent == [Sent(x.g, [], false, true)]
  {
    ClashFlushed(x);
    ClashStep(x, 12);
    hide ClashAt, Apply, Playable;
    CycleAnswered(x.cfg, ClashAt(x, 12), 0, Got(None, None), x.b, Both(x), 1, [x.g]);
  }

  lemma ClashRanked(x: Scene)
    requires Playable(x)
    ensures var w := ClashAt(x, 14);
      && Stage(x, w, Later(x), [], None, [TradeOf(x, 0)],
        [Ranked(x.b, [], [x.g], 0, 0), Sending(x.b, [x.g], 0, [], Some(0))])
      && w.core.nextId == 1 && w.sent == [Sent(x.g, [], false, true)]
  {
    ClashScanned(x);
    ClashStep(x, 13);
    RankedAlone(x.g);
    hide ClashAt, Apply, Playable, SortRanked;
    Turn(x.cfg, ClashAt(x, 13), 0);
  }

  lemma CycleSends(cfg: Settings, w: World, b: Broker, s: Signal)
    requires |w.procs| > 0 && w.procs[0] == Ranked(b, [], [s], 0, 0)
    ensures Apply(cfg, w, Next(0, true)).core == Register(w.core, s)
    ensures Apply(cfg, w, Next(0, true)).sent == w.sent + [Sent(s, w.core.trades, true, true)]
  {
    hide Register;
  }

  /** One symbol, two open trades: the guard of `TradePairSafety.UniqueExactlyWhenGuarded` can fail. */
  lemma CycleOpensTwice(x: Scene)
    requires Playable(x)
    ensures var w := After(x.cfg, x.clock, Clash(x, 15));
      && w.core.trades == [TradeOf(x, 0), TradeOf(x, 1)] && !OnePerPair(w.core.trades) && !AllGuarded(w.sent)
  {
    ClashRanked(x);
    ClashStep(x, 14);
    NormEmptyIff(x.g.pair);
    var w := ClashAt(x, 14);
    assert Trim(x.g.pair) != [] by {
      hide ClashAt, Gate, HasOpen, ScanList, Ahead;
    }
    assert After(x.cfg, x.clock, Clash(x, 15)) == ClashAt(x, 15);
    hide After, ClashAt, Apply, Playable, Norm, Trim, Clash;
    CycleSends(x.cfg, w, x.b, x.g);
    var trades, sent := ClashAt(x, 15).core.trades, ClashAt(x, 15).sent;
    assert OpenFor(trades[1], Norm(trades[0].pair));
    assert OpenFor([TradeOf(x, 0)][0], PairKey(x.g));
    assert !Guarded(sent[1]);
  }

  // ----- a flush reopens what another flush of the broker has opened -----

  /**
   * While the first flush waits for the broker's word on e, g is queued once more. The broker refuses e, the first
   * flush opens g, which closes at once, and the second flush reopens it.
   */
  function RequeueEvent(x: Scene, n: nat): Event {
    match n
    case 0 => Switch(x.b, true)
    case 1 => Arrive(x.b, x.e)
    case 2 => Arrive(x.b, x.g)
    case 3 => Tick(x.cfg.debounceMs)
    case 4 => TimerFires(x.b)
    case 5 => Connected(0, true, [])
    case 6 => Next(0, true)
    case 7 => Arrive(x.b, x.g)
    case 8 => Executed(0, Withdrawn)
    case 9 => Next(0, true)
    case 10 => Tick(x.cfg.debounceMs)
    case 11 => Executed(0, Opened)
    case 12 => CloseTrade(1)
    case 13 => TimerFires(x.b)
    case 14 => Connected(1, true, [])
    case 15 => Next(1, true)
    case _ => Executed(1, Opened)
  }

  function Requeue(x: Scene, n: nat): seq<Event> { if n == 0 then [] else Requeue(x, n - 1) + [RequeueEvent(x, n - 1)] }

  function RequeueAt(x: Scene, n: nat): World { After(x.cfg, x.clock, Requeue(x, n)) }

  lemma RequeueStep(x: Scene, n: nat)
    ensures RequeueAt(x, n + 1) == Apply(x.cfg, RequeueAt(x, n), RequeueEvent(x, n))
  {
    AfterOneMore(x.cfg, x.clock, Requeue(x, n), RequeueEvent(x, n));
    hide After, Apply, RequeueEvent;
  }

  function Pair(x: Scene): seq<Signal> { [x.e, x.g] }

  lemma NothingOpen(wanted: string)
    ensures !HasOpen([], wanted)
  {
  }

  lemma OtherIsOpen(x: Scene)
    requires Playable(x)
    ensures !HasOpen([OtherTrade(x)], Norm(x.g.pair))
  {
    hide Sends, ScanList, Ahead, Norm;
  }

  lemma RequeueQueued(x: Scene)
    requires Playable(x)
    ensures var w := RequeueAt(x, 3);
      && Stage(x, w, x.clock, Pair(x), Some(Later(x)), [], []) && w.core.nextId == 0
      && w.core.lastOpen == map[] && w.opens == []
  {
    assert RequeueAt(x, 0) == Start(x.clock);
    RequeueStep(x, 0);
    RequeueStep(x, 1);
    RequeueStep(x, 2);
    hide Playable, RequeueAt, Apply, HasOpen;
    SwitchOn(x.cfg, x.clock, x.b);
    assert RequeueAt(x, 1).core.lastOpen == map[];
    NothingOpen(Norm(x.e.pair));
    ArriveFirst(x, x.e, RequeueAt(x, 1));
    ArriveSecond(x, RequeueAt(x, 2));
  }

  lemma RequeueFired(x: Scene)
    requires Playable(x)
    ensures var w := RequeueAt(x, 5);
      && Stage(x, w, Later(x), Pair(x), None, [], [Checking(x.b)]) && w.core.nextId == 0
      && w.core.lastOpen == map[] && w.opens == []
  {
    RequeueQueued(x);
    RequeueStep(x, 3);
    RequeueStep(x, 4);
    hide Playable, RequeueAt, Apply;
    Wait(x.cfg, RequeueAt(x, 3), x.cfg.debounceMs);
    Fire(x.cfg, RequeueAt(x, 4), x.b, Later(x));
  }

  lemma RequeueWaiting(x: Scene)
    requires Playable(x)
    ensures var w := RequeueAt(x, 7);
      && Stage(x, w, Later(x), [], None, [OtherTrade(x)], [Sending(x.b, Pair(x), 0, [], Some(0))]) && w.core.nextId == 1
      && w.core.lastOpen == map[] && w.opens == []
  {
    RequeueFired(x);
    RequeueStep(x, 5);
    RequeueStep(x, 6);
    assert Ahead(x.e, x.g) && Sends(x.cfg, [], x.e);
    RankedPair(x.e, x.g);
    hide Playable, RequeueAt, Apply, SortRanked, Ahead, Sends;
    Drain(x.cfg, RequeueAt(x, 5), x.b, 0, Pair(x));
    assert RequeueAt(x, 6).procs == [Trying(x.b, Pair(x), 0, [])];
    FlushSends(x.cfg, RequeueAt(x, 6), x.b, 0, Pair(x), 0, true);
  }

  lemma RequeueArrived(x: Scene)
    requires Playable(x)
    ensures var w := RequeueAt(x, 8);
      && Stage(x, w, Later(x), [x.g], Some(MuchLater(x)), [OtherTrade(x)], [Sending(x.b, Pair(x), 0, [], Some(0))])
      && w.core.nextId == 1 && w.core.lastOpen == map[] && w.opens == []
  {
    RequeueWaiting(x);
    RequeueStep(x, 7);
    OtherIsOpen(x);
    hide Playable, RequeueAt, Apply, HasOpen;
    ArriveFirst(x, x.g, RequeueAt(x, 7));
  }

  lemma RequeueQueuedAgain(x: Scene)
    requires Playable(x)
    ensures var w := RequeueAt(x, 9);
      && Stage(x, w, Later(x), [x.g], Some(MuchLater(x)), [], [Trying(x.b, Pair(x), 1, [])]) && w.core.nextId == 1
      && w.core.lastOpen == map[] && w.opens == []
  {
    RequeueArrived(x);
    RequeueStep(x, 8);
    hide Playable, RequeueAt, Apply;
    FlushWithdrawn(x.cfg, RequeueAt(x, 8), x.b, 0, Pair(x), 0, OtherTrade(x));
  }

  lemma RequeueSent(x: Scene)
    requires Playable(x)
    ensures var w := RequeueAt(x, 11);
      && Stage(x, w, MuchLater(x), [x.g], Some(MuchLater(x)), [TradeOf(x, 1)], [Sending(x.b, Pair(x), 1, [], Some(1))])
      && w.core.nextId == 2 && w.core.lastOpen == map[] && w.opens == []
  {
    RequeueQueuedAgain(x);
    RequeueStep(x, 9);
    RequeueStep(x, 10);
    assert Sends(x.cfg, [], x.g);
    hide Playable, RequeueAt, Apply, Sends;
    FlushSends(x.cfg, RequeueAt(x, 9), x.b, 0, Pair(x), 1, true);
    Wait(x.cfg, RequeueAt(x, 10), x.cfg.debounceMs);
  }

  /** The open of g, its pair last opened at `previous`. */
  function OpenOfG(x: Scene, previous: int): RealtimeOpen { RealtimeOpen(x.b, Trim(x.g.pair), MuchLater(x), previous) }

  lemma RequeueOpened(x: Scene)
    requires Playable(x)
    ensures var w := RequeueAt(x, 12);
      && Stage(x, w, MuchLater(x), [x.g], Some(MuchLater(x)), [TradeOf(x, 1)], [Trying(x.b, Pair(x), 2, [1])])
        && w.core.nextId == 2
      && w.core.lastOpen == map[(x.b, Trim(x.g.pair)) := MuchLater(x)] && w.opens == [OpenOfG(x, 0)]
  {
    RequeueSent(x);
    RequeueStep(x, 11);
    hide Playable, RequeueAt, Apply, Trim;
    FlushOpens(x.cfg, RequeueAt(x, 11), x.b, 0, Pair(x), 1, 1);
    assert RequeueAt(x, 11).core.lastOpen == map[] && OpenOf(RequeueAt(x, 11), x.b, x.g) == OpenOfG(x, 0);
  }

  lemma RequeueOpenedOnce(x: Scene)
    requires Playable(x)
    ensures var w := RequeueAt(x, 13);
      && Stage(x, w, MuchLater(x), [x.g], Some(MuchLater(x)), [], [Trying(x.b, Pair(x), 2, [1])]) && w.core.nextId == 2
      && w.core.lastOpen == map[(x.b, Trim(x.g.pair)) := MuchLater(x)] && w.opens == [OpenOfG(x, 0)]
  {
    RequeueOpened(x);
    RequeueStep(x, 12);
    hide Playable, RequeueAt, Apply, Trim;
    Close(x.cfg, RequeueAt(x, 12), TradeOf(x, 1));
  }

  lemma RequeueDrainedAgain(x: Scene)
    requires Playable(x)
    ensures var w := RequeueAt(x, 15);
      && Stage(x, w, MuchLater(x), [], None, [], [Trying(x.b, Pair(x), 2, [1]), Trying(x.b, [x.g], 0, [])])
        && w.core.nextId == 2
      && w.core.lastOpen == map[(x.b, Trim(x.g.pair)) := MuchLater(x)] && w.opens == [OpenOfG(x, 0)]
  {
    RequeueOpenedOnce(x);
    RequeueStep(x, 13);
    RequeueStep(x, 14);
    RankedAlone(x.g);
    hide Playable, RequeueAt, Apply, SortRanked, Trim;
    Fire(x.cfg, RequeueAt(x, 13), x.b, MuchLater(x));
    assert RequeueAt(x, 14).procs == [Trying(x.b, Pair(x), 2, [1]), Checking(x.b)];
    Drain(x.cfg, RequeueAt(x, 14), x.b, 1, [x.g]);
  }

  lemma RequeueOpenedTwice(x: Scene)
    requires Playable(x)
    ensures RequeueAt(x, 17).opens == [OpenOfG(x, 0), OpenOfG(x, MuchLater(x))]
  {
    RequeueDrainedAgain(x);
    RequeueStep(x, 15);
    RequeueStep(x, 16);
    assert Sends(x.cfg, [], x.g);
    hide Playable, RequeueAt, Apply, Sends, Trim;
    FlushSends(x.cfg, RequeueAt(x, 15), x.b, 1, [x.g], 0, true);
    assert RequeueAt(x, 16).procs == [Trying(x.b, Pair(x), 2, [1]), Sending(x.b, [x.g], 0, [], Some(2))];
    FlushOpens(x.cfg, RequeueAt(x, 16), x.b, 1, [x.g], 0, 2);
    assert OpenOf(RequeueAt(x, 16), x.b, x.g) == OpenOfG(x, MuchLater(x));
  }

  /** One broker and symbol opened twice in the same millisecond, whatever the cooldown. */
  lemma RequeuedSignalBreaksCooldown(x: Scene)
    requires Playable(x) && x.cfg.cooldownMs > 0
    ensures var opens := After(x.cfg, x.clock, Requeue(x, 17)).opens;
      !Spaced(x.cfg, opens) && !AllOpensRested(x.cfg, opens)
  {
    RequeueOpenedTwice(x);
    assert After(x.cfg, x.clock, Requeue(x, 17)) == RequeueAt(x, 17);
    assert MuchLater(x) > 0;
    hide After, RequeueAt, Trim, Requeue, Sends, ScanList, Ahead;
    var opens := RequeueAt(x, 17).opens;
    assert SameSlot(opens[0], opens[1]) && !Rested(x.cfg, opens[1]);
  }

  // ----- there are such scenes -----

  const LENIENT :=
    Settings(0.0, 0.0, false, 0.0, 0.0, 0.0, false, pair => true, true, 500, 180000, None, 0)
  const GOLD := Signal("XAUUSD", true, Enter, None, None, None, true)
  const EURO := Signal("EURUSD", true, Enter, None, None, None, true)
  const GOLD_AND_EURO := Scene(LENIENT, 1, "mt5", GOLD, EURO)

  lemma Names()
    ensures Trim("XAUUSD") == "XAUUSD" && Trim("EURUSD") == "EURUSD"
      && "XAUUSD" != "EURUSD" && Upper("XAUUSD") != Upper("EURUSD")
  {
    assert "XAUUSD"[0] != "EURUSD"[0];
    assert Upper("XAUUSD")[0] == 'X' && Upper("EURUSD")[0] == 'E';
  }

  lemma TwoPairs(p: string, q: string)
    requires Trim(p) == p != [] && Trim(q) == q != [] && Upper(p) != Upper(q)
    ensures ScanList([p, q]) == [p, q]
  {
    hide Trim, Upper;
    var none: seq<string> := [];
    assert [p, q][..1] == [p] && [p][..0] == none && none + [p] == [p] && [p] + [q] == [p, q];
    assert ScanList([p]) == [p];
  }

  lemma GoldAndEuroArePlayable()
    ensures Playable(GOLD_AND_EURO)
  {
    Names();
    TwoPairs("XAUUSD", "EURUSD");
    hide Trim, Upper, ScanList;
  }
}
