/**
 * All interleavings of the manager's asynchronous work: debounced flushes, scheduled cycles, signals arriving,
 * trades closing and brokers being switched. Every await of the source is a point where other steps may come between.
 */
module TradeRuns {
  import opened Prelude
  import opened TradeGate
  import opened TradeManager

  /** A running flush or cycle, at the place where it last gave up control. */
  datatype Proc =
    // flush awaits connectivity
    | Checking(b: Broker)
    // flush before its next candidate
    | Trying(b: Broker, drained: seq<Signal>, pos: nat, filled: seq<nat>)
    // flush awaits executeTrade
    | Sending(b: Broker, drained: seq<Signal>, pos: nat, filled: seq<nat>, ticket: Option<nat>)
    // flush that gave up
    | Gone
    // cycle before its next broker
    | CycleAt(rest: seq<Broker>)
    // cycle awaits connectivity
    | Connecting(b: Broker, rest: seq<Broker>)
    // before pair k
    | Scanning(b: Broker, rest: seq<Broker>, pairs: seq<string>, k: nat, cands: seq<Signal>)
    // awaits the signal of pair k
    | Generating(b: Broker, rest: seq<Broker>, pairs: seq<string>, k: nat, cands: seq<Signal>)
    // before candidate pos
    | Ranked(b: Broker, rest: seq<Broker>, cands: seq<Signal>, pos: nat, count: nat)
    // awaits executeTrade
    | Opening(b: Broker, rest: seq<Broker>, cands: seq<Signal>, pos: nat, count: nat, ticket: Option<nat>)

  /** A trade opened by a flush; `previous` is what the cooldown table held for its pair until then. */
  datatype RealtimeOpen = RealtimeOpen(b: Broker, pair: string, at: int, previous: int)

  /**
   * A signal handed to `executeTrade` by a flush or a cycle, with the trades open at that moment and whether one was
   * registered for it.
   */
  datatype Sent = Sent(s: Signal, trades: seq<Trade>, scheduled: bool, registered: bool)

  /** A signal that passed the gate of a cycle, with the trades open then. */
  datatype Collected = Collected(s: Signal, trades: seq<Trade>)

  /** `since` records the signals accepted for a broker since its queue was last drained or dropped. */
  datatype World = World(
    clock: int, core: Core, procs: seq<Proc>,
    since: map<Broker, seq<Signal>>, opens: seq<RealtimeOpen>, sent: seq<Sent>,
    collected: seq<Collected>)

  datatype Event =
    | Tick(ms: nat)
    | Switch(broker: Broker, on: bool)
    | Arrive(broker: Broker, s: Signal)
    | TimerFires(broker: Broker)
    | CycleStarts(brokers: seq<Broker>)
    | CloseTrade(id: nat)
    | Next(i: nat, registers: bool)
    | Connected(i: nat, ok: bool, listed: seq<string>)
    | SignalReady(i: nat, g: Generated)
    | Executed(i: nat, answer: Answer)

  function Start(clock: int): World { World(clock, Core({}, map[], map[], map[], map[], [], 0), [], map[], [], [], []) }

  predicate Unfinished(cfg: Settings, p: Proc) {
    (p.Trying? || p.Sending?) && p.pos < |p.drained| && |p.filled| < Cap(cfg)
  }

  predicate Enabled(cfg: Settings, w: World, e: Event) {
    match e
    case TimerFires(b) => b in w.core.timers && w.core.timers[b] <= w.clock
    case CycleStarts(bs) => forall b :: b in bs ==> b in w.core.enabled
    case Next(i, _) =>
      i < |w.procs| && (
        match w.procs[i]
        case Trying(_, _, _, _) => Unfinished(cfg, w.procs[i])
        case CycleAt(rest) => rest != []
        case Scanning(_, _, _, _, _) => true
        case Ranked(_, _, _, _, _) => true
        case _ => false)
    case Connected(i, _, _) => i < |w.procs| && (w.procs[i].Checking? || w.procs[i].Connecting?)
    case SignalReady(i, _) => i < |w.procs| && w.procs[i].Generating? && w.procs[i].k < |w.procs[i].pairs|
    case Executed(i, answer) =>
      i < |w.procs| && InHand(cfg, w.procs[i]).Some? && (w.procs[i].ticket.None? <==> answer.Refused?)
    case _ => true
  }

  /** The signal whose execution a process awaits. */
  function InHand(cfg: Settings, p: Proc): (s: Option<Signal>)
    ensures s.Some? ==> p.Sending? || p.Opening?
  {
    if p.Sending? && Unfinished(cfg, p) then Some(p.drained[p.pos])
    else if p.Opening? && p.pos < |p.cands| then Some(p.cands[p.pos])
    else None
  }

  /**
   * The signal a process hands to `executeTrade` when it is its turn: a flush checks it once more, a cycle does not.
   */
  function Tries(cfg: Settings, trades: seq<Trade>, p: Proc): Option<Signal> {
    if p.Trying? && Unfinished(cfg, p) && Sends(cfg, trades, p.drained[p.pos]) then Some(p.drained[p.pos])
    else if p.Ranked? && p.pos < |p.cands| && p.count < Cap(cfg) then Some(p.cands[p.pos])
    else None
  }

  /** Where a process goes when it is its turn at a loop head. */
  function AfterNext(cfg: Settings, w: World, p: Proc, ticket: Option<nat>): Proc
    requires p.Trying? ==> p.pos < |p.drained|
    requires p.CycleAt? ==> p.rest != []
  {
    match p
    case Trying(b, drained, pos, filled) =>
      if Sends(cfg, w.core.trades, drained[pos])
        then Sending(b, drained, pos, filled, ticket)
        else Trying(b, drained, pos + 1, filled)
    case CycleAt(rest) => if rest[0] in w.core.enabled then Connecting(rest[0], rest[1..]) else CycleAt(rest[1..])
    case Scanning(b, rest, pairs, k, cands) =>
      if k >= |pairs| then Ranked(b, rest, SortRanked(cands), 0, 0)
      else if w.clock - LastCheck(w.core, b, pairs[k]) < cfg.signalCheckMs then Scanning(b, rest, pairs, k + 1, cands)
      else Generating(b, rest, pairs, k, cands)
    case Ranked(b, rest, cands, pos, count) =>
      if pos < |cands| && count < Cap(cfg) then Opening(b, rest, cands, pos, count, ticket) else CycleAt(rest)
    case _ => p
  }

  function AfterSignal(cfg: Settings, w: World, p: Proc, g: Generated): Proc
    requires p.Generating?
  {
    if Collects(cfg, w.core.trades, g) then
      Scanning(p.b, p.rest, p.pairs, p.k + 1, p.cands + [g.signal.value])
    else Scanning(p.b, p.rest, p.pairs, p.k + 1, p.cands)
  }

  function OpenOf(w: World, b: Broker, s: Signal): RealtimeOpen {
    RealtimeOpen(b, Trim(s.pair), w.clock, LastOpen(w.core, b, Trim(s.pair)))
  }

  function Apply(cfg: Settings, w: World, e: Event): World {
    if !Enabled(cfg, w, e) then w
    else
      match e
      case Tick(ms) => w.(clock := w.clock + ms)
      case Switch(b, on) => w.(core := w.core.(enabled := if on then w.core.enabled + {b} else w.core.enabled - {b}))
      case Arrive(b, s) =>
        if Accepts(cfg, w.core, b, s, w.clock) then
          w.(core := Enqueue(cfg, w.core, b, s, w.clock), since := w.since[b := Queued(w.since, b) + [s]])
        else w
      case TimerFires(b) =>
        w.(core := FlushStart(w.core, b),
           procs := w.procs + [if b in w.core.enabled then Checking(b) else Gone],
           since := if b in w.core.enabled then w.since else w.since - {b})
      case CycleStarts(bs) => w.(procs := w.procs + [CycleAt(bs)])
      case CloseTrade(id) => w.(core := w.core.(trades := Without(w.core.trades, id)))
      case Next(i, registers) =>
        var p := w.procs[i];
        var s := Tries(cfg, w.core.trades, p);
        w.(procs := w.procs[i := AfterNext(cfg, w, p, if registers then Some(w.core.nextId) else None)],
           core := if s.Some? && registers then Register(w.core, s.value) else w.core,
           sent := if s.Some? then w.sent + [Sent(s.value, w.core.trades, p.Ranked?, registers)] else w.sent)
      case Connected(i, ok, listed) =>
        var p := w.procs[i];
        if p.Checking? then
          w.(core := Drop(w.core, p.b), since := w.since - {p.b},
             procs := w.procs[i := if ok then Trying(p.b, Drained(w.core, p.b), 0, []) else Gone])
        else w.(procs := w.procs[i := if ok then Scanning(p.b, p.rest, ScanList(listed), 0, []) else CycleAt(p.rest)])
      case SignalReady(i, g) =>
        var p := w.procs[i];
        w.(core := Checked(w.core, p.b, p.pairs[p.k], g, w.clock), procs := w.procs[i := AfterSignal(cfg, w, p, g)],
           collected := if Collects(cfg, w.core.trades, g)
             then w.collected + [Collected(g.signal.value, w.core.trades)] else w.collected)
      case Executed(i, answer) =>
        var p := w.procs[i];
        var s := InHand(cfg, p).value;
        if p.Sending? then
          w.(core := SettleRealtime(w.core, p.b, s, p.ticket, answer, w.clock),
             opens := if answer.Opened? then w.opens + [OpenOf(w, p.b, s)] else w.opens,
             procs := w.procs[i := Trying(p.b, p.drained, p.pos + 1,
               if answer.Opened? then p.filled + [p.pos] else p.filled)])
        else
          w.(core := Settle(w.core, p.ticket, answer),
             procs := w.procs[i := Ranked(p.b, p.rest, p.cands, p.pos + 1,
               if answer.Opened? then p.count + 1 else p.count)])
  }

  function After(cfg: Settings, clock: int, es: seq<Event>): World {
    if es == [] then Start(clock) else Apply(cfg, After(cfg, clock, es[..|es| - 1]), es[|es| - 1])
  }

  lemma AfterOneMore(cfg: Settings, clock: int, es: seq<Event>, e: Event)
    ensures After(cfg, clock, es + [e]) == Apply(cfg, After(cfg, clock, es), e)
  {
    hide Apply;
    assert (es + [e])[..|es|] == es;
  }

  // ----- an undisturbed flush is a run -----

  /** Process i takes its next n turns, each candidate sent being answered at once. */
  function Answered(cfg: Settings, w: World, i: nat, answers: seq<Answer>, n: nat): World
    requires n <= |answers|
  {
    if n == 0 then w
    else
      var a := answers[n - 1];
      Apply(cfg, Apply(cfg, Answered(cfg, w, i, answers, n - 1), Next(i, !a.Refused?)), Executed(i, a))
  }

  /** One turn of flush i, whose candidates so far led to `q`. */
  lemma TurnIsPrefixStep(cfg: Settings, w: World, i: nat, a: Answer, b: Broker, drained: seq<Signal>, pos: nat,
      q: Progress)
    requires i < |w.procs| && w.core == q.core && w.procs[i] == Trying(b, drained, pos, q.filled) && pos < |drained|
    ensures var w' := Apply(cfg, Apply(cfg, w, Next(i, !a.Refused?)), Executed(i, a));
      && i < |w'.procs| && w'.clock == w.clock
      && if |q.filled| >= Cap(cfg) then w' == w
         else if !Sends(cfg, w.core.trades, drained[pos]) then
           w'.core == q.core && w'.procs[i] == Trying(b, drained, pos + 1, q.filled)
         else
           w'.core == AttemptRealtime(q.core, b, drained[pos], a, w.clock)
           && w'.procs[i] == Trying(b, drained, pos + 1, if a.Opened? then q.filled + [pos] else q.filled)
  {
    hide Sends, Register, SettleRealtime, Cap;
    RefusedIsNothing(w.core, b, drained[pos], w.clock);
  }

  lemma RefusedIsNothing(core: Core, b: Broker, s: Signal, clock: int)
    ensures SettleRealtime(core, b, s, None, Refused, clock) == core
  {
  }

  /**
   * The executor loop run in place is the machine's flush with nothing in between: same trades, same cooldowns, same
   * picks.
   */
  lemma {:induction false} FlushInPlaceIsRun(cfg: Settings, w: World, i: nat, b: Broker, drained: seq<Signal>,
      answers: seq<Answer>, n: nat)
    requires i < |w.procs| && w.procs[i] == Trying(b, drained, 0, []) && n <= |drained| == |answers|
    ensures var w', q := Answered(cfg, w, i, answers, n), FlushPrefix(cfg, w.core, b, drained, answers, w.clock, n);
      && w'.core == q.core && w'.clock == w.clock && i < |w'.procs| && w'.procs[i].Trying?
      && w'.procs[i].b == b && w'.procs[i].drained == drained && w'.procs[i].filled == q.filled
      && (if |q.filled| >= Cap(cfg) then w'.procs[i].pos <= n else w'.procs[i].pos == n)
  {
    hide Apply, Sends, AttemptRealtime, Cap;
    if n == 0 {
    } else {
      FlushInPlaceIsRun(cfg, w, i, b, drained, answers, n - 1);
      var w', q := Answered(cfg, w, i, answers, n - 1), FlushPrefix(cfg, w.core, b, drained, answers, w.clock, n - 1);
      PrefixStep(cfg, w.core, b, drained, answers, w.clock, n - 1);
      hide Answered, FlushPrefix;
      if w'.procs[i].pos < |drained| {
        TurnIsPrefixStep(cfg, w', i, answers[n - 1], b, drained, w'.procs[i].pos, q);
      }
    }
  }

  // ----- so is an undisturbed scan and execution of one broker in a cycle -----

  /** The cycle takes n turns over its pairs, each request for a signal being answered at once. */
  function ScannedBy(cfg: Settings, w: World, i: nat, answers: seq<Generated>, n: nat): World
    requires n <= |answers|
  {
    if n == 0 then w
    else Apply(cfg, Apply(cfg, ScannedBy(cfg, w, i, answers, n - 1), Next(i, false)), SignalReady(i, answers[n - 1]))
  }

  lemma TurnIsScanStep(cfg: Settings, w: World, i: nat, g: Generated, b: Broker, rest: seq<Broker>, pairs: seq<string>,
      k: nat, cands: seq<Signal>)
    requires i < |w.procs| && w.procs[i] == Scanning(b, rest, pairs, k, cands) && k < |pairs|
    ensures var w' := Apply(cfg, Apply(cfg, w, Next(i, false)), SignalReady(i, g));
      && i < |w'.procs| && w'.clock == w.clock
      && if w.clock - LastCheck(w.core, b, pairs[k]) < cfg.signalCheckMs then
           w'.core == w.core && w'.procs[i] == Scanning(b, rest, pairs, k + 1, cands)
         else
           w'.core == Checked(w.core, b, pairs[k], g, w.clock)
           && w'.procs[i] == Scanning(b, rest, pairs, k + 1,
             if Collects(cfg, w.core.trades, g) then cands + [g.signal.value] else cands)
  {
    hide LastCheck, Checked, Collects;
  }

  lemma {:induction false} ScanInPlaceIsRun(
      cfg: Settings, w: World, i: nat, b: Broker, rest: seq<Broker>,
      pairs: seq<string>, answers: seq<Generated>, n: nat)
    requires i < |w.procs| && w.procs[i] == Scanning(b, rest, pairs, 0, []) && n <= |pairs| == |answers|
    ensures var w', q := ScannedBy(cfg, w, i, answers, n), ScanPrefix(cfg, w.core, b, pairs, answers, w.clock, n);
      && w'.core == q.core && w'.clock == w.clock && i < |w'.procs|
      && w'.procs[i] == Scanning(b, rest, pairs, n, q.cands)
  {
    hide Apply, LastCheck, Checked, Collects;
    if n == 0 {
    } else {
      ScanInPlaceIsRun(cfg, w, i, b, rest, pairs, answers, n - 1);
      var w', q := ScannedBy(cfg, w, i, answers, n - 1), ScanPrefix(cfg, w.core, b, pairs, answers, w.clock, n - 1);
      TurnIsScanStep(cfg, w', i, answers[n - 1], b, rest, pairs, n - 1, q.cands);
    }
  }

  lemma TurnIsCycleStep(cfg: Settings, w: World, i: nat, a: Answer, b: Broker, rest: seq<Broker>, cands: seq<Signal>,
      pos: nat, count: nat)
    requires i < |w.procs| && w.procs[i] == Ranked(b, rest, cands, pos, count) && pos < |cands| && count < Cap(cfg)
    ensures var w' := Apply(cfg, Apply(cfg, w, Next(i, !a.Refused?)), Executed(i, a));
      && i < |w'.procs| && w'.core == Attempt(w.core, cands[pos], a)
      && w'.procs[i] == Ranked(b, rest, cands, pos + 1, if a.Opened? then count + 1 else count)
  {
    hide Cap, Register;
  }

  /** Until the cap is reached, every candidate is executed in rank order, with no second look at the open trades. */
  lemma {:induction false} CycleInPlaceIsRun(
      cfg: Settings, w: World, i: nat, b: Broker, rest: seq<Broker>, cands: seq<Signal>, answers: seq<Answer>, n: nat)
    requires i < |w.procs| && w.procs[i] == Ranked(b, rest, cands, 0, 0) && n <= |cands| == |answers|
    requires n > 0 ==> CyclePrefix(cfg, w.core, cands, answers, n - 1).count < Cap(cfg)
    ensures var w', q := Answered(cfg, w, i, answers, n), CyclePrefix(cfg, w.core, cands, answers, n);
      && w'.core == q.core && i < |w'.procs| && w'.procs[i] == Ranked(b, rest, cands, n, q.count)
  {
    hide Cap, Attempt, Apply;
    if n == 0 {
    } else {
      CycleInPlaceIsRun(cfg, w, i, b, rest, cands, answers, n - 1);
      TurnIsCycleStep(cfg, Answered(cfg, w, i, answers, n - 1), i, answers[n - 1], b, rest, cands, n - 1,
                      CyclePrefix(cfg, w.core, cands, answers, n - 1).count);
    }
  }
}
