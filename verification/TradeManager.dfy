/**
 * The realtime queue and the two executors of trade-manager.js. The functions say what each piece between two
 * awaits makes of the manager's state; class `Manager` performs them in place.
 */
module TradeManager {
  import opened Prelude
  import opened TradeGate

  type Broker = string

  /**
   * `queue` holds per broker one candidate per pair, in the order in which the pairs were first queued; `timers` says
   * when flushes are due.
   */
  datatype Core = Core(
    enabled: set<Broker>, queue: map<Broker, seq<Signal>>,
    timers: map<Broker, int>, lastOpen: map<(Broker, string), int>,
    lastCheck: map<(Broker, string), int>, trades: seq<Trade>, nextId: nat)

  // ----- queueing -----

  function Score(s: Signal): real { Or(s.score, -1.0) }

  function Queued(queue: map<Broker, seq<Signal>>, b: Broker): seq<Signal> { if b in queue then queue[b] else [] }

  /** Replaces the candidate of the same pair unless it scores higher, else appends. */
  function Upsert(q: seq<Signal>, s: Signal): seq<Signal> {
    if q == [] then [s]
    else if Trim(q[0].pair) == Trim(s.pair) then [if Score(s) >= Score(q[0]) then s else q[0]] + q[1..]
    else [q[0]] + Upsert(q[1..], s)
  }

  function LastOpen(core: Core, b: Broker, pair: string): int {
    if (b, pair) in core.lastOpen then core.lastOpen[(b, pair)] else 0
  }

  predicate CoolingDown(cfg: Settings, core: Core, b: Broker, pair: string, clock: int) {
    cfg.cooldownMs > 0 && LastOpen(core, b, pair) != 0 && clock - LastOpen(core, b, pair) < cfg.cooldownMs
  }

  predicate Accepts(cfg: Settings, core: Core, b: Broker, s: Signal, clock: int) {
    && cfg.realtimeEnabled && b in core.enabled && s.isValid && Trim(s.pair) != []
    && !HasOpen(core.trades, Norm(s.pair)) && !CoolingDown(cfg, core, b, Trim(s.pair), clock)
  }

  /** An armed timer is left alone. */
  function Arm(timers: map<Broker, int>, b: Broker, due: int): map<Broker, int> {
    if b in timers then timers else timers[b := due]
  }

  function Enqueue(cfg: Settings, core: Core, b: Broker, s: Signal, clock: int): Core {
    if !Accepts(cfg, core, b, s, clock) then core
    else core.(queue := core.queue[b := Upsert(Queued(core.queue, b), s)],
      timers := Arm(core.timers, b, clock + cfg.debounceMs))
  }

  // ----- flushing -----

  function Drop(core: Core, b: Broker): Core { core.(queue := core.queue - {b}) }

  /** Up to the connectivity check: the timer is gone, a disabled broker's candidates are dropped. */
  function FlushStart(core: Core, b: Broker): Core {
    var c := core.(timers := core.timers - {b});
    if b in core.enabled then c else Drop(c, b)
  }

  /** The candidates a connected flush takes out of the queue, best first. */
  function Drained(core: Core, b: Broker): seq<Signal> { SortRanked(Queued(core.queue, b)) }

  /** Whether the executor sends this candidate to `executeTrade` now. */
  predicate Sends(cfg: Settings, trades: seq<Trade>, s: Signal) {
    Trim(s.pair) != [] && cfg.allowed(Trim(s.pair))
      && !HasOpen(trades, Norm(s.pair)) && Gate(cfg, trades, s, None) == None
  }

  /** A flush hands over exactly the candidates with a pair that are fit at that moment. */
  lemma SendsIffFit(cfg: Settings, trades: seq<Trade>, s: Signal)
    ensures Sends(cfg, trades, s) <==> Trim(s.pair) != [] && FitToTrade(cfg, trades, s)
  {
    GatePassesIff(cfg, trades, s, None);
    hide HasOpen, Norm, Trim, Gate;
  }

  // ----- execution -----

  /**
   * How `executeTrade` answers: refused before it registered a trade, withdrawn by the broker, failed with the trade
   * left registered, or opened. Registration happens before its first await, so nobody sees a trade missing that is
   * being executed.
   */
  datatype Answer = Refused | Withdrawn | Faulted | Opened

  /** One new open trade for the signal's pair. */
  function Register(core: Core, s: Signal): Core {
    core.(trades := core.trades + [Trade(core.nextId, s.pair, true)], nextId := core.nextId + 1)
  }

  /** `activeTrades.delete`. */
  function Without(trades: seq<Trade>, id: nat): seq<Trade> {
    if trades == [] then []
    else if trades[|trades| - 1].id == id then Without(trades[..|trades| - 1], id)
    else Without(trades[..|trades| - 1], id) + [trades[|trades| - 1]]
  }

  /** The engine's side of an answer: a withdrawn trade leaves the table. */
  function Settle(core: Core, ticket: Option<nat>, a: Answer): Core {
    if ticket.Some? && a.Withdrawn? then core.(trades := Without(core.trades, ticket.value)) else core
  }

  /** The manager's side of a flush: an opened trade starts the cooldown of its pair. */
  function SettleRealtime(core: Core, b: Broker, s: Signal, ticket: Option<nat>, a: Answer, clock: int): Core {
    var settled := Settle(core, ticket, a);
    if a.Opened? then settled.(lastOpen := core.lastOpen[(b, Trim(s.pair)) := clock]) else settled
  }

  /** Execution with nothing in between. */
  function Attempt(core: Core, s: Signal, a: Answer): Core {
    if a.Refused? then core else Settle(Register(core, s), Some(core.nextId), a)
  }

  function AttemptRealtime(core: Core, b: Broker, s: Signal, a: Answer, clock: int): Core {
    if a.Refused? then core else SettleRealtime(Register(core, s), b, s, Some(core.nextId), a, clock)
  }

  // ----- an undisturbed flush -----

  /**
   * State and filled positions after the first n candidates; `answers[k]` is the engine's answer should candidate k be
   * sent.
   */
  datatype Progress = Progress(core: Core, filled: seq<nat>)

  function FlushPrefix(cfg: Settings, core: Core, b: Broker, drained: seq<Signal>, answers: seq<Answer>, clock: int,
      n: nat): Progress
    requires n <= |drained| == |answers|
  {
    if n == 0 then Progress(core, [])
    else
      var p := FlushPrefix(cfg, core, b, drained, answers, clock, n - 1);
      if |p.filled| >= Cap(cfg) || !Sends(cfg, p.core.trades, drained[n - 1]) then p
      else Progress(AttemptRealtime(p.core, b, drained[n - 1], answers[n - 1], clock),
                    if answers[n - 1].Opened? then p.filled + [n - 1] else p.filled)
  }

  // ----- an undisturbed scan and execution of one broker in a scheduled cycle -----

  /** The answer to a request for a signal: an exception, or perhaps a signal, perhaps with the bridge's advice. */
  datatype Generated = Thrown | Got(signal: Option<Signal>, hint: Option<bool>)

  function LastCheck(core: Core, b: Broker, pair: string): int {
    if (b, pair) in core.lastCheck then core.lastCheck[(b, pair)] else 0
  }

  /** An exception leaves the pair unchecked. */
  function Checked(core: Core, b: Broker, pair: string, g: Generated, clock: int): Core {
    if g.Thrown? then core else core.(lastCheck := core.lastCheck[(b, pair) := clock])
  }

  predicate Collects(cfg: Settings, trades: seq<Trade>, g: Generated) {
    g.Got? && g.signal.Some? && Gate(cfg, trades, g.signal.value, g.hint) == None
  }

  /** A cycle collects exactly the fit signals it is given without a veto. */
  lemma CollectsIffFit(cfg: Settings, trades: seq<Trade>, g: Generated)
    ensures Collects(cfg, trades, g) <==>
      g.Got? && g.signal.Some? && FitToTrade(cfg, trades, g.signal.value) && g.hint != Some(false)
  {
    if g.Got? && g.signal.Some? {
      GatePassesIff(cfg, trades, g.signal.value, g.hint);
    }
    hide FitToTrade, Gate;
  }

  datatype Scan = Scan(core: Core, cands: seq<Signal>)

  function ScanPrefix(cfg: Settings, core: Core, b: Broker, pairs: seq<string>, answers: seq<Generated>, clock: int,
      n: nat): Scan
    requires n <= |pairs| == |answers|
  {
    if n == 0 then Scan(core, [])
    else
      var p, pair, g := ScanPrefix(cfg, core, b, pairs, answers, clock, n - 1), pairs[n - 1], answers[n - 1];
      if clock - LastCheck(p.core, b, pair) < cfg.signalCheckMs then p
      else Scan(Checked(p.core, b, pair, g, clock),
        if Collects(cfg, p.core.trades, g) then p.cands + [g.signal.value] else p.cands)
  }

  datatype Cycle = Cycle(core: Core, count: nat)

  function CyclePrefix(cfg: Settings, core: Core, cands: seq<Signal>, answers: seq<Answer>, n: nat): Cycle
    requires n <= |cands| == |answers|
  {
    if n == 0 then Cycle(core, 0)
    else
      var p := CyclePrefix(cfg, core, cands, answers, n - 1);
      if p.count >= Cap(cfg) then p
      else Cycle(Attempt(p.core, cands[n - 1], answers[n - 1]), if answers[n - 1].Opened? then p.count + 1 else p.count)
  }

  lemma {:induction false} CycleCapStays(cfg: Settings, core: Core, cands: seq<Signal>, answers: seq<Answer>, k: nat,
      n: nat)
    requires k <= n <= |cands| == |answers| && CyclePrefix(cfg, core, cands, answers, k).count >= Cap(cfg)
    ensures CyclePrefix(cfg, core, cands, answers, n) == CyclePrefix(cfg, core, cands, answers, k)
  {
    if k == n {
    } else {
      hide Attempt;
      CycleCapStays(cfg, core, cands, answers, k, n - 1);
    }
  }

  // ----- the object -----

  class Manager {
    const cfg: Settings
    var enabled: set<Broker>
    var queue: map<Broker, seq<Signal>>
    var timers: map<Broker, int>
    var lastOpen: map<(Broker, string), int>
    var lastCheck: map<(Broker, string), int>
    var trades: seq<Trade>
    var nextId: nat

    function Now(): Core
      reads this
    {
      Core(enabled, queue, timers, lastOpen, lastCheck, trades, nextId)
    }

    constructor (settings: Settings)
      ensures cfg == settings && Now() == Core({}, map[], map[], map[], map[], [], 0)
    {
      cfg := settings;
      enabled, queue, timers, lastOpen, lastCheck, trades, nextId := {}, map[], map[], map[], map[], [], 0;
    }

    method EnqueueRealtimeSignal(b: Broker, s: Signal, clock: int)
      modifies this
      ensures Now() == Enqueue(cfg, old(Now()), b, s, clock)
    {
      hide HasOpen, Trim, Norm;
      if !cfg.realtimeEnabled || b !in enabled || !s.isValid {
        return;
      }
      var pair := Trim(s.pair);
      if pair == [] {
        return;
      }
      TrimTwice(s.pair);
      var busy := HasOpenTradeForPair(trades, pair);
      if busy {
        return;
      }
      var last := if (b, pair) in lastOpen then lastOpen[(b, pair)] else 0;
      if cfg.cooldownMs > 0 && last != 0 && clock - last < cfg.cooldownMs {
        return;
      }
      var candidates := if b in queue then queue[b] else [];
      var slot := FindPair(candidates, pair);
      UpsertAt(candidates, s, slot);
      if slot == |candidates| {
        candidates := candidates + [s];
      } else if Score(s) >= Score(candidates[slot]) {
        candidates := candidates[slot := s];
      }
      queue := queue[b := candidates];
      if b !in timers {
        timers := timers[b := clock + cfg.debounceMs];
      }
    }

    method BeginFlush(b: Broker) returns (suspended: bool)
      modifies this
      ensures Now() == FlushStart(old(Now()), b) && suspended == (b in enabled)
    {
      timers := timers - {b};
      if b !in enabled {
        queue := queue - {b};
        return false;
      }
      return true;
    }

    /** The flush after its connectivity check, with nobody else touching the manager until it ends. */
    method FinishFlush(b: Broker, connected: bool, answers: seq<Answer>, clock: int)
      returns (drained: seq<Signal>, filled: seq<nat>)
      requires |answers| == |Queued(queue, b)|
      modifies this
      ensures !connected ==> Now() == Drop(old(Now()), b) && drained == [] && filled == []
      ensures connected ==> drained == Drained(old(Now()), b) && |drained| == |answers|
      ensures connected ==> RankedDown(drained) && multiset(drained) == multiset(old(Queued(queue, b)))
      ensures connected ==>
        Progress(Now(), filled) == FlushPrefix(cfg, Drop(old(Now()), b), b, drained, answers, clock, |drained|)
    {
      if !connected {
        queue := queue - {b};
        return [], [];
      }
      SortRankedSorts(Queued(queue, b));
      hide Sends, AttemptRealtime, SortRanked, RankedDown, Cap, FlushPrefix;
      drained := SortRanked(Queued(queue, b));
      queue := queue - {b};
      filled := RunCandidates(b, drained, answers, clock);
    }

    /** The executor's loop. */
    method RunCandidates(b: Broker, drained: seq<Signal>, answers: seq<Answer>, clock: int) returns (filled: seq<nat>)
      requires |answers| == |drained|
      modifies this
      ensures Progress(Now(), filled) == FlushPrefix(cfg, old(Now()), b, drained, answers, clock, |drained|)
    {
      hide Sends, AttemptRealtime, Cap, FlushPrefix;
      filled := [];
      ghost var start := Now();
      PrefixEmpty(cfg, start, b, drained, answers, clock);
      for k := 0 to |drained|
        invariant Progress(Now(), filled) == FlushPrefix(cfg, start, b, drained, answers, clock, k)
      {
        if |filled| >= Cap(cfg) {
          CapStays(cfg, start, b, drained, answers, clock, k, |drained|);
          break;
        }
        PrefixStep(cfg, start, b, drained, answers, clock, k);
        var s := drained[k];
        var sent := TryCandidate(b, s, answers[k], clock);
        if sent && answers[k].Opened? {
          filled := filled + [k];
        }
      }
    }

    /** The scanning loop of a cycle for one broker, ranked at the end. */
    method ScanBroker(b: Broker, pairs: seq<string>, answers: seq<Generated>, clock: int) returns (ranked: seq<Signal>)
      requires |answers| == |pairs|
      modifies this
      ensures var q := ScanPrefix(cfg, old(Now()), b, pairs, answers, clock, |pairs|);
        Now() == q.core && ranked == SortRanked(q.cands)
        && RankedDown(ranked) && multiset(ranked) == multiset(q.cands)
    {
      hide Gate, SortRanked, RankedDown;
      ghost var start := Now();
      var candidates: seq<Signal> := [];
      for k := 0 to |pairs|
        invariant Scan(Now(), candidates) == ScanPrefix(cfg, start, b, pairs, answers, clock, k)
      {
        var pair, g := pairs[k], answers[k];
        var last := if (b, pair) in lastCheck then lastCheck[(b, pair)] else 0;
        if clock - last < cfg.signalCheckMs {
          continue;
        }
        if g.Got? {
          lastCheck := lastCheck[(b, pair) := clock];
        }
        if g.Got? && g.signal.Some? && Gate(cfg, trades, g.signal.value, g.hint) == None {
          candidates := candidates + [g.signal.value];
        }
      }
      SortRankedSorts(candidates);
      ranked := SortRanked(candidates);
    }

    /** The executing loop of a cycle for one broker; `answers[k]` is the engine's answer to candidate k. */
    method ExecuteRanked(cands: seq<Signal>, answers: seq<Answer>) returns (count: nat)
      requires |answers| == |cands|
      modifies this
      ensures Cycle(Now(), count) == CyclePrefix(cfg, old(Now()), cands, answers, |cands|)
    {
      hide Cap, Attempt;
      count := 0;
      ghost var start := Now();
      for k := 0 to |cands|
        invariant Cycle(Now(), count) == CyclePrefix(cfg, start, cands, answers, k)
      {
        if count >= Cap(cfg) {
          CycleCapStays(cfg, start, cands, answers, k, |cands|);
          break;
        }
        ExecuteTrade(cands[k], answers[k]);
        if answers[k].Opened? {
          count := count + 1;
        }
      }
    }

    /** The engine's table over one execution: registered at once, deleted again if the broker refuses. */
    method ExecuteTrade(s: Signal, a: Answer)
      modifies this`trades, this`nextId
      ensures Now() == Attempt(old(Now()), s, a)
    {
      if a.Refused? {
        return;
      }
      var id := nextId;
      trades := trades + [Trade(id, s.pair, true)];
      nextId := nextId + 1;
      if a.Withdrawn? {
        trades := Without(trades, id);
      }
    }

    /** One round of the executor's loop. */
    method TryCandidate(b: Broker, s: Signal, a: Answer, clock: int) returns (sent: bool)
      modifies this
      ensures sent == Sends(cfg, old(trades), s)
      ensures Now() == if sent then AttemptRealtime(old(Now()), b, s, a, clock) else old(Now())
    {
      hide HasOpen, Trim, Norm, Gate;
      var pair := Trim(s.pair);
      if pair == [] {
        return false;
      }
      TrimTwice(s.pair);
      if !cfg.allowed(pair) {
        return false;
      }
      var busy := HasOpenTradeForPair(trades, pair);
      if busy || Gate(cfg, trades, s, None) != None {
        return false;
      }
      ExecuteTrade(s, a);
      if a.Opened? {
        lastOpen := lastOpen[(b, pair) := clock];
      }
      return true;
    }
  }

  lemma PrefixEmpty(cfg: Settings, core: Core, b: Broker, drained: seq<Signal>, answers: seq<Answer>, clock: int)
    requires |drained| == |answers|
    ensures FlushPrefix(cfg, core, b, drained, answers, clock, 0) == Progress(core, [])
  {
  }

  lemma PrefixStep(cfg: Settings, core: Core, b: Broker, drained: seq<Signal>, answers: seq<Answer>, clock: int, k: nat)
    requires k < |drained| == |answers|
    ensures var p := FlushPrefix(cfg, core, b, drained, answers, clock, k);
      FlushPrefix(cfg, core, b, drained, answers, clock, k + 1) ==
        if |p.filled| >= Cap(cfg) || !Sends(cfg, p.core.trades, drained[k]) then p
        else Progress(AttemptRealtime(p.core, b, drained[k], answers[k], clock),
          if answers[k].Opened? then p.filled + [k] else p.filled)
  {
    hide Sends, AttemptRealtime;
  }

  method FindPair(q: seq<Signal>, pair: string) returns (slot: nat)
    ensures slot <= |q| && (slot < |q| ==> Trim(q[slot].pair) == pair)
    ensures forall k :: 0 <= k < slot ==> Trim(q[k].pair) != pair
  {
    slot := 0;
    while slot < |q| && Trim(q[slot].pair) != pair
      invariant slot <= |q| && forall k :: 0 <= k < slot ==> Trim(q[k].pair) != pair
    {
      slot := slot + 1;
    }
  }

  lemma {:induction false} UpsertAt(q: seq<Signal>, s: Signal, slot: nat)
    requires slot <= |q| && (slot < |q| ==> Trim(q[slot].pair) == Trim(s.pair))
    requires forall k :: 0 <= k < slot ==> Trim(q[k].pair) != Trim(s.pair)
    ensures slot == |q| ==> Upsert(q, s) == q + [s]
    ensures slot < |q| ==> Upsert(q, s) == if Score(s) >= Score(q[slot]) then q[slot := s] else q
  {
    hide Trim, Score;
    if q == [] {
    } else {
      if slot > 0 {
        UpsertAt(q[1..], s, slot - 1);
      }
    }
  }

  lemma {:induction false} CapStays(cfg: Settings, core: Core, b: Broker, drained: seq<Signal>, answers: seq<Answer>,
      clock: int, k: nat, n: nat)
    requires k <= n <= |drained| == |answers|
    requires |FlushPrefix(cfg, core, b, drained, answers, clock, k).filled| >= Cap(cfg)
    ensures FlushPrefix(cfg, core, b, drained, answers, clock, n)
      == FlushPrefix(cfg, core, b, drained, answers, clock, k)
  {
    hide Sends, AttemptRealtime, Cap, FlushPrefix;
    if k == n {
    } else {
      CapStays(cfg, core, b, drained, answers, clock, k, n - 1);
      PrefixStep(cfg, core, b, drained, answers, clock, n - 1);
    }
  }

  // ----- the table of trades -----

  ghost predicate FreshIds(core: Core) {
    && (forall i :: 0 <= i < |core.trades| ==> core.trades[i].id < core.nextId)
    && forall i, j :: 0 <= i < j < |core.trades| ==> core.trades[i].id != core.trades[j].id
  }

  lemma {:induction false} WithoutAbsent(trades: seq<Trade>, id: nat)
    requires forall i :: 0 <= i < |trades| ==> trades[i].id != id
    ensures Without(trades, id) == trades
  {
    if trades == [] {
    } else {
      WithoutAbsent(trades[..|trades| - 1], id);
      assert trades == trades[..|trades| - 1] + [trades[|trades| - 1]];
    }
  }

  /**
   * An execution the broker refuses, or the engine, leaves the trades as they were; any other adds exactly one open
   * trade of the pair.
   */
  lemma AttemptEffect(core: Core, s: Signal, a: Answer)
    requires FreshIds(core)
    ensures FreshIds(Attempt(core, s, a))
    ensures Attempt(core, s, a).trades ==
      if a.Refused? || a.Withdrawn? then core.trades else core.trades + [Trade(core.nextId, s.pair, true)]
  {
    WithoutNewest(core.trades, Trade(core.nextId, s.pair, true));
    hide Without;
  }

  lemma WithoutNewest(trades: seq<Trade>, t: Trade)
    requires forall i :: 0 <= i < |trades| ==> trades[i].id != t.id
    ensures Without(trades + [t], t.id) == trades
  {
    WithoutAbsent(trades, t.id);
    assert (trades + [t])[..|trades|] == trades;
  }
}
