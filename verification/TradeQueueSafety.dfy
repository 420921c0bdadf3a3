/** The realtime queue over every run: nothing is stranded, slots hold the right signal, flushes are greedy. */
module TradeQueueSafety {
  import opened Prelude
  import opened Sorting
  import opened TradeGate
  import opened TradeManager
  import opened TradeRuns

  // ----- no candidate is stranded -----

  /** A flush timer is armed for b, or a flush of b is waiting for its connectivity check. */
  ghost predicate Attended(w: World, b: Broker) {
    b in w.core.timers || exists i :: 0 <= i < |w.procs| && w.procs[i] == Checking(b)
  }

  ghost predicate NoneStranded(w: World) { forall b :: b in w.core.queue ==> Attended(w, b) }

  lemma AttendedStays(w: World, w': World, b: Broker)
    requires Attended(w, b) && (b in w.core.timers ==> b in w'.core.timers) && |w.procs| <= |w'.procs|
    requires forall i :: 0 <= i < |w.procs| && w.procs[i] == Checking(b) ==> w'.procs[i] == Checking(b)
    ensures Attended(w', b)
  {
    if b !in w.core.timers {
      var i :| 0 <= i < |w.procs| && w.procs[i] == Checking(b);
      assert w'.procs[i] == Checking(b);
    }
  }

  predicate SameQueues(c: Core, d: Core) { c.queue == d.queue && c.timers == d.timers }

  /** Executions leave the queues alone. */
  lemma EngineKeepsQueues(core: Core, b: Broker, s: Signal, ticket: Option<nat>, a: Answer, clock: int)
    ensures SameQueues(Register(core, s), core) && SameQueues(Settle(core, ticket, a), core)
    ensures SameQueues(SettleRealtime(core, b, s, ticket, a, clock), core)
  {
    hide Without, Trim;
  }

  /** Only arrivals, timers and connectivity answers touch the queues. */
  lemma QueueUntouched(cfg: Settings, w: World, e: Event)
    requires !e.Arrive? && !e.TimerFires? && !e.Connected?
    ensures var w' := Apply(cfg, w, e);
      w'.core.queue == w.core.queue && w'.core.timers == w.core.timers && w'.since == w.since
  {
    hide AfterNext, AfterSignal, Tries, Collects, Unfinished;
    if e.Executed? && Enabled(cfg, w, e) {
      var p := w.procs[e.i];
      EngineKeepsQueues(w.core, p.b, InHand(cfg, p).value, p.ticket, e.answer, w.clock);
    } else if e.Next? && Enabled(cfg, w, e) && Tries(cfg, w.core.trades, w.procs[e.i]).Some? {
      EngineKeepsQueues(w.core, "", Tries(cfg, w.core.trades, w.procs[e.i]).value, None, Refused, w.clock);
    }
    hide Without, Register, Settle, SettleRealtime, InHand;
  }

  /** Only connectivity answers end a flush's wait for them. */
  lemma ChecksUntouched(cfg: Settings, w: World, e: Event)
    requires !e.Connected?
    ensures var w' := Apply(cfg, w, e);
      |w.procs| <= |w'.procs| && forall i :: 0 <= i < |w.procs| && w.procs[i].Checking? ==> w'.procs[i] == w.procs[i]
  {
    hide AfterNext, AfterSignal, Tries, Collects, Accepts, Enqueue, FlushStart, Settle, SettleRealtime, Register,
      Checked, Unfinished;
  }

  lemma StepKeepsAttended(cfg: Settings, w: World, e: Event)
    requires NoneStranded(w)
    ensures NoneStranded(Apply(cfg, w, e))
  {
    var w' := Apply(cfg, w, e);
    if e.Arrive? || e.TimerFires? || e.Connected? {
      hide Accepts, Upsert, ScanList, Drained;
      forall b | b in w'.core.queue ensures Attended(w', b) {
        if b in w.core.queue {
          assert Attended(w, b);
          if e.TimerFires? && e.broker == b && Enabled(cfg, w, e) {
            assert w'.procs[|w.procs|] == Checking(b);
          } else {
            AttendedStays(w, w', b);
          }
        }
      }
    } else {
      QueueUntouched(cfg, w, e);
      ChecksUntouched(cfg, w, e);
      hide Apply;
      forall b | b in w'.core.queue ensures Attended(w', b) {
        assert Attended(w, b);
        AttendedStays(w, w', b);
      }
    }
  }

  /**
   * In every reachable state a broker with queued candidates has an armed timer or a flush at its connectivity check.
   */
  lemma {:induction false} NothingIsStranded(cfg: Settings, clock: int, es: seq<Event>)
    ensures NoneStranded(After(cfg, clock, es))
  {
    if es == [] {
    } else {
      hide Apply, NoneStranded;
      NothingIsStranded(cfg, clock, es[..|es| - 1]);
      StepKeepsAttended(cfg, After(cfg, clock, es[..|es| - 1]), es[|es| - 1]);
    }
  }

  ghost predicate DueSoon(cfg: Settings, w: World) {
    forall b :: b in w.core.timers ==> w.core.timers[b] <= w.clock + cfg.debounceMs
  }

  lemma StepKeepsDueSoon(cfg: Settings, w: World, e: Event)
    requires DueSoon(cfg, w)
    ensures DueSoon(cfg, Apply(cfg, w, e))
  {
    if e.Arrive? || e.TimerFires? || e.Connected? {
      hide Accepts, Upsert, ScanList, Drained;
    } else {
      QueueUntouched(cfg, w, e);
      ClockAdvances(cfg, w, e);
      hide Apply;
    }
  }

  lemma ClockAdvances(cfg: Settings, w: World, e: Event)
    ensures w.clock <= Apply(cfg, w, e).clock
  {
    hide AfterNext, AfterSignal, Tries, Collects, Accepts, Enqueue, FlushStart, Settle, SettleRealtime, Register,
      Checked, Unfinished;
  }

  /**
   * An armed timer is never more than the debounce away, so candidates do not wait longer than that for their flush to
   * begin.
   */
  lemma {:induction false} TimersAreDueSoon(cfg: Settings, clock: int, es: seq<Event>)
    ensures DueSoon(cfg, After(cfg, clock, es))
  {
    if es == [] {
    } else {
      hide Apply, DueSoon;
      TimersAreDueSoon(cfg, clock, es[..|es| - 1]);
      StepKeepsDueSoon(cfg, After(cfg, clock, es[..|es| - 1]), es[|es| - 1]);
    }
  }

  /** When the first signal was queued for the broker since a flush of it last began. */
  ghost function WaitingSince(cfg: Settings, clock: int, es: seq<Event>, b: Broker): Option<int> {
    if es == [] then None
    else
      var w, before := After(cfg, clock, es[..|es| - 1]), WaitingSince(cfg, clock, es[..|es| - 1], b);
      match es[|es| - 1]
      case Arrive(b', s) =>
        if b' == b && before == None && Accepts(cfg, w.core, b, s, w.clock) then Some(w.clock) else before
      case TimerFires(b') => if b' == b && Enabled(cfg, w, TimerFires(b)) then None else before
      case _ => before
  }

  lemma TimersAfter(cfg: Settings, w: World, e: Event)
    ensures Apply(cfg, w, e).core.timers ==
      match e
      case Arrive(b, s) =>
        if Accepts(cfg, w.core, b, s, w.clock) && b !in w.core.timers
        then w.core.timers[b := w.clock + cfg.debounceMs] else w.core.timers
      case TimerFires(b) => if Enabled(cfg, w, e) then w.core.timers - {b} else w.core.timers
      case _ => w.core.timers
  {
    hide Without, AfterNext, AfterSignal, Tries, Collects, Accepts, Drained, Queued, Upsert, ScanList, OpenOf;
  }

  lemma {:induction false} TimersAreArmedOnce(cfg: Settings, clock: int, es: seq<Event>, b: Broker)
    ensures var w, since := After(cfg, clock, es), WaitingSince(cfg, clock, es, b);
      && (b in w.core.timers <==> since.Some?)
      && (since.Some? ==> w.core.timers[b] == since.value + cfg.debounceMs)
  {
    if es == [] {
    } else {
      TimersAreArmedOnce(cfg, clock, es[..|es| - 1], b);
      TimersAfter(cfg, After(cfg, clock, es[..|es| - 1]), es[|es| - 1]);
      hide Apply, Accepts;
    }
  }

  /** In every run a flush of a broker begins once the first signal queued for it has waited for the debounce. */
  lemma FlushesWaitForTheDebounce(cfg: Settings, clock: int, es: seq<Event>, b: Broker)
    ensures var w, since := After(cfg, clock, es), WaitingSince(cfg, clock, es, b);
      |Apply(cfg, w, TimerFires(b)).procs| ==
        |w.procs| + if since.Some? && w.clock - since.value >= cfg.debounceMs then 1 else 0
  {
    TimersAreArmedOnce(cfg, clock, es, b);
    hide After, WaitingSince;
  }

  // ----- what a slot holds -----

  predicate SamePair(a: Signal, b: Signal) { Trim(a.pair) == Trim(b.pair) }

  ghost predicate DistinctKeys(q: seq<Signal>) { forall i, j :: 0 <= i < j < |q| ==> !SamePair(q[i], q[j]) }

  /** s is the latest of the best-scored signals of its pair in h. */
  ghost predicate LatestBest(h: seq<Signal>, s: Signal) {
    exists i :: 0 <= i < |h| && BestAt(h, i) && h[i] == s
  }

  ghost predicate BestAt(h: seq<Signal>, i: int)
    requires 0 <= i < |h|
  {
    forall j :: 0 <= j < |h| && SamePair(h[j], h[i]) ==>
      && Or(h[j].score, -1.0) <= Or(h[i].score, -1.0)
      && (j > i ==> Or(h[j].score, -1.0) < Or(h[i].score, -1.0))
  }

  ghost predicate Covers(q: seq<Signal>, x: Signal) { exists k :: 0 <= k < |q| && SamePair(q[k], x) }

  ghost predicate SlotsFor(q: seq<Signal>, h: seq<Signal>) {
    && DistinctKeys(q)
    && (forall k :: 0 <= k < |q| ==> LatestBest(h, q[k]))
    && (forall i :: 0 <= i < |h| ==> Covers(q, h[i]))
  }

  /** What a slot holding `held` holds once s has arrived. */
  function Newer(held: Signal, s: Signal): Signal { if SamePair(held, s) && Score(s) >= Score(held) then s else held }

  lemma DistinctAfter(x: Signal, v: seq<Signal>)
    requires DistinctKeys(v) && forall k :: 0 <= k < |v| ==> !SamePair(x, v[k])
    ensures DistinctKeys([x] + v)
  {
  }

  lemma {:induction false} UpsertShape(q: seq<Signal>, s: Signal)
    requires DistinctKeys(q)
    ensures var u := Upsert(q, s);
      && |q| <= |u| <= |q| + 1 && DistinctKeys(u)
      && (forall k :: 0 <= k < |q| ==> SamePair(u[k], q[k]) && u[k] == Newer(q[k], s))
      && (|u| == |q| + 1 ==> u[|q|] == s && forall k :: 0 <= k < |q| ==> !SamePair(q[k], s))
      && (|u| == |q| ==> exists k :: 0 <= k < |q| && SamePair(q[k], s))
  {
    hide Trim, Score;
    if q == [] {
    } else if SamePair(q[0], s) {
      DistinctAfter(Newer(q[0], s), q[1..]);
    } else {
      UpsertShape(q[1..], s);
      var v := Upsert(q[1..], s);
      forall k | 0 <= k < |v| ensures !SamePair(q[0], v[k]) {
        if k < |q| - 1 {
          assert SamePair(v[k], q[1..][k]);
        }
      }
      DistinctAfter(q[0], v);
      if |v| == |q| - 1 {
        var k :| 0 <= k < |q| - 1 && SamePair(q[1..][k], s);
        assert SamePair(q[k + 1], s);
      }
    }
  }

  lemma BestOfNew(h: seq<Signal>, s: Signal)
    requires forall j :: 0 <= j < |h| && SamePair(h[j], s) ==> Score(h[j]) <= Score(s)
    ensures LatestBest(h + [s], s)
  {
    hide Trim;
    assert BestAt(h + [s], |h|);
  }

  lemma BestOfOld(h: seq<Signal>, s: Signal, old': Signal)
    requires LatestBest(h, old') && (SamePair(s, old') ==> Score(s) < Score(old'))
    ensures LatestBest(h + [s], old')
  {
    hide Trim;
    var i :| 0 <= i < |h| && BestAt(h, i) && h[i] == old';
    assert BestAt(h + [s], i);
  }

  lemma BestBounds(h: seq<Signal>, s: Signal, j: nat)
    requires LatestBest(h, s) && j < |h| && SamePair(h[j], s)
    ensures Score(h[j]) <= Score(s)
  {
  }

  /** The slot already there keeps the right signal. */
  lemma SlotStaysBest(q: seq<Signal>, h: seq<Signal>, s: Signal, k: nat)
    requires SlotsFor(q, h) && k < |q|
    ensures LatestBest(h + [s], Newer(q[k], s))
  {
    hide Trim, Score, LatestBest;
    assert LatestBest(h, q[k]);
    if Newer(q[k], s) == s && SamePair(q[k], s) && Score(s) >= Score(q[k]) {
      forall j | 0 <= j < |h| && SamePair(h[j], s) ensures Score(h[j]) <= Score(s) {
        BestBounds(h, q[k], j);
      }
      BestOfNew(h, s);
    } else {
      BestOfOld(h, s, q[k]);
    }
  }

  /** A slot for a new pair starts with the right signal. */
  lemma NewSlotIsBest(q: seq<Signal>, h: seq<Signal>, s: Signal)
    requires SlotsFor(q, h) && forall k :: 0 <= k < |q| ==> !SamePair(q[k], s)
    ensures LatestBest(h + [s], s)
  {
    hide Trim, Score, LatestBest, DistinctKeys;
    forall j | 0 <= j < |h| ensures !SamePair(h[j], s) {
      assert Covers(q, h[j]);
      var m :| 0 <= m < |q| && SamePair(q[m], h[j]);
    }
    BestOfNew(h, s);
  }

  lemma UpsertCovers(q: seq<Signal>, h: seq<Signal>, s: Signal, i: nat)
    requires SlotsFor(q, h) && i <= |h|
    ensures Covers(Upsert(q, s), (h + [s])[i])
  {
    UpsertShape(q, s);
    var u := Upsert(q, s);
    hide Upsert, LatestBest, Trim, Score, DistinctKeys, Newer;
    if i < |h| {
      assert Covers(q, h[i]);
      var k :| 0 <= k < |q| && SamePair(q[k], h[i]);
      assert SamePair(u[k], h[i]);
    } else if |u| == |q| + 1 {
      assert SamePair(u[|q|], s);
    } else {
      var k :| 0 <= k < |q| && SamePair(q[k], s);
      assert SamePair(u[k], s);
    }
  }

  lemma SlotIsBest(q: seq<Signal>, h: seq<Signal>, s: Signal, k: nat)
    requires SlotsFor(q, h) && k < |Upsert(q, s)|
    ensures LatestBest(h + [s], Upsert(q, s)[k])
  {
    hide Upsert, LatestBest, SamePair, Score, Newer, Covers;
    UpsertShape(q, s);
    if k < |q| {
      SlotStaysBest(q, h, s, k);
    } else {
      NewSlotIsBest(q, h, s);
    }
  }

  lemma UpsertKeepsSlots(q: seq<Signal>, h: seq<Signal>, s: Signal)
    requires SlotsFor(q, h)
    ensures SlotsFor(Upsert(q, s), h + [s])
  {
    hide Upsert, LatestBest, SamePair, Score, DistinctKeys, Newer, Covers;
    assert DistinctKeys(Upsert(q, s)) by {
      UpsertShape(q, s);
    }
    forall i | 0 <= i < |h + [s]| ensures Covers(Upsert(q, s), (h + [s])[i]) {
      UpsertCovers(q, h, s, i);
    }
    forall k | 0 <= k < |Upsert(q, s)| ensures LatestBest(h + [s], Upsert(q, s)[k]) {
      SlotIsBest(q, h, s, k);
    }
  }

  ghost predicate SlotsRight(w: World) { forall b :: SlotsFor(Queued(w.core.queue, b), Queued(w.since, b)) }

  lemma EmptySlots()
    ensures SlotsFor([], [])
  {
  }

  lemma StepKeepsSlots(cfg: Settings, w: World, e: Event)
    requires SlotsRight(w)
    ensures SlotsRight(Apply(cfg, w, e))
  {
    var w' := Apply(cfg, w, e);
    EmptySlots();
    if e.Arrive? || e.TimerFires? || e.Connected? {
      hide SlotsFor, Accepts, Upsert, ScanList, Drained;
      forall b ensures SlotsFor(Queued(w'.core.queue, b), Queued(w'.since, b)) {
        assert SlotsFor(Queued(w.core.queue, b), Queued(w.since, b));
        if e.Arrive? && e.broker == b {
          UpsertKeepsSlots(Queued(w.core.queue, b), Queued(w.since, b), e.s);
        }
      }
    } else {
      QueueUntouched(cfg, w, e);
      hide Apply, SlotsFor;
      forall b ensures SlotsFor(Queued(w'.core.queue, b), Queued(w'.since, b)) {
        assert SlotsFor(Queued(w.core.queue, b), Queued(w.since, b));
      }
    }
  }

  /**
   * Every slot holds the latest of the best-scored signals accepted for its broker and pair since the last drain or
   * drop.
   */
  lemma {:induction false} SlotsHoldLatestBest(cfg: Settings, clock: int, es: seq<Event>)
    ensures SlotsRight(After(cfg, clock, es))
  {
    if es == [] {
      EmptySlots();
      hide SlotsFor;
    } else {
      hide Apply, SlotsRight;
      SlotsHoldLatestBest(cfg, clock, es[..|es| - 1]);
      StepKeepsSlots(cfg, After(cfg, clock, es[..|es| - 1]), es[|es| - 1]);
    }
  }

  // ----- executors are greedy -----

  ghost predicate RisingBelow(v: seq<nat>, n: nat) {
    (forall i :: 0 <= i < |v| ==> v[i] < n) && forall i, j :: 0 <= i < j < |v| ==> v[i] < v[j]
  }

  /** How far a flush or a cycle has come. */
  ghost predicate ExecutorShape(cfg: Settings, p: Proc) {
    && (p.Trying? || p.Sending? ==>
      RankedDown(p.drained) && p.pos <= |p.drained| && RisingBelow(p.filled, p.pos) && |p.filled| <= Cap(cfg))
    && (p.Ranked? || p.Opening? ==>
      RankedDown(p.cands) && p.pos <= |p.cands| && p.count <= Cap(cfg) && p.count <= p.pos)
    && (p.Opening? ==> p.pos < |p.cands| && p.count < Cap(cfg))
  }

  ghost predicate AllShaped(cfg: Settings, w: World) {
    forall i :: 0 <= i < |w.procs| ==> ExecutorShape(cfg, w.procs[i])
  }

  lemma DrainShape(cfg: Settings, core: Core, b: Broker)
    ensures ExecutorShape(cfg, Trying(b, Drained(core, b), 0, []))
  {
    SortRankedSorts(Queued(core.queue, b));
    hide NotBelow, SortRanked, Cap;
  }

  lemma NextKeepsShape(cfg: Settings, w: World, p: Proc, ticket: Option<nat>)
    requires ExecutorShape(cfg, p) && (p.Trying? ==> p.pos < |p.drained|) && (p.CycleAt? ==> p.rest != [])
    ensures ExecutorShape(cfg, AfterNext(cfg, w, p, ticket))
  {
    if p.Scanning? {
      SortRankedSorts(p.cands);
    }
    hide RankedDown, Sends, Cap, SortRanked, LastCheck;
  }

  lemma AnswerKeepsShape(cfg: Settings, w: World, i: nat, a: Answer)
    requires Enabled(cfg, w, Executed(i, a)) && ExecutorShape(cfg, w.procs[i])
    ensures ExecutorShape(cfg, Apply(cfg, w, Executed(i, a)).procs[i])
  {
    hide RankedDown, Cap, Settle, SettleRealtime;
  }

  lemma IdleShape(cfg: Settings, p: Proc)
    requires p.Checking? || p.Gone? || p.CycleAt? || p.Connecting? || p.Scanning? || p.Generating?
    ensures ExecutorShape(cfg, p)
  {
  }

  lemma StepKeepsShape(cfg: Settings, w: World, e: Event)
    requires AllShaped(cfg, w)
    ensures AllShaped(cfg, Apply(cfg, w, e))
  {
    if Enabled(cfg, w, e) {
      match e
      case Next(i, registers) =>
        NextKeepsShape(cfg, w, w.procs[i], if registers then Some(w.core.nextId) else None);
        hide ExecutorShape, AfterNext, Tries, Register, Enabled;
      case Executed(i, answer) =>
        AnswerKeepsShape(cfg, w, i, answer);
        hide ExecutorShape, Settle, SettleRealtime, Enabled, InHand;
      case Connected(i, ok, listed) =>
        DrainShape(cfg, w.core, w.procs[i].b);
        hide Drained, Drop, ScanList;
        if !Apply(cfg, w, e).procs[i].Trying? {
          IdleShape(cfg, Apply(cfg, w, e).procs[i]);
        }
        hide ExecutorShape, Enabled;
      case SignalReady(i, g) =>
        IdleShape(cfg, AfterSignal(cfg, w, w.procs[i], g));
        hide ExecutorShape, Enabled, AfterSignal, Collects, Checked;
      case TimerFires(b) =>
        IdleShape(cfg, Checking(b));
        IdleShape(cfg, Gone);
        hide ExecutorShape, FlushStart;
      case CycleStarts(bs) =>
        IdleShape(cfg, CycleAt(bs));
        hide ExecutorShape;
      case _ => hide ExecutorShape, Accepts, Enqueue, Without;
    }
  }

  // ----- what is handed over for execution -----

  /** A flush's signal as its check found it: fit, on an allowed symbol with no open trade. */
  ghost predicate SentFit(cfg: Settings, trades: seq<Trade>, s: Signal) {
    Trim(s.pair) != [] && FitToTrade(cfg, trades, s) && cfg.allowed(Trim(s.pair)) && !HasOpen(trades, Norm(s.pair))
  }

  /** A cycle once found the signal fit, when it collected it. */
  ghost predicate WasFit(cfg: Settings, collected: seq<Collected>, s: Signal) {
    exists k :: 0 <= k < |collected| && collected[k].s == s && FitToTrade(cfg, collected[k].trades, s)
  }

  ghost predicate AllWereFit(cfg: Settings, collected: seq<Collected>, v: seq<Signal>) {
    forall i :: 0 <= i < |v| ==> WasFit(cfg, collected, v[i])
  }

  function CandsOf(p: Proc): seq<Signal> {
    if p.Scanning? || p.Generating? || p.Ranked? || p.Opening? then p.cands else []
  }

  ghost predicate SentWell(cfg: Settings, collected: seq<Collected>, x: Sent) {
    if x.scheduled then WasFit(cfg, collected, x.s) else SentFit(cfg, x.trades, x.s)
  }

  ghost predicate GateKept(cfg: Settings, w: World) {
    && (forall i :: 0 <= i < |w.procs| ==> AllWereFit(cfg, w.collected, CandsOf(w.procs[i])))
    && (forall i :: 0 <= i < |w.sent| ==> SentWell(cfg, w.collected, w.sent[i]))
  }

  lemma SendsFit(cfg: Settings, trades: seq<Trade>, s: Signal)
    requires Sends(cfg, trades, s)
    ensures SentFit(cfg, trades, s)
  {
    GatePassesIff(cfg, trades, s, None);
    hide Gate, FitToTrade, HasOpen;
  }

  /** More collected: what was fit still was. */
  lemma WasFitGrows(cfg: Settings, collected: seq<Collected>, x: Collected, s: Signal)
    requires WasFit(cfg, collected, s) || (x.s == s && FitToTrade(cfg, x.trades, s))
    ensures WasFit(cfg, collected + [x], s)
  {
    hide FitToTrade;
    var more := collected + [x];
    if WasFit(cfg, collected, s) {
      var k :| 0 <= k < |collected| && collected[k].s == s && FitToTrade(cfg, collected[k].trades, s);
      assert more[k] == collected[k];
    } else {
      assert more[|collected|] == x;
    }
  }

  lemma CollectingKeepsGate(cfg: Settings, w: World, i: nat, g: Generated)
    requires GateKept(cfg, w) && Enabled(cfg, w, SignalReady(i, g)) && Collects(cfg, w.core.trades, g)
    ensures GateKept(cfg, Apply(cfg, w, SignalReady(i, g)))
  {
    var w', x := Apply(cfg, w, SignalReady(i, g)), Collected(g.signal.value, w.core.trades);
    GatePassesIff(cfg, w.core.trades, x.s, g.hint);
    assert w'.collected == w.collected + [x] && w'.sent == w.sent;
    assert CandsOf(w'.procs[i]) == CandsOf(w.procs[i]) + [x.s];
    assert |w'.procs| == |w.procs| && forall j :: 0 <= j < |w.procs| && j != i ==> w'.procs[j] == w.procs[j];
    hide Apply, Gate, FitToTrade, WasFit, SentFit, Enabled, CandsOf;
    forall j | 0 <= j < |w'.procs| ensures AllWereFit(cfg, w'.collected, CandsOf(w'.procs[j])) {
      var v := CandsOf(w'.procs[j]);
      assert AllWereFit(cfg, w.collected, CandsOf(w.procs[j]));
      forall k | 0 <= k < |v| ensures WasFit(cfg, w'.collected, v[k]) {
        WasFitGrows(cfg, w.collected, x, v[k]);
      }
    }
    forall k | 0 <= k < |w'.sent| ensures SentWell(cfg, w'.collected, w'.sent[k]) {
      assert SentWell(cfg, w.collected, w.sent[k]);
      if w.sent[k].scheduled {
        WasFitGrows(cfg, w.collected, x, w.sent[k].s);
      }
    }
  }

  lemma RankingKeepsFit(cfg: Settings, collected: seq<Collected>, v: seq<Signal>)
    requires AllWereFit(cfg, collected, v)
    ensures AllWereFit(cfg, collected, SortRanked(v))
  {
    hide WasFit, Ahead;
    SortMembers(Ahead, v);
    var r := SortRanked(v);
    forall i | 0 <= i < |r| ensures WasFit(cfg, collected, r[i]) {
      assert r[i] in v;
    }
  }

  lemma NextKeepsGate(cfg: Settings, w: World, i: nat, registers: bool)
    requires GateKept(cfg, w) && Enabled(cfg, w, Next(i, registers))
    ensures GateKept(cfg, Apply(cfg, w, Next(i, registers)))
  {
    var p, s := w.procs[i], Tries(cfg, w.core.trades, w.procs[i]);
    assert AllWereFit(cfg, w.collected, CandsOf(p));
    if p.Scanning? {
      RankingKeepsFit(cfg, w.collected, p.cands);
    }
    if s.Some? {
      TriesFit(cfg, w, p);
    }
    hide SentWell, WasFit, SortRanked, Sends, Cap, LastCheck, Tries, Register;
  }

  lemma TriesFit(cfg: Settings, w: World, p: Proc)
    requires AllWereFit(cfg, w.collected, CandsOf(p)) && Tries(cfg, w.core.trades, p).Some?
    ensures SentWell(cfg, w.collected, Sent(Tries(cfg, w.core.trades, p).value, w.core.trades, p.Ranked?, true))
    ensures SentWell(cfg, w.collected, Sent(Tries(cfg, w.core.trades, p).value, w.core.trades, p.Ranked?, false))
  {
    if p.Trying? {
      SendsFit(cfg, w.core.trades, p.drained[p.pos]);
    }
    hide SentFit, WasFit, Sends, Cap;
  }

  lemma StepKeepsGate(cfg: Settings, w: World, e: Event)
    requires GateKept(cfg, w)
    ensures GateKept(cfg, Apply(cfg, w, e))
  {
    if Enabled(cfg, w, e) {
      match e
      case Next(i, registers) => NextKeepsGate(cfg, w, i, registers); hide Apply, GateKept;
      case SignalReady(i, g) =>
        if Collects(cfg, w.core.trades, g) {
          CollectingKeepsGate(cfg, w, i, g);
          hide Apply, GateKept;
        } else {
          hide SentWell, WasFit, Collects, Checked;
        }
      case _ => hide SentWell, WasFit, Accepts, Enqueue, Without, Drained, ScanList, FlushStart, Settle, SettleRealtime;
    }
  }

  lemma {:induction false} ExecutorsThroughout(cfg: Settings, clock: int, es: seq<Event>)
    ensures AllShaped(cfg, After(cfg, clock, es)) && GateKept(cfg, After(cfg, clock, es))
  {
    if es == [] {
    } else {
      hide Apply, AllShaped, GateKept;
      ExecutorsThroughout(cfg, clock, es[..|es| - 1]);
      StepKeepsShape(cfg, After(cfg, clock, es[..|es| - 1]), es[|es| - 1]);
      StepKeepsGate(cfg, After(cfg, clock, es[..|es| - 1]), es[|es| - 1]);
    }
  }

  /**
   * Whatever happens between its awaits, a flush opens at most `Cap` trades, tries its candidates in rank order, and
   * once it stops leaves a candidate untried only because the cap is reached, which scores no higher than any it opened
   * and, among equal scores, has no higher confidence, nor, among equals in both, a higher strength.
   */
  lemma FlushIsGreedy(cfg: Settings, clock: int, es: seq<Event>, i: nat, untried: nat, o: nat)
    ensures var w := After(cfg, clock, es);
      i < |w.procs| && (w.procs[i].Trying? || w.procs[i].Sending?) ==> (
        var p := w.procs[i];
        && |p.filled| <= Max(1, Or(cfg.maxNewTrades, 1))
        && RankedDown(p.drained) && RisingBelow(p.filled, p.pos) && p.pos <= |p.drained|
        && (!Unfinished(cfg, p) && p.pos <= untried < |p.drained| ==> |p.filled| == Max(1, Or(cfg.maxNewTrades, 1)))
        && (p.pos <= untried < |p.drained| && o < |p.filled| ==>
          NotBelow(p.drained[p.filled[o]], p.drained[untried])
          && Or(p.drained[p.filled[o]].score, -1.0) >= Or(p.drained[untried].score, -1.0)))
  {
    ExecutorsThroughout(cfg, clock, es);
    var w := After(cfg, clock, es);
    if i < |w.procs| {
      assert ExecutorShape(cfg, w.procs[i]);
    }
    hide After, GateKept;
  }

  /**
   * A scheduled cycle opens at most `Cap` trades per broker, tries the collected candidates in rank order, and moves on
   * to its next broker only when all are tried or the cap is reached; what it then leaves untried ranks no higher,
   * score first, than anything it has tried.
   */
  lemma CycleIsCapped(cfg: Settings, clock: int, es: seq<Event>, i: nat, tried: nat, untried: nat)
    ensures var w := After(cfg, clock, es);
      i < |w.procs| && (w.procs[i].Ranked? || w.procs[i].Opening?) ==> (
        var p := w.procs[i];
        && p.count <= Max(1, Or(cfg.maxNewTrades, 1)) && p.count <= p.pos <= |p.cands| && RankedDown(p.cands)
        && (p.Ranked? && AfterNext(cfg, w, p, None).CycleAt? ==>
          p.pos == |p.cands| || p.count == Max(1, Or(cfg.maxNewTrades, 1)))
        && (tried < p.pos <= untried < |p.cands| ==>
          NotBelow(p.cands[tried], p.cands[untried])
          && Or(p.cands[tried].score, -1.0) >= Or(p.cands[untried].score, -1.0)))
  {
    ExecutorsThroughout(cfg, clock, es);
    var w := After(cfg, clock, es);
    if i < |w.procs| {
      assert ExecutorShape(cfg, w.procs[i]);
    }
    hide After, GateKept;
  }

  /** With the trades as they have become, a signal once fit is fit exactly while its pair has no open trade. */
  lemma FitAgainIff(cfg: Settings, before: seq<Trade>, now: seq<Trade>, s: Signal)
    requires FitToTrade(cfg, before, s)
    ensures FitToTrade(cfg, now, s) <==> !HasOpen(now, Norm(s.pair))
  {
    NormEmptyIff(s.pair);
    hide Trim, Norm;
  }

  /**
   * Every signal ever handed over for execution passed the full gate: a flush's at that very moment, a cycle's when it
   * was collected, and then still exactly when its pair has had no trade opened since. So has every candidate a cycle
   * holds.
   */
  lemma EverySentSignalPassed(cfg: Settings, clock: int, es: seq<Event>, x: nat, i: nat, k: nat)
    ensures var w := After(cfg, clock, es);
      && (x < |w.sent| && !w.sent[x].scheduled ==> SentFit(cfg, w.sent[x].trades, w.sent[x].s))
      && (x < |w.sent| && w.sent[x].scheduled ==>
        WasFit(cfg, w.collected, w.sent[x].s)
        && (FitToTrade(cfg, w.sent[x].trades, w.sent[x].s) <==> !HasOpen(w.sent[x].trades, Norm(w.sent[x].s.pair))))
      && (i < |w.procs| && k < |CandsOf(w.procs[i])| ==> WasFit(cfg, w.collected, CandsOf(w.procs[i])[k]))
  {
    ExecutorsThroughout(cfg, clock, es);
    var w := After(cfg, clock, es);
    hide After, HasOpen, Norm, SentFit, AllShaped, FitToTrade;
    if x < |w.sent| {
      assert SentWell(cfg, w.collected, w.sent[x]);
      if w.sent[x].scheduled {
        var s := w.sent[x].s;
        var c :| 0 <= c < |w.collected| && w.collected[c].s == s && FitToTrade(cfg, w.collected[c].trades, s);
        FitAgainIff(cfg, w.collected[c].trades, w.sent[x].trades, s);
      }
    }
    if i < |w.procs| {
      assert AllWereFit(cfg, w.collected, CandsOf(w.procs[i]));
    }
  }
}
