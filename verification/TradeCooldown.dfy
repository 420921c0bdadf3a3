/**
 * The realtime cooldown. It is checked when a signal is queued and recorded when its trade has opened, never when a
 * flush sends it.
 */
module TradeCooldown {
  import opened Prelude
  import opened Sorting
  import opened TradeGate
  import opened TradeManager
  import opened TradeRuns
  import opened TradeQueueSafety

  function TrimKey(s: Signal): string { Trim(s.pair) }

  predicate SameSlot(x: RealtimeOpen, y: RealtimeOpen) { x.b == y.b && x.pair == y.pair }

  /** Realtime opens of one broker and pair are at least the cooldown apart. */
  ghost predicate Spaced(cfg: Settings, opens: seq<RealtimeOpen>) {
    forall i, j :: 0 <= i < j < |opens| && SameSlot(opens[i], opens[j]) ==> opens[j].at - opens[i].at >= cfg.cooldownMs
  }

  /** The guard that queueing applies, for an open at the moment it happened. */
  predicate Rested(cfg: Settings, o: RealtimeOpen) {
    !(cfg.cooldownMs > 0 && o.previous != 0 && o.at - o.previous < cfg.cooldownMs)
  }

  predicate AllOpensRested(cfg: Settings, opens: seq<RealtimeOpen>) {
    forall i :: 0 <= i < |opens| ==> Rested(cfg, opens[i])
  }

  // ----- when exactly opens are spaced -----

  /** In the log there is an open of this broker and pair at that time. */
  ghost predicate Logged(opens: seq<RealtimeOpen>, b: Broker, pair: string, at: int) {
    exists i :: 0 <= i < |opens| && opens[i].b == b && opens[i].pair == pair && opens[i].at == at
  }

  /** The cooldown table holds, for each broker and pair, the time of its latest open. */
  ghost predicate Remembered(w: World) {
    && w.clock > 0
    && (forall i :: 0 <= i < |w.opens| ==> 0 < w.opens[i].at <= LastOpen(w.core, w.opens[i].b, w.opens[i].pair))
    && (forall b, pair :: LastOpen(w.core, b, pair) <= w.clock)
    && (forall b, pair :: LastOpen(w.core, b, pair) != 0 ==> Logged(w.opens, b, pair, LastOpen(w.core, b, pair)))
  }

  /** The broker and signal of the realtime open that a step completes, if any. */
  function Completes(cfg: Settings, w: World, e: Event): Option<(Broker, Signal)> {
    if e.Executed? && Enabled(cfg, w, e) && w.procs[e.i].Sending? && e.answer.Opened? then
      Some((w.procs[e.i].b, w.procs[e.i].drained[w.procs[e.i].pos]))
    else None
  }

  lemma OpensAfter(cfg: Settings, w: World, e: Event)
    ensures var w', o := Apply(cfg, w, e), Completes(cfg, w, e);
      && w.clock <= w'.clock
      && if o.Some? then
           w'.clock == w.clock && w'.opens == w.opens + [OpenOf(w, o.value.0, o.value.1)]
           && w'.core.lastOpen == w.core.lastOpen[(o.value.0, TrimKey(o.value.1)) := w.clock]
         else w'.opens == w.opens && w'.core.lastOpen == w.core.lastOpen
  {
    hide Without, AfterNext, AfterSignal, Tries, Collects, Accepts, Drained, Upsert, LastOpen;
  }

  lemma OpenedElsewhere(w: World, w': World, b: Broker, pair: string, b': Broker, pair': string)
    requires w'.core.lastOpen == w.core.lastOpen[(b, pair) := w.clock]
    ensures LastOpen(w'.core, b', pair') == if b' == b && pair' == pair then w.clock else LastOpen(w.core, b', pair')
  {
  }

  lemma LoggedGrows(opens: seq<RealtimeOpen>, o: RealtimeOpen, b: Broker, pair: string, at: int)
    requires Logged(opens, b, pair, at) || (o.b == b && o.pair == pair && o.at == at)
    ensures Logged(opens + [o], b, pair, at)
  {
    var more := opens + [o];
    if Logged(opens, b, pair, at) {
      var i :| 0 <= i < |opens| && opens[i].b == b && opens[i].pair == pair && opens[i].at == at;
      assert more[i] == opens[i];
    } else {
      assert more[|opens|] == o;
    }
  }

  lemma OpenIsRemembered(w: World, w': World, b: Broker, s: Signal)
    requires Remembered(w) && w'.clock == w.clock && w'.core.lastOpen == w.core.lastOpen[(b, TrimKey(s)) := w.clock]
    requires w'.opens == w.opens + [OpenOf(w, b, s)]
    ensures Remembered(w')
  {
    forall b', pair'
      ensures LastOpen(w'.core, b', pair') ==
        if b' == b && pair' == TrimKey(s) then w.clock else LastOpen(w.core, b', pair')
    {
      OpenedElsewhere(w, w', b, TrimKey(s), b', pair');
    }
    var o := OpenOf(w, b, s);
    assert o.b == b && o.pair == TrimKey(s) && o.at == w.clock;
    hide LastOpen, OpenOf, TrimKey, Logged;
    forall b', pair' | LastOpen(w'.core, b', pair') != 0
      ensures Logged(w'.opens, b', pair', LastOpen(w'.core, b', pair'))
    {
      LoggedGrows(w.opens, o, b', pair', LastOpen(w'.core, b', pair'));
    }
  }

  lemma StepKeepsRemembered(cfg: Settings, w: World, e: Event)
    requires Remembered(w)
    ensures Remembered(Apply(cfg, w, e))
  {
    OpensAfter(cfg, w, e);
    var w', o := Apply(cfg, w, e), Completes(cfg, w, e);
    hide Apply, Completes;
    if o.Some? {
      OpenIsRemembered(w, w', o.value.0, o.value.1);
    } else {
      forall b, pair ensures LastOpen(w'.core, b, pair) == LastOpen(w.core, b, pair) {
      }
      hide LastOpen, Logged;
    }
  }

  /** In every run the cooldown table remembers the latest opens. */
  lemma {:induction false} RememberedThroughout(cfg: Settings, clock: int, es: seq<Event>)
    requires clock > 0
    ensures Remembered(After(cfg, clock, es))
  {
    if es == [] {
    } else {
      hide Apply, Remembered;
      RememberedThroughout(cfg, clock, es[..|es| - 1]);
      StepKeepsRemembered(cfg, After(cfg, clock, es[..|es| - 1]), es[|es| - 1]);
    }
  }

  /** A trade of this broker and pair was opened less than the cooldown ago. */
  ghost predicate OpenedLately(cfg: Settings, w: World, b: Broker, pair: string) {
    exists i :: 0 <= i < |w.opens| && w.opens[i].b == b && w.opens[i].pair == pair
      && w.clock - w.opens[i].at < cfg.cooldownMs
  }

  lemma CoolingDownIff(cfg: Settings, w: World, b: Broker, pair: string)
    requires Remembered(w)
    ensures CoolingDown(cfg, w.core, b, pair, w.clock) <==> OpenedLately(cfg, w, b, pair)
  {
    var last := LastOpen(w.core, b, pair);
    hide LastOpen;
    if CoolingDown(cfg, w.core, b, pair, w.clock) {
      var i :| 0 <= i < |w.opens| && w.opens[i].b == b && w.opens[i].pair == pair && w.opens[i].at == last;
      assert w.clock - w.opens[i].at < cfg.cooldownMs;
    }
  }

  /**
   * In every run an arriving signal is queued exactly when it is valid, has a pair without an open trade, its broker is
   * enabled, and no trade of that broker and pair was opened less than the cooldown ago.
   */
  lemma QueuedExactlyWhenFree(cfg: Settings, clock: int, es: seq<Event>, b: Broker, s: Signal)
    requires clock > 0
    ensures var w := After(cfg, clock, es);
      Apply(cfg, w, Arrive(b, s)).since ==
        if cfg.realtimeEnabled && b in w.core.enabled && s.isValid && Trim(s.pair) != []
          && !HasOpen(w.core.trades, Norm(s.pair)) && !OpenedLately(cfg, w, b, Trim(s.pair))
        then w.since[b := Queued(w.since, b) + [s]] else w.since
  {
    RememberedThroughout(cfg, clock, es);
    CoolingDownIff(cfg, After(cfg, clock, es), b, Trim(s.pair));
    hide After, Remembered, CoolingDown, OpenedLately, HasOpen, Trim, Norm, Upsert, Enqueue;
  }

  /** One more open keeps the spacing exactly when it was rested. */
  lemma OpenKeepsSpacingIff(cfg: Settings, w: World, b: Broker, s: Signal)
    requires Remembered(w)
    ensures Spaced(cfg, w.opens + [OpenOf(w, b, s)]) <==> Spaced(cfg, w.opens) && Rested(cfg, OpenOf(w, b, s))
  {
    var o := OpenOf(w, b, s);
    assert o.b == b && o.pair == TrimKey(s) && o.at == w.clock && o.previous == LastOpen(w.core, b, TrimKey(s));
    var more := w.opens + [o];
    hide LastOpen, OpenOf, TrimKey;
    if Spaced(cfg, more) {
      forall i, j | 0 <= i < j < |w.opens| && SameSlot(w.opens[i], w.opens[j])
        ensures w.opens[j].at - w.opens[i].at >= cfg.cooldownMs
      {
        assert more[i] == w.opens[i] && more[j] == w.opens[j];
      }
      if o.previous != 0 {
        var i :| 0 <= i < |w.opens| && w.opens[i].b == b && w.opens[i].pair == o.pair && w.opens[i].at == o.previous;
        assert more[i] == w.opens[i] && more[|w.opens|] == o && SameSlot(more[i], o);
      }
    }
  }

  lemma RestedSnoc(cfg: Settings, opens: seq<RealtimeOpen>, o: RealtimeOpen)
    ensures AllOpensRested(cfg, opens + [o]) <==> AllOpensRested(cfg, opens) && Rested(cfg, o)
  {
    hide Rested;
    var more := opens + [o];
    if AllOpensRested(cfg, more) {
      forall i | 0 <= i < |opens| ensures Rested(cfg, opens[i]) {
        assert more[i] == opens[i];
      }
      assert Rested(cfg, more[|opens|]);
    }
  }

  /**
   * Over every run: realtime opens of one broker and pair are at least the cooldown apart exactly when each of them
   * found its pair not cooling down at the moment it opened, the test the code makes only when it queues.
   */
  lemma {:induction false} SpacedExactlyWhenRested(cfg: Settings, clock: int, es: seq<Event>)
    requires clock > 0
    ensures Spaced(cfg, After(cfg, clock, es).opens) <==> AllOpensRested(cfg, After(cfg, clock, es).opens)
  {
    if es == [] {
    } else {
      var w, e := After(cfg, clock, es[..|es| - 1]), es[|es| - 1];
      SpacedExactlyWhenRested(cfg, clock, es[..|es| - 1]);
      RememberedThroughout(cfg, clock, es[..|es| - 1]);
      OpensAfter(cfg, w, e);
      hide Apply, Spaced, AllOpensRested, Remembered, Completes, OpenOf;
      var o := Completes(cfg, w, e);
      if o.Some? {
        OpenKeepsSpacingIff(cfg, w, o.value.0, o.value.1);
        RestedSnoc(cfg, w.opens, OpenOf(w, o.value.0, o.value.1));
      }
    }
  }

  // ----- runs that keep it -----

  ghost predicate Lacks(key: string, v: seq<Signal>) { forall k :: 0 <= k < |v| ==> TrimKey(v[k]) != key }

  /** When a flush has opened a pair, no candidate of that broker and pair is queued or left in another flush. */
  ghost predicate Calm(cfg: Settings, w: World, e: Event) {
    var o := Completes(cfg, w, e);
    o.Some? ==>
      && Lacks(TrimKey(o.value.1), Queued(w.core.queue, o.value.0))
      && forall j :: 0 <= j < |w.procs| && j != e.i && Unfinished(cfg, w.procs[j]) && w.procs[j].b == o.value.0 ==>
        Lacks(TrimKey(o.value.1), w.procs[j].drained[w.procs[j].pos..])
  }

  ghost predicate CalmRun(cfg: Settings, clock: int, es: seq<Event>) {
    es == [] || (CalmRun(cfg, clock, es[..|es| - 1]) && Calm(cfg, After(cfg, clock, es[..|es| - 1]), es[|es| - 1]))
  }

  /**
   * While a flush of a broker has candidates left, nothing is queued for the broker and no other flush of it has any:
   * flushes are atomic.
   */
  ghost predicate AtomicFlushes(cfg: Settings, w: World) {
    forall i :: 0 <= i < |w.procs| && Unfinished(cfg, w.procs[i]) ==> w.procs[i].b !in w.core.queue && Alone(cfg, w, i)
  }

  ghost predicate Alone(cfg: Settings, w: World, i: nat)
    requires i < |w.procs| && Unfinished(cfg, w.procs[i])
  {
    forall j :: 0 <= j < |w.procs| && j != i && Unfinished(cfg, w.procs[j]) ==> w.procs[j].b != w.procs[i].b
  }

  lemma AtomicIsCalm(cfg: Settings, w: World, e: Event)
    requires AtomicFlushes(cfg, w)
    ensures Calm(cfg, w, e)
  {
    hide Cap, TrimKey;
    if Completes(cfg, w, e).Some? {
      assert Unfinished(cfg, w.procs[e.i]);
      assert Alone(cfg, w, e.i);
    }
  }

  // ----- the invariant -----

  ghost predicate AllRested(cfg: Settings, w: World, b: Broker, v: seq<Signal>) {
    forall i :: 0 <= i < |v| ==> !CoolingDown(cfg, w.core, b, TrimKey(v[i]), w.clock)
  }

  ghost predicate FlushRested(cfg: Settings, w: World, p: Proc) {
    Unfinished(cfg, p) ==> AllRested(cfg, w, p.b, p.drained[p.pos..]) && DistinctBy(TrimKey, p.drained)
  }

  ghost predicate QueuesRested(cfg: Settings, w: World) {
    forall b :: AllRested(cfg, w, b, Queued(w.core.queue, b))
  }

  ghost predicate AtRest(cfg: Settings, w: World) {
    && AllOpensRested(cfg, w.opens) && QueuesRested(cfg, w)
    && forall i :: 0 <= i < |w.procs| ==> FlushRested(cfg, w, w.procs[i])
  }

  // ----- steps -----

  /** Time passes and other pairs open: what rested stays rested. */
  lemma StaysRested(cfg: Settings, w: World, w': World, b: Broker, v: seq<Signal>)
    requires AllRested(cfg, w, b, v) && w.clock <= w'.clock
    requires forall i :: 0 <= i < |v| ==> LastOpen(w'.core, b, TrimKey(v[i])) == LastOpen(w.core, b, TrimKey(v[i]))
    ensures AllRested(cfg, w', b, v)
  {
    hide LastOpen, TrimKey;
  }

  lemma OtherPairRests(cfg: Settings, w: World, w': World, b: Broker, key: string, b': Broker, v: seq<Signal>)
    requires w'.core.lastOpen == w.core.lastOpen[(b, key) := w.clock] && w'.clock == w.clock
    requires AllRested(cfg, w, b', v) && (b' != b || Lacks(key, v))
    ensures AllRested(cfg, w', b', v)
  {
    hide CoolingDown, TrimKey, LastOpen;
    forall i | 0 <= i < |v| ensures LastOpen(w'.core, b', TrimKey(v[i])) == LastOpen(w.core, b', TrimKey(v[i])) {
      OpenedElsewhere(w, w', b, key, b', TrimKey(v[i]));
    }
    StaysRested(cfg, w, w', b', v);
  }

  lemma SomeRested(cfg: Settings, w: World, b: Broker, v: seq<Signal>, u: seq<Signal>)
    requires AllRested(cfg, w, b, v) && forall i :: 0 <= i < |u| ==> u[i] in v
    ensures AllRested(cfg, w, b, u)
  {
    hide CoolingDown, TrimKey;
  }

  lemma {:induction false} UpsertMembers(q: seq<Signal>, s: Signal)
    ensures forall i :: 0 <= i < |Upsert(q, s)| ==> Upsert(q, s)[i] in q + [s]
  {
    hide Trim, Score;
    if q == [] {
    } else {
      UpsertMembers(q[1..], s);
      forall i | 0 <= i < |Upsert(q, s)| ensures Upsert(q, s)[i] in q + [s] {
        if i > 0 && Trim(q[0].pair) != Trim(s.pair) {
          assert Upsert(q, s)[i] == Upsert(q[1..], s)[i - 1];
          assert Upsert(q, s)[i] in q[1..] + [s];
        }
      }
    }
  }

  /** Steps that open nothing. */
  lemma QuietKeepsRest(cfg: Settings, w: World, w': World)
    requires AtRest(cfg, w) && w'.opens == w.opens && w'.core.lastOpen == w.core.lastOpen && w.clock <= w'.clock
    requires forall b :: AllRested(cfg, w, b, Queued(w'.core.queue, b))
    requires forall i :: 0 <= i < |w'.procs| ==>
      (i < |w.procs| && w'.procs[i] == w.procs[i]) || FlushRested(cfg, w, w'.procs[i])
    ensures AtRest(cfg, w')
  {
    forall b, pair ensures LastOpen(w'.core, b, pair) == LastOpen(w.core, b, pair) {
    }
    forall b ensures AllRested(cfg, w', b, Queued(w'.core.queue, b)) {
      StaysRested(cfg, w, w', b, Queued(w'.core.queue, b));
    }
    forall i | 0 <= i < |w'.procs| ensures FlushRested(cfg, w', w'.procs[i]) {
      var p := w'.procs[i];
      assert FlushRested(cfg, w, p);
      if Unfinished(cfg, p) {
        StaysRested(cfg, w, w', p.b, p.drained[p.pos..]);
      }
    }
    hide LastOpen, AllRested, FlushRested, AllOpensRested;
  }

  lemma ArrivalRests(cfg: Settings, w: World, b: Broker, s: Signal)
    requires AtRest(cfg, w) && Accepts(cfg, w.core, b, s, w.clock)
    ensures AllRested(cfg, w, b, Upsert(Queued(w.core.queue, b), s))
  {
    var q := Queued(w.core.queue, b);
    UpsertMembers(q, s);
    hide CoolingDown, HasOpen, Trim, Upsert, Norm;
    assert AllRested(cfg, w, b, q);
    assert TrimKey(s) == Trim(s.pair);
    assert AllRested(cfg, w, b, q + [s]);
    SomeRested(cfg, w, b, q + [s], Upsert(q, s));
  }

  lemma DrainRests(cfg: Settings, w: World, b: Broker)
    requires AtRest(cfg, w) && SlotsRight(w)
    ensures AllRested(cfg, w, b, Drained(w.core, b)[0..]) && DistinctBy(TrimKey, Drained(w.core, b))
  {
    var q := Queued(w.core.queue, b);
    SortRankedSorts(q);
    assert DistinctBy(TrimKey, q) by {
      assert SlotsFor(q, Queued(w.since, b));
      hide Trim;
    }
    SortRankedKeepsDistinct(TrimKey, q);
    hide CoolingDown, SortRanked, TrimKey, DistinctBy;
    assert AllRested(cfg, w, b, q);
    var v := SortRanked(q);
    assert v[0..] == v;
    SameMembers(v, q);
    SomeRested(cfg, w, b, q, v);
  }

  /** The candidate has been dealt with, or is being sent. */
  lemma AdvanceRests(cfg: Settings, w: World, p: Proc, p': Proc)
    requires FlushRested(cfg, w, p) && Unfinished(cfg, p)
    requires (p'.Trying? || p'.Sending?) && p'.b == p.b && p'.drained == p.drained && p.pos <= p'.pos
    ensures FlushRested(cfg, w, p')
  {
    hide CoolingDown, TrimKey, DistinctBy, Cap;
    if Unfinished(cfg, p') {
      SomeRested(cfg, w, p.b, p.drained[p.pos..], p'.drained[p'.pos..]);
    }
  }

  /** What follows the opened candidate has other pairs. */
  lemma RestOfFlush(cfg: Settings, w: World, w': World, p: Proc)
    requires FlushRested(cfg, w, p) && Unfinished(cfg, p) && w'.clock == w.clock
    requires w'.core.lastOpen == w.core.lastOpen[(p.b, TrimKey(p.drained[p.pos])) := w.clock]
    ensures AllRested(cfg, w', p.b, p.drained[p.pos + 1..])
  {
    var key, rest := TrimKey(p.drained[p.pos]), p.drained[p.pos + 1..];
    hide CoolingDown, TrimKey, LastOpen, Cap;
    SomeRested(cfg, w, p.b, p.drained[p.pos..], rest);
    forall i | 0 <= i < |rest| ensures TrimKey(rest[i]) != key {
      assert rest[i] == p.drained[p.pos + 1 + i];
    }
    OtherPairRests(cfg, w, w', p.b, key, p.b, rest);
  }

  lemma OpeningIsRested(cfg: Settings, w: World, p: Proc)
    requires FlushRested(cfg, w, p) && Unfinished(cfg, p)
    ensures Rested(cfg, OpenOf(w, p.b, p.drained[p.pos]))
  {
    assert p.drained[p.pos..][0] == p.drained[p.pos];
    assert !CoolingDown(cfg, w.core, p.b, TrimKey(p.drained[p.pos]), w.clock);
    hide Cap, LastOpen;
  }

  lemma OpeningKeepsRest(cfg: Settings, w: World, e: Event)
    requires AtRest(cfg, w) && Calm(cfg, w, e) && Completes(cfg, w, e).Some?
    ensures AtRest(cfg, Apply(cfg, w, e))
  {
    var p, w', i := w.procs[e.i], Apply(cfg, w, e), e.i;
    var s := p.drained[p.pos];
    var key := TrimKey(s);
    OpensAfter(cfg, w, e);
    assert FlushRested(cfg, w, p) && Unfinished(cfg, p);
    OpeningIsRested(cfg, w, p);
    RestedSnoc(cfg, w.opens, OpenOf(w, p.b, s));
    RestOfFlush(cfg, w, w', p);
    assert w'.core.queue == w.core.queue && |w'.procs| == |w.procs|;
    assert w'.procs[i].Trying? && w'.procs[i].b == p.b
      && w'.procs[i].drained == p.drained && w'.procs[i].pos == p.pos + 1;
    assert forall j :: 0 <= j < |w.procs| && j != i ==> w'.procs[j] == w.procs[j];
    hide Apply, CoolingDown, AllOpensRested, LastOpen, Cap, TrimKey, Lacks, OpenOf, Enabled;
    forall b ensures AllRested(cfg, w', b, Queued(w'.core.queue, b)) {
      assert AllRested(cfg, w, b, Queued(w.core.queue, b));
      OtherPairRests(cfg, w, w', p.b, key, b, Queued(w.core.queue, b));
    }
    forall j | 0 <= j < |w'.procs| ensures FlushRested(cfg, w', w'.procs[j]) {
      if j != i && Unfinished(cfg, w.procs[j]) {
        assert FlushRested(cfg, w, w.procs[j]);
        OtherPairRests(cfg, w, w', p.b, key, w.procs[j].b, w.procs[j].drained[w.procs[j].pos..]);
      }
    }
  }

  lemma EmptyRests(cfg: Settings, w: World, b: Broker)
    ensures AllRested(cfg, w, b, [])
  {
  }

  lemma ArriveKeepsRest(cfg: Settings, w: World, b: Broker, s: Signal)
    requires AtRest(cfg, w)
    ensures AtRest(cfg, Apply(cfg, w, Arrive(b, s)))
  {
    if Accepts(cfg, w.core, b, s, w.clock) {
      ArrivalRests(cfg, w, b, s);
      hide AllRested, FlushRested, Accepts, Upsert, AllOpensRested;
      var w' := Apply(cfg, w, Arrive(b, s));
      forall b' ensures AllRested(cfg, w, b', Queued(w'.core.queue, b')) {
        assert AllRested(cfg, w, b', Queued(w.core.queue, b'));
      }
      hide AtRest, Apply;
      QuietKeepsRest(cfg, w, w');
    }
  }

  lemma ConnectedKeepsRest(cfg: Settings, w: World, i: nat, ok: bool, listed: seq<string>)
    requires AtRest(cfg, w) && SlotsRight(w)
    ensures AtRest(cfg, Apply(cfg, w, Connected(i, ok, listed)))
  {
    if Enabled(cfg, w, Connected(i, ok, listed)) {
      var p, w' := w.procs[i], Apply(cfg, w, Connected(i, ok, listed));
      DrainRests(cfg, w, p.b);
      hide AllRested, DistinctBy, Drained, SlotsRight, AllOpensRested, Cap, ScanList;
      forall b ensures AllRested(cfg, w, b, Queued(w'.core.queue, b)) {
        assert AllRested(cfg, w, b, Queued(w.core.queue, b));
        EmptyRests(cfg, w, b);
      }
      assert FlushRested(cfg, w, w'.procs[i]);
      hide AtRest, Apply, FlushRested;
      QuietKeepsRest(cfg, w, w');
    }
  }

  /** Where a flush goes when it does not complete an open. */
  lemma AdvanceShape(cfg: Settings, w: World, e: Event)
    requires Enabled(cfg, w, e) && Completes(cfg, w, e) == None && (e.Next? || e.Executed?)
    ensures var p, w' := w.procs[e.i], Apply(cfg, w, e);
      && |w'.procs| == |w.procs| && (forall j :: 0 <= j < |w.procs| && j != e.i ==> w'.procs[j] == w.procs[j])
      && w'.core.queue == w.core.queue
      && var p' := w'.procs[e.i];
        if Unfinished(cfg, p)
          then (p'.Trying? || p'.Sending?) && p'.b == p.b && p'.drained == p.drained && p.pos <= p'.pos
        else !p'.Trying? && !p'.Sending?
  {
    hide Without, Collects, Drained, Sends, Cap, SortRanked, LastCheck;
  }

  /** A flush or cycle moves on without opening a realtime trade. */
  lemma AdvanceKeepsRest(cfg: Settings, w: World, e: Event)
    requires AtRest(cfg, w) && Enabled(cfg, w, e) && Completes(cfg, w, e) == None && (e.Next? || e.Executed?)
    ensures AtRest(cfg, Apply(cfg, w, e))
  {
    var p, w' := w.procs[e.i], Apply(cfg, w, e);
    AdvanceShape(cfg, w, e);
    OpensAfter(cfg, w, e);
    hide Apply, Enabled, AllRested, DistinctBy, AllOpensRested, Cap;
    assert FlushRested(cfg, w, p);
    if Unfinished(cfg, p) {
      AdvanceRests(cfg, w, p, w'.procs[e.i]);
    }
    assert FlushRested(cfg, w, w'.procs[e.i]);
    hide FlushRested;
    QuietKeepsRest(cfg, w, w');
  }

  lemma OtherKeepsRest(cfg: Settings, w: World, e: Event)
    requires AtRest(cfg, w)
      && (e.Tick? || e.Switch? || e.TimerFires? || e.CycleStarts? || e.CloseTrade? || e.SignalReady?)
    ensures AtRest(cfg, Apply(cfg, w, e))
  {
    var w' := Apply(cfg, w, e);
    hide AllRested, DistinctBy, AllOpensRested, Cap, Collects, Without;
    forall b ensures AllRested(cfg, w, b, Queued(w'.core.queue, b)) {
      assert AllRested(cfg, w, b, Queued(w.core.queue, b));
      EmptyRests(cfg, w, b);
    }
    QuietKeepsRest(cfg, w, w');
  }

  lemma StepKeepsRest(cfg: Settings, w: World, e: Event)
    requires AtRest(cfg, w) && Calm(cfg, w, e) && SlotsRight(w)
    ensures AtRest(cfg, Apply(cfg, w, e))
  {
    hide AtRest, Calm, SlotsRight;
    if Completes(cfg, w, e).Some? {
      OpeningKeepsRest(cfg, w, e);
      hide Apply;
    } else {
      match e
      case Arrive(b, s) => ArriveKeepsRest(cfg, w, b, s); hide Apply;
      case Connected(i, ok, listed) => ConnectedKeepsRest(cfg, w, i, ok, listed); hide Apply;
      case Next(i, registers) => if Enabled(cfg, w, e) { AdvanceKeepsRest(cfg, w, e); hide Apply; }
      case Executed(i, answer) => if Enabled(cfg, w, e) { AdvanceKeepsRest(cfg, w, e); hide Apply; }
      case _ => OtherKeepsRest(cfg, w, e); hide Apply;
    }
  }

  lemma {:induction false} RestThroughout(cfg: Settings, clock: int, es: seq<Event>)
    requires CalmRun(cfg, clock, es)
    ensures AtRest(cfg, After(cfg, clock, es))
  {
    if es == [] {
    } else {
      hide Apply, AtRest, Calm, SlotsRight;
      RestThroughout(cfg, clock, es[..|es| - 1]);
      SlotsHoldLatestBest(cfg, clock, es[..|es| - 1]);
      StepKeepsRest(cfg, After(cfg, clock, es[..|es| - 1]), es[|es| - 1]);
    }
  }

  /** In every calm run realtime opens of one broker and pair are at least the cooldown apart. */
  lemma OpensAreSpaced(cfg: Settings, clock: int, es: seq<Event>)
    requires clock > 0 && CalmRun(cfg, clock, es)
    ensures Spaced(cfg, After(cfg, clock, es).opens)
  {
    RestThroughout(cfg, clock, es);
    SpacedExactlyWhenRested(cfg, clock, es);
    hide After, CalmRun, QueuesRested, Spaced, AllOpensRested;
  }

  /** Flushes are atomic at every step. */
  ghost predicate AtomicRun(cfg: Settings, clock: int, es: seq<Event>) {
    es == [] || (AtomicRun(cfg, clock, es[..|es| - 1]) && AtomicFlushes(cfg, After(cfg, clock, es[..|es| - 1])))
  }

  lemma {:induction false} AtomicRunIsCalm(cfg: Settings, clock: int, es: seq<Event>)
    requires AtomicRun(cfg, clock, es)
    ensures CalmRun(cfg, clock, es)
  {
    if es == [] {
    } else {
      hide After, AtomicFlushes, Calm;
      AtomicRunIsCalm(cfg, clock, es[..|es| - 1]);
      AtomicIsCalm(cfg, After(cfg, clock, es[..|es| - 1]), es[|es| - 1]);
    }
  }

  /** In every run with atomic flushes, realtime opens of one broker and pair are at least the cooldown apart. */
  lemma AtomicFlushesAreSpaced(cfg: Settings, clock: int, es: seq<Event>)
    requires clock > 0 && AtomicRun(cfg, clock, es)
    ensures Spaced(cfg, After(cfg, clock, es).opens)
  {
    hide After, AtomicRun, CalmRun, Spaced;
    AtomicRunIsCalm(cfg, clock, es);
    OpensAreSpaced(cfg, clock, es);
  }
}
