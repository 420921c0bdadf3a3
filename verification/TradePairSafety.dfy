/**
 * One open trade per symbol. A flush re-checks a pair in the very step in which its trade is registered; a cycle checks
 * only when it collects its candidates, so only a cycle can open a symbol twice.
 */
module TradePairSafety {
  import opened Prelude
  import opened TradeGate
  import opened TradeManager
  import opened TradeRuns

  ghost predicate OnePerPair(trades: seq<Trade>) {
    forall i, j :: 0 <= i < j < |trades| && trades[i].open && trades[j].open && Norm(trades[i].pair) != [] ==>
      Norm(trades[j].pair) != Norm(trades[i].pair)
  }

  function PairKey(s: Signal): string { Norm(s.pair) }

  /** Opening a trade keeps one trade per pair exactly when the pair is blank or free. */
  lemma OpeningKeepsIff(trades: seq<Trade>, id: nat, pair: string)
    ensures OnePerPair(trades + [Trade(id, pair, true)]) <==> OnePerPair(trades) && !HasOpen(trades, Norm(pair))
  {
    hide Norm;
    var t := Trade(id, pair, true);
    var more := trades + [t];
    if OnePerPair(more) {
      forall i, j | 0 <= i < j < |trades| && trades[i].open && Norm(trades[i].pair) != []
        ensures !OpenFor(trades[j], Norm(trades[i].pair))
      {
        assert more[i] == trades[i] && more[j] == trades[j];
      }
      forall i | 0 <= i < |trades| ensures !OpenFor(trades[i], Norm(pair)) {
        assert more[i] == trades[i] && more[|trades|] == t;
      }
    }
  }

  // ----- the table of trades -----

  lemma {:induction false} WithoutMembers(trades: seq<Trade>, id: nat)
    ensures forall i :: 0 <= i < |Without(trades, id)| ==> Without(trades, id)[i] in trades
  {
    if trades == [] {
    } else {
      WithoutMembers(trades[..|trades| - 1], id);
    }
  }

  /** Deleting a trade opens no pair... */
  lemma WithoutOpensNothing(trades: seq<Trade>, id: nat, wanted: string)
    requires HasOpen(Without(trades, id), wanted)
    ensures HasOpen(trades, wanted)
  {
    hide Norm;
    WithoutMembers(trades, id);
    var r := Without(trades, id);
    var i :| 0 <= i < |r| && OpenFor(r[i], wanted);
    var j :| 0 <= j < |trades| && trades[j] == r[i];
    assert OpenFor(trades[j], wanted);
  }

  /** ... and keeps one trade per pair. */
  lemma {:induction false} WithoutKeepsUnique(trades: seq<Trade>, id: nat)
    requires OnePerPair(trades)
    ensures OnePerPair(Without(trades, id))
  {
    hide Norm;
    if trades == [] {
    } else {
      var rest, last := trades[..|trades| - 1], trades[|trades| - 1];
      forall i, j | 0 <= i < j < |rest| && rest[i].open && Norm(rest[i].pair) != []
        ensures !OpenFor(rest[j], Norm(rest[i].pair))
      {
        assert rest[i] == trades[i] && rest[j] == trades[j];
      }
      WithoutKeepsUnique(rest, id);
      if last.id != id {
        var r := Without(rest, id);
        WithoutMembers(rest, id);
        forall i | 0 <= i < |r| && r[i].open && Norm(r[i].pair) != [] ensures !OpenFor(last, Norm(r[i].pair)) {
          var k :| 0 <= k < |rest| && rest[k] == r[i];
          assert trades[k] == r[i] && trades[|trades| - 1] == last;
        }
      }
    }
  }

  // ----- when exactly it holds -----

  /** The guard a cycle omits: the pair of a trade it registers has none open. */
  predicate Guarded(x: Sent) { x.scheduled && x.registered ==> !HasOpen(x.trades, PairKey(x.s)) }

  predicate AllGuarded(sent: seq<Sent>) { forall i :: 0 <= i < |sent| ==> Guarded(sent[i]) }

  /** One trade per pair at every moment of the run. */
  ghost predicate AlwaysUnique(cfg: Settings, clock: int, es: seq<Event>) {
    forall n :: 0 <= n <= |es| ==> OnePerPair(After(cfg, clock, es[..n]).core.trades)
  }

  lemma AlwaysUniqueSteps(cfg: Settings, clock: int, es: seq<Event>)
    requires es != []
    ensures AlwaysUnique(cfg, clock, es) <==>
      AlwaysUnique(cfg, clock, es[..|es| - 1]) && OnePerPair(After(cfg, clock, es).core.trades)
  {
    hide After, OnePerPair;
    var before := es[..|es| - 1];
    assert es[..|es|] == es;
    forall n | 0 <= n <= |before| ensures before[..n] == es[..n] {
    }
    if AlwaysUnique(cfg, clock, before) && OnePerPair(After(cfg, clock, es).core.trades) {
      forall n | 0 <= n <= |es| ensures OnePerPair(After(cfg, clock, es[..n]).core.trades) {
        if n < |es| {
          assert before[..n] == es[..n];
        }
      }
    }
    if AlwaysUnique(cfg, clock, es) {
      forall n | 0 <= n <= |before| ensures OnePerPair(After(cfg, clock, before[..n]).core.trades) {
        assert before[..n] == es[..n];
      }
      assert OnePerPair(After(cfg, clock, es[..|es|]).core.trades);
    }
  }

  /** The signal a step registers a trade for, if any. */
  function Registered(cfg: Settings, w: World, e: Event): Option<Signal> {
    if e.Next? && e.registers && Enabled(cfg, w, e) then Tries(cfg, w.core.trades, w.procs[e.i]) else None
  }

  /** The trade a step deletes, if any: closed, or withdrawn because the broker refused it. */
  function Deleted(cfg: Settings, w: World, e: Event): Option<nat> {
    if e.CloseTrade? then Some(e.id)
    else if e.Executed? && Enabled(cfg, w, e) && e.answer.Withdrawn? then w.procs[e.i].ticket
    else None
  }

  lemma TradesAfter(cfg: Settings, w: World, e: Event)
    ensures var trades', s := Apply(cfg, w, e).core.trades, Registered(cfg, w, e);
      trades' ==
        if s.Some? then w.core.trades + [Trade(w.core.nextId, s.value.pair, true)]
        else if Deleted(cfg, w, e).Some? then Without(w.core.trades, Deleted(cfg, w, e).value)
        else w.core.trades
  {
    hide Without, AfterNext, AfterSignal, Tries, Collects, Accepts, Drained, Upsert;
  }

  lemma SentAfter(cfg: Settings, w: World, e: Event)
    ensures var sent' := Apply(cfg, w, e).sent;
      if Registered(cfg, w, e).Some? then
        sent' == w.sent + [Sent(Registered(cfg, w, e).value, w.core.trades, w.procs[e.i].Ranked?, true)]
      else AllGuarded(w.sent) <==> AllGuarded(sent')
  {
    hide Without, AfterNext, AfterSignal, Tries, Collects, Accepts, Drained, Upsert, HasOpen, PairKey, Settle,
      SettleRealtime, Enqueue;
    var sent' := Apply(cfg, w, e).sent;
    if Registered(cfg, w, e) == None && sent' != w.sent {
      assert sent' == w.sent + [sent'[|w.sent|]] && Guarded(sent'[|w.sent|]);
      GuardedSnoc(w.sent, sent'[|w.sent|]);
    }
  }

  lemma GuardedSnoc(sent: seq<Sent>, x: Sent)
    ensures AllGuarded(sent + [x]) <==> AllGuarded(sent) && Guarded(x)
  {
    hide Guarded;
    var more := sent + [x];
    if AllGuarded(more) {
      forall i | 0 <= i < |sent| ensures Guarded(sent[i]) {
        assert more[i] == sent[i];
      }
      assert Guarded(more[|sent|]);
    }
  }

  lemma TriesOfFlushIsFree(cfg: Settings, trades: seq<Trade>, p: Proc)
    requires Tries(cfg, trades, p).Some? && !p.Ranked?
    ensures !HasOpen(trades, PairKey(Tries(cfg, trades, p).value))
  {
    hide HasOpen, Norm, Trim, Gate;
  }

  /** One step keeps one trade per pair exactly when it is guarded. */
  lemma StepUniqueIff(cfg: Settings, w: World, e: Event)
    requires OnePerPair(w.core.trades) && AllGuarded(w.sent)
    ensures OnePerPair(Apply(cfg, w, e).core.trades) <==> AllGuarded(Apply(cfg, w, e).sent)
  {
    TradesAfter(cfg, w, e);
    SentAfter(cfg, w, e);
    var s := Registered(cfg, w, e);
    var trades' := Apply(cfg, w, e).core.trades;
    if s.Some? {
      var x := Sent(s.value, w.core.trades, w.procs[e.i].Ranked?, true);
      if !w.procs[e.i].Ranked? {
        TriesOfFlushIsFree(cfg, w.core.trades, w.procs[e.i]);
      }
      assert PairKey(s.value) == Norm(s.value.pair);
      hide Apply, Registered, OnePerPair, HasOpen, Norm, PairKey, AllGuarded;
      OpeningKeepsIff(w.core.trades, w.core.nextId, s.value.pair);
      GuardedSnoc(w.sent, x);
    } else {
      hide Apply, Registered, OnePerPair, AllGuarded, Without;
      if Deleted(cfg, w, e).Some? {
        WithoutKeepsUnique(w.core.trades, Deleted(cfg, w, e).value);
      }
    }
  }

  lemma GuardsOnlyFail(cfg: Settings, w: World, e: Event)
    requires AllGuarded(Apply(cfg, w, e).sent)
    ensures AllGuarded(w.sent)
  {
    SentAfter(cfg, w, e);
    hide Apply;
    if Registered(cfg, w, e).Some? {
      GuardedSnoc(w.sent, Sent(Registered(cfg, w, e).value, w.core.trades, w.procs[e.i].Ranked?, true));
    }
  }

  /**
   * Over every run: there is never more than one open trade per trimmed, upper-cased pair exactly when every trade a
   * cycle registered found its pair free at that moment. Whatever flushes do, alone or overlapping, cannot break it.
   */
  lemma {:induction false} UniqueExactlyWhenGuarded(cfg: Settings, clock: int, es: seq<Event>)
    ensures AlwaysUnique(cfg, clock, es) <==> AllGuarded(After(cfg, clock, es).sent)
  {
    if es == [] {
      assert es[..0] == es;
    } else {
      var before, e := es[..|es| - 1], es[|es| - 1];
      var w := After(cfg, clock, before);
      hide Apply, OnePerPair, AllGuarded;
      UniqueExactlyWhenGuarded(cfg, clock, before);
      AlwaysUniqueSteps(cfg, clock, es);
      assert AlwaysUnique(cfg, clock, before) ==> OnePerPair(w.core.trades) by {
        assert before[..|before|] == before;
      }
      hide AlwaysUnique;
      if AllGuarded(Apply(cfg, w, e).sent) {
        GuardsOnlyFail(cfg, w, e);
      }
      if AllGuarded(w.sent) {
        StepUniqueIff(cfg, w, e);
      }
    }
  }

  // ----- flushes alone -----

  predicate FlushesOnly(w: World) {
    && (forall i :: 0 <= i < |w.procs| ==>
      w.procs[i].Checking? || w.procs[i].Trying? || w.procs[i].Sending? || w.procs[i].Gone?)
    && (forall i :: 0 <= i < |w.sent| ==> !w.sent[i].scheduled)
  }

  lemma StepKeepsFlushesOnly(cfg: Settings, w: World, e: Event)
    requires FlushesOnly(w) && !e.CycleStarts?
    ensures FlushesOnly(Apply(cfg, w, e))
  {
    hide Without, AfterSignal, Collects, Accepts, Drained, Upsert, Sends, Settle, Register, Cap, SortRanked;
  }

  lemma {:induction false} FlushesOnlyThroughout(cfg: Settings, clock: int, es: seq<Event>)
    requires forall n :: 0 <= n < |es| ==> !es[n].CycleStarts?
    ensures FlushesOnly(After(cfg, clock, es))
  {
    if es == [] {
    } else {
      hide Apply, FlushesOnly;
      FlushesOnlyThroughout(cfg, clock, es[..|es| - 1]);
      StepKeepsFlushesOnly(cfg, After(cfg, clock, es[..|es| - 1]), es[|es| - 1]);
    }
  }

  /** Flushes of any brokers, overlapping in any way, never open a symbol twice. */
  lemma FlushesNeverClash(cfg: Settings, clock: int, es: seq<Event>)
    requires forall n :: 0 <= n < |es| ==> !es[n].CycleStarts?
    ensures AlwaysUnique(cfg, clock, es)
  {
    FlushesOnlyThroughout(cfg, clock, es);
    hide After, AlwaysUnique, HasOpen;
    UniqueExactlyWhenGuarded(cfg, clock, es);
  }
}
