/**
 * Which registered trade belongs to which awaited execution, in every run; and what follows for the cooldown from tests
 * a caller can make before the call.
 */
module TradeTickets {
  import opened Prelude
  import opened TradeGate
  import opened TradeManager
  import opened TradeRuns
  import opened TradePairSafety
  import opened TradeCooldown

  // ----- the table of trades -----

  lemma {:induction false} WithoutKeepsOthers(trades: seq<Trade>, id: nat, t: Trade)
    requires t in trades && t.id != id
    ensures t in Without(trades, id)
  {
    if trades[|trades| - 1] == t {
    } else {
      assert trades == trades[..|trades| - 1] + [trades[|trades| - 1]];
      WithoutKeepsOthers(trades[..|trades| - 1], id, t);
    }
  }

  ghost predicate DistinctIds(trades: seq<Trade>) {
    forall i, j :: 0 <= i < j < |trades| ==> trades[i].id != trades[j].id
  }

  /** With distinct ids a deletion removes exactly the trade of that id. */
  lemma {:induction false} WithoutRemovesOne(trades: seq<Trade>, id: nat, k: nat)
    requires DistinctIds(trades) && k < |trades| && trades[k].id == id
    ensures Without(trades, id) == trades[..k] + trades[k + 1..]
  {
    var rest := trades[..|trades| - 1];
    if k == |trades| - 1 {
      WithoutAbsent(rest, id);
    } else {
      assert DistinctIds(rest);
      WithoutRemovesOne(rest, id, k);
      assert rest[..k] + rest[k + 1..] + [trades[|trades| - 1]] == trades[..k] + trades[k + 1..];
    }
  }

  lemma {:induction false} WithoutKeepsDistinct(trades: seq<Trade>, id: nat)
    requires DistinctIds(trades)
    ensures DistinctIds(Without(trades, id))
  {
    if trades == [] {
    } else {
      var rest := trades[..|trades| - 1];
      assert DistinctIds(rest);
      WithoutKeepsDistinct(rest, id);
      WithoutMembers(rest, id);
      var r := Without(rest, id);
      forall i | 0 <= i < |r| ensures r[i].id != trades[|trades| - 1].id {
        var k :| 0 <= k < |rest| && rest[k] == r[i];
      }
    }
  }

  lemma WithoutKeepsFresh(core: Core, id: nat)
    requires FreshIds(core)
    ensures FreshIds(core.(trades := Without(core.trades, id)))
  {
    assert DistinctIds(core.trades);
    WithoutKeepsDistinct(core.trades, id);
    WithoutMembers(core.trades, id);
    var r := Without(core.trades, id);
    forall i | 0 <= i < |r| ensures r[i].id < core.nextId {
      var k :| 0 <= k < |core.trades| && core.trades[k] == r[i];
    }
  }

  // ----- tickets -----

  /** The id and signal of the trade a process awaits the answer for. */
  datatype Awaited = Awaited(id: nat, s: Signal)

  function AwaitedBy(p: Proc): Option<Awaited> {
    if p.Sending? && p.pos < |p.drained| && p.ticket.Some? then Some(Awaited(p.ticket.value, p.drained[p.pos]))
    else if p.Opening? && p.pos < |p.cands| && p.ticket.Some? then Some(Awaited(p.ticket.value, p.cands[p.pos]))
    else None
  }

  /** A trade under an awaited id is the one registered for that signal. */
  ghost predicate Owned(core: Core, a: Awaited) {
    a.id < core.nextId && forall k :: 0 <= k < |core.trades| && core.trades[k].id == a.id ==>
      core.trades[k].pair == a.s.pair
  }

  ghost predicate Ticketed(w: World) {
    && FreshIds(w.core)
    && (forall i :: 0 <= i < |w.procs| && AwaitedBy(w.procs[i]).Some? ==> Owned(w.core, AwaitedBy(w.procs[i]).value))
    && forall i, j :: 0 <= i < j < |w.procs| && AwaitedBy(w.procs[i]).Some? && AwaitedBy(w.procs[j]).Some? ==>
      AwaitedBy(w.procs[i]).value.id != AwaitedBy(w.procs[j]).value.id
  }

  /** Only the step that registers a trade makes a process await it; the answer ends the wait. */
  lemma AwaitedAfter(cfg: Settings, w: World, e: Event, i: nat)
    requires i < |Apply(cfg, w, e).procs| && AwaitedBy(Apply(cfg, w, e).procs[i]).Some?
    ensures var a, s := AwaitedBy(Apply(cfg, w, e).procs[i]).value, Registered(cfg, w, e);
      || (i < |w.procs| && AwaitedBy(w.procs[i]) == Some(a) && Apply(cfg, w, e).procs[i] == w.procs[i]
          && !(e.Executed? && Enabled(cfg, w, e) && e.i == i))
      || (s.Some? && i == e.i && a == Awaited(w.core.nextId, s.value))
  {
    hide Sends, Cap, Collects, Drained, ScanList, FlushStart, Enqueue, Accepts, Settle, SettleRealtime, Register,
      Checked, SortRanked, LastCheck;
  }

  lemma IdsAfter(cfg: Settings, w: World, e: Event)
    ensures Apply(cfg, w, e).core.nextId == if Registered(cfg, w, e).Some? then w.core.nextId + 1 else w.core.nextId
  {
    hide AfterNext, AfterSignal, Tries, Collects, Accepts, Drained, Queued, Upsert, Without, Unfinished, ScanList,
      OpenOf;
    match e
    case Next(_, _) => hide Enqueue, FlushStart, Settle, SettleRealtime, Checked, Drop, InHand;
    case Executed(_, _) => hide Enqueue, FlushStart, Register, Checked, Drop;
    case _ => hide Settle, SettleRealtime, Register, InHand;
  }

  lemma StepKeepsFresh(cfg: Settings, w: World, e: Event)
    requires FreshIds(w.core)
    ensures FreshIds(Apply(cfg, w, e).core)
  {
    TradesAfter(cfg, w, e);
    IdsAfter(cfg, w, e);
    var w', d := Apply(cfg, w, e), Deleted(cfg, w, e);
    hide Apply, Registered, Deleted;
    if Registered(cfg, w, e) == None && d.Some? {
      WithoutKeepsFresh(w.core, d.value);
    }
    hide Without;
  }

  /** Deleting or adding trades keeps the others' owners. */
  lemma OwnedStays(cfg: Settings, w: World, e: Event, a: Awaited)
    requires Owned(w.core, a)
    ensures Owned(Apply(cfg, w, e).core, a)
  {
    TradesAfter(cfg, w, e);
    IdsAfter(cfg, w, e);
    var w', d := Apply(cfg, w, e), Deleted(cfg, w, e);
    hide Apply, Registered, Deleted, Without;
    if Registered(cfg, w, e) == None && d.Some? {
      WithoutMembers(w.core.trades, d.value);
      var r := w'.core.trades;
      forall k | 0 <= k < |r| && r[k].id == a.id ensures r[k].pair == a.s.pair {
        var m :| 0 <= m < |w.core.trades| && w.core.trades[m] == r[k];
      }
    }
  }

  lemma NewIsOwned(cfg: Settings, w: World, e: Event)
    requires FreshIds(w.core) && Registered(cfg, w, e).Some?
    ensures Owned(Apply(cfg, w, e).core, Awaited(w.core.nextId, Registered(cfg, w, e).value))
  {
    TradesAfter(cfg, w, e);
    IdsAfter(cfg, w, e);
    hide Apply, Registered;
  }

  lemma StepKeepsTicketed(cfg: Settings, w: World, e: Event)
    requires Ticketed(w)
    ensures Ticketed(Apply(cfg, w, e))
  {
    var w' := Apply(cfg, w, e);
    StepKeepsFresh(cfg, w, e);
    hide Apply, FreshIds, Owned, AwaitedBy, Registered;
    forall i | 0 <= i < |w'.procs| && AwaitedBy(w'.procs[i]).Some?
      ensures Owned(w'.core, AwaitedBy(w'.procs[i]).value)
    {
      AwaitedAfter(cfg, w, e, i);
      if i < |w.procs| && AwaitedBy(w.procs[i]) == AwaitedBy(w'.procs[i]) {
        OwnedStays(cfg, w, e, AwaitedBy(w.procs[i]).value);
      } else {
        NewIsOwned(cfg, w, e);
      }
    }
    forall i, j | 0 <= i < j < |w'.procs| && AwaitedBy(w'.procs[i]).Some? && AwaitedBy(w'.procs[j]).Some?
      ensures AwaitedBy(w'.procs[i]).value.id != AwaitedBy(w'.procs[j]).value.id
    {
      AwaitedAfter(cfg, w, e, i);
      AwaitedAfter(cfg, w, e, j);
      OldIdsAreOld(w, i);
      OldIdsAreOld(w, j);
    }
  }

  lemma OldIdsAreOld(w: World, i: nat)
    requires Ticketed(w)
    ensures i < |w.procs| && AwaitedBy(w.procs[i]).Some? ==> AwaitedBy(w.procs[i]).value.id < w.core.nextId
  {
    hide AwaitedBy, FreshIds;
    if i < |w.procs| && AwaitedBy(w.procs[i]).Some? {
      assert Owned(w.core, AwaitedBy(w.procs[i]).value);
    }
  }

  /** In every run ids are fresh and distinct, and every awaited execution has a ticket of its own. */
  lemma {:induction false} TicketedThroughout(cfg: Settings, clock: int, es: seq<Event>)
    ensures Ticketed(After(cfg, clock, es))
  {
    if es == [] {
    } else {
      hide Apply, Ticketed;
      TicketedThroughout(cfg, clock, es[..|es| - 1]);
      StepKeepsTicketed(cfg, After(cfg, clock, es[..|es| - 1]), es[|es| - 1]);
    }
  }

  /**
   * In every run a withdrawal deletes nothing but the trade registered for the signal that was being executed, and
   * nothing at all if that trade has been closed meanwhile, whatever else was registered or deleted in between.
   */
  lemma WithdrawalIsExact(cfg: Settings, clock: int, es: seq<Event>, i: nat, k: nat)
    requires Enabled(cfg, After(cfg, clock, es), Executed(i, Withdrawn))
    ensures var w := After(cfg, clock, es);
      var p, trades' := w.procs[i], Apply(cfg, w, Executed(i, Withdrawn)).core.trades;
      && (k < |w.core.trades| && w.core.trades[k].id == p.ticket.value ==>
        w.core.trades[k].pair == InHand(cfg, p).value.pair && trades' == w.core.trades[..k] + w.core.trades[k + 1..])
      && ((forall m :: 0 <= m < |w.core.trades| ==> w.core.trades[m].id != p.ticket.value) ==> trades' == w.core.trades)
  {
    TicketedThroughout(cfg, clock, es);
    var w, e := After(cfg, clock, es), Executed(i, Withdrawn);
    var p := w.procs[i];
    TradesAfter(cfg, w, e);
    assert AwaitedBy(p) == Some(Awaited(p.ticket.value, InHand(cfg, p).value));
    assert Owned(w.core, AwaitedBy(p).value);
    hide After, Apply, Without;
    if k < |w.core.trades| && w.core.trades[k].id == p.ticket.value {
      WithoutRemovesOne(w.core.trades, p.ticket.value, k);
    }
    if forall m :: 0 <= m < |w.core.trades| ==> w.core.trades[m].id != p.ticket.value {
      WithoutAbsent(w.core.trades, p.ticket.value);
    }
  }

  // ----- the cooldown, tested before the call -----

  /** No trade is closed while a flush awaits its execution. */
  ghost predicate KeepsAwaited(w: World, e: Event) {
    e.CloseTrade? ==> forall i :: 0 <= i < |w.procs| && w.procs[i].Sending? && AwaitedBy(w.procs[i]).Some? ==>
      AwaitedBy(w.procs[i]).value.id != e.id
  }

  /** A flush hands over only signals whose pair is not cooling down: the test the code could make before it calls. */
  ghost predicate SendsRested(cfg: Settings, w: World, e: Event) {
    Registered(cfg, w, e).Some? && w.procs[e.i].Trying? ==>
      !CoolingDown(cfg, w.core, w.procs[e.i].b, TrimKey(Registered(cfg, w, e).value), w.clock)
  }

  ghost predicate CarefulRun(cfg: Settings, clock: int, es: seq<Event>) {
    es == [] ||
      (var before := After(cfg, clock, es[..|es| - 1]);
       CarefulRun(cfg, clock, es[..|es| - 1])
         && KeepsAwaited(before, es[|es| - 1]) && SendsRested(cfg, before, es[|es| - 1]))
  }

  /** The execution a flush awaits. */
  function Held(p: Proc): Option<Awaited> { if p.Sending? then AwaitedBy(p) else None }

  /** Its trade is still open, and its pair still rested. */
  ghost predicate HeldWell(cfg: Settings, w: World, b: Broker, a: Awaited) {
    && Trade(a.id, a.s.pair, true) in w.core.trades && Norm(a.s.pair) != []
    && !CoolingDown(cfg, w.core, b, TrimKey(a.s), w.clock)
  }

  ghost predicate Careful(cfg: Settings, w: World) {
    && AllOpensRested(cfg, w.opens)
    && (forall i :: 0 <= i < |w.procs| && Held(w.procs[i]).Some? ==>
      HeldWell(cfg, w, w.procs[i].b, Held(w.procs[i]).value))
    && forall i, j :: 0 <= i < j < |w.procs| && Held(w.procs[i]).Some? && Held(w.procs[j]).Some? ==>
      Norm(Held(w.procs[i]).value.s.pair) != Norm(Held(w.procs[j]).value.s.pair)
  }

  /** What a flush registers is free and not blank. */
  lemma RegisteredByFlush(cfg: Settings, w: World, e: Event)
    requires Registered(cfg, w, e).Some? && w.procs[e.i].Trying?
    ensures var s := Registered(cfg, w, e).value; Norm(s.pair) != [] && !HasOpen(w.core.trades, Norm(s.pair))
  {
    NormEmptyIff(Registered(cfg, w, e).value.pair);
    hide HasOpen, Norm, Trim, Gate, Cap;
  }

  lemma HeldIsOpen(cfg: Settings, w: World, b: Broker, a: Awaited)
    requires HeldWell(cfg, w, b, a)
    ensures HasOpen(w.core.trades, Norm(a.s.pair))
  {
    hide Norm, CoolingDown;
    var t := Trade(a.id, a.s.pair, true);
    var k :| 0 <= k < |w.core.trades| && w.core.trades[k] == t;
    assert OpenFor(w.core.trades[k], Norm(a.s.pair));
  }

  /** A trade that no step deletes stays. */
  lemma HeldTradeStays(cfg: Settings, w: World, e: Event, t: Trade)
    requires t in w.core.trades && Deleted(cfg, w, e) != Some(t.id)
    ensures t in Apply(cfg, w, e).core.trades
  {
    TradesAfter(cfg, w, e);
    var d := Deleted(cfg, w, e);
    hide Apply, Registered, Deleted, Without;
    if d.Some? {
      WithoutKeepsOthers(w.core.trades, d.value, t);
    }
  }

  /** A pair other than the one just opened stays rested. */
  lemma HeldStaysRested(cfg: Settings, w: World, e: Event, b: Broker, key: string)
    requires !CoolingDown(cfg, w.core, b, key, w.clock)
    requires Completes(cfg, w, e).Some? ==>
      TrimKey(Completes(cfg, w, e).value.1) != key || Completes(cfg, w, e).value.0 != b
    ensures !CoolingDown(cfg, Apply(cfg, w, e).core, b, key, Apply(cfg, w, e).clock)
  {
    OpensAfter(cfg, w, e);
    var w', o := Apply(cfg, w, e), Completes(cfg, w, e);
    hide Apply, Completes, TrimKey;
    if o.Some? {
      OpenedElsewhere(w, w', o.value.0, TrimKey(o.value.1), b, key);
    }
  }

  /** Whoever opens is holding, and nobody else holds the same symbol. */
  lemma CompletesHeld(cfg: Settings, w: World, e: Event)
    requires Completes(cfg, w, e).Some?
    ensures var p := w.procs[e.i];
      Held(p).Some? && Completes(cfg, w, e).value == (p.b, Held(p).value.s)
  {
    hide Cap;
  }

  lemma DeletedIsNotHeld(cfg: Settings, w: World, e: Event, i: nat)
    requires Ticketed(w) && KeepsAwaited(w, e) && i < |w.procs| && Held(w.procs[i]).Some?
    requires !(e.Executed? && Enabled(cfg, w, e) && e.i == i)
    ensures Deleted(cfg, w, e) != Some(Held(w.procs[i]).value.id)
  {
    if e.Executed? && Enabled(cfg, w, e) && e.answer.Withdrawn? {
      assert AwaitedBy(w.procs[e.i]).Some? && AwaitedBy(w.procs[e.i]).value.id == w.procs[e.i].ticket.value;
      hide FreshIds, Owned, Cap;
      assert AwaitedBy(w.procs[i]).Some?;
      if i < e.i {
        assert AwaitedBy(w.procs[i]).value.id != AwaitedBy(w.procs[e.i]).value.id;
      } else {
        assert AwaitedBy(w.procs[e.i]).value.id != AwaitedBy(w.procs[i]).value.id;
      }
    }
  }

  lemma KeysOfNorms(s: Signal, t: Signal)
    requires Norm(s.pair) != Norm(t.pair)
    ensures TrimKey(s) != TrimKey(t)
  {
  }

  /** An execution that goes on being awaited. */
  lemma HeldGoesOn(cfg: Settings, w: World, e: Event, i: nat)
    requires Careful(cfg, w) && Ticketed(w) && KeepsAwaited(w, e)
    requires i < |w.procs| && Held(w.procs[i]).Some? && !(e.Executed? && Enabled(cfg, w, e) && e.i == i)
    ensures HeldWell(cfg, Apply(cfg, w, e), w.procs[i].b, Held(w.procs[i]).value)
  {
    var p, a := w.procs[i], Held(w.procs[i]).value;
    assert HeldWell(cfg, w, p.b, a);
    DeletedIsNotHeld(cfg, w, e, i);
    HeldTradeStays(cfg, w, e, Trade(a.id, a.s.pair, true));
    var o := Completes(cfg, w, e);
    if o.Some? {
      CompletesHeld(cfg, w, e);
      assert e.i != i by { assert e.Executed? && Enabled(cfg, w, e); }
      hide Apply, Held, Completes, Deleted, Norm, TrimKey, HeldWell, AllOpensRested, Ticketed, KeepsAwaited;
      assert Norm(Held(w.procs[e.i]).value.s.pair) != Norm(a.s.pair);
      KeysOfNorms(Held(w.procs[e.i]).value.s, a.s);
    }
    hide Apply, Completes, Norm, TrimKey, Deleted, Held;
    HeldStaysRested(cfg, w, e, p.b, TrimKey(a.s));
  }

  /** An execution that begins. */
  lemma HeldBegins(cfg: Settings, w: World, e: Event)
    requires Registered(cfg, w, e).Some? && w.procs[e.i].Trying? && SendsRested(cfg, w, e)
    ensures HeldWell(cfg, Apply(cfg, w, e), w.procs[e.i].b, Awaited(w.core.nextId, Registered(cfg, w, e).value))
  {
    RegisteredByFlush(cfg, w, e);
    TradesAfter(cfg, w, e);
    assert Completes(cfg, w, e) == None;
    var s, w' := Registered(cfg, w, e).value, Apply(cfg, w, e);
    hide Apply, Registered, Completes, Norm, TrimKey;
    HeldStaysRested(cfg, w, e, w.procs[e.i].b, TrimKey(s));
    assert w'.core.trades[|w.core.trades|] == Trade(w.core.nextId, s.pair, true);
  }

  lemma HeldAfter(cfg: Settings, w: World, e: Event, i: nat)
    requires i < |Apply(cfg, w, e).procs| && Held(Apply(cfg, w, e).procs[i]).Some?
    ensures var p, a := Apply(cfg, w, e).procs[i], Held(Apply(cfg, w, e).procs[i]).value;
      || (i < |w.procs| && p == w.procs[i] && Held(w.procs[i]) == Some(a)
        && !(e.Executed? && Enabled(cfg, w, e) && e.i == i))
      || (Registered(cfg, w, e).Some? && i == e.i && w.procs[e.i].Trying? && p.b == w.procs[e.i].b
          && a == Awaited(w.core.nextId, Registered(cfg, w, e).value))
  {
    AwaitedAfter(cfg, w, e, i);
    if Registered(cfg, w, e).Some? && i == e.i {
      RegisteringProc(cfg, w, e);
    }
    hide Apply, AwaitedBy, Registered, Enabled;
  }

  /** A flush becomes a waiting flush, a cycle a waiting cycle. */
  lemma RegisteringProc(cfg: Settings, w: World, e: Event)
    requires Registered(cfg, w, e).Some?
    ensures var p, p' := w.procs[e.i], Apply(cfg, w, e).procs[e.i];
      if p.Trying? then p'.Sending? && p'.b == p.b else p.Ranked? && p'.Opening?
  {
    hide Sends, Cap, Register;
  }

  lemma StepKeepsCareful(cfg: Settings, w: World, e: Event)
    requires Careful(cfg, w) && Ticketed(w) && KeepsAwaited(w, e) && SendsRested(cfg, w, e)
    ensures Careful(cfg, Apply(cfg, w, e))
  {
    var w' := Apply(cfg, w, e);
    CarefulOpens(cfg, w, e);
    hide Apply, AllOpensRested, Held, HeldWell, Norm, Ticketed, KeepsAwaited, SendsRested, Registered, Enabled;
    forall i | 0 <= i < |w'.procs| && Held(w'.procs[i]).Some?
      ensures HeldWell(cfg, w', w'.procs[i].b, Held(w'.procs[i]).value)
    {
      HeldAfter(cfg, w, e, i);
      if i < |w.procs| && w'.procs[i] == w.procs[i] && Held(w.procs[i]) == Held(w'.procs[i])
        && !(e.Executed? && Enabled(cfg, w, e) && e.i == i) {
        HeldGoesOn(cfg, w, e, i);
      } else {
        HeldBegins(cfg, w, e);
      }
    }
    forall i, j | 0 <= i < j < |w'.procs| && Held(w'.procs[i]).Some? && Held(w'.procs[j]).Some?
      ensures Norm(Held(w'.procs[i]).value.s.pair) != Norm(Held(w'.procs[j]).value.s.pair)
    {
      HeldAfter(cfg, w, e, i);
      HeldAfter(cfg, w, e, j);
      OtherSymbol(cfg, w, e, i);
      OtherSymbol(cfg, w, e, j);
    }
  }

  /** What a flush registers is another symbol than any held one. */
  lemma OtherSymbol(cfg: Settings, w: World, e: Event, i: nat)
    requires Careful(cfg, w)
    ensures i < |w.procs| && Held(w.procs[i]).Some? && Registered(cfg, w, e).Some? && w.procs[e.i].Trying? ==>
      Norm(Held(w.procs[i]).value.s.pair) != Norm(Registered(cfg, w, e).value.pair)
  {
    if i < |w.procs| && Held(w.procs[i]).Some? && Registered(cfg, w, e).Some? && w.procs[e.i].Trying? {
      RegisteredByFlush(cfg, w, e);
      hide Registered, Held, Norm, HasOpen, AllOpensRested;
      assert HeldWell(cfg, w, w.procs[i].b, Held(w.procs[i]).value);
      HeldIsOpen(cfg, w, w.procs[i].b, Held(w.procs[i]).value);
    }
  }

  lemma CarefulOpens(cfg: Settings, w: World, e: Event)
    requires Careful(cfg, w)
    ensures AllOpensRested(cfg, Apply(cfg, w, e).opens)
  {
    OpensAfter(cfg, w, e);
    var o := Completes(cfg, w, e);
    if o.Some? {
      CompletesHeld(cfg, w, e);
      var a := Held(w.procs[e.i]).value;
      assert HeldWell(cfg, w, w.procs[e.i].b, a);
      assert Rested(cfg, OpenOf(w, o.value.0, o.value.1)) by {
        hide Apply, Completes, Held;
        assert !CoolingDown(cfg, w.core, o.value.0, TrimKey(o.value.1), w.clock);
        hide Norm, LastOpen;
      }
      hide Apply, Completes, Held, AllOpensRested, OpenOf;
      RestedSnoc(cfg, w.opens, OpenOf(w, o.value.0, o.value.1));
    }
  }

  lemma {:induction false} CarefulThroughout(cfg: Settings, clock: int, es: seq<Event>)
    requires CarefulRun(cfg, clock, es)
    ensures Careful(cfg, After(cfg, clock, es))
  {
    if es == [] {
    } else {
      hide Apply, Careful, Ticketed, KeepsAwaited, SendsRested;
      CarefulThroughout(cfg, clock, es[..|es| - 1]);
      TicketedThroughout(cfg, clock, es[..|es| - 1]);
      StepKeepsCareful(cfg, After(cfg, clock, es[..|es| - 1]), es[|es| - 1]);
    }
  }

  /**
   * A test before the call is enough: if each flush hands over only signals whose pair is not cooling down then, and no
   * trade is closed while its own execution is awaited, realtime opens of one broker and pair are the cooldown apart.
   */
  lemma TestingBeforeSendingSpaces(cfg: Settings, clock: int, es: seq<Event>)
    requires clock > 0 && CarefulRun(cfg, clock, es)
    ensures Spaced(cfg, After(cfg, clock, es).opens)
  {
    CarefulThroughout(cfg, clock, es);
    SpacedExactlyWhenRested(cfg, clock, es);
    hide After, CarefulRun, Spaced, AllOpensRested, HeldWell, Held;
  }
}
