/**
 * Cycles whose choices nobody else opens. Between collecting a signal and executing it a cycle holds it as a choice; as
 * long as no other process registers a trade for a choice, every choice stays free and no pair has two open trades.
 */
module TradeCycles {
  import opened Prelude
  import opened Sorting
  import opened TradeGate
  import opened TradeManager
  import opened TradeRuns
  import opened TradePairSafety
  import opened TradeQueueSafety

  /** The signals a cycle may still send without looking at the open trades again. */
  function Pending(p: Proc): seq<Signal> {
    match p
    case Scanning(_, _, _, _, cands) => cands
    case Generating(_, _, _, _, cands) => cands
    case Ranked(_, _, cands, pos, _) => if pos <= |cands| then cands[pos..] else []
    case Opening(_, _, cands, pos, _, _) => if pos < |cands| then cands[pos + 1..] else []
    case _ => []
  }

  ghost predicate Avoids(key: string, v: seq<Signal>) { forall k :: 0 <= k < |v| ==> PairKey(v[k]) != key }

  /** Nobody registers a trade for a symbol that another process holds as a choice. */
  ghost predicate Undisturbed(cfg: Settings, w: World, e: Event) {
    Registered(cfg, w, e).Some? ==>
      forall j :: 0 <= j < |w.procs| && j != e.i ==> Avoids(PairKey(Registered(cfg, w, e).value), Pending(w.procs[j]))
  }

  /** A generated signal is for the pair it was asked for. */
  predicate Faithful(cfg: Settings, w: World, e: Event) {
    e.SignalReady? && Enabled(cfg, w, e) && e.g.Got? && e.g.signal.Some? ==>
      Norm(e.g.signal.value.pair) == Norm(w.procs[e.i].pairs[w.procs[e.i].k])
  }

  ghost predicate Orderly(cfg: Settings, clock: int, es: seq<Event>) {
    es == [] ||
      (var before := After(cfg, clock, es[..|es| - 1]);
       Orderly(cfg, clock, es[..|es| - 1])
         && Undisturbed(cfg, before, es[|es| - 1]) && Faithful(cfg, before, es[|es| - 1]))
  }

  /** While a cycle holds choices no flush executes and no other cycle holds any. */
  ghost predicate NoOverlap(cfg: Settings, w: World) {
    forall i, j :: 0 <= i < |w.procs| && 0 <= j < |w.procs| && i != j && Pending(w.procs[i]) != [] ==>
      !Unfinished(cfg, w.procs[j]) && Pending(w.procs[j]) == []
  }

  /** Flushes and cycles that do not overlap leave each other undisturbed. */
  lemma NoOverlapIsUndisturbed(cfg: Settings, w: World, e: Event)
    requires NoOverlap(cfg, w)
    ensures Undisturbed(cfg, w, e)
  {
    hide Sends, Cap, PairKey;
    if Registered(cfg, w, e).Some? {
      var p := w.procs[e.i];
      assert Unfinished(cfg, p) || Pending(p) != [];
      forall j | 0 <= j < |w.procs| && j != e.i ensures Pending(w.procs[j]) == [] {
      }
    }
  }

  // ----- the invariant -----

  ghost predicate Free(trades: seq<Trade>, v: seq<Signal>) {
    forall i :: 0 <= i < |v| ==> PairKey(v[i]) != [] && !HasOpen(trades, PairKey(v[i]))
  }

  ghost predicate FoundAmong(pairs: seq<string>, k: nat, s: Signal)
    requires k <= |pairs|
  {
    exists j :: 0 <= j < k && Norm(pairs[j]) == PairKey(s)
  }

  ghost predicate ScanShape(pairs: seq<string>, k: nat, cands: seq<Signal>) {
    && DistinctNorms(pairs) && k <= |pairs|
    && forall i :: 0 <= i < |cands| ==> FoundAmong(pairs, k, cands[i])
  }

  ghost predicate ProcSafe(trades: seq<Trade>, p: Proc) {
    && DistinctBy(PairKey, Pending(p)) && Free(trades, Pending(p))
    && (p.Scanning? || p.Generating? ==> ScanShape(p.pairs, p.k, p.cands))
    && (p.Ranked? ==> p.pos <= |p.cands|)
  }

  ghost predicate Safe(w: World) {
    (forall i :: 0 <= i < |w.procs| ==> ProcSafe(w.core.trades, w.procs[i])) && AllGuarded(w.sent)
  }

  // ----- one process at a time -----

  lemma SortKeepsFree(trades: seq<Trade>, v: seq<Signal>)
    requires Free(trades, v)
    ensures Free(trades, SortRanked(v))
  {
    SortRankedSorts(v);
    hide HasOpen, PairKey, SortRanked;
    var r := SortRanked(v);
    SameMembers(r, v);
    forall i | 0 <= i < |r| ensures PairKey(r[i]) != [] && !HasOpen(trades, PairKey(r[i])) {
      assert r[i] in v;
    }
  }

  lemma RankingKeepsSafe(trades: seq<Trade>, cands: seq<Signal>)
    requires DistinctBy(PairKey, cands) && Free(trades, cands)
    ensures DistinctBy(PairKey, SortRanked(cands)[0..]) && Free(trades, SortRanked(cands)[0..])
  {
    SortRankedKeepsDistinct(PairKey, cands);
    SortKeepsFree(trades, cands);
    hide Free, DistinctBy, SortRanked;
    assert SortRanked(cands)[0..] == SortRanked(cands);
  }

  lemma ScanningKeepsSafe(cfg: Settings, w: World, p: Proc, ticket: Option<nat>)
    requires ProcSafe(w.core.trades, p) && p.Scanning?
    ensures ProcSafe(w.core.trades, AfterNext(cfg, w, p, ticket))
  {
    hide HasOpen, SortRanked, DistinctBy, DistinctNorms, LastCheck, PairKey, Free;
    if p.k >= |p.pairs| {
      RankingKeepsSafe(w.core.trades, p.cands);
    } else if w.clock - LastCheck(w.core, p.b, p.pairs[p.k]) < cfg.signalCheckMs {
      forall i | 0 <= i < |p.cands| ensures FoundAmong(p.pairs, p.k + 1, p.cands[i]) {
        assert FoundAmong(p.pairs, p.k, p.cands[i]);
      }
    }
  }

  /** A turn that sends nothing. */
  lemma TurnKeepsSafe(cfg: Settings, w: World, p: Proc, ticket: Option<nat>)
    requires ProcSafe(w.core.trades, p) && (p.Trying? ==> p.pos < |p.drained|) && (p.CycleAt? ==> p.rest != [])
    requires !AfterNext(cfg, w, p, ticket).Opening?
    ensures ProcSafe(w.core.trades, AfterNext(cfg, w, p, ticket))
  {
    if p.Scanning? {
      ScanningKeepsSafe(cfg, w, p, ticket);
    } else {
      hide HasOpen, SortRanked, ScanShape, Cap, Sends, LastCheck, PairKey;
    }
  }

  /** A collected signal is free and new to the candidates. */
  lemma CollectedIsSafe(cfg: Settings, trades: seq<Trade>, pairs: seq<string>, k: nat, cands: seq<Signal>, s: Signal,
      hint: Option<bool>)
    requires ScanShape(pairs, k, cands) && k < |pairs|
      && PairKey(s) == Norm(pairs[k]) && Gate(cfg, trades, s, hint) == None
    requires DistinctBy(PairKey, cands) && Free(trades, cands)
    ensures DistinctBy(PairKey, cands + [s]) && Free(trades, cands + [s])
  {
    GatePassesIff(cfg, trades, s, hint);
    NormEmptyIff(s.pair);
    hide HasOpen, Norm, Trim, Gate;
    forall i | 0 <= i < |cands| ensures PairKey(cands[i]) != PairKey(s) {
      assert FoundAmong(pairs, k, cands[i]);
    }
  }

  lemma ShapeAdvances(pairs: seq<string>, k: nat, cands: seq<Signal>)
    requires ScanShape(pairs, k, cands) && k < |pairs|
    ensures ScanShape(pairs, k + 1, cands)
    ensures forall s: Signal :: PairKey(s) == Norm(pairs[k]) ==> ScanShape(pairs, k + 1, cands + [s])
  {
    hide PairKey, Norm, DistinctNorms;
    forall i | 0 <= i < |cands| ensures FoundAmong(pairs, k + 1, cands[i]) {
      assert FoundAmong(pairs, k, cands[i]);
    }
    forall s: Signal | PairKey(s) == Norm(pairs[k]) ensures ScanShape(pairs, k + 1, cands + [s]) {
      assert FoundAmong(pairs, k + 1, s);
    }
  }

  lemma SignalKeepsSafe(cfg: Settings, w: World, p: Proc, g: Generated)
    requires ProcSafe(w.core.trades, p) && p.Generating? && p.k < |p.pairs|
    requires g.Got? && g.signal.Some? ==> Norm(g.signal.value.pair) == Norm(p.pairs[p.k])
    ensures ProcSafe(w.core.trades, AfterSignal(cfg, w, p, g))
  {
    assert ScanShape(p.pairs, p.k, p.cands) && Pending(p) == p.cands;
    if Collects(cfg, w.core.trades, g) {
      assert PairKey(g.signal.value) == Norm(g.signal.value.pair);
      hide HasOpen, Norm, PairKey, DistinctBy, Free, ScanShape;
      CollectedIsSafe(cfg, w.core.trades, p.pairs, p.k, p.cands, g.signal.value, g.hint);
      ShapeAdvances(p.pairs, p.k, p.cands);
    } else {
      ShapeAdvances(p.pairs, p.k, p.cands);
      hide Collects, ScanShape, DistinctBy, Free;
    }
  }

  /** One trade more: what avoids its pair stays free. */
  lemma OpeningKeepsFree(trades: seq<Trade>, id: nat, pair: string, v: seq<Signal>)
    requires Free(trades, v) && forall i :: 0 <= i < |v| ==> PairKey(v[i]) != Norm(pair)
    ensures Free(trades + [Trade(id, pair, true)], v)
  {
    hide Norm, PairKey;
    var more := trades + [Trade(id, pair, true)];
    forall i | 0 <= i < |v| ensures !HasOpen(more, PairKey(v[i])) {
      if k :| 0 <= k < |more| && OpenFor(more[k], PairKey(v[i])) {
        if k < |trades| {
          assert OpenFor(trades[k], PairKey(v[i]));
        }
      }
    }
  }

  // ----- steps -----

  /** A trade registered for a pair a process does not hold leaves it safe. */
  lemma RegisteringKeepsSafe(trades: seq<Trade>, id: nat, pair: string, p: Proc)
    requires ProcSafe(trades, p) && Avoids(Norm(pair), Pending(p))
    ensures ProcSafe(trades + [Trade(id, pair, true)], p)
  {
    OpeningKeepsFree(trades, id, pair, Pending(p));
    hide Norm, PairKey, HasOpen, ScanShape, DistinctBy, Free, Avoids;
  }

  lemma DeletingKeepsSafe(trades: seq<Trade>, id: nat, p: Proc)
    requires ProcSafe(trades, p)
    ensures ProcSafe(Without(trades, id), p)
  {
    hide PairKey, DistinctBy, ScanShape, HasOpen, Without;
    var v := Pending(p);
    forall i | 0 <= i < |v| ensures !HasOpen(Without(trades, id), PairKey(v[i])) {
      if HasOpen(Without(trades, id), PairKey(v[i])) {
        WithoutOpensNothing(trades, id, PairKey(v[i]));
      }
    }
  }

  /** What a cycle sends was free, and what it still holds is another pair. */
  lemma SendingFromCycle(trades: seq<Trade>, p: Proc, p': Proc)
    requires ProcSafe(trades, p) && p.Ranked? && p.pos < |p.cands|
      && p'.Opening? && p'.cands == p.cands && p'.pos == p.pos
    ensures ProcSafe(trades, p') && !HasOpen(trades, PairKey(p.cands[p.pos]))
      && Avoids(PairKey(p.cands[p.pos]), Pending(p'))
  {
    hide HasOpen, PairKey;
    var v := Pending(p);
    assert v[0] == p.cands[p.pos] && Pending(p') == v[1..];
    forall k | 0 <= k < |v[1..]| ensures v[1..][k] == v[k + 1] {
    }
  }

  lemma RegisterStep(cfg: Settings, w: World, e: Event)
    requires Safe(w) && Undisturbed(cfg, w, e) && Registered(cfg, w, e).Some?
    ensures Safe(Apply(cfg, w, e))
  {
    var w', p, s := Apply(cfg, w, e), w.procs[e.i], Registered(cfg, w, e).value;
    var p' := w'.procs[e.i];
    TradesAfter(cfg, w, e);
    SentAfter(cfg, w, e);
    assert |w'.procs| == |w.procs| && forall j :: 0 <= j < |w.procs| && j != e.i ==> w'.procs[j] == w.procs[j];
    assert ProcSafe(w.core.trades, p);
    assert PairKey(s) == Norm(s.pair);
    assert p'.Sending? || (p.Ranked? && p.pos < |p.cands| && s == p.cands[p.pos]
      && p'.Opening? && p'.cands == p.cands && p'.pos == p.pos) by {
      hide Sends, Cap, ProcSafe, Register;
    }
    hide Apply, Registered, Norm, PairKey, HasOpen, Enabled;
    if p'.Opening? {
      SendingFromCycle(w.core.trades, p, p');
    } else {
      assert Pending(p') == [];
    }
    forall j | 0 <= j < |w'.procs| ensures ProcSafe(w'.core.trades, w'.procs[j]) {
      assert j != e.i ==> ProcSafe(w.core.trades, w.procs[j]);
      assert ProcSafe(w.core.trades, w'.procs[j]);
      RegisteringKeepsSafe(w.core.trades, w.core.nextId, s.pair, w'.procs[j]);
    }
    hide ProcSafe;
    GuardedSnoc(w.sent, Sent(s, w.core.trades, p.Ranked?, true));
  }

  /** Steps that register nothing. */
  lemma QuietStep(cfg: Settings, w: World, e: Event)
    requires Safe(w) && Registered(cfg, w, e) == None
    requires var w' := Apply(cfg, w, e);
      |w.procs| <= |w'.procs| &&
      forall i :: 0 <= i < |w'.procs| ==>
        (i < |w.procs| && w'.procs[i] == w.procs[i]) || ProcSafe(w.core.trades, w'.procs[i])
    ensures Safe(Apply(cfg, w, e))
  {
    var w' := Apply(cfg, w, e);
    TradesAfter(cfg, w, e);
    SentAfter(cfg, w, e);
    hide Apply, Registered, Deleted, ProcSafe, AllGuarded, Without;
    forall i | 0 <= i < |w'.procs| ensures ProcSafe(w'.core.trades, w'.procs[i]) {
      assert ProcSafe(w.core.trades, w'.procs[i]);
      if Deleted(cfg, w, e).Some? {
        DeletingKeepsSafe(w.core.trades, Deleted(cfg, w, e).value, w'.procs[i]);
      }
    }
  }

  lemma NextProcSafe(cfg: Settings, w: World, i: nat, registers: bool)
    requires Safe(w) && Enabled(cfg, w, Next(i, registers))
    ensures ProcSafe(w.core.trades, AfterNext(cfg, w, w.procs[i], if registers then Some(w.core.nextId) else None))
  {
    var p, ticket := w.procs[i], if registers then Some(w.core.nextId) else None;
    var p' := AfterNext(cfg, w, p, ticket);
    assert ProcSafe(w.core.trades, p);
    assert p'.Opening? ==> p.Ranked? && p.pos < |p.cands| && p'.cands == p.cands && p'.pos == p.pos by {
      hide Sends, Cap, ProcSafe, LastCheck, SortRanked;
    }
    hide Safe, ProcSafe, AfterNext;
    if p'.Opening? {
      SendingFromCycle(w.core.trades, p, p');
    } else {
      TurnKeepsSafe(cfg, w, p, ticket);
    }
  }

  lemma AnsweredProcSafe(cfg: Settings, w: World, i: nat, a: Answer)
    requires Safe(w) && Enabled(cfg, w, Executed(i, a))
    ensures ProcSafe(w.core.trades, Apply(cfg, w, Executed(i, a)).procs[i])
  {
    var p, p' := w.procs[i], Apply(cfg, w, Executed(i, a)).procs[i];
    assert ProcSafe(w.core.trades, p);
    assert Pending(p') == Pending(p) && (p'.Trying? || (p'.Ranked? && p'.pos <= |p'.cands|)) by {
      hide ProcSafe, Safe, Settle, SettleRealtime, Cap;
    }
    hide Apply, Safe, Enabled, HasOpen, PairKey, ScanShape, Pending, DistinctBy, Free;
  }

  lemma TurnStep(cfg: Settings, w: World, e: Event)
    requires Safe(w) && Faithful(cfg, w, e) && Enabled(cfg, w, e) && Registered(cfg, w, e) == None
    requires e.Next? || e.SignalReady? || e.Executed?
    ensures Safe(Apply(cfg, w, e))
  {
    match e
    case Next(i, registers) =>
      NextProcSafe(cfg, w, i, registers);
      hide ProcSafe, AfterNext, Safe, Register, Tries, Registered;
      QuietStep(cfg, w, e);
    case SignalReady(i, g) =>
      assert ProcSafe(w.core.trades, w.procs[i]);
      SignalKeepsSafe(cfg, w, w.procs[i], g);
      hide ProcSafe, AfterSignal, Safe, Checked, Collects;
      QuietStep(cfg, w, e);
    case Executed(i, answer) =>
      AnsweredProcSafe(cfg, w, i, answer);
      hide ProcSafe, Safe, Settle, SettleRealtime, InHand;
      QuietStep(cfg, w, e);
  }

  lemma StepKeepsSafe(cfg: Settings, w: World, e: Event)
    requires Safe(w) && Undisturbed(cfg, w, e) && Faithful(cfg, w, e)
    ensures Safe(Apply(cfg, w, e))
  {
    if Registered(cfg, w, e).Some? {
      RegisterStep(cfg, w, e);
    } else if Enabled(cfg, w, e) {
      if e.Next? || e.SignalReady? || e.Executed? {
        TurnStep(cfg, w, e);
        hide Apply, Safe;
      } else {
        if e.Connected? {
          ScanListIsDistinct(e.listed);
        }
        hide Safe, HasOpen, Norm, ScanList, DistinctNorms, Accepts, Enqueue, Drained, Without;
        QuietStep(cfg, w, e);
      }
    }
  }

  lemma {:induction false} SafeThroughout(cfg: Settings, clock: int, es: seq<Event>)
    requires Orderly(cfg, clock, es)
    ensures Safe(After(cfg, clock, es))
  {
    if es == [] {
    } else {
      hide Apply, Safe, Undisturbed, Faithful;
      SafeThroughout(cfg, clock, es[..|es| - 1]);
      StepKeepsSafe(cfg, After(cfg, clock, es[..|es| - 1]), es[|es| - 1]);
    }
  }

  /** In every orderly run no two open trades ever share a symbol, whatever its case or surrounding blanks. */
  lemma OneTradePerPair(cfg: Settings, clock: int, es: seq<Event>)
    requires Orderly(cfg, clock, es)
    ensures AlwaysUnique(cfg, clock, es)
  {
    SafeThroughout(cfg, clock, es);
    hide After, AlwaysUnique, Orderly, AllGuarded, ProcSafe;
    UniqueExactlyWhenGuarded(cfg, clock, es);
  }

  /** And every trade registered, by flush or cycle, is for a signal that passes the full gate at that moment. */
  lemma RegisteredSignalsFit(cfg: Settings, clock: int, es: seq<Event>, x: nat)
    requires Orderly(cfg, clock, es) && x < |After(cfg, clock, es).sent| && After(cfg, clock, es).sent[x].registered
    ensures var y := After(cfg, clock, es).sent[x]; FitToTrade(cfg, y.trades, y.s)
  {
    SafeThroughout(cfg, clock, es);
    EverySentSignalPassed(cfg, clock, es, x, 0, 0);
    var w := After(cfg, clock, es);
    assert Guarded(w.sent[x]);
    hide After, Orderly, ProcSafe, FitToTrade, WasFit, HasOpen, Norm;
  }

  /** Flushes and cycles do not overlap at any step, and signals keep their pair. */
  ghost predicate SeparateRun(cfg: Settings, clock: int, es: seq<Event>) {
    es == [] ||
      (var before := After(cfg, clock, es[..|es| - 1]);
       SeparateRun(cfg, clock, es[..|es| - 1]) && NoOverlap(cfg, before) && Faithful(cfg, before, es[|es| - 1]))
  }

  lemma {:induction false} SeparateIsOrderly(cfg: Settings, clock: int, es: seq<Event>)
    requires SeparateRun(cfg, clock, es)
    ensures Orderly(cfg, clock, es)
  {
    if es == [] {
    } else {
      hide After, NoOverlap, Faithful, Undisturbed;
      SeparateIsOrderly(cfg, clock, es[..|es| - 1]);
      NoOverlapIsUndisturbed(cfg, After(cfg, clock, es[..|es| - 1]), es[|es| - 1]);
    }
  }

  /**
   * In every run in which flushes and cycles do not overlap and signals keep their pair, at most one trade per pair is
   * open.
   */
  lemma OnePerPairWithoutOverlap(cfg: Settings, clock: int, es: seq<Event>)
    requires SeparateRun(cfg, clock, es)
    ensures AlwaysUnique(cfg, clock, es)
  {
    hide After, SeparateRun, Orderly;
    SeparateIsOrderly(cfg, clock, es);
    OneTradePerPair(cfg, clock, es);
  }

  // ----- when a cycle asks for the signal of a pair -----

  /** The latest moment at which a request of this broker for the signal of a pair was answered without an exception. */
  ghost function LastAnswered(cfg: Settings, clock: int, es: seq<Event>, b: Broker, pair: string): int {
    if es == [] then 0
    else
      var w, e := After(cfg, clock, es[..|es| - 1]), es[|es| - 1];
      if e.SignalReady? && Enabled(cfg, w, e) && e.g.Got? && w.procs[e.i].b == b
        && w.procs[e.i].pairs[w.procs[e.i].k] == pair then w.clock
      else LastAnswered(cfg, clock, es[..|es| - 1], b, pair)
  }

  lemma ChecksAfter(cfg: Settings, w: World, e: Event)
    ensures Apply(cfg, w, e).core.lastCheck ==
      if e.SignalReady? && Enabled(cfg, w, e) && e.g.Got? then
        w.core.lastCheck[(w.procs[e.i].b, w.procs[e.i].pairs[w.procs[e.i].k]) := w.clock]
      else w.core.lastCheck
  {
    hide Without, AfterNext, AfterSignal, Tries, Collects, Accepts, Drained, Upsert, ScanList, OpenOf;
  }

  lemma {:induction false} LastCheckIsLastAnswer(cfg: Settings, clock: int, es: seq<Event>, b: Broker, pair: string)
    ensures LastCheck(After(cfg, clock, es).core, b, pair) == LastAnswered(cfg, clock, es, b, pair)
  {
    if es == [] {
    } else {
      LastCheckIsLastAnswer(cfg, clock, es[..|es| - 1], b, pair);
      ChecksAfter(cfg, After(cfg, clock, es[..|es| - 1]), es[|es| - 1]);
      hide Apply, Enabled;
    }
  }

  /** In every run a cycle asks for a pair exactly when the latest answer for it is the check interval or more ago. */
  lemma AsksExactlyWhenDue(cfg: Settings, clock: int, es: seq<Event>, i: nat)
    requires var w := After(cfg, clock, es);
      i < |w.procs| && w.procs[i].Scanning? && w.procs[i].k < |w.procs[i].pairs|
    ensures var w := After(cfg, clock, es);
      var p, p' := w.procs[i], Apply(cfg, w, Next(i, false)).procs[i];
      var due := w.clock - LastAnswered(cfg, clock, es, p.b, p.pairs[p.k]) >= cfg.signalCheckMs;
      p' == if due then Generating(p.b, p.rest, p.pairs, p.k, p.cands)
            else Scanning(p.b, p.rest, p.pairs, p.k + 1, p.cands)
  {
    var p := After(cfg, clock, es).procs[i];
    LastCheckIsLastAnswer(cfg, clock, es, p.b, p.pairs[p.k]);
    hide After, LastCheck, LastAnswered, Tries, Register, SortRanked;
  }

  /** A cycle passes over exactly the brokers that are disabled when it comes to them. */
  lemma SkipsDisabledBrokers(cfg: Settings, w: World, i: nat, registers: bool)
    requires i < |w.procs| && w.procs[i].CycleAt? && w.procs[i].rest != []
    ensures var p, p' := w.procs[i], Apply(cfg, w, Next(i, registers)).procs[i];
      && p'.rest == p.rest[1..]
      && (p'.Connecting? <==> p.rest[0] in w.core.enabled) && (p'.Connecting? ==> p'.b == p.rest[0])
      && (p'.CycleAt? <==> p.rest[0] !in w.core.enabled)
  {
    hide Register, Tries;
  }

  /** A broker without connectivity is passed over as well; the others still come. */
  lemma PassesUnreachableBrokers(cfg: Settings, w: World, i: nat, listed: seq<string>)
    requires i < |w.procs| && w.procs[i].Connecting?
    ensures Apply(cfg, w, Connected(i, false, listed)).procs[i] == CycleAt(w.procs[i].rest)
    ensures var p' := Apply(cfg, w, Connected(i, true, listed)).procs[i];
      p'.Scanning? && p'.b == w.procs[i].b && p'.rest == w.procs[i].rest && p'.pairs == ScanList(listed)
  {
    hide ScanList;
  }

  /** The brokers switched on last. */
  ghost function SwitchedOn(es: seq<Event>): set<Broker> {
    if es == [] then {}
    else
      match es[|es| - 1]
      case Switch(b, on) => if on then SwitchedOn(es[..|es| - 1]) + {b} else SwitchedOn(es[..|es| - 1]) - {b}
      case _ => SwitchedOn(es[..|es| - 1])
  }

  lemma EnabledAfter(cfg: Settings, w: World, e: Event)
    ensures Apply(cfg, w, e).core.enabled ==
      match e
      case Switch(b, true) => w.core.enabled + {b}
      case Switch(b, false) => w.core.enabled - {b}
      case _ => w.core.enabled
  {
    hide Without, AfterNext, AfterSignal, Tries, Collects, Accepts, Drained, Upsert, ScanList, OpenOf;
  }

  /** In every run exactly the brokers switched on last are enabled. */
  lemma {:induction false} EnabledAreSwitchedOn(cfg: Settings, clock: int, es: seq<Event>)
    ensures After(cfg, clock, es).core.enabled == SwitchedOn(es)
  {
    if es == [] {
    } else {
      EnabledAreSwitchedOn(cfg, clock, es[..|es| - 1]);
      EnabledAfter(cfg, After(cfg, clock, es[..|es| - 1]), es[|es| - 1]);
      hide Apply;
    }
  }
}
