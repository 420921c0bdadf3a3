/** Symbols, signals, the execution gate and the ranking of trade-manager.js. */
module TradeGate {
  import opened Prelude
  import opened Sorting

  // ----- symbols -----

  predicate IsBlank(c: char) { c == ' ' || c == '\t' || c == '\n' || c == '\r' }

  function TrimStart(s: string): string {
    if s != [] && IsBlank(s[0]) then TrimStart(s[1..]) else s
  }

  function TrimEnd(s: string): string {
    if s != [] && IsBlank(s[|s| - 1]) then TrimEnd(s[..|s| - 1]) else s
  }

  function Trim(s: string): string { TrimEnd(TrimStart(s)) }

  function UpperChar(c: char): char {
    if 'a' <= c <= 'z' then (c as int - 'a' as int + 'A' as int) as char else c
  }

  function Upper(s: string): (u: string)
    ensures |u| == |s|
  {
    seq(|s|, i requires 0 <= i < |s| => UpperChar(s[i]))
  }

  /** The form in which symbols are compared. */
  function Norm(s: string): string { Upper(Trim(s)) }

  lemma {:induction false} TrimStartStops(s: string)
    ensures TrimStart(s) != [] ==> !IsBlank(TrimStart(s)[0])
  {
    if s == [] || !IsBlank(s[0]) {
    } else {
      TrimStartStops(s[1..]);
    }
  }

  lemma {:induction false} TrimEndStops(s: string)
    ensures var t := TrimEnd(s); t <= s && (t != [] ==> !IsBlank(t[|t| - 1]) && t[0] == s[0])
  {
    if s == [] || !IsBlank(s[|s| - 1]) {
    } else {
      TrimEndStops(s[..|s| - 1]);
    }
  }

  lemma TrimTwice(s: string)
    ensures Trim(Trim(s)) == Trim(s) && Norm(Trim(s)) == Norm(s)
  {
    TrimStartStops(s);
    TrimEndStops(TrimStart(s));
  }

  /** Trimming takes blanks off both ends and nothing else. */
  lemma TrimStrips(s: string)
    ensures exists i, j :: 0 <= i <= j <= |s| && Trim(s) == s[i..j] && Blanks(s[..i]) && Blanks(s[j..])
    ensures Trim(s) != [] ==> !IsBlank(Trim(s)[0]) && !IsBlank(Trim(s)[|Trim(s)| - 1])
  {
    TrimStartStops(s);
    TrimEndStops(TrimStart(s));
    var i := StartOff(s);
    var j := EndOff(TrimStart(s));
    j := i + j;
    assert Trim(s) == s[i..j] && Blanks(s[j..]);
  }

  ghost predicate Blanks(s: string) { forall k :: 0 <= k < |s| ==> s[k] in " \t\n\r" }

  lemma {:induction false} StartOff(s: string) returns (i: nat)
    ensures i <= |s| && TrimStart(s) == s[i..] && Blanks(s[..i])
  {
    if s == [] || !IsBlank(s[0]) {
      i := 0;
    } else {
      i := StartOff(s[1..]);
      i := i + 1;
      assert s[..i] == [s[0]] + s[1..][..i - 1];
    }
  }

  lemma {:induction false} EndOff(s: string) returns (j: nat)
    ensures j <= |s| && TrimEnd(s) == s[..j] && Blanks(s[j..])
  {
    if s == [] || !IsBlank(s[|s| - 1]) {
      j := |s|;
    } else {
      j := EndOff(s[..|s| - 1]);
      assert s[j..] == s[..|s| - 1][j..] + [s[|s| - 1]];
    }
  }

  /** Upper-casing forgets the case of the letters a to z and nothing else. */
  lemma UpperForgetsCase(c: char, d: char)
    ensures UpperChar(c) == UpperChar(d) <==>
      c == d || ('a' <= c <= 'z' && c as int - d as int == 32) || ('a' <= d <= 'z' && d as int - c as int == 32)
    ensures !('a' <= UpperChar(c) <= 'z')
  {
  }

  lemma NormEmptyIff(s: string)
    ensures Norm(s) == [] <==> Trim(s) == []
  {
  }

  // ----- signals and settings -----

  datatype Decision = Enter | Watch

  /** Score, confidence and strength may be missing. */
  datatype Signal = Signal(
    pair: string, isValid: bool, decision: Decision,
    score: Option<real>, confidence: Option<real>, strength: Option<real>,
    layersReady: bool)

  /** The wait before a flush is never below 50 ms. */
  type Debounce = d: nat | d >= 50 witness 50

  datatype Settings = Settings(
    minConfidence: real, minStrength: real, smartStrong: bool, smartMinConfidence: real, smartMinStrength: real,
    smartMinScore: real, requireLayers: bool, allowed: string -> bool,
    realtimeEnabled: bool, debounceMs: Debounce, cooldownMs: nat,
    maxNewTrades: Option<int>, signalCheckMs: int)

  /** Trades one flush or one broker of a cycle may open. */
  function Cap(cfg: Settings): (n: nat)
    ensures n >= 1
  {
    if cfg.maxNewTrades.Some? then Max(1, cfg.maxNewTrades.value) else 1
  }

  // ----- open trades -----

  datatype Trade = Trade(id: nat, pair: string, open: bool)

  predicate OpenFor(t: Trade, wanted: string) { t.open && Norm(t.pair) != [] && Norm(t.pair) == wanted }

  predicate HasOpen(trades: seq<Trade>, wanted: string) {
    wanted != [] && exists i :: 0 <= i < |trades| && OpenFor(trades[i], wanted)
  }

  method HasOpenTradeForPair(trades: seq<Trade>, pair: string) returns (found: bool)
    ensures found <==> HasOpen(trades, Norm(pair))
    ensures found <==>
      exists i :: 0 <= i < |trades| && trades[i].open && Norm(trades[i].pair) == Norm(pair) && Norm(pair) != []
  {
    var wanted := Norm(pair);
    if wanted == [] {
      return false;
    }
    for i := 0 to |trades|
      invariant forall k :: 0 <= k < i ==> !OpenFor(trades[k], wanted)
    {
      var p := Norm(trades[i].pair);
      if p != [] && p == wanted && trades[i].open {
        return true;
      }
    }
    return false;
  }

  // ----- the execution gate -----

  datatype Rejection =
    | NotAllowed
    | AlreadyOpen
    | NotExecutable
    | Hinted
    | NotStrong
    | NotSmartStrong
    | SmartScoreLow
    | LayersMissing

  /** None means the signal passes; a missing score counts as 0 here. */
  function Gate(cfg: Settings, trades: seq<Trade>, s: Signal, hint: Option<bool>): Option<Rejection> {
    var pair := Trim(s.pair);
    var confidence, strength := Or(s.confidence, 0.0), Or(s.strength, 0.0);
    if pair != [] && !cfg.allowed(pair) then Some(NotAllowed)
    else if pair != [] && HasOpen(trades, Norm(pair)) then Some(AlreadyOpen)
    else if s.decision != Enter || !s.isValid then Some(NotExecutable)
    else if hint == Some(false) then Some(Hinted)
    else if confidence < cfg.minConfidence || strength < cfg.minStrength then Some(NotStrong)
    else if cfg.smartStrong && (confidence < MaxReal(cfg.minConfidence, cfg.smartMinConfidence)
                                || strength < MaxReal(cfg.minStrength, cfg.smartMinStrength)) then Some(NotSmartStrong)
    else if cfg.smartStrong && Or(s.score, 0.0) < cfg.smartMinScore then Some(SmartScoreLow)
    else if cfg.requireLayers && !s.layersReady then Some(LayersMissing)
    else None
  }

  /** What a caller can rely on when the gate lets a signal through. */
  ghost predicate FitToTrade(cfg: Settings, trades: seq<Trade>, s: Signal) {
    && s.isValid && s.decision == Enter
    && (Trim(s.pair) != [] ==> cfg.allowed(Trim(s.pair)) && !HasOpen(trades, Norm(s.pair)))
    && Or(s.confidence, 0.0) >= cfg.minConfidence && Or(s.strength, 0.0) >= cfg.minStrength
    && (cfg.smartStrong ==> (
        && Or(s.confidence, 0.0) >= cfg.smartMinConfidence && Or(s.strength, 0.0) >= cfg.smartMinStrength
        && Or(s.score, 0.0) >= cfg.smartMinScore))
    && (cfg.requireLayers ==> s.layersReady)
  }

  /** The gate passes exactly the fit signals that the bridge does not veto. */
  lemma GatePassesIff(cfg: Settings, trades: seq<Trade>, s: Signal, hint: Option<bool>)
    ensures Gate(cfg, trades, s, hint) == None <==> FitToTrade(cfg, trades, s) && hint != Some(false)
  {
    hide HasOpen;
    TrimTwice(s.pair);
  }

  // ----- ranking -----

  /** a comes before or ties with b: by score, then confidence, then strength; missing values rank as -1. */
  predicate Ahead(a: Signal, b: Signal) {
    var sa, sb, ca, cb := Or(a.score, -1.0), Or(b.score, -1.0), Or(a.confidence, -1.0), Or(b.confidence, -1.0);
    if sa != sb then sa > sb else if ca != cb then ca > cb else Or(a.strength, -1.0) >= Or(b.strength, -1.0)
  }

  /** a's score is no lower than b's; with equal scores its confidence is, with both equal its strength. */
  ghost predicate NotBelow(a: Signal, b: Signal) {
    && Or(a.score, -1.0) >= Or(b.score, -1.0)
    && (Or(a.score, -1.0) == Or(b.score, -1.0) ==> Or(a.confidence, -1.0) >= Or(b.confidence, -1.0))
    && (Or(a.score, -1.0) == Or(b.score, -1.0) && Or(a.confidence, -1.0) == Or(b.confidence, -1.0) ==>
      Or(a.strength, -1.0) >= Or(b.strength, -1.0))
  }

  ghost predicate RankedDown(v: seq<Signal>) { forall i, j :: 0 <= i < j < |v| ==> NotBelow(v[i], v[j]) }

  /** The signals of v with the three numbers of x, in order. */
  ghost function Equals(x: Signal, v: seq<Signal>): seq<Signal> {
    if v == [] then []
    else (if NotBelow(x, v[0]) && NotBelow(v[0], x) then [v[0]] else []) + Equals(x, v[1..])
  }

  /** Stable order by rank. */
  function SortRanked(v: seq<Signal>): seq<Signal> { Sort(Ahead, v) }

  lemma AheadIsTotal()
    ensures TotalPreorder(Ahead)
  {
  }

  lemma AheadIsNotBelow(a: Signal, b: Signal)
    ensures Ahead(a, b) <==> NotBelow(a, b)
  {
  }

  lemma SortRankedSorts(v: seq<Signal>)
    ensures RankedDown(SortRanked(v)) && multiset(SortRanked(v)) == multiset(v) && |SortRanked(v)| == |v|
  {
    AheadIsTotal();
    hide Ahead, NotBelow;
    SortOrders(Ahead, v);
    SortPermutes(Ahead, v);
    var r := SortRanked(v);
    forall i, j | 0 <= i < j < |r| ensures NotBelow(r[i], r[j]) {
      AheadIsNotBelow(r[i], r[j]);
    }
  }

  lemma {:induction false} EqualsAreTies(x: Signal, v: seq<Signal>)
    ensures Equals(x, v) == Ties(Ahead, x, v)
  {
    if v == [] {
    } else {
      hide Ahead, NotBelow;
      AheadIsNotBelow(x, v[0]);
      AheadIsNotBelow(v[0], x);
      EqualsAreTies(x, v[1..]);
    }
  }

  /** Signals with the same three numbers keep their order: among equals the first queued pair comes first. */
  lemma RankingIsStable(x: Signal, v: seq<Signal>)
    ensures Equals(x, SortRanked(v)) == Equals(x, v)
  {
    AheadIsTotal();
    hide Ahead, NotBelow;
    SortIsStable(Ahead, x, v);
    EqualsAreTies(x, v);
    EqualsAreTies(x, SortRanked(v));
  }

  /** Ranking keeps signals with distinct keys distinct. */
  lemma SortRankedKeepsDistinct(key: Signal -> string, v: seq<Signal>)
    requires DistinctBy(key, v)
    ensures DistinctBy(key, SortRanked(v))
  {
    hide Ahead;
    SortKeepsDistinct(Ahead, key, v);
  }

  // ----- pairs to scan -----

  /** The trimmed, non-blank pairs, the first of each case-insensitive kind, in order. */
  function ScanList(listed: seq<string>): seq<string> {
    if listed == [] then []
    else
      var before, p := ScanList(listed[..|listed| - 1]), Trim(listed[|listed| - 1]);
      if p == [] || Upper(p) in Uppers(before) then before else before + [p]
  }

  function Uppers(pairs: seq<string>): set<string> { set p | p in pairs :: Upper(p) }

  method GetPairsToScan(listed: seq<string>) returns (merged: seq<string>)
    ensures merged == ScanList(listed)
  {
    merged := [];
    var seen: set<string> := {};
    hide Trim, Upper;
    for i := 0 to |listed|
      invariant merged == ScanList(listed[..i]) && seen == Uppers(merged)
    {
      assert listed[..i + 1][..i] == listed[..i];
      var pair := Trim(listed[i]);
      if pair == [] {
        continue;
      }
      var key := Upper(pair);
      if key in seen {
        continue;
      }
      seen := seen + {key};
      merged := merged + [pair];
    }
    assert listed[..|listed|] == listed;
  }

  ghost predicate DistinctNorms(pairs: seq<string>) {
    (forall i :: 0 <= i < |pairs| ==> Norm(pairs[i]) != [])
    && forall i, j :: 0 <= i < j < |pairs| ==> Norm(pairs[i]) != Norm(pairs[j])
  }

  /** A kept pair is its own trimmed form, so its upper-cased text is its comparison form. */
  lemma {:induction false} ScanListIsTrimmed(listed: seq<string>)
    ensures forall p :: p in ScanList(listed) ==> Trim(p) == p && p != []
  {
    if listed == [] {
    } else {
      ScanListIsTrimmed(listed[..|listed| - 1]);
      TrimTwice(listed[|listed| - 1]);
      hide Trim, Upper, Uppers;
    }
  }

  /** No two scanned pairs differ only in case or surrounding blanks. */
  lemma {:induction false} ScanListIsDistinct(listed: seq<string>)
    ensures DistinctNorms(ScanList(listed))
  {
    if listed == [] {
    } else {
      var before := ScanList(listed[..|listed| - 1]);
      ScanListIsDistinct(listed[..|listed| - 1]);
      ScanListIsTrimmed(listed[..|listed| - 1]);
      TrimTwice(listed[|listed| - 1]);
      hide Trim, Upper;
      forall i | 0 <= i < |before| ensures Norm(before[i]) in Uppers(before) {
        assert before[i] in before;
      }
    }
  }

  ghost predicate Scanned(listed: seq<string>, q: string) { exists p :: p in ScanList(listed) && Norm(p) == Norm(q) }

  /** No listed pair is lost. */
  lemma {:induction false} ScanListKeepsAll(listed: seq<string>, q: string)
    requires q in listed && Trim(q) != []
    ensures Scanned(listed, q)
  {
    var rest, last := listed[..|listed| - 1], listed[|listed| - 1];
    assert listed == rest + [last];
    TrimTwice(last);
    hide Trim, Upper;
    if q in rest {
      ScanListKeepsAll(rest, q);
      var p :| p in ScanList(rest) && Norm(p) == Norm(q);
      assert p in ScanList(listed);
    } else if Upper(Trim(q)) in Uppers(ScanList(rest)) {
      ScanListIsTrimmed(rest);
      var p :| p in ScanList(rest) && Upper(p) == Upper(Trim(q));
      assert Norm(p) == Norm(q);
      assert p in ScanList(listed);
    } else {
      assert Trim(q) in ScanList(listed);
    }
  }
}
