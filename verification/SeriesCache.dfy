/** The series cache and the in-flight de-duplication of `fetchPriceData` (price-data-fetcher.js). */
module SeriesCache {
  import opened Prelude

  /** A price series; only its identity matters here. */
  type Series = seq<int>
  type Key = string

  datatype Entry = Entry(series: Series, expiresAt: int)

  /** What an executor ends with: a series, `null`, or a rejection. */
  datatype Outcome = Fetched(series: Series) | Nothing | Failed

  // ----- the two tables -----

  predicate Fresh(cache: map<Key, Entry>, key: Key, clock: int) { key in cache && cache[key].expiresAt > clock }

  function Lookup(cache: map<Key, Entry>, key: Key, clock: int, invalidate: bool): Option<Series> {
    if Fresh(cache, key, clock) && !invalidate then Some(cache[key].series) else None
  }

  /** A stale or invalidated entry is dropped when it is looked up. */
  function AfterLookup(cache: map<Key, Entry>, key: Key, clock: int, invalidate: bool): map<Key, Entry> {
    if Fresh(cache, key, clock) && !invalidate then cache else cache - {key}
  }

  function Lifetime(ttl: int, defaultTtl: int): int { if ttl != 0 then ttl else defaultTtl }

  class Tables {
    var dataCache: map<Key, Entry>
    var inFlight: map<Key, nat>
    const defaultTtl: int

    constructor (defaultTtlMs: int)
      ensures dataCache == map[] && inFlight == map[] && defaultTtl == defaultTtlMs
    {
      dataCache, inFlight, defaultTtl := map[], map[], defaultTtlMs;
    }

    method GetCachedSeries(key: Key, clock: int, invalidate: bool) returns (r: Option<Series>)
      modifies this`dataCache
      ensures r == Lookup(old(dataCache), key, clock, invalidate)
      ensures dataCache == AfterLookup(old(dataCache), key, clock, invalidate)
    {
      if key !in dataCache {
        assert dataCache - {key} == dataCache;
        return None;
      }
      var cached := dataCache[key];
      if cached.expiresAt <= clock || invalidate {
        dataCache := dataCache - {key};
        return None;
      }
      return Some(cached.series);
    }

    method CacheSeries(key: Key, series: Series, ttl: int, clock: int)
      modifies this`dataCache
      ensures dataCache == old(dataCache)[key := Entry(series, clock + Lifetime(ttl, defaultTtl))]
    {
      var expiresAt := clock + (if ttl != 0 then ttl else defaultTtl);
      dataCache := dataCache[key := Entry(series, expiresAt)];
    }

    /** Joins the execution in flight for the key, or registers `newest` as the one. */
    method FetchWithDedup(key: Key, newest: nat) returns (exec: nat)
      modifies this`inFlight
      ensures exec == if key in old(inFlight) then old(inFlight)[key] else newest
      ensures inFlight == old(inFlight)[key := exec]
    {
      if key in inFlight {
        exec := inFlight[key];
        assert inFlight[key := exec] == inFlight;
      } else {
        exec := newest;
        inFlight := inFlight[key := exec];
      }
    }

    /** The `finally` block: the key is free again, however the execution ended. */
    method Release(key: Key)
      modifies this`inFlight
      ensures inFlight == old(inFlight) - {key}
    {
      inFlight := inFlight - {key};
    }

    method ClearCache()
      modifies this`dataCache
      ensures dataCache == map[]
    {
      dataCache := map[];
    }
  }

  // ----- all interleavings of callers and executions -----

  /** An execution with the step at which it started and, once over, the step at which it settled. */
  datatype Exec = Exec(key: Key, started: nat, settled: Option<nat>, outcome: Outcome)

  /** A caller that missed the cache and awaits execution `exec`; `got` is the result once it has been delivered. */
  datatype Caller = Caller(key: Key, arrived: nat, exec: nat, useCache: bool, ttl: int, got: Option<Outcome>)

  datatype Store = Store(key: Key, series: Series, at: int, ttl: int)
  datatype Hit = Hit(key: Key, series: Series, at: int)

  datatype World = World(
    step: nat, clock: int, cache: map<Key, Entry>, inFlight: map<Key, nat>, execs: seq<Exec>, callers: seq<Caller>,
    stores: seq<Store>, hits: seq<Hit>)

  datatype Event =
    | Tick(ms: nat)
    | Call(key: Key, useCache: bool, invalidate: bool, ttl: int)
    | Settle(exec: nat, outcome: Outcome)
    | Resume(caller: nat)
    | ClearAll

  const Start := World(0, 0, map[], map[], [], [], [], [])

  predicate Enabled(w: World, e: Event) {
    match e
    case Settle(x, _) => x < |w.execs| && w.execs[x].settled == None
    case Resume(i) =>
      i < |w.callers| && w.callers[i].got == None
        && w.callers[i].exec < |w.execs| && w.execs[w.callers[i].exec].settled.Some?
    case _ => true
  }

  /** The caller misses the cache: it joins the running execution of its key or starts one. */
  function Miss(w: World, at: nat, key: Key, useCache: bool, ttl: int): World {
    if key in w.inFlight then w.(callers := w.callers + [Caller(key, at, w.inFlight[key], useCache, ttl, None)])
    else
      var x := |w.execs|;
      w.(inFlight := w.inFlight[key := x], execs := w.execs + [Exec(key, at, None, Nothing)],
         callers := w.callers + [Caller(key, at, x, useCache, ttl, None)])
  }

  /** What a caller does with its result: a series that is not empty goes into the cache. */
  function Deliver(w: World, i: nat): World
    requires i < |w.callers| && w.callers[i].exec < |w.execs|
  {
    var c := w.callers[i];
    var r := w.execs[c.exec].outcome;
    var w1 := w.(callers := w.callers[i := c.(got := Some(r))]);
    if r.Fetched? && r.series != [] && c.useCache && c.ttl > 0 then
      w1.(cache := w1.cache[c.key := Entry(r.series, w.clock + c.ttl)],
        stores := w1.stores + [Store(c.key, r.series, w.clock, c.ttl)])
    else w1
  }

  function Apply(w: World, e: Event): World {
    var w0 := w.(step := w.step + 1);
    if !Enabled(w, e) then w0
    else
      match e
      case Tick(ms) => w0.(clock := w.clock + ms)
      case Call(key, useCache, invalidate, ttl) =>
        if useCache then
          var r := Lookup(w.cache, key, w.clock, invalidate);
          var w1 := w0.(cache := AfterLookup(w.cache, key, w.clock, invalidate));
          if r.Some? then w1.(hits := w1.hits + [Hit(key, r.value, w.clock)]) else Miss(w1, w.step, key, useCache, ttl)
        else Miss(w0, w.step, key, useCache, ttl)
      case Settle(x, outcome) =>
        w0.(execs := w.execs[x := w.execs[x].(settled := Some(w.step), outcome := outcome)],
          inFlight := w.inFlight - {w.execs[x].key})
      case Resume(i) => Deliver(w0, i)
      case ClearAll => w0.(cache := map[])
  }

  function After(es: seq<Event>): World {
    if es == [] then Start else Apply(After(es[..|es| - 1]), es[|es| - 1])
  }

  // ----- executions of one key never overlap -----

  predicate Running(x: Exec) { x.settled == None }

  /** Exactly the running executions are registered, each under its key. */
  ghost predicate Registered(w: World) {
    && (forall k :: k in w.inFlight ==>
      w.inFlight[k] < |w.execs| && Running(w.execs[w.inFlight[k]]) && w.execs[w.inFlight[k]].key == k)
    && (forall x :: 0 <= x < |w.execs| && Running(w.execs[x]) ==>
      w.execs[x].key in w.inFlight && w.inFlight[w.execs[x].key] == x)
  }

  ghost predicate Disjoint(w: World) {
    && (forall x :: 0 <= x < |w.execs| ==>
      w.execs[x].started < w.step && (w.execs[x].settled.Some? ==> w.execs[x].settled.value < w.step))
    && forall x, y :: 0 <= x < y < |w.execs| && w.execs[x].key == w.execs[y].key ==>
      w.execs[x].settled.Some? && w.execs[x].settled.value < w.execs[y].started
  }

  /**
   * The awaited execution has the caller's key, had not ended when the caller arrived, and its result is what the
   * caller gets.
   */
  ghost predicate Served(w: World, c: Caller) {
    && c.exec < |w.execs| && w.execs[c.exec].key == c.key && c.arrived < w.step
    && w.execs[c.exec].started <= c.arrived
    && (w.execs[c.exec].settled.Some? ==> c.arrived < w.execs[c.exec].settled.value)
    && (c.got.Some? ==> w.execs[c.exec].settled.Some? && c.got.value == w.execs[c.exec].outcome)
  }

  ghost predicate AllServed(w: World) { forall i :: 0 <= i < |w.callers| ==> Served(w, w.callers[i]) }

  ghost predicate Dedup(w: World) { Registered(w) && Disjoint(w) && AllServed(w) }

  lemma MissKeepsDisjoint(w: World, w1: World, key: Key, useCache: bool, ttl: int)
    requires Registered(w) && Disjoint(w) && w1.step == w.step + 1 && w1.inFlight == w.inFlight && w1.execs == w.execs
    ensures Registered(Miss(w1, w.step, key, useCache, ttl)) && Disjoint(Miss(w1, w.step, key, useCache, ttl))
  {
    var w2 := Miss(w1, w.step, key, useCache, ttl);
    if key !in w.inFlight {
      assert w2.execs == w.execs + [Exec(key, w.step, None, Nothing)];
      forall x | 0 <= x < |w.execs| && w.execs[x].key == key
        ensures w.execs[x].settled.Some? && w.execs[x].settled.value < w.step
      {
        assert !Running(w.execs[x]);
      }
    }
    hide Miss;
  }

  lemma MissServes(w: World, w1: World, key: Key, useCache: bool, ttl: int)
    requires Registered(w) && Disjoint(w) && AllServed(w) && w1.step == w.step + 1
    requires w1.inFlight == w.inFlight && w1.execs == w.execs && w1.callers == w.callers
    ensures AllServed(Miss(w1, w.step, key, useCache, ttl))
  {
    var w2 := Miss(w1, w.step, key, useCache, ttl);
    assert forall x :: 0 <= x < |w.execs| ==> w2.execs[x] == w.execs[x];
    if key in w.inFlight {
      assert Running(w.execs[w.inFlight[key]]);
    }
    hide Registered, Disjoint;
    forall i | 0 <= i < |w2.callers| ensures Served(w2, w2.callers[i]) {
      if i < |w.callers| {
        assert Served(w, w.callers[i]);
      }
    }
  }

  lemma MissKeepsDedup(w: World, w1: World, key: Key, useCache: bool, ttl: int)
    requires Dedup(w) && w1.step == w.step + 1
    requires w1.inFlight == w.inFlight && w1.execs == w.execs && w1.callers == w.callers
    ensures Dedup(Miss(w1, w.step, key, useCache, ttl))
  {
    hide Registered, Disjoint, AllServed, Miss;
    MissKeepsDisjoint(w, w1, key, useCache, ttl);
    MissServes(w, w1, key, useCache, ttl);
  }

  lemma SettleKeepsDedup(w: World, x: nat, outcome: Outcome)
    requires Dedup(w) && Enabled(w, Settle(x, outcome))
    ensures Dedup(Apply(w, Settle(x, outcome)))
    ensures w.execs[x].key !in Apply(w, Settle(x, outcome)).inFlight
  {
    var w' := Apply(w, Settle(x, outcome));
    forall i | 0 <= i < |w.callers| ensures Served(w', w.callers[i]) {
      assert Served(w, w.callers[i]);
    }
  }

  lemma DeliverKeepsDedup(w: World, i: nat)
    requires Dedup(w) && Enabled(w, Resume(i))
    ensures Dedup(Apply(w, Resume(i)))
  {
    var w' := Apply(w, Resume(i));
    forall j | 0 <= j < |w'.callers| ensures Served(w', w'.callers[j]) {
      assert Served(w, w.callers[j]);
    }
  }

  lemma OtherKeepsDedup(w: World, w': World)
    requires Dedup(w) && w.step <= w'.step
    requires w'.inFlight == w.inFlight && w'.execs == w.execs && w'.callers == w.callers
    ensures Dedup(w')
  {
    forall j | 0 <= j < |w'.callers| ensures Served(w', w'.callers[j]) {
      assert Served(w, w.callers[j]);
    }
  }

  lemma StepKeepsDedup(w: World, e: Event)
    requires Dedup(w)
    ensures Dedup(Apply(w, e))
  {
    hide Dedup, Miss, Lookup, AfterLookup;
    if !Enabled(w, e) || e.Tick? || e.ClearAll? {
      OtherKeepsDedup(w, Apply(w, e));
    } else if e.Settle? {
      SettleKeepsDedup(w, e.exec, e.outcome);
    } else if e.Resume? {
      DeliverKeepsDedup(w, e.caller);
    } else {
      var w0 := w.(step := w.step + 1);
      var w1 := if e.useCache then w0.(cache := AfterLookup(w.cache, e.key, w.clock, e.invalidate)) else w0;
      MissKeepsDedup(w, w1, e.key, e.useCache, e.ttl);
      if e.useCache && Lookup(w.cache, e.key, w.clock, e.invalidate).Some? {
        OtherKeepsDedup(w, Apply(w, e));
      }
    }
  }

  lemma {:induction false} DedupThroughout(es: seq<Event>)
    ensures Dedup(After(es))
  {
    if es == [] {
    } else {
      hide Dedup;
      DedupThroughout(es[..|es| - 1]);
      StepKeepsDedup(After(es[..|es| - 1]), es[|es| - 1]);
    }
  }

  /**
   * In every run: two executions of one key never overlap in time; at most one is running, and a key is free
   * exactly when none is, so success and failure alike free it; and every caller that missed the cache awaits an
   * execution of its own key that had not ended when it arrived, and gets what that execution ended with.
   */
  lemma DedupTheorem(es: seq<Event>, x: nat, y: nat, i: nat)
    ensures var w := After(es);
      && (x < y < |w.execs| && w.execs[x].key == w.execs[y].key ==>
        w.execs[x].settled.Some? && w.execs[x].settled.value < w.execs[y].started)
      && (x < |w.execs| ==> (Running(w.execs[x]) <==> w.execs[x].key in w.inFlight && w.inFlight[w.execs[x].key] == x))
      && (i < |w.callers| ==> Served(w, w.callers[i]))
  {
    DedupThroughout(es);
  }

  // ----- what a cache hit may return -----

  ghost predicate Backed(stores: seq<Store>, key: Key, series: Series, at: int, expiresAt: int) {
    exists s :: 0 <= s < |stores| && Backs(stores[s], key, series, at, expiresAt)
  }

  /** Stored under this key, not after `at`, to expire at `expiresAt`. */
  ghost predicate Backs(s: Store, key: Key, series: Series, at: int, expiresAt: int) {
    s.key == key && s.series == series && s.at <= at && s.at + s.ttl == expiresAt
  }

  /** A store that was still alive at the moment of the hit. */
  ghost predicate Justified(stores: seq<Store>, h: Hit) {
    exists s :: 0 <= s < |stores| && AliveFor(stores[s], h)
  }

  ghost predicate AliveFor(s: Store, h: Hit) {
    s.key == h.key && s.series == h.series && s.at <= h.at < s.at + s.ttl
  }

  ghost predicate CacheSound(w: World) {
    && (forall k :: k in w.cache ==> Backed(w.stores, k, w.cache[k].series, w.clock, w.cache[k].expiresAt))
    && (forall i :: 0 <= i < |w.hits| ==> Justified(w.stores, w.hits[i]))
    && (forall i :: 0 <= i < |w.stores| ==> w.stores[i].series != [] && w.stores[i].ttl > 0)
  }

  lemma BackedLater(stores: seq<Store>, more: seq<Store>, key: Key, series: Series, at: int, later: int, expiresAt: int)
    requires Backed(stores, key, series, at, expiresAt) && at <= later && stores <= more
    ensures Backed(more, key, series, later, expiresAt)
  {
    var s :| 0 <= s < |stores| && Backs(stores[s], key, series, at, expiresAt);
    assert Backs(more[s], key, series, later, expiresAt);
  }

  lemma JustifiedLater(stores: seq<Store>, more: seq<Store>, h: Hit)
    requires Justified(stores, h) && stores <= more
    ensures Justified(more, h)
  {
    var s :| 0 <= s < |stores| && AliveFor(stores[s], h);
    assert AliveFor(more[s], h);
  }

  lemma HitIsJustified(stores: seq<Store>, key: Key, entry: Entry, clock: int)
    requires Backed(stores, key, entry.series, clock, entry.expiresAt) && entry.expiresAt > clock
    ensures Justified(stores, Hit(key, entry.series, clock))
  {
    var s :| 0 <= s < |stores| && Backs(stores[s], key, entry.series, clock, entry.expiresAt);
    assert AliveFor(stores[s], Hit(key, entry.series, clock));
  }

  lemma StepKeepsCacheSound(w: World, e: Event)
    requires CacheSound(w)
    ensures CacheSound(Apply(w, e))
  {
    var w' := Apply(w, e);
    GrowOnly(w, e);
    hide Apply, Backed, Justified;
    forall k | k in w'.cache ensures Backed(w'.stores, k, w'.cache[k].series, w'.clock, w'.cache[k].expiresAt) {
      if k in w.cache && w'.cache[k] == w.cache[k] {
        BackedLater(w.stores, w'.stores, k, w.cache[k].series, w.clock, w'.clock, w.cache[k].expiresAt);
      }
    }
    forall i | 0 <= i < |w'.hits| ensures Justified(w'.stores, w'.hits[i]) {
      if i < |w.hits| {
        JustifiedLater(w.stores, w'.stores, w.hits[i]);
      } else {
        HitIsJustified(w.stores, w'.hits[i].key, w.cache[w'.hits[i].key], w.clock);
      }
    }
  }

  /** How a step may change cache, stores and hits. */
  lemma GrowOnly(w: World, e: Event)
    ensures var w' := Apply(w, e);
      && w.clock <= w'.clock && w.stores <= w'.stores && w.hits <= w'.hits
      && (forall k :: k in w'.cache ==>
        (k in w.cache && w'.cache[k] == w.cache[k])
          || Backed(w'.stores, k, w'.cache[k].series, w'.clock, w'.cache[k].expiresAt))
      && (forall i :: |w.hits| <= i < |w'.hits| ==>
        w'.hits[i].key in w.cache && w'.hits[i] == Hit(w'.hits[i].key, w.cache[w'.hits[i].key].series, w.clock)
        && w.cache[w'.hits[i].key].expiresAt > w.clock && w'.stores == w.stores)
      && (forall i :: |w.stores| <= i < |w'.stores| ==> w'.stores[i].series != [] && w'.stores[i].ttl > 0)
  {
    if e.Resume? && Enabled(w, e) {
      var w' := Apply(w, e);
      if w'.stores != w.stores {
        var s := w'.stores[|w.stores|];
        assert Backs(w'.stores[|w.stores|], s.key, s.series, w'.clock, w.clock + s.ttl);
      }
    }
  }

  lemma {:induction false} CacheSoundThroughout(es: seq<Event>)
    ensures CacheSound(After(es))
  {
    if es == [] {
    } else {
      hide CacheSound, Apply;
      CacheSoundThroughout(es[..|es| - 1]);
      StepKeepsCacheSound(After(es[..|es| - 1]), es[|es| - 1]);
    }
  }

  /** A hit at time t returns a series that some caller stored under the same key at a time s with s <= t < s + ttl. */
  lemma CacheHitTheorem(es: seq<Event>, i: nat)
    requires i < |After(es).hits|
    ensures Justified(After(es).stores, After(es).hits[i]) && After(es).hits[i].series != []
  {
    CacheSoundThroughout(es);
    var w := After(es);
    var s :| 0 <= s < |w.stores| && AliveFor(w.stores[s], w.hits[i]);
  }

  // ----- what goes into the cache -----

  /** A caller that wanted its result cached for that long and got that series stored it. */
  ghost predicate FromCaller(w: World, s: Store) {
    exists j :: 0 <= j < |w.callers| && Keeps(w.callers[j], s)
  }

  ghost predicate Keeps(c: Caller, s: Store) {
    c.key == s.key && c.useCache && c.ttl == s.ttl && c.got == Some(Fetched(s.series))
  }

  ghost predicate AllFromCallers(w: World) { forall i :: 0 <= i < |w.stores| ==> FromCaller(w, w.stores[i]) }

  lemma CallersGrow(w: World, e: Event, j: nat)
    requires j < |w.callers| && w.callers[j].got.Some?
    ensures j < |Apply(w, e).callers| && Apply(w, e).callers[j] == w.callers[j]
  {
  }

  lemma StoreHasCaller(w: World, e: Event)
    requires Apply(w, e).stores != w.stores
    ensures e.Resume? && Enabled(w, e) && Apply(w, e).stores == w.stores + [Apply(w, e).stores[|w.stores|]]
    ensures Keeps(Apply(w, e).callers[e.caller], Apply(w, e).stores[|w.stores|])
  {
  }

  lemma StepKeepsFromCallers(w: World, e: Event)
    requires AllFromCallers(w)
    ensures AllFromCallers(Apply(w, e))
  {
    var w' := Apply(w, e);
    if w'.stores != w.stores {
      StoreHasCaller(w, e);
    }
    forall i | 0 <= i < |w'.stores| ensures FromCaller(w', w'.stores[i]) {
      if i < |w.stores| {
        var j :| 0 <= j < |w.callers| && Keeps(w.callers[j], w.stores[i]);
        CallersGrow(w, e, j);
      }
    }
    hide Apply, Enabled;
  }

  /** In every run only a series that a caller fetched and wanted cached is ever stored, under that caller's key. */
  lemma {:induction false} OnlyResultsAreStored(es: seq<Event>)
    ensures AllFromCallers(After(es))
  {
    if es == [] {
    } else {
      hide Apply, AllFromCallers;
      OnlyResultsAreStored(es[..|es| - 1]);
      StepKeepsFromCallers(After(es[..|es| - 1]), es[|es| - 1]);
    }
  }

  /** The run from w on. */
  function From(w: World, es: seq<Event>): World {
    if es == [] then w else Apply(From(w, es[..|es| - 1]), es[|es| - 1])
  }

  /** The event neither clears the cache, nor invalidates the key, nor delivers another result for it. */
  predicate Spares(w: World, e: Event, key: Key) {
    && !e.ClearAll? && !(e.Call? && e.key == key && e.invalidate)
    && !(e.Resume? && Enabled(w, e) && w.callers[e.caller].key == key)
  }

  predicate AllSpare(w: World, es: seq<Event>, key: Key) {
    es == []
    || (AllSpare(w, es[..|es| - 1], key) && Spares(From(w, es[..|es| - 1]), es[|es| - 1], key))
  }

  lemma StepKeepsEntry(w: World, e: Event, key: Key, entry: Entry)
    requires key in w.cache && w.cache[key] == entry && entry.expiresAt > w.clock && Spares(w, e, key)
    ensures var w' := Apply(w, e); key in w'.cache && w'.cache[key] == entry && w.clock <= w'.clock
  {
  }

  lemma {:induction false} EntryStays(w: World, es: seq<Event>, key: Key, entry: Entry)
    requires key in w.cache && w.cache[key] == entry && AllSpare(w, es, key)
    requires From(w, es).clock < entry.expiresAt
    ensures var w' := From(w, es); key in w'.cache && w'.cache[key] == entry && w.clock <= w'.clock
  {
    if es == [] {
    } else {
      var u := From(w, es[..|es| - 1]);
      ClockRises(u, es[|es| - 1]);
      hide Apply, Spares;
      EntryStays(w, es[..|es| - 1], key, entry);
      StepKeepsEntry(u, es[|es| - 1], key, entry);
    }
  }

  lemma ClockRises(w: World, e: Event)
    ensures w.clock <= Apply(w, e).clock
  {
  }

  /**
   * A fetched series that is not empty is served from the cache, to whoever asks for its key, until its time to live is
   * over: the result goes into the cache exactly when the caller wanted it there.
   */
  lemma FetchedSeriesIsServed(w: World, i: nat, more: seq<Event>, ttl: int)
    requires Enabled(w, Resume(i)) && w.execs[w.callers[i].exec].outcome.Fetched?
    requires w.execs[w.callers[i].exec].outcome.series != [] && w.callers[i].useCache && w.callers[i].ttl > 0
    requires AllSpare(Apply(w, Resume(i)), more, w.callers[i].key)
    requires From(Apply(w, Resume(i)), more).clock < w.clock + w.callers[i].ttl
    ensures var w', key := From(Apply(w, Resume(i)), more), w.callers[i].key;
      Apply(w', Call(key, true, false, ttl)).hits ==
        w'.hits + [Hit(key, w.execs[w.callers[i].exec].outcome.series, w'.clock)]
  {
    var c, r := w.callers[i], w.execs[w.callers[i].exec].outcome;
    var w1 := Apply(w, Resume(i));
    assert c.key in w1.cache && w1.cache[c.key] == Entry(r.series, w.clock + c.ttl);
    hide Apply, AllSpare;
    EntryStays(w1, more, c.key, Entry(r.series, w.clock + c.ttl));
    HitServes(From(w1, more), c.key, Entry(r.series, w.clock + c.ttl), ttl);
  }

  lemma HitServes(w: World, key: Key, entry: Entry, ttl: int)
    requires key in w.cache && w.cache[key] == entry && w.clock < entry.expiresAt
    ensures Apply(w, Call(key, true, false, ttl)).hits == w.hits + [Hit(key, entry.series, w.clock)]
  {
  }

  /** A caller that invalidates its key never gets a cached series and leaves none; one that uses no cache gets none. */
  lemma InvalidatingCallMisses(w: World, key: Key, useCache: bool, invalidate: bool, ttl: int)
    requires invalidate || !useCache
    ensures var w' := Apply(w, Call(key, useCache, invalidate, ttl));
      w'.hits == w.hits && (useCache ==> key !in w'.cache) && (!useCache ==> w'.cache == w.cache)
      && |w'.callers| == |w.callers| + 1
  {
  }
}
