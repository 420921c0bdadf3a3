/** The volatility-clustering loop of technical-analyzer.js: a run-length encoding with a running mean. */
module Clusters {
  import opened Prelude
  import opened Statistics

  datatype Tag = Volatile | Calm | Normal
  datatype Tick = Tick(time: real, close: real)
  datatype Cluster = Cluster(state: Tag, start: real, end: real, count: nat, avgMagnitude: real)

  /** Size of the relative move into candle i + 1. */
  function Magnitude(s: seq<Tick>, i: nat): real
    requires i + 1 < |s|
  {
    var base := if s[i].close == 0.0 then 1.0 else s[i].close;
    AbsReal((s[i + 1].close - s[i].close) / base)
  }

  function Magnitudes(s: seq<Tick>): (m: seq<real>)
    requires s != []
    ensures |m| == |s| - 1
  {
    seq(|s| - 1, i requires 0 <= i < |s| - 1 => Magnitude(s, i))
  }

  function TagOf(m: real, meanAbs: real): Tag {
    if m > meanAbs * 1.8 then Volatile else if m < meanAbs * 0.7 then Calm else Normal
  }

  function Tags(s: seq<Tick>): (t: seq<Tag>)
    requires s != []
    ensures |t| == |s| - 1
  {
    var m := Magnitudes(s);
    seq(|s| - 1, i requires 0 <= i < |s| - 1 => TagOf(m[i], Mean(m)))
  }

  /** Size of the move in prices, and of the price it is relative to; a zero price counts as 1. */
  ghost predicate IsMagnitude(m: real, s: seq<Tick>, i: nat)
    requires i + 1 < |s|
  {
    && m >= 0.0
    && (s[i].close != 0.0 ==> m * AbsReal(s[i].close) == AbsReal(s[i + 1].close - s[i].close))
    && (s[i].close == 0.0 ==> m == AbsReal(s[i + 1].close))
  }

  lemma MagnitudeIsRelative(s: seq<Tick>, i: nat)
    requires i + 1 < |s|
    ensures IsMagnitude(Magnitude(s, i), s, i)
  {
    if s[i].close != 0.0 {
      RelativeSize(s[i + 1].close - s[i].close, s[i].close);
    }
  }

  lemma RelativeSize(x: real, base: real)
    requires base != 0.0
    ensures AbsReal(x / base) * AbsReal(base) == AbsReal(x)
  {
    var q := x / base;
    assert q * base == x;
    if q >= 0.0 && base < 0.0 {
      assert q * (-base) == -x;
      NotNegative(q, -base);
    } else if q < 0.0 && base >= 0.0 {
      assert (-q) * base == -x;
      NotNegative(-q, base);
    } else if q < 0.0 {
      assert (-q) * (-base) == x;
      NotNegative(-q, -base);
    } else {
      NotNegative(q, base);
    }
  }

  lemma NotNegative(a: real, b: real)
    requires a >= 0.0 && b >= 0.0
    ensures a * b >= 0.0
  {
  }

  /**
   * Move k is volatile exactly when its magnitude exceeds nine fifths of the mean magnitude, calm exactly when it is
   * below seven tenths of it, and normal in between.
   */
  ghost predicate TaggedByMean(s: seq<Tick>, k: nat, t: Tag)
    requires k + 1 < |s|
  {
    var m, mean := Magnitudes(s), Mean(Magnitudes(s));
    && IsMagnitude(m[k], s, k)
    && (t == Volatile <==> 5.0 * m[k] > 9.0 * mean)
    && (t == Calm <==> 10.0 * m[k] < 7.0 * mean)
    && (t == Normal <==> 9.0 * mean >= 5.0 * m[k] && 10.0 * m[k] >= 7.0 * mean)
  }

  lemma MeanIsNotNegative(s: seq<Tick>)
    requires |s| >= 2
    ensures Mean(Magnitudes(s)) >= 0.0
  {
    var m := Magnitudes(s);
    MeanWithinExtremes(m);
    hide Magnitudes, Mean;
    LeastIsMember(m);
  }

  lemma {:induction false} LeastIsMember(v: seq<real>)
    requires v != [] && forall i :: 0 <= i < |v| ==> v[i] >= 0.0
    ensures Least(v) >= 0.0
  {
    if |v| == 1 {
    } else {
      LeastIsMember(v[..|v| - 1]);
    }
  }

  lemma TagsAreExact(s: seq<Tick>)
    requires |s| >= 2
    ensures forall k :: 0 <= k < |s| - 1 ==> TaggedByMean(s, k, Tags(s)[k])
  {
    MeanIsNotNegative(s);
    forall k | 0 <= k < |s| - 1 ensures TaggedByMean(s, k, Tags(s)[k]) {
      MagnitudeIsRelative(s, k);
      hide IsMagnitude, Mean, Magnitude;
    }
  }

  /** Running mean of `count` magnitudes after one more. */
  function Blend(avg: real, count: nat, m: real): real {
    (avg * count as real + m) / (count + 1) as real
  }

  // ----- decoding -----

  function Repeat(t: Tag, n: nat): (r: seq<Tag>)
    ensures |r| == n
  {
    seq(n, _ => t)
  }

  function Expand(c: seq<Cluster>): seq<Tag> {
    if c == [] then [] else Expand(c[..|c| - 1]) + Repeat(c[|c| - 1].state, c[|c| - 1].count)
  }

  /** Neighbouring clusters differ and none is empty. */
  ghost predicate Maximal(c: seq<Cluster>) {
    (forall k :: 0 <= k < |c| ==> c[k].count > 0)
    && forall k :: 0 < k < |c| ==> c[k - 1].state != c[k].state
  }

  /** Cluster k describes the moves it stands for: their times and their mean magnitude. */
  ghost predicate Describes(c: Cluster, s: seq<Tick>, from: nat) {
    0 < c.count && from + c.count < |s|
    && c.start == s[from].time && c.end == s[from + c.count].time
    && c.avgMagnitude * c.count as real == Total(Magnitudes(s)[from..from + c.count])
  }

  ghost predicate AllDescribe(c: seq<Cluster>, s: seq<Tick>) {
    forall k :: 0 <= k < |c| ==> Describes(c[k], s, |Expand(c[..k])|)
  }

  /** The latest cluster, from which the caller reads the current state, carries this tag. */
  ghost predicate EndsWith(c: seq<Cluster>, t: Tag) { c != [] && c[|c| - 1].state == t }

  method VolatilityClusters(s: seq<Tick>) returns (clusters: seq<Cluster>)
    requires |s| >= 2
    ensures Expand(clusters) == Tags(s) && Maximal(clusters) && AllDescribe(clusters, s)
    ensures EndsWith(clusters, Tags(s)[|s| - 2])
  {
    hide Magnitude, TagOf, InProgress, Blend;
    var m := Magnitudes(s);
    var meanAbs := Mean(m);
    clusters := [];
    var open := Cluster(TagOf(m[0], meanAbs), s[0].time, s[1].time, 1, m[0]);
    FirstMove(open, s);
    var i := 2;
    while i < |s|
      invariant 2 <= i <= |s|
      invariant InProgress(clusters, open, s, i)
    {
      var tag := TagOf(m[i - 1], meanAbs);
      if open.state != tag {
        StartNew(clusters, open, s, i);
        clusters := clusters + [open];
        open := Cluster(tag, s[i - 1].time, s[i].time, 1, m[i - 1]);
      } else {
        var count := open.count + 1;
        var avg := Blend(open.avgMagnitude, count - 1, m[i - 1]);
        Extend(clusters, open, s, i, avg);
        open := open.(end := s[i].time, count := count, avgMagnitude := avg);
      }
      i := i + 1;
    }
    Finish(clusters, open, s);
    clusters := clusters + [open];
  }

  /** The moves into candles 1 .. i - 1 are encoded, the last run still open. */
  ghost predicate InProgress(c: seq<Cluster>, open: Cluster, s: seq<Tick>, i: nat) {
    && 2 <= i <= |s|
    && Expand(c) + Repeat(open.state, open.count) == Tags(s)[..i - 1]
    && Maximal(c) && (c != [] ==> c[|c| - 1].state != open.state)
    && AllDescribe(c, s) && Describes(open, s, |Expand(c)|)
  }

  lemma FirstMove(open: Cluster, s: seq<Tick>)
    requires |s| >= 2 && open == Cluster(Tags(s)[0], s[0].time, s[1].time, 1, Magnitudes(s)[0])
    ensures InProgress([], open, s, 2)
  {
    hide Describes;
    DescribeOne(s, 0, open);
    assert Tags(s)[..1] == Repeat(open.state, 1);
  }

  lemma DescribeOne(s: seq<Tick>, k: nat, c: Cluster)
    requires k + 1 < |s| && c == Cluster(c.state, s[k].time, s[k + 1].time, 1, Magnitudes(s)[k])
    ensures Describes(c, s, k)
  {
    hide Magnitudes;
    OneMove(Magnitudes(s), k);
  }

  lemma DescribeMore(s: seq<Tick>, from: nat, c: Cluster, avg: real)
    requires Describes(c, s, from) && from + c.count + 1 < |s|
    requires avg == Blend(c.avgMagnitude, c.count, Magnitudes(s)[from + c.count])
    ensures Describes(c.(end := s[from + c.count + 1].time, count := c.count + 1, avgMagnitude := avg), s, from)
  {
    hide Magnitudes;
    MoreMoves(Magnitudes(s), from, from + c.count);
  }

  lemma StartNew(c: seq<Cluster>, open: Cluster, s: seq<Tick>, i: nat)
    requires InProgress(c, open, s, i) && i < |s| && open.state != Tags(s)[i - 1]
    ensures InProgress(c + [open], Cluster(Tags(s)[i - 1], s[i - 1].time, s[i].time, 1, Magnitudes(s)[i - 1]), s, i + 1)
  {
    hide Magnitudes, Tags, Describes, AllDescribe, Repeat, Maximal, Expand;
    DescribeBounds(c, open, s, i);
    var next := Cluster(Tags(s)[i - 1], s[i - 1].time, s[i].time, 1, Magnitudes(s)[i - 1]);
    CloseCluster(c, open, s);
    MaximalSnoc(c, open);
    TextOfNew(c, open, s, i);
    DescribeOne(s, i - 1, next);
  }

  lemma TextOfNew(c: seq<Cluster>, open: Cluster, s: seq<Tick>, i: nat)
    requires InProgress(c, open, s, i) && i < |s|
    ensures |Expand(c + [open])| == i - 1
    ensures Expand(c + [open]) + Repeat(Tags(s)[i - 1], 1) == Tags(s)[..i]
  {
    hide Tags, Describes, AllDescribe, Repeat, Maximal, Expand;
    DescribeBounds(c, open, s, i);
    ExpandSnoc(c, open);
    RepeatOne(Tags(s)[i - 1]);
    TakeOneMore(Expand(c + [open]), Tags(s), i);
  }

  lemma TakeOneMore(e: seq<Tag>, t: seq<Tag>, i: nat)
    requires 0 < i <= |t| && e == t[..i - 1]
    ensures |e| == i - 1 && e + [t[i - 1]] == t[..i]
  {
  }

  lemma DescribeBounds(c: seq<Cluster>, open: Cluster, s: seq<Tick>, i: nat)
    requires InProgress(c, open, s, i)
    ensures 0 < open.count && |Expand(c)| + open.count == i - 1
  {
    hide Tags, AllDescribe;
    assert |Expand(c) + Repeat(open.state, open.count)| == |Tags(s)[..i - 1]|;
  }

  lemma Extend(c: seq<Cluster>, open: Cluster, s: seq<Tick>, i: nat, avg: real)
    requires InProgress(c, open, s, i) && i < |s| && open.state == Tags(s)[i - 1]
    requires avg == Blend(open.avgMagnitude, open.count, Magnitudes(s)[i - 1])
    ensures InProgress(c, open.(end := s[i].time, count := open.count + 1, avgMagnitude := avg), s, i + 1)
  {
    DescribeBounds(c, open, s, i);
    TextOfMore(c, open, s, i);
    hide Magnitudes, Tags, AllDescribe, Describes, Repeat, Expand, Blend;
    DescribeMore(s, |Expand(c)|, open, avg);
  }

  lemma TextOfMore(c: seq<Cluster>, open: Cluster, s: seq<Tick>, i: nat)
    requires InProgress(c, open, s, i) && i < |s| && open.state == Tags(s)[i - 1]
    ensures Expand(c) + Repeat(open.state, open.count + 1) == Tags(s)[..i]
  {
    hide Tags, Describes, AllDescribe, Maximal, Expand;
    TakeOneMore(Expand(c) + Repeat(open.state, open.count), Tags(s), i);
    assert Repeat(open.state, open.count + 1) == Repeat(open.state, open.count) + [open.state];
  }

  lemma {:induction false} Finish(c: seq<Cluster>, open: Cluster, s: seq<Tick>)
    requires InProgress(c, open, s, |s|)
    ensures Expand(c + [open]) == Tags(s) && Maximal(c + [open]) && AllDescribe(c + [open], s)
    ensures open.state == Tags(s)[|s| - 2]
  {
    hide Magnitudes, Tags, Describes, AllDescribe, Repeat, Maximal, Expand;
    DescribeBounds(c, open, s, |s|);
    CloseCluster(c, open, s);
    MaximalSnoc(c, open);
    ExpandSnoc(c, open);
    assert Tags(s)[..|s| - 1] == Tags(s);
    LastTag(c + [open]);
  }

  lemma MaximalSnoc(c: seq<Cluster>, last: Cluster)
    requires Maximal(c) && last.count > 0 && (c != [] ==> c[|c| - 1].state != last.state)
    ensures Maximal(c + [last])
  {
  }

  lemma RepeatOne(t: Tag)
    ensures Repeat(t, 1) == [t]
  {
  }

  lemma CloseCluster(c: seq<Cluster>, last: Cluster, s: seq<Tick>)
    requires AllDescribe(c, s) && Describes(last, s, |Expand(c)|)
    ensures AllDescribe(c + [last], s)
  {
    hide Describes;
    forall k | 0 <= k <= |c| ensures Describes((c + [last])[k], s, |Expand((c + [last])[..k])|) {
      assert (c + [last])[..k] == c[..k];
      assert c[..|c|] == c;
    }
  }

  lemma ExpandSnoc(c: seq<Cluster>, last: Cluster)
    ensures Expand(c + [last]) == Expand(c) + Repeat(last.state, last.count)
  {
    assert (c + [last])[..|c|] == c;
  }

  lemma {:induction false} LastTag(c: seq<Cluster>)
    requires c != [] && c[|c| - 1].count > 0
    ensures Expand(c) != [] && Expand(c)[|Expand(c)| - 1] == c[|c| - 1].state
  {
  }

  lemma OneMove(m: seq<real>, k: nat)
    requires k < |m|
    ensures Total(m[k..k + 1]) == m[k]
  {
    assert m[k..k + 1] == [m[k]] && [m[k]][..0] == [];
  }

  lemma MoreMoves(m: seq<real>, from: nat, k: nat)
    requires from <= k < |m|
    ensures Total(m[from..k + 1]) == Total(m[from..k]) + m[k]
  {
    assert m[from..k + 1][..k - from] == m[from..k];
  }

  // ----- the encoding is canonical -----

  lemma SameLastCount(a: seq<Tag>, b: seq<Tag>, t: Tag, m: nat, n: nat)
    requires a + Repeat(t, m) == b + Repeat(t, n) && m < n
    ensures a != [] && a[|a| - 1] == t
  {
    var whole := b + Repeat(t, n);
    assert |a| == |b| + n - m;
    assert whole[|a| - 1] == Repeat(t, n)[|a| - 1 - |b|];
    assert (a + Repeat(t, m))[|a| - 1] == a[|a| - 1];
  }

  ghost predicate SameShape(c: seq<Cluster>, d: seq<Cluster>) {
    |c| == |d| && forall k :: 0 <= k < |c| ==> c[k].state == d[k].state && c[k].count == d[k].count
  }

  /** Two maximal clusterings of the same moves have the same states and lengths: the loop finds the only one. */
  lemma {:induction false} ClusteringIsUnique(c: seq<Cluster>, d: seq<Cluster>)
    requires Maximal(c) && Maximal(d) && Expand(c) == Expand(d)
    ensures SameShape(c, d)
  {
    if c != [] && d != [] {
      var c', d', x, y := c[..|c| - 1], d[..|d| - 1], c[|c| - 1], d[|d| - 1];
      LastTag(c);
      LastTag(d);
      assert x.state == y.state;
      if x.count < y.count {
        SameLastCount(Expand(c'), Expand(d'), x.state, x.count, y.count);
        PreviousDiffers(c);
      } else if y.count < x.count {
        SameLastCount(Expand(d'), Expand(c'), x.state, y.count, x.count);
        PreviousDiffers(d);
      } else {
        assert Expand(c') == Expand(c)[..|Expand(c)| - x.count];
        assert Expand(d') == Expand(d)[..|Expand(d)| - x.count];
        ClusteringIsUnique(c', d');
      }
    } else if c != [] {
      LastTag(c);
    } else if d != [] {
      LastTag(d);
    }
  }

  lemma PreviousDiffers(c: seq<Cluster>)
    requires Maximal(c) && c != []
    ensures var e := Expand(c[..|c| - 1]); e != [] ==> e[|e| - 1] != c[|c| - 1].state
  {
    if |c| > 1 {
      LastTag(c[..|c| - 1]);
    }
  }
}
