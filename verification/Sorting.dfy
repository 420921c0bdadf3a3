/** Stable sorting by insertion, as `Array.prototype.sort` orders a list. */
module Sorting {

  /** x goes behind everything it does not precede. */
  function Insert<T>(leq: (T, T) -> bool, x: T, v: seq<T>): seq<T> {
    if v == [] || !leq(v[0], x) then [x] + v else [v[0]] + Insert(leq, x, v[1..])
  }

  function Sort<T>(leq: (T, T) -> bool, v: seq<T>): seq<T> {
    if v == [] then [] else Insert(leq, v[|v| - 1], Sort(leq, v[..|v| - 1]))
  }

  ghost predicate Ordered<T>(leq: (T, T) -> bool, v: seq<T>) { forall i, j :: 0 <= i < j < |v| ==> leq(v[i], v[j]) }

  ghost predicate TotalPreorder<T(!new)>(leq: (T, T) -> bool) {
    && (forall a, b :: leq(a, b) || leq(b, a))
    && (forall a, b, c :: leq(a, b) && leq(b, c) ==> leq(a, c))
  }

  lemma {:induction false} InsertAdds<T>(leq: (T, T) -> bool, x: T, v: seq<T>)
    ensures multiset(Insert(leq, x, v)) == multiset(v) + multiset{x} && |Insert(leq, x, v)| == |v| + 1
  {
    if v == [] || !leq(v[0], x) {
    } else {
      InsertAdds(leq, x, v[1..]);
      assert v == [v[0]] + v[1..];
    }
  }

  lemma {:induction false} SortPermutes<T>(leq: (T, T) -> bool, v: seq<T>)
    ensures multiset(Sort(leq, v)) == multiset(v) && |Sort(leq, v)| == |v|
  {
    if v == [] {
    } else {
      SortPermutes(leq, v[..|v| - 1]);
      InsertAdds(leq, v[|v| - 1], Sort(leq, v[..|v| - 1]));
      assert v == v[..|v| - 1] + [v[|v| - 1]];
    }
  }

  lemma SameMembers<T>(u: seq<T>, v: seq<T>)
    requires multiset(u) == multiset(v)
    ensures forall i :: 0 <= i < |u| ==> u[i] in v
  {
    forall i | 0 <= i < |u| ensures u[i] in v {
      assert u[i] in multiset(u);
    }
  }

  lemma SortMembers<T>(leq: (T, T) -> bool, v: seq<T>)
    ensures forall i :: 0 <= i < |Sort(leq, v)| ==> Sort(leq, v)[i] in v
  {
    SortPermutes(leq, v);
    SameMembers(Sort(leq, v), v);
  }

  lemma {:induction false} InsertBounds<T>(leq: (T, T) -> bool, top: T, x: T, v: seq<T>)
    requires leq(top, x) && forall i :: 0 <= i < |v| ==> leq(top, v[i])
    ensures forall i :: 0 <= i < |Insert(leq, x, v)| ==> leq(top, Insert(leq, x, v)[i])
  {
    if v == [] || !leq(v[0], x) {
    } else {
      InsertBounds(leq, top, x, v[1..]);
    }
  }

  lemma {:induction false} InsertOrders<T(!new)>(leq: (T, T) -> bool, x: T, v: seq<T>)
    requires TotalPreorder(leq) && Ordered(leq, v)
    ensures Ordered(leq, Insert(leq, x, v))
  {
    if v == [] || !leq(v[0], x) {
      forall j | 0 <= j < |v| ensures leq(x, v[j]) {
        assert j == 0 || leq(v[0], v[j]);
      }
    } else {
      InsertOrders(leq, x, v[1..]);
      InsertBounds(leq, v[0], x, v[1..]);
    }
  }

  lemma {:induction false} SortOrders<T(!new)>(leq: (T, T) -> bool, v: seq<T>)
    requires TotalPreorder(leq)
    ensures Ordered(leq, Sort(leq, v))
  {
    if v == [] {
    } else {
      hide TotalPreorder;
      SortOrders(leq, v[..|v| - 1]);
      InsertOrders(leq, v[|v| - 1], Sort(leq, v[..|v| - 1]));
    }
  }

  ghost predicate DistinctBy<T, K>(key: T -> K, v: seq<T>) {
    forall i, j :: 0 <= i < j < |v| ==> key(v[i]) != key(v[j])
  }

  lemma {:induction false} InsertKeepsDistinct<T, K>(leq: (T, T) -> bool, key: T -> K, x: T, v: seq<T>)
    requires DistinctBy(key, v) && forall i :: 0 <= i < |v| ==> key(v[i]) != key(x)
    ensures DistinctBy(key, Insert(leq, x, v))
  {
    if v == [] || !leq(v[0], x) {
    } else {
      InsertKeepsDistinct(leq, key, x, v[1..]);
      InsertAdds(leq, x, v[1..]);
      var r := Insert(leq, x, v[1..]);
      SameMembers(r, v[1..] + [x]);
      forall i | 0 <= i < |r| ensures key(r[i]) != key(v[0]) {
        assert r[i] in v[1..] + [x];
      }
    }
  }

  /** Sorting keeps elements with distinct keys distinct. */
  lemma {:induction false} SortKeepsDistinct<T, K>(leq: (T, T) -> bool, key: T -> K, v: seq<T>)
    requires DistinctBy(key, v)
    ensures DistinctBy(key, Sort(leq, v))
  {
    if v == [] {
    } else {
      var rest := v[..|v| - 1];
      SortKeepsDistinct(leq, key, rest);
      SortMembers(leq, rest);
      var r := Sort(leq, rest);
      forall i | 0 <= i < |r| ensures key(r[i]) != key(v[|v| - 1]) {
        assert r[i] in rest;
      }
      InsertKeepsDistinct(leq, key, v[|v| - 1], r);
    }
  }

  // ----- stability -----

  /** The elements that rank with x, in order. */
  function Ties<T>(leq: (T, T) -> bool, x: T, v: seq<T>): seq<T> {
    if v == [] then [] else (if leq(x, v[0]) && leq(v[0], x) then [v[0]] else []) + Ties(leq, x, v[1..])
  }

  lemma {:induction false} TiesSnoc<T>(leq: (T, T) -> bool, x: T, v: seq<T>, y: T)
    ensures Ties(leq, x, v + [y]) == Ties(leq, x, v) + (if leq(x, y) && leq(y, x) then [y] else [])
  {
    if v == [] {
    } else {
      assert (v + [y])[1..] == v[1..] + [y];
      TiesSnoc(leq, x, v[1..], y);
    }
  }

  lemma {:induction false} NoTies<T(!new)>(leq: (T, T) -> bool, x: T, v: seq<T>)
    requires forall i :: 0 <= i < |v| ==> !leq(v[i], x)
    ensures Ties(leq, x, v) == []
  {
    if v == [] {
    } else {
      NoTies(leq, x, v[1..]);
    }
  }

  lemma TiesCons<T>(leq: (T, T) -> bool, x: T, a: T, v: seq<T>)
    ensures Ties(leq, x, [a] + v) == (if leq(x, a) && leq(a, x) then [a] else []) + Ties(leq, x, v)
  {
    assert ([a] + v)[1..] == v;
  }

  lemma {:induction false} InsertBehindTies<T(!new)>(leq: (T, T) -> bool, x: T, y: T, v: seq<T>)
    requires TotalPreorder(leq) && Ordered(leq, v)
    ensures Ties(leq, x, Insert(leq, y, v)) == Ties(leq, x, v) + (if leq(x, y) && leq(y, x) then [y] else [])
  {
    if v == [] {
    } else if leq(v[0], y) {
      InsertBehindTies(leq, x, y, v[1..]);
      TiesCons(leq, x, v[0], Insert(leq, y, v[1..]));
      hide TotalPreorder, Ordered;
    } else {
      TiesCons(leq, x, y, v);
      if leq(x, y) && leq(y, x) {
        forall i | 0 <= i < |v| ensures !leq(v[i], x) {
          assert i == 0 || leq(v[0], v[i]);
        }
        NoTies(leq, x, v);
      }
    }
  }

  /** Sorting leaves elements of the same rank in the order in which they came. */
  lemma {:induction false} SortIsStable<T(!new)>(leq: (T, T) -> bool, x: T, v: seq<T>)
    requires TotalPreorder(leq)
    ensures Ties(leq, x, Sort(leq, v)) == Ties(leq, x, v)
  {
    if v == [] {
    } else {
      hide TotalPreorder;
      var rest, y := v[..|v| - 1], v[|v| - 1];
      SortIsStable(leq, x, rest);
      SortOrders(leq, rest);
      InsertBehindTies(leq, x, y, Sort(leq, rest));
      TiesSnoc(leq, x, rest, y);
      assert v == rest + [y];
    }
  }
}
