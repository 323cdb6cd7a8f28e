/** Sorting by time: what std::list's stable sort does to cached values. */
module Sorting {
  ghost predicate Ordered<T(!new)>(s: seq<T>, time: T -> nat) {
    forall i, j | 0 <= i < j < |s| :: time(s[i]) <= time(s[j])
  }

  /** Into its place, behind those of the same time. */
  function Insert<T>(s: seq<T>, x: T, time: T -> nat): (r: seq<T>)
    ensures multiset(r) == multiset(s) + multiset{x} && |r| == |s| + 1
  {
    if s == [] || time(s[|s| - 1]) <= time(x) then s + [x]
    else
      var last := |s| - 1;
      assert s == s[..last] + [s[last]];
      Insert(s[..last], x, time) + [s[last]]
  }

  function Sort<T>(s: seq<T>, time: T -> nat): (r: seq<T>)
    ensures multiset(r) == multiset(s) && |r| == |s|
  {
    if s == [] then []
    else
      var last := |s| - 1;
      assert s == s[..last] + [s[last]];
      Insert(Sort(s[..last], time), s[last], time)
  }

  lemma {:induction false} InsertOrders<T(!new)>(s: seq<T>, x: T, time: T -> nat)
    requires Ordered(s, time)
    ensures Ordered(Insert(s, x, time), time)
    ensures forall y | y in Insert(s, x, time) :: y in s || y == x
  {
    hide Ordered;
    InsertHas(s, x, time);
    if s == [] || time(s[|s| - 1]) <= time(x) {
      forall y | y in s ensures time(y) <= time(x) { NotAfterLast(s, y, time); }
      OrderedMore(s, x, time);
    } else {
      var last := |s| - 1;
      OrderedInit(s, time);
      InsertOrders(s[..last], x, time);
      InsertHas(s[..last], x, time);
      var r := Insert(s[..last], x, time);
      forall y | y in r ensures time(y) <= time(s[last]) {
        if y != x {
          assert y in s;
          NotAfterLast(s, y, time);
        }
      }
      OrderedMore(r, s[last], time);
    }
  }

  lemma InsertHas<T(!new)>(s: seq<T>, x: T, time: T -> nat)
    ensures forall y :: y in Insert(s, x, time) <==> y in s || y == x
  {
    forall y ensures y in Insert(s, x, time) <==> y in s || y == x {
      assert y in Insert(s, x, time) <==> y in multiset(Insert(s, x, time));
      assert y in s <==> y in multiset(s);
    }
  }

  lemma OrderedInit<T(!new)>(s: seq<T>, time: T -> nat)
    requires Ordered(s, time) && s != []
    ensures Ordered(s[..|s| - 1], time) && forall y | y in s[..|s| - 1] :: y in s
  {}

  lemma NotAfterLast<T(!new)>(s: seq<T>, y: T, time: T -> nat)
    requires Ordered(s, time) && s != [] && y in s
    ensures time(y) <= time(s[|s| - 1])
  {
    var k :| 0 <= k < |s| && s[k] == y;
  }

  lemma OrderedMore<T(!new)>(s: seq<T>, x: T, time: T -> nat)
    requires Ordered(s, time) && forall y | y in s :: time(y) <= time(x)
    ensures Ordered(s + [x], time)
  {
    forall i | 0 <= i < |s| ensures time(s[i]) <= time(x) { assert s[i] in s; }
  }

  lemma {:induction false} SortOrders<T(!new)>(s: seq<T>, time: T -> nat)
    ensures Ordered(Sort(s, time), time)
  {
    if s != [] {
      SortOrders(s[..|s| - 1], time);
      InsertOrders(Sort(s[..|s| - 1], time), s[|s| - 1], time);
    }
  }

  /** The elements of one time, in their order. */
  function AtTime<T>(s: seq<T>, time: T -> nat, t: nat): seq<T> {
    if s == [] then []
    else AtTime(s[..|s| - 1], time, t) + if time(s[|s| - 1]) == t then [s[|s| - 1]] else []
  }

  lemma AtTimeMore<T(!new)>(s: seq<T>, x: T, time: T -> nat, t: nat)
    ensures time(x) == t ==> AtTime(s + [x], time, t) == AtTime(s, time, t) + [x]
    ensures time(x) != t ==> AtTime(s + [x], time, t) == AtTime(s, time, t)
  {
    assert (s + [x])[..|s|] == s;
  }

  lemma {:induction false} InsertIsStable<T(!new)>(s: seq<T>, x: T, time: T -> nat, t: nat)
    requires Ordered(s, time)
    ensures time(x) == t ==> AtTime(Insert(s, x, time), time, t) == AtTime(s, time, t) + [x]
    ensures time(x) != t ==> AtTime(Insert(s, x, time), time, t) == AtTime(s, time, t)
  {
    hide AtTime, Ordered;
    if s == [] || time(s[|s| - 1]) <= time(x) {
      AtTimeMore(s, x, time, t);
    } else {
      var last := |s| - 1;
      assert s == s[..last] + [s[last]];
      assert Ordered(s[..last], time) by { OrderedInit(s, time); }
      InsertIsStable(s[..last], x, time, t);
      AtTimeMore(s[..last], s[last], time, t);
      AtTimeMore(Insert(s[..last], x, time), s[last], time, t);
    }
  }

  /** Ties keep their order. */
  lemma {:induction false} SortIsStable<T(!new)>(s: seq<T>, time: T -> nat, t: nat)
    ensures AtTime(Sort(s, time), time, t) == AtTime(s, time, t)
  {
    if s != [] {
      SortIsStable(s[..|s| - 1], time, t);
      SortOrders(s[..|s| - 1], time);
      InsertIsStable(Sort(s[..|s| - 1], time), s[|s| - 1], time, t);
    }
  }
}
