/** Shared vocabulary: optional protobuf fields and the iteration order of std::map and std::set. */
module Common {
  datatype Option<+T> = None | Some(value: T) {
    /** A protobuf getter: the field, or the default of its type when it is unset. */
    function Or(default: T): T {
      match this
      case Some(v) => v
      case None => default
    }
  }

  /** std::string's operator<. */
  predicate Before(a: string, b: string) {
    b != [] && (a == [] || a[0] < b[0] || (a[0] == b[0] && Before(a[1..], b[1..])))
  }

  lemma {:induction false} BeforeTotal(a: string, b: string)
    ensures a == b || Before(a, b) || Before(b, a)
    ensures !(Before(a, b) && Before(b, a)) && (a == b ==> !Before(a, b))
  {
    if a != [] && b != [] && a[0] == b[0] {
      BeforeTotal(a[1..], b[1..]);
      assert a == [a[0]] + a[1..] && b == [b[0]] + b[1..];
    }
  }

  lemma {:induction false} BeforeTransitive(a: string, b: string, c: string)
    requires Before(a, b) && Before(b, c)
    ensures Before(a, c)
  {
    if a != [] && a[0] == b[0] == c[0] {
      BeforeTransitive(a[1..], b[1..], c[1..]);
    }
  }

  predicate Least(s: set<string>, m: string) {
    m in s && forall x | x in s :: x == m || Before(m, x)
  }

  lemma {:induction false} LeastExists(s: set<string>)
    requires s != {}
    ensures exists m :: Least(s, m)
    decreases |s|
  {
    var x :| x in s;
    if s == {x} {
      assert Least(s, x);
    } else {
      LeastExists(s - {x});
      var m :| Least(s - {x}, m);
      BeforeTotal(x, m);
      if Before(x, m) {
        forall y | y in s - {x} ensures Before(x, y) {
          if y != m { BeforeTransitive(x, m, y); }
        }
        assert Least(s, x);
      } else {
        assert Least(s, m);
      }
    }
  }

  lemma LeastUnique(s: set<string>, m: string, n: string)
    requires Least(s, m) && Least(s, n)
    ensures m == n
  {
    BeforeTotal(m, n);
  }

  function LeastOf(s: set<string>): (m: string)
    requires s != {}
    ensures Least(s, m)
  {
    LeastExists(s);
    assert forall m, n | Least(s, m) && Least(s, n) :: m == n by {
      forall m, n | Least(s, m) && Least(s, n) ensures m == n { LeastUnique(s, m, n); }
    }
    var m :| m in s && Least(s, m);
    m
  }

  predicate Distinct<T(==)>(s: seq<T>) {
    forall i, j | 0 <= i < j < |s| :: s[i] != s[j]
  }

  /** The keys of a std::map or std::set in the order an iterator visits them. */
  function Ascending(s: set<string>): (r: seq<string>)
    ensures forall x :: x in r <==> x in s
    ensures Distinct(r)
    decreases |s|
  {
    if s == {} then []
    else
      var m := LeastOf(s);
      var rest := Ascending(s - {m});
      assert m !in rest;
      [m] + rest
  }

  lemma {:induction false} AscendingOrdered(s: set<string>, i: nat, j: nat)
    requires i < j < |Ascending(s)|
    ensures Before(Ascending(s)[i], Ascending(s)[j])
    decreases |s|
  {
    hide Before, Distinct, LeastOf;
    var m := LeastOf(s);
    var rest := Ascending(s - {m});
    assert Ascending(s) == [m] + rest;
    if i == 0 {
      assert rest[j - 1] in rest;
    } else {
      AscendingOrdered(s - {m}, i - 1, j - 1);
    }
  }

  // ----- taking elements out of a sequence

  function Dropped<T(==)>(s: seq<T>, gone: set<T>): seq<T> {
    if s == [] then []
    else
      var last := s[|s| - 1];
      Dropped(s[..|s| - 1], gone) + if last in gone then [] else [last]
  }

  lemma DistinctMore<T(!new)>(s: seq<T>, x: T)
    requires Distinct(s) && x !in s
    ensures Distinct(s + [x]) && forall y :: y in s + [x] <==> y in s || y == x
  {}

  lemma {:induction false} DistinctBoth<T(!new)>(a: seq<T>, b: seq<T>)
    requires Distinct(a) && Distinct(b) && forall x | x in a :: x !in b
    ensures Distinct(a + b)
  {
    if b == [] {
      assert a + b == a;
    } else {
      var init, last := b[..|b| - 1], b[|b| - 1];
      assert b == init + [last];
      assert a + b == a + init + [last];
      DistinctBoth(a, init);
      DistinctMore(a + init, last);
    }
  }

  lemma {:induction false} DroppedHas<T(!new)>(s: seq<T>, gone: set<T>)
    requires Distinct(s)
    ensures Distinct(Dropped(s, gone)) && forall x :: x in Dropped(s, gone) <==> x in s && x !in gone
  {
    if s != [] {
      var init, last := s[..|s| - 1], s[|s| - 1];
      assert s == init + [last];
      assert last !in init;
      DroppedHas(init, gone);
      if last !in gone { DistinctMore(Dropped(init, gone), last); }
    }
  }

  lemma {:induction false} DropNone<T(!new)>(s: seq<T>)
    ensures Dropped(s, {}) == s
  {
    if s != [] { DropNone(s[..|s| - 1]); }
  }

  lemma {:induction false} DroppedPrefix<T(!new)>(s: seq<T>, gone: set<T>)
    requires 2 <= |s| && s[0] !in gone && s[1] !in gone
    ensures 2 <= |Dropped(s, gone)| && Dropped(s, gone)[0] == s[0] && Dropped(s, gone)[1] == s[1]
  {
    var init := s[..|s| - 1];
    if |s| == 2 {
      assert init[..0] == [] && init == [s[0]];
      assert Dropped(init, gone) == [s[0]];
    } else {
      DroppedPrefix(init, gone);
    }
  }

  lemma {:induction false} DroppedBoth<T(!new)>(s: seq<T>, a: set<T>, b: set<T>)
    ensures Dropped(Dropped(s, a), b) == Dropped(s, a + b)
  {
    if s != [] {
      var init := s[..|s| - 1];
      DroppedBoth(init, a, b);
      assert Dropped(init, a) + [] == Dropped(init, a);
      assert (Dropped(init, a) + [s[|s| - 1]])[..|Dropped(init, a)|] == Dropped(init, a);
    }
  }

  lemma {:induction false} DroppedOver<T(!new)>(a: seq<T>, b: seq<T>, gone: set<T>)
    ensures Dropped(a + b, gone) == Dropped(a, gone) + Dropped(b, gone)
  {
    if b == [] {
      assert a + b == a;
    } else {
      assert (a + b)[..|a + b| - 1] == a + b[..|b| - 1];
      DroppedOver(a, b[..|b| - 1], gone);
    }
  }

  lemma {:induction false} DropUnused<T(!new)>(s: seq<T>, gone: set<T>)
    requires forall x | x in gone :: x !in s
    ensures Dropped(s, gone) == s
  {
    if s != [] {
      assert s == s[..|s| - 1] + [s[|s| - 1]];
      DropUnused(s[..|s| - 1], gone);
    }
  }
}
