/** Replays are harmless to subscribers that are up to date, and complete for those that are new. */
module Replays {
  import opened Common
  import opened Sorting
  import opened Subscriptions
  import opened Acceptance
  import opened Publishing

  /** A product that comes from its source and carries the expected registration time. */
  predicate Plain(p: Product, regTime: nat) {
    !p.relayed && p.regTime == regTime
  }

  // ----- reading

  /** Nothing is accepted exactly when nothing is newer than the last value. */
  lemma {:induction false} AcceptsNone(lastCached: map<Socket, Product>, s: Socket, regTime: nat, receiveCached: bool,
                                       products: seq<Product>)
    requires forall p | p in products :: Plain(p, regTime)
    ensures var r := Read(lastCached, s, regTime, receiveCached, products);
            && !r.mismatch
            && ((forall p | p in products :: !Newer(Last(lastCached, s), p)) ==> r == Reading(lastCached, [], false))
            && (receiveCached && r.delivered == [] ==>
                  r.lastCached == lastCached && forall p | p in products :: !Newer(Last(lastCached, s), p))
  {
    hide Newer;
    if products != [] {
      var init, last := products[..|products| - 1], products[|products| - 1];
      assert products == init + [last] && last in products;
      AcceptsNone(lastCached, s, regTime, receiveCached, init);
    }
  }

  predicate Rising(products: seq<Product>) {
    forall i, j | 0 <= i < j < |products| :: products[i].timestamp < products[j].timestamp
  }

  lemma AcceptsOne(lastCached: map<Socket, Product>, s: Socket, regTime: nat, init: seq<Product>, p: Product)
    requires Plain(p, regTime)
    requires var r := Read(lastCached, s, regTime, true, init);
             !r.mismatch && (s in r.lastCached ==> r.lastCached[s].timestamp < p.timestamp)
    ensures var r := Read(lastCached, s, regTime, true, init);
            Read(lastCached, s, regTime, true, init + [p]) == Reading(r.lastCached[s := p], r.delivered + [p], false)
  {
    assert (init + [p])[..|init|] == init;
  }

  lemma RisingInit(products: seq<Product>)
    requires Rising(products) && products != []
    ensures Rising(products[..|products| - 1])
    ensures |products| > 1 ==> products[|products| - 2].timestamp < products[|products| - 1].timestamp
  {}

  /** Products that are each newer than all before are all accepted. */
  lemma {:induction false} AcceptsAll(lastCached: map<Socket, Product>, s: Socket, regTime: nat, products: seq<Product>)
    requires forall p | p in products :: Plain(p, regTime)
    requires Rising(products)
    requires s in lastCached ==> forall p | p in products :: lastCached[s].timestamp < p.timestamp
    ensures Read(lastCached, s, regTime, true, products)
         == Reading(if products == [] then lastCached else lastCached[s := products[|products| - 1]], products, false)
  {
    hide Read, Rising, Plain;
    if products == [] {
      ReadsNothing(lastCached, s, regTime);
    } else {
      var init, last := products[..|products| - 1], products[|products| - 1];
      assert products == init + [last] && last in products;
      RisingInit(products);
      AcceptsAll(lastCached, s, regTime, init);
      if init != [] { assert init[|init| - 1] == products[|products| - 2]; }
      AcceptsOne(lastCached, s, regTime, init, last);
      var read := Read(lastCached, s, regTime, true, init);
      assert read.lastCached[s := last] == lastCached[s := last];
    }
  }

  lemma ReadsNothing(lastCached: map<Socket, Product>, s: Socket, regTime: nat)
    ensures Read(lastCached, s, regTime, true, []) == Reading(lastCached, [], false)
  {}

  /** Whoever does not want cached values remembers them all the same. */
  lemma {:induction false} CachedIsRemembered(lastCached: map<Socket, Product>, s: Socket, regTime: nat,
                                              products: seq<Product>)
    requires forall p | p in products :: p.cached
    ensures var r := Read(lastCached, s, regTime, false, products);
            r.delivered == [] && r.lastCached == Read(lastCached, s, regTime, true, products).lastCached
            && r.mismatch == Read(lastCached, s, regTime, true, products).mismatch
  {
    hide Accepts;
    if products != [] {
      assert products == products[..|products| - 1] + [products[|products| - 1]];
      CachedIsRemembered(lastCached, s, regTime, products[..|products| - 1]);
    }
  }

  lemma {:induction false} ReadBoth(lastCached: map<Socket, Product>, s: Socket, regTime: nat, receiveCached: bool,
                                    a: seq<Product>, b: seq<Product>)
    requires !Read(lastCached, s, regTime, receiveCached, a).mismatch
    ensures var r := Read(lastCached, s, regTime, receiveCached, a);
            var q := Read(r.lastCached, s, regTime, receiveCached, b);
            Read(lastCached, s, regTime, receiveCached, a + b) == q.(delivered := r.delivered + q.delivered)
  {
    hide Accepts;
    var r := Read(lastCached, s, regTime, receiveCached, a);
    if b == [] {
      assert a + b == a && r.delivered + [] == r.delivered;
    } else {
      assert (a + b)[..|a + b| - 1] == a + b[..|b| - 1] && (a + b)[|a + b| - 1] == b[|b| - 1];
      ReadBoth(lastCached, s, regTime, receiveCached, a, b[..|b| - 1]);
      var q := Read(r.lastCached, s, regTime, receiveCached, b[..|b| - 1]);
      assert r.delivered + (q.delivered + [b[|b| - 1]]) == r.delivered + q.delivered + [b[|b| - 1]];
    }
  }

  // ----- what is heard

  lemma {:induction false} HeardBoth(filter: string, a: seq<Message>, b: seq<Message>)
    ensures Heard(filter, a + b) == Heard(filter, a) + Heard(filter, b)
  {
    if b == [] {
      assert a + b == a;
    } else {
      assert (a + b)[..|a + b| - 1] == a + b[..|b| - 1];
      HeardBoth(filter, a, b[..|b| - 1]);
    }
  }

  lemma {:induction false} HeardHas(filter: string, messages: seq<Message>, p: Product)
    ensures p in Heard(filter, messages) <==> exists m :: m in messages && Matches(filter, m) && m.product == p
  {
    if messages != [] {
      assert messages == messages[..|messages| - 1] + [messages[|messages| - 1]];
      HeardHas(filter, messages[..|messages| - 1], p);
    }
  }

  lemma {:induction false} FlaggedHas(messages: seq<Message>, m: Message)
    ensures m in AllFlagged(messages) <==> exists x :: x in messages && m == Flagged(x)
  {
    if messages != [] {
      assert messages == messages[..|messages| - 1] + [messages[|messages| - 1]];
      FlaggedHas(messages[..|messages| - 1], m);
    }
  }

  lemma {:induction false} FlaggedIncreases(messages: seq<Message>)
    requires Increasing(messages)
    ensures Increasing(AllFlagged(messages))
  {
    if messages != [] {
      IncreasingInit(messages);
      hide Increasing;
      FlaggedIncreases(messages[..|messages| - 1]);
      forall x | x in AllFlagged(messages[..|messages| - 1]) ensures Time(x) < Time(messages[|messages| - 1]) {
        FlaggedHas(messages[..|messages| - 1], x);
      }
      IncreasingMore(AllFlagged(messages[..|messages| - 1]), Flagged(messages[|messages| - 1]));
    }
  }

  lemma {:induction false} HeardRises(filter: string, messages: seq<Message>)
    requires Increasing(messages)
    ensures Rising(Heard(filter, messages))
  {
    if messages != [] {
      IncreasingInit(messages);
      hide Increasing;
      var init := messages[..|messages| - 1];
      HeardRises(filter, init);
      forall p | p in Heard(filter, init)
        ensures p.timestamp < Time(messages[|messages| - 1])
      {
        HeardHas(filter, init, p);
      }
    }
  }

  // ----- the last value of a subscriber that is up to date

  /** What a caught-up socket remembers: the product of the last published message that matches. */
  predicate CaughtUp(filter: string, published: seq<Message>, last: Option<Product>)
  {
    if published == [] then last == None
    else
      var m := published[|published| - 1];
      if Matches(filter, m) then last.Some? && last.value.(cached := m.product.cached) == m.product
      else CaughtUp(filter, published[..|published| - 1], last)
  }

  lemma {:induction false} CaughtUpOnLatest(filter: string, published: seq<Message>, last: Option<Product>)
    requires CaughtUp(filter, Latest(published), last)
    ensures CaughtUp(filter, published, last)
  {
    if published != [] {
      var init, m := published[..|published| - 1], published[|published| - 1];
      var latest := Latest(published);
      assert latest[..|latest| - 1] == Except(Latest(init), m.filter);
      if !Matches(filter, m) {
        CaughtUpExcept(filter, Latest(init), m.filter, last);
        CaughtUpOnLatest(filter, init, last);
      }
    }
  }

  lemma {:induction false} CaughtUpExcept(filter: string, messages: seq<Message>, other: string, last: Option<Product>)
    requires !(filter <= other) && CaughtUp(filter, Except(messages, other), last)
    ensures CaughtUp(filter, messages, last)
  {
    if messages != [] {
      var init, m := messages[..|messages| - 1], messages[|messages| - 1];
      if m.filter != other {
        assert Except(messages, other)[..|Except(init, other)|] == Except(init, other);
      } else {
        assert Except(messages, other) == Except(init, other);
      }
      if !Matches(filter, m) { CaughtUpExcept(filter, init, other, last); }
    }
  }

  /** Reading a replay from the beginning is a way to catch up. */
  lemma {:induction false} CaughtUpAfter(filter: string, messages: seq<Message>, lastCached: map<Socket, Product>,
                                         s: Socket)
    requires s !in lastCached
    ensures var heard := Heard(filter, AllFlagged(messages));
            CaughtUp(filter, messages,
                     Last(if heard == [] then lastCached else lastCached[s := heard[|heard| - 1]], s))
  {
    if messages != [] {
      var init := messages[..|messages| - 1];
      CaughtUpAfter(filter, init, lastCached, s);
      assert AllFlagged(messages)[..|init|] == AllFlagged(init);
    }
  }

  /** Nothing published before is newer than what a caught-up socket remembers. */
  lemma {:induction false} NothingIsNewer(filter: string, published: seq<Message>, last: Option<Product>, m: Message)
    requires Increasing(published) && CaughtUp(filter, published, last)
    requires m in published && Matches(filter, m)
    ensures last.Some? && m.product.timestamp <= last.value.timestamp && !Newer(last, Flagged(m).product)
  {
    var init := published[..|published| - 1];
    if !Matches(filter, published[|published| - 1]) {
      IncreasingInit(published);
      NothingIsNewer(filter, init, last, m);
    }
  }

  lemma {:induction false} RememberedIsPublished(filter: string, published: seq<Message>, last: Option<Product>)
    requires CaughtUp(filter, published, last) && last.Some?
    ensures exists m :: m in published && Matches(filter, m) && m.product.timestamp == last.value.timestamp
  {
    var m := published[|published| - 1];
    if Matches(filter, m) {
      assert m in published;
    } else {
      RememberedIsPublished(filter, published[..|published| - 1], last);
    }
  }

  // ----- the whole stream

  /** What is published is neither cached nor relayed, and the registration time is the one the subscriber expects. */
  ghost predicate Original(messages: seq<Message>, regTime: nat) {
    forall m | m in messages :: Plain(m.product, regTime) && !m.product.cached
  }

  lemma FlaggedIsPlain(filter: string, messages: seq<Message>, regTime: nat)
    requires forall m | m in messages :: Plain(m.product, regTime)
    ensures forall p | p in Heard(filter, AllFlagged(messages)) :: Plain(p, regTime) && p.cached
  {
    forall p | p in Heard(filter, AllFlagged(messages)) ensures Plain(p, regTime) && p.cached {
      HeardHas(filter, AllFlagged(messages), p);
      forall m | m in AllFlagged(messages) ensures Plain(m.product, regTime) && m.product.cached {
        FlaggedHas(messages, m);
      }
    }
  }

  /** A new subscriber and the replay it causes: whoever wants cached values accepts exactly the latest product of each
      matching filter text, in the order of time, and everyone is caught up afterwards. */
  lemma NewSubscriberIsComplete(filter: string, events: seq<Event>, lastCached: map<Socket, Product>, s: Socket,
                                regTime: nat, receiveCached: bool)
    requires Increasing(Published(events)) && Original(Published(events), regTime) && s !in lastCached
    ensures var latest := Heard(filter, AllFlagged(Latest(Published(events))));
            var r := Read(lastCached, s, regTime, receiveCached, Heard(filter, Replay(CacheAfter(true, events))));
            && !r.mismatch && r.delivered == (if receiveCached then latest else [])
            && CaughtUp(filter, Published(events), Last(r.lastCached, s))
  {
    hide CaughtUp, Increasing, Rising, Latest, Published, CacheAfter, Replay, AllFlagged, Heard, Read;
    var latest := Latest(Published(events));
    var heard := Heard(filter, AllFlagged(latest));
    ReplayIsLatest(events);
    LatestIncreases(Published(events));
    FlaggedIncreases(latest);
    HeardRises(filter, AllFlagged(latest));
    FlaggedIsPlain(filter, latest, regTime);
    AcceptsAll(lastCached, s, regTime, heard);
    CachedIsRemembered(lastCached, s, regTime, heard);
    CaughtUpAfter(filter, latest, lastCached, s);
    CaughtUpOnLatest(filter, Published(events), Last(Read(lastCached, s, regTime, true, heard).lastCached, s));
  }

  /** Replays that others cause are not accepted by a socket that is caught up. */
  lemma ReplayIsHarmless(filter: string, events: seq<Event>, lastCached: map<Socket, Product>, s: Socket, regTime: nat,
                         receiveCached: bool)
    requires Increasing(Published(events)) && Original(Published(events), regTime)
    requires CaughtUp(filter, Published(events), Last(lastCached, s))
    ensures Read(lastCached, s, regTime, receiveCached, Heard(filter, Replay(CacheAfter(true, events))))
         == Reading(lastCached, [], false)
  {
    hide CaughtUp, Increasing, Latest, Published, CacheAfter, Replay, AllFlagged, Heard, Read, Newer;
    var latest := Latest(Published(events));
    var heard := Heard(filter, AllFlagged(latest));
    ReplayIsLatest(events);
    LatestIncreases(Published(events));
    FlaggedIsPlain(filter, latest, regTime);
    forall p | p in heard ensures !Newer(Last(lastCached, s), p) {
      HeardHas(filter, AllFlagged(latest), p);
      var m :| m in AllFlagged(latest) && Matches(filter, m) && m.product == p;
      FlaggedHas(latest, m);
      var x :| x in latest && m == Flagged(x);
      NothingIsNewer(filter, Published(events), Last(lastCached, s), x);
    }
    AcceptsNone(lastCached, s, regTime, receiveCached, heard);
  }

  /** Each new message that matches is accepted, once. */
  lemma NewMessageIsAccepted(filter: string, published: seq<Message>, m: Message, lastCached: map<Socket, Product>,
                             s: Socket, regTime: nat, receiveCached: bool)
    requires Increasing(published + [m]) && Original(published + [m], regTime)
    requires CaughtUp(filter, published, Last(lastCached, s))
    ensures var r := Read(lastCached, s, regTime, receiveCached, Heard(filter, [m]));
            && !r.mismatch && r.delivered == Heard(filter, [m])
            && CaughtUp(filter, published + [m], Last(r.lastCached, s))
  {
    hide CaughtUp;
    assert (published + [m])[..|published|] == published;
    IncreasingInit(published + [m]);
    hide Increasing;
    var p := m.product;
    assert m in published + [m];
    assert Plain(p, regTime) && !p.cached;
    if Last(lastCached, s).Some? { RememberedIsPublished(filter, published, Last(lastCached, s)); }
    assert Newer(Last(lastCached, s), p);
    assert [m][..0] == [] && [p][..0] == [];
    assert Heard(filter, [m]) == if Matches(filter, m) then [p] else [];
    assert Read(lastCached, s, regTime, receiveCached, []) == Reading(lastCached, [], false);
    CaughtUpMore(filter, published, m, Last(lastCached, s), p);
  }

  lemma CaughtUpMore(filter: string, published: seq<Message>, m: Message, last: Option<Product>, p: Product)
    requires CaughtUp(filter, published, last) && p == m.product
    ensures CaughtUp(filter, published + [m], if Matches(filter, m) then Some(p) else last)
  {
    assert (published + [m])[..|published|] == published;
  }

  // ----- everything a subscription delivers

  /** A subscriber that connects during the k-th event has heard, once the later events are on the wire too, the latest
      values of before if it wants them, and then every matching message published since, once and in order, however
      often others make the publisher replay. */
  lemma {:induction false} DeliversEverythingOnce(filter: string, events: seq<Event>, k: nat,
                                                  lastCached: map<Socket, Product>, s: Socket, regTime: nat,
                                                  receiveCached: bool)
    requires k < |events| && events[k] == NewSubscriber && s !in lastCached
    requires Increasing(Published(events)) && Original(Published(events), regTime)
    ensures var r := Read(lastCached, s, regTime, receiveCached, Heard(filter, Wire(true, events, k)));
            var initial := if receiveCached then Heard(filter, AllFlagged(Latest(Published(events[..k])))) else [];
            && !r.mismatch && r.delivered == initial + Heard(filter, Published(events[k..]))
            && CaughtUp(filter, Published(events), Last(r.lastCached, s))
  {
    hide CaughtUp, Increasing, Latest, CacheAfter, Replay, AllFlagged, Read, Original, Heard;
    var init, e := events[..|events| - 1], events[|events| - 1];
    PublishedInit(events, regTime);
    if |events| == k + 1 {
      assert init == events[..k] && events[k..] == [NewSubscriber];
      assert Wire(true, events, k) == Replay(CacheAfter(true, init));
      assert [NewSubscriber][..0] == [];
      assert Published([NewSubscriber]) == [] && Published(events) == Published(init);
      NothingHeard(filter);
      NewSubscriberIsComplete(filter, init, lastCached, s, regTime, receiveCached);
    } else {
      assert events[k..][..|events| - 1 - k] == init[k..] && init[..k] == events[..k];
      DeliversEverythingOnce(filter, init, k, lastCached, s, regTime, receiveCached);
      var r := Read(lastCached, s, regTime, receiveCached, Heard(filter, Wire(true, init, k)));
      var emitted := Emit(CacheAfter(true, init), e);
      assert Wire(true, events, k) == Wire(true, init, k) + emitted;
      HeardBoth(filter, Wire(true, init, k), emitted);
      ReadBoth(lastCached, s, regTime, receiveCached, Heard(filter, Wire(true, init, k)), Heard(filter, emitted));
      match e
      case Publish(m) =>
        HeardBoth(filter, Published(init[k..]), [m]);
        NewMessageIsAccepted(filter, Published(init), m, r.lastCached, s, regTime, receiveCached);
      case NewSubscriber =>
        assert Published(events[k..]) == Published(init[k..]) && Published(events) == Published(init);
        ReplayIsHarmless(filter, init, r.lastCached, s, regTime, receiveCached);
    }
  }

  lemma NothingHeard(filter: string)
    ensures Heard(filter, []) == []
  {}

  lemma PublishedInit(events: seq<Event>, regTime: nat)
    requires events != [] && Increasing(Published(events)) && Original(Published(events), regTime)
    ensures var init := events[..|events| - 1];
            && Increasing(Published(init)) && Original(Published(init), regTime)
            && Published(events) ==
               Published(init) + if events[|events| - 1].Publish? then [events[|events| - 1].message] else []
  {
    var init, e := events[..|events| - 1], events[|events| - 1];
    if e.Publish? {
      IncreasingInit(Published(events));
      assert Published(events)[..|Published(init)|] == Published(init);
    } else {
      assert Published(events) == Published(init);
    }
  }

  // ----- without the assumption on timestamps

  /** In general a replay delivers nothing exactly when no matching value in the cache is newer than the last one the
      subscriber accepted. */
  lemma ReplayIsHarmlessExactly(filter: string, cache: Cache, lastCached: map<Socket, Product>, s: Socket, regTime: nat)
    requires forall f | f in cache :: cache[f].filter == f && Plain(cache[f].product, regTime)
    ensures Read(lastCached, s, regTime, true, Heard(filter, Replay(cache))).delivered == []
       <==> forall f | f in cache && filter <= f :: !Newer(Last(lastCached, s), cache[f].product)
  {
    hide Heard, AllFlagged, Sort, Values, Newer, Read;
    var heard := Heard(filter, Replay(cache));
    forall f | f in cache
      ensures Newer(Last(lastCached, s), Flagged(cache[f]).product) == Newer(Last(lastCached, s), cache[f].product)
    {
      FlagDoesNotMatter(Last(lastCached, s), cache[f]);
    }
    forall f | f in cache && filter <= f ensures Flagged(cache[f]).product in heard { ReplayHas(filter, cache, f); }
    forall p | p in heard
      ensures Plain(p, regTime) && exists f :: f in cache && filter <= f && p == Flagged(cache[f]).product
    {
      ReplayHasOnly(filter, cache, p);
    }
    AcceptsNone(lastCached, s, regTime, true, heard);
  }

  lemma FlagDoesNotMatter(last: Option<Product>, m: Message)
    ensures Newer(last, Flagged(m).product) == Newer(last, m.product)
  {}

  lemma ReplayHas(filter: string, cache: Cache, f: string)
    requires forall g | g in cache :: cache[g].filter == g
    requires f in cache && filter <= f
    ensures Flagged(cache[f]).product in Heard(filter, Replay(cache))
  {
    hide Heard, AllFlagged, Sort, Values;
    var values := Values(cache, Ascending(cache.Keys));
    ValuesHave(cache, Ascending(cache.Keys), cache[f]);
    assert cache[f] in multiset(Sort(values, Time));
    FlaggedHas(Sort(values, Time), Flagged(cache[f]));
    HeardHas(filter, Replay(cache), Flagged(cache[f]).product);
    assert Matches(filter, Flagged(cache[f]));
  }

  lemma ReplayHasOnly(filter: string, cache: Cache, p: Product)
    requires forall g | g in cache :: cache[g].filter == g
    requires p in Heard(filter, Replay(cache))
    ensures exists f :: f in cache && filter <= f && p == Flagged(cache[f]).product
  {
    hide Heard, AllFlagged, Sort, Values;
    var values := Values(cache, Ascending(cache.Keys));
    HeardHas(filter, Replay(cache), p);
    var m :| m in Replay(cache) && Matches(filter, m) && m.product == p;
    FlaggedHas(Sort(values, Time), m);
    var x :| x in Sort(values, Time) && m == Flagged(x);
    assert x in multiset(Sort(values, Time));
    ValuesHave(cache, Ascending(cache.Keys), x);
    assert p == Flagged(cache[x.filter]).product;
  }

  /** So two values of the same time are enough for a subscriber to get old data again. */
  lemma TiesAreDeliveredAgain(a: Message, b: Message, s: Socket, regTime: nat)
    requires a.filter != b.filter && Time(a) == Time(b) && !Same(a.product, b.product)
    requires Plain(a.product, regTime) && Plain(b.product, regTime)
    ensures var r := Read(map[], s, regTime, true, Heard("", [a, b]));
            && r.delivered == [a.product, b.product]
            && Read(r.lastCached, s, regTime, true,
                    Heard("", Replay(CacheAfter(true, [Publish(a), Publish(b)])))).delivered != []
  {
    hide Replay, Sort, Read, Heard, CacheAfter;
    TwoHeard(a, b);
    TwoAccepted(a.product, b.product, s, regTime);
    TwoCached(a, b);
    var cache := CacheAfter(true, [Publish(a), Publish(b)]);
    var r := Read(map[], s, regTime, true, Heard("", [a, b]));
    assert Newer(Last(r.lastCached, s), cache[a.filter].product);
    ReplayIsHarmlessExactly("", cache, r.lastCached, s, regTime);
  }

  lemma TwoHeard(a: Message, b: Message)
    ensures Heard("", [a, b]) == [a.product, b.product]
  {
    assert [a, b][..1] == [a] && [a][..0] == [];
    assert Heard("", [a]) == [a.product];
  }

  lemma TwoAccepted(a: Product, b: Product, s: Socket, regTime: nat)
    requires a.timestamp == b.timestamp && !Same(a, b) && Plain(a, regTime) && Plain(b, regTime)
    ensures Read(map[], s, regTime, true, [a, b]) == Reading(map[s := b], [a, b], false)
  {
    assert [a, b][..1] == [a] && [a][..0] == [];
    assert Read(map[], s, regTime, true, [a]) == Reading(map[s := a], [a], false);
  }

  lemma TwoCached(a: Message, b: Message)
    requires a.filter != b.filter
    ensures CacheAfter(true, [Publish(a), Publish(b)]) == map[a.filter := a, b.filter := b]
  {
    assert [Publish(a), Publish(b)][..1] == [Publish(a)] && [Publish(a)][..0] == [];
    assert CacheAfter(true, [Publish(a)]) == map[a.filter := a];
  }
}
