/** The publisher's cache, its replay to new subscribers, and what a subscriber makes of the replays. */
module Publishing {
  import opened Common
  import opened Sorting
  import opened Subscriptions

  /** What travels from a publisher: the filter text in front of the product. */
  datatype Message = Message(filter: string, product: Product)

  datatype Event =
    | Publish(message: Message)
    | NewSubscriber

  function Time(m: Message): nat { m.product.timestamp }

  /** The last message of each filter text. */
  type Cache = map<string, Message>

  function NextCache(caching: bool, cache: Cache, e: Event): Cache {
    if e.Publish? && caching then cache[e.message.filter := e.message] else cache
  }

  function Values(cache: Cache, filters: seq<string>): seq<Message>
    requires forall f | f in filters :: f in cache
  {
    if filters == [] then []
    else Values(cache, filters[..|filters| - 1]) + [cache[filters[|filters| - 1]]]
  }

  function Flagged(m: Message): Message {
    m.(product := m.product.(cached := true))
  }

  function AllFlagged(messages: seq<Message>): (r: seq<Message>)
    ensures |r| == |messages|
  {
    if messages == [] then [] else AllFlagged(messages[..|messages| - 1]) + [Flagged(messages[|messages| - 1])]
  }

  /** Everything in the cache, oldest first. */
  function Replay(cache: Cache): seq<Message> {
    AllFlagged(Sort(Values(cache, Ascending(cache.Keys)), Time))
  }

  /** What an event puts on the wire, for every subscriber alike. */
  function Emit(cache: Cache, e: Event): seq<Message> {
    match e
    case Publish(m) => [m]
    case NewSubscriber => Replay(cache)
  }

  function CacheAfter(caching: bool, events: seq<Event>): Cache {
    if events == [] then map[]
    else NextCache(caching, CacheAfter(caching, events[..|events| - 1]), events[|events| - 1])
  }

  /** What is on the wire from the k-th event on. */
  function Wire(caching: bool, events: seq<Event>, k: nat): seq<Message> {
    if |events| <= k then []
    else
      var init := events[..|events| - 1];
      Wire(caching, init, k) + Emit(CacheAfter(caching, init), events[|events| - 1])
  }

  // ----- the subscriber's side

  predicate Matches(filter: string, m: Message) {
    filter <= m.filter
  }

  /** The products that come through a subscription's prefix filter. */
  function Heard(filter: string, messages: seq<Message>): seq<Product> {
    if messages == [] then []
    else
      var last := messages[|messages| - 1];
      Heard(filter, messages[..|messages| - 1]) + if Matches(filter, last) then [last.product] else []
  }

  function Published(events: seq<Event>): seq<Message> {
    if events == [] then []
    else
      var last := events[|events| - 1];
      Published(events[..|events| - 1]) + if last.Publish? then [last.message] else []
  }

  /** The latest message of each filter text, in the order of publication. */
  function Latest(messages: seq<Message>): seq<Message> {
    if messages == [] then []
    else
      var last := messages[|messages| - 1];
      Except(Latest(messages[..|messages| - 1]), last.filter) + [last]
  }

  function Except(messages: seq<Message>, filter: string): seq<Message> {
    if messages == [] then []
    else
      var last := messages[|messages| - 1];
      Except(messages[..|messages| - 1], filter) + if last.filter == filter then [] else [last]
  }

  ghost predicate Increasing(messages: seq<Message>) {
    forall i, j | 0 <= i < j < |messages| :: Time(messages[i]) < Time(messages[j])
  }

  // ----- the replay is the list of latest messages

  lemma {:induction false} ExceptHas(messages: seq<Message>, filter: string)
    ensures forall m :: m in Except(messages, filter) <==> m in messages && m.filter != filter
  {
    if messages != [] {
      assert messages == messages[..|messages| - 1] + [messages[|messages| - 1]];
      ExceptHas(messages[..|messages| - 1], filter);
    }
  }

  lemma IncreasingMore(messages: seq<Message>, m: Message)
    requires Increasing(messages) && forall x | x in messages :: Time(x) < Time(m)
    ensures Increasing(messages + [m])
  {}

  lemma IncreasingInit(messages: seq<Message>)
    requires Increasing(messages) && messages != []
    ensures Increasing(messages[..|messages| - 1])
    ensures forall x | x in messages[..|messages| - 1] :: Time(x) < Time(messages[|messages| - 1])
  {}

  lemma {:induction false} ExceptIncreases(messages: seq<Message>, filter: string)
    requires Increasing(messages)
    ensures Increasing(Except(messages, filter))
  {
    if messages != [] {
      hide Increasing;
      var init, last := messages[..|messages| - 1], messages[|messages| - 1];
      IncreasingInit(messages);
      ExceptIncreases(init, filter);
      ExceptHas(init, filter);
      if last.filter != filter { IncreasingMore(Except(init, filter), last); }
    }
  }

  lemma {:induction false} LatestIncreases(messages: seq<Message>)
    requires Increasing(messages)
    ensures Increasing(Latest(messages)) && forall m | m in Latest(messages) :: m in messages
  {
    if messages != [] {
      hide Increasing;
      var init, last := messages[..|messages| - 1], messages[|messages| - 1];
      assert messages == init + [last];
      IncreasingInit(messages);
      LatestIncreases(init);
      ExceptIncreases(Latest(init), last.filter);
      ExceptHas(Latest(init), last.filter);
      IncreasingMore(Except(Latest(init), last.filter), last);
    }
  }

  ghost predicate Holds(cache: Cache, latest: seq<Message>) {
    && (forall m :: m in latest <==> m.filter in cache && cache[m.filter] == m)
    && (forall f | f in cache :: cache[f].filter == f)
  }

  lemma LatestMore(messages: seq<Message>, m: Message)
    ensures Latest(messages + [m]) == Except(Latest(messages), m.filter) + [m]
  {
    assert (messages + [m])[..|messages|] == messages;
  }

  lemma HoldsMore(cache: Cache, messages: seq<Message>, m: Message)
    requires Holds(cache, Latest(messages))
    ensures Holds(cache[m.filter := m], Latest(messages + [m]))
  {
    hide Latest, Except;
    LatestMore(messages, m);
    ExceptHas(Latest(messages), m.filter);
  }

  /** The cache holds the latest messages. */
  lemma {:induction false} CacheIsLatest(events: seq<Event>)
    ensures Holds(CacheAfter(true, events), Latest(Published(events)))
  {
    if events != [] {
      hide Holds, Latest;
      CacheIsLatest(events[..|events| - 1]);
      var e := events[|events| - 1];
      if e.Publish? {
        HoldsMore(CacheAfter(true, events[..|events| - 1]), Published(events[..|events| - 1]), e.message);
      } else {
        assert Published(events) == Published(events[..|events| - 1]);
      }
    } else {
      NothingHeld();
    }
  }

  lemma NothingHeld()
    ensures Holds(map[], Latest([]))
  {}

  lemma {:induction false} ValuesHave(cache: Cache, filters: seq<string>, m: Message)
    requires forall f | f in filters :: f in cache && cache[f].filter == f
    ensures m in Values(cache, filters) <==> m.filter in filters && cache[m.filter] == m
  {
    if filters != [] {
      assert filters == filters[..|filters| - 1] + [filters[|filters| - 1]];
      ValuesHave(cache, filters[..|filters| - 1], m);
    }
  }

  lemma {:induction false} ValuesAreDistinct(cache: Cache, filters: seq<string>)
    requires forall f | f in filters :: f in cache && cache[f].filter == f
    requires Distinct(filters)
    ensures Distinct(Values(cache, filters))
  {
    if filters != [] {
      var init, last := filters[..|filters| - 1], filters[|filters| - 1];
      ValuesAreDistinct(cache, init);
      ValuesHave(cache, init, cache[last]);
    }
  }

  lemma {:induction false} DistinctBag(messages: seq<Message>)
    requires Distinct(messages)
    ensures forall m :: multiset(messages)[m] == if m in messages then 1 else 0
  {
    if messages != [] {
      var init, last := messages[..|messages| - 1], messages[|messages| - 1];
      assert messages == init + [last];
      DistinctBag(init);
      assert last !in init;
    }
  }

  lemma {:induction false} OrderedBagIsIncreasing(messages: seq<Message>)
    requires Ordered(messages, Time) && Distinct(messages)
    requires forall x, y | x in messages && y in messages && x != y :: Time(x) != Time(y)
    ensures Increasing(messages)
  {
    forall i, j | 0 <= i < j < |messages| ensures Time(messages[i]) < Time(messages[j]) {
      assert messages[i] in messages && messages[j] in messages;
    }
  }

  lemma {:induction false} BagIsDistinct(messages: seq<Message>)
    requires forall m :: multiset(messages)[m] <= 1
    ensures Distinct(messages)
  {
    if messages != [] {
      var init, last := messages[..|messages| - 1], messages[|messages| - 1];
      assert messages == init + [last];
      forall m ensures multiset(init)[m] <= 1 { assert multiset(messages)[m] <= 1; }
      BagIsDistinct(init);
      assert multiset(messages)[last] <= 1;
      assert last !in multiset(init);
    }
  }

  lemma HasMember(messages: seq<Message>)
    requires messages != []
    ensures exists m :: m in messages
  {
    assert messages[0] in messages;
  }

  /** There is only one way to put messages in the order of time. */
  lemma {:induction false} OneOrder(a: seq<Message>, b: seq<Message>)
    requires Increasing(a) && Increasing(b) && forall m :: m in a <==> m in b
    ensures a == b
  {
    if a == [] {
      if b != [] { HasMember(b); }
    } else {
      var x := a[|a| - 1];
      assert x in a;
      var y := b[|b| - 1];
      assert y in b;
      SameLatest(a, b);
      IncreasingInit(a);
      IncreasingInit(b);
      var a1, b1 := a[..|a| - 1], b[..|b| - 1];
      assert a == a1 + [x] && b == b1 + [y];
      assert x !in a1 && x !in b1;
      hide Increasing;
      forall m ensures m in a1 <==> m in b1 { assert m in a <==> m in b; }
      OneOrder(a1, b1);
    }
  }

  lemma SameLatest(a: seq<Message>, b: seq<Message>)
    requires Increasing(a) && Increasing(b) && forall m :: m in a <==> m in b
    requires a != [] && b != []
    ensures a[|a| - 1] == b[|b| - 1]
  {
    assert a[|a| - 1] in a && b[|b| - 1] in b;
    assert a[|a| - 1] in b && b[|b| - 1] in a;
  }

  lemma TimesTell(messages: seq<Message>)
    requires Increasing(messages)
    ensures forall x, y | x in messages && y in messages && x != y :: Time(x) != Time(y)
  {}

  lemma ReplayIsLatest(events: seq<Event>)
    requires Increasing(Published(events))
    ensures Replay(CacheAfter(true, events)) == AllFlagged(Latest(Published(events)))
  {
    hide Increasing, Ordered, Sort, Latest, Published, CacheAfter, Distinct, Values;
    var cache := CacheAfter(true, events);
    var latest := Latest(Published(events));
    CacheIsLatest(events);
    LatestIncreases(Published(events));
    var values := Values(cache, Ascending(cache.Keys));
    forall m ensures m in values <==> m in latest { ValuesHave(cache, Ascending(cache.Keys), m); }
    ValuesAreDistinct(cache, Ascending(cache.Keys));
    DistinctBag(values);
    var sorted := Sort(values, Time);
    SortOrders(values, Time);
    forall m ensures m in sorted <==> m in values { assert m in multiset(sorted) <==> m in multiset(values); }
    BagIsDistinct(sorted);
    TimesTell(latest);
    OrderedBagIsIncreasing(sorted);
    OneOrder(sorted, latest);
  }
}
