/** What a subscriber is given that joins a subscription which has read data already. */
module LateSubscribers {
  import opened Directory
  import opened Relays
  import opened Subscriptions
  import opened Refreshing
  import opened Subscribing
  import opened Watching
  import opened Remembering

  /** The publishers whose last value this is. */
  function Offering(st: Tables, sub: Sub, p: Product): set<string>
    requires sub in st.subscriptions
  {
    var sockets := st.subscriptions[sub].pollItemMap;
    set url | url in sockets && sockets[url] in st.lastCached && st.lastCached[sockets[url]] == p
  }

  /** The subscriber is given the last value of every connection of the subscription that has one, each once. */
  ghost predicate GivenLast(st: Tables, sub: Sub, late: seq<Product>)
    requires sub in st.subscriptions
  {
    forall p: Product :: multiset(late)[p] == |Offering(st, sub, p)|
  }

  lemma OfferingIsRemembered(st: Tables, sub: Sub, p: Product)
    requires sub in st.subscriptions
    ensures Offering(st, sub, p) ==
            set url | url in RecallOf(st, sub).values && RecallOf(st, sub).values[url] == p
  {}

  // ----- runs

  lemma SameSubscriptions(place: Place, events: seq<Event>)
    ensures RememberAll(place, events).Keys == FollowAll(place, events).Keys
  {
    EveryRunExists(place, events);
    var st :| Reaches(place, events, st);
    RunsFollow(place, events, st);
    RunsRemember(place, events, st);
    hide Consistent, RecallOf, WatchOf, Reaches, FollowAll, RememberAll;
  }

  /** What any connection hands on in a run is decided by what the events before it have left. */
  lemma RunsHandOn(place: Place, events: seq<Event>, st: Tables, sub: Sub, url: string, products: seq<Product>)
    requires Reaches(place, events, st)
    requires sub in st.subscriptions && url in st.subscriptions[sub].pollItemMap
    ensures sub in RememberAll(place, events) && sub in FollowAll(place, events)
            && url in FollowAll(place, events)[sub].connections
    ensures var s, d := st.subscriptions[sub].pollItemMap[url], st.subscriptions[sub];
            var r := Acceptance.Read(st.lastCached, s, Verification(st, s), d.receiveCached, products);
            r.delivered == TakenAt(RememberAll(place, events), FollowAll(place, events), sub, url, products).handed
  {
    hide Consistent, RecallOf, WatchOf, Reaches, TakenAt, Watches, Memory;
    RunsFollow(place, events, st);
    RunsRemember(place, events, st);
    DataIsTaken(st, sub, url, products);
    SameSubscriptions(place, events);
  }

  /** The event leaves the last value of a connection alone. */
  predicate Spares(place: Place, events: seq<Event>, e: Event, sub: Sub, url: string) {
    match e
    case Subscribe(_, _, _, _) => true
    case Unsubscribe(other, _) => other != sub
    case Update(product, list) =>
      var trimmed, watches := Trimmed(list, place.componentId, place.ip), FollowAll(place, events);
      product != sub.product || product.id == "" ||
      (sub in watches && url in watches[sub].connections
       && Lists(trimmed, url) && Steady(trimmed, url, watches[sub].connections[url]))
    case Data(other, at, _) => other != sub || at != url
  }

  predicate AllSpare(place: Place, events: seq<Event>, more: seq<Event>, sub: Sub, url: string) {
    forall k | 0 <= k < |more| :: Spares(place, events + more[..k], more[k], sub, url)
  }

  lemma SparedValue(place: Place, events: seq<Event>, e: Event, sub: Sub, url: string)
    requires Spares(place, events, e, sub, url)
    requires sub in RememberAll(place, events) && url in RememberAll(place, events)[sub].values
    ensures var after := RememberAll(place, events + [e]);
            sub in after && url in after[sub].values
            && after[sub].values[url] == RememberAll(place, events)[sub].values[url]
  {
    hide Trimmed, Steady, Lists, TakenAt;
    assert (events + [e])[..|events|] == events;
  }

  lemma {:induction false} LastValueStays(place: Place, events: seq<Event>, more: seq<Event>, sub: Sub, url: string)
    requires AllSpare(place, events, more, sub, url)
    requires sub in RememberAll(place, events) && url in RememberAll(place, events)[sub].values
    ensures var after := RememberAll(place, events + more);
            sub in after && url in after[sub].values
            && after[sub].values[url] == RememberAll(place, events)[sub].values[url]
  {
    hide Spares, RememberAll;
    if more == [] {
      assert events + more == events;
    } else {
      var init, last := more[..|more| - 1], |more| - 1;
      forall k | 0 <= k < |init| ensures Spares(place, events + init[..k], init[k], sub, url) {
        assert init[..k] == more[..k];
      }
      LastValueStays(place, events, init, sub, url);
      assert events + more == events + init + [more[last]];
      SparedValue(place, events + init, more[last], sub, url);
    }
  }

  lemma DataIsNoted(place: Place, events: seq<Event>, sub: Sub, url: string, products: seq<Product>)
    requires sub in RememberAll(place, events) && sub in FollowAll(place, events)
    requires url in FollowAll(place, events)[sub].connections
    requires var t := TakenAt(RememberAll(place, events), FollowAll(place, events), sub, url, products);
             !t.mismatch && t.last.Some?
    ensures var after := RememberAll(place, events + [Event.Data(sub, url, products)]);
            var t := TakenAt(RememberAll(place, events), FollowAll(place, events), sub, url, products);
            sub in after && url in after[sub].values && after[sub].values[url] == t.last.value
  {
    hide TakenAt;
    assert (events + [Event.Data(sub, url, products)])[..|events|] == events;
  }

  /** In every run: when data has come on a connection, nobody has sent data of another registration, and p was the last
      product taken, then whoever subscribes later and wants cached values is given p for that publisher, as long as
      nothing new has come from it, the subscription has lived on, and the lists have named the publisher as before. */
  lemma LateSubscriberIsGivenTheLast(place: Place, events: seq<Event>, sub: Sub, url: string, products: seq<Product>,
                                     more: seq<Event>, e: Event, st: Tables)
    requires sub in RememberAll(place, events) && sub in FollowAll(place, events)
    requires url in FollowAll(place, events)[sub].connections
    requires var t := TakenAt(RememberAll(place, events), FollowAll(place, events), sub, url, products);
             !t.mismatch && t.last.Some?
    requires AllSpare(place, events + [Event.Data(sub, url, products)], more, sub, url)
    requires e.Subscribe? && e.sub == sub
    requires Reaches(place, events + [Event.Data(sub, url, products)] + more + [e], st)
    ensures var t := TakenAt(RememberAll(place, events), FollowAll(place, events), sub, url, products);
            sub in st.subscriptions && url in Offering(st, sub, t.last.value)
  {
    hide Consistent, RecallOf, Reaches, TakenAt, Spares, RememberAll, FollowAll;
    var before := events + [Event.Data(sub, url, products)];
    DataIsNoted(place, events, sub, url, products);
    LastValueStays(place, before, more, sub, url);
    assert Spares(place, before + more, e, sub, url) by { SubscribeSpares(place, before + more, e, sub, url); }
    SparedValue(place, before + more, e, sub, url);
    RunsRemember(place, before + more + [e], st);
    var t := TakenAt(RememberAll(place, events), FollowAll(place, events), sub, url, products);
    assert sub in Memory(st);
    OfferingIsRemembered(st, sub, t.last.value);
  }

  lemma SubscribeSpares(place: Place, events: seq<Event>, e: Event, sub: Sub, url: string)
    requires e.Subscribe?
    ensures Spares(place, events, e, sub, url)
  {}

  // ----- the flag

  /** The subscription was opened, with this flag, by event k and has been there ever since. */
  predicate OpenedAt(place: Place, events: seq<Event>, sub: Sub, flag: bool, k: nat) {
    && k < |events| && events[k].Subscribe? && events[k].sub == sub && events[k].receiveCached == flag
    && sub !in FollowAll(place, events[..k]) && forall j | k < j <= |events| :: sub in FollowAll(place, events[..j])
  }

  lemma OpenedMore(place: Place, events: seq<Event>, e: Event, sub: Sub, flag: bool, k: nat)
    requires OpenedAt(place, events, sub, flag, k) && sub in FollowAll(place, events + [e])
    ensures OpenedAt(place, events + [e], sub, flag, k)
  {
    hide FollowAll;
    forall j | k < j <= |events| + 1 ensures sub in FollowAll(place, (events + [e])[..j]) {
      if j <= |events| {
        assert (events + [e])[..j] == events[..j];
      } else {
        assert (events + [e])[..j] == events + [e];
      }
    }
    assert (events + [e])[..k] == events[..k];
  }

  lemma JustOpened(place: Place, events: seq<Event>, e: Event, sub: Sub)
    requires sub !in FollowAll(place, events) && sub in FollowAll(place, events + [e])
    ensures sub in RememberAll(place, events + [e])
            && OpenedAt(place, events + [e], sub, RememberAll(place, events + [e])[sub].receiveCached, |events|)
  {
    hide Trimmed, Joined, Wanted;
    SameSubscriptions(place, events);
    assert (events + [e])[..|events|] == events;
    assert (events + [e])[..|events| + 1] == events + [e];
  }

  lemma FlagStays(place: Place, events: seq<Event>, e: Event, sub: Sub)
    requires sub in RememberAll(place, events) && sub in RememberAll(place, events + [e])
    ensures RememberAll(place, events + [e])[sub].receiveCached == RememberAll(place, events)[sub].receiveCached
  {
    hide Trimmed, Retaken, Noted, TakenAt;
    assert (events + [e])[..|events|] == events;
  }

  lemma {:induction false} FlagIsRemembered(place: Place, events: seq<Event>, sub: Sub)
    requires sub in FollowAll(place, events)
    ensures sub in RememberAll(place, events)
    ensures exists k: nat :: OpenedAt(place, events, sub, RememberAll(place, events)[sub].receiveCached, k)
  {
    hide OpenedAt, RememberAll;
    var init, e := events[..|events| - 1], events[|events| - 1];
    assert events == init + [e];
    SameSubscriptions(place, events);
    SameSubscriptions(place, init);
    hide FollowAll;
    if sub in FollowAll(place, init) {
      FlagIsRemembered(place, init, sub);
      var flag := RememberAll(place, init)[sub].receiveCached;
      var k: nat :| OpenedAt(place, init, sub, flag, k);
      OpenedMore(place, init, e, sub, flag, k);
      FlagStays(place, init, e, sub);
    } else {
      JustOpened(place, init, e, sub);
    }
  }

  /** In every run the flag of a subscription is the one of the subscriber that opened it. */
  lemma FlagIsTheOpeners(place: Place, events: seq<Event>, st: Tables, sub: Sub)
    requires Reaches(place, events, st) && sub in st.subscriptions
    ensures exists k: nat :: OpenedAt(place, events, sub, st.subscriptions[sub].receiveCached, k)
  {
    hide Consistent, Reaches, OpenedAt, RememberAll, FollowAll, WatchOf;
    RunsRemember(place, events, st);
    RunsFollow(place, events, st);
    assert sub in Watches(st);
    FlagIsRemembered(place, events, sub);
    assert Memory(st)[sub].receiveCached == st.subscriptions[sub].receiveCached;
  }
}
