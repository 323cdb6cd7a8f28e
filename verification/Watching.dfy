/** What the subscription tables amount to in a run, without sockets, poll vectors and deletion lists. */
module Watching {
  import opened Common
  import opened Directory
  import opened Relays
  import opened Subscriptions
  import opened Reconciliation
  import opened Refreshing
  import opened Updating
  import opened Acceptance
  import opened Subscribing
  import opened SubscriptionRuns

  /** A subscription, seen from outside: whom it listens to, expected at which registration times, and who cares. */
  datatype Watch = Watch(connections: map<string, nat>, subscribers: set<nat>)

  ghost function WatchOf(st: Tables, sub: Sub): Watch
    requires Consistent(st) && sub in st.subscriptions
  {
    ConsistentTimes(st, sub);
    Watch(Connections(st, sub), st.subscriptions[sub].subscribers)
  }

  ghost function Watches(st: Tables): map<Sub, Watch>
    requires Consistent(st)
  {
    map sub | sub in st.subscriptions :: WatchOf(st, sub)
  }

  function Retarget(watches: map<Sub, Watch>, product: Key, wanted: map<string, nat>): map<Sub, Watch> {
    map sub | sub in watches ::
      if sub.product == product then watches[sub].(connections := wanted) else watches[sub]
  }

  /** One pass, on this view. */
  function Follow(watches: map<Sub, Watch>, place: Place, e: Event): map<Sub, Watch> {
    match e
    case Subscribe(sub, receiveCached, subscriber, list) =>
      var before := if sub in watches then watches[sub] else Watch(map[], {});
      watches[sub := Watch(Joined(before.connections, Trimmed(list, place.componentId, place.ip)),
                           before.subscribers + {subscriber})]
    case Unsubscribe(sub, subscriber) =>
      if sub !in watches then watches
      else if watches[sub].subscribers - {subscriber} == {} then watches - {sub}
      else watches[sub := watches[sub].(subscribers := watches[sub].subscribers - {subscriber})]
    case Update(product, list) =>
      if product.id == "" then watches
      else Retarget(watches, product, Wanted(Trimmed(list, place.componentId, place.ip)))
    case Data(sub, url, products) =>
      if sub in watches && url in watches[sub].connections
         && exists p :: p in products && p.regTime != watches[sub].connections[url] then
        watches[sub := watches[sub].(connections := watches[sub].connections - {url})]
      else watches
  }

  /** Reading stops at the first product that carries another registration time. */
  lemma {:induction false} ReadFindsMismatch(lastCached: map<Socket, Product>, s: Socket, regTime: nat,
                                             receiveCached: bool, products: seq<Product>)
    ensures Read(lastCached, s, regTime, receiveCached, products).mismatch <==>
            exists p :: p in products && p.regTime != regTime
  {
    if products != [] {
      var init, last := products[..|products| - 1], products[|products| - 1];
      assert products == init + [last];
      ReadFindsMismatch(lastCached, s, regTime, receiveCached, init);
      hide Accepts;
    }
  }

  // ----- the socket tables follow

  /** The connections of a subscription depend on its own sockets. */
  lemma SameConnections(st: Tables, st': Tables, sub: Sub)
    requires sub in st.subscriptions && sub in st'.subscriptions && Timed(st, sub)
    requires st'.subscriptions[sub].pollItemMap == st.subscriptions[sub].pollItemMap
    requires forall s | s in st.subscriptions[sub].pollItemMap.Values ::
               s in st'.verification && st'.verification[s] == st.verification[s]
    ensures Timed(st', sub) && Connections(st', sub) == Connections(st, sub)
  {}

  lemma OneMoreConnection(st: Tables, st': Tables, sub: Sub, url: string, s: Socket)
    requires sub in st.subscriptions && sub in st'.subscriptions && Timed(st, sub)
    requires st'.subscriptions[sub].pollItemMap == st.subscriptions[sub].pollItemMap[url := s] && s in st'.verification
    requires forall t | t in st.subscriptions[sub].pollItemMap.Values ::
               t in st'.verification && st'.verification[t] == st.verification[t]
    ensures Timed(st', sub) && Connections(st', sub) == Connections(st, sub)[url := st'.verification[s]]
  {}

  lemma NextAfterAll(st: Tables)
    requires Consistent(st)
    ensures st.next > METRICS && st.next !in st.sockets
  {
    hide Sound;
    NextIsFresh(st, {});
  }

  lemma ConnectShows(st: Tables, sub: Sub, url: string, regTime: nat, other: Sub)
    requires Consistent(st) && sub in st.subscriptions && other in st.subscriptions
    ensures Timed(st, other) && Timed(Connect(st, sub, url, regTime), other)
    ensures Connections(Connect(st, sub, url, regTime), other)
         == if other == sub then Connections(st, sub)[url := regTime] else Connections(st, other)
  {
    hide Consistent;
    NextAfterAll(st);
    ConsistentTimes(st, other);
    var st' := Connect(st, sub, url, regTime);
    assert forall t | t in st.subscriptions[other].pollItemMap.Values ::
        t in st'.verification && st'.verification[t] == st.verification[t] by { hide Connections; }
    if other == sub {
      OneMoreConnection(st, st', sub, url, st.next);
    } else {
      SameConnections(st, st', other);
    }
    hide Connections, Timed;
  }

  lemma JoinShows(st: Tables, sub: Sub, p: Publisher, other: Sub)
    requires Consistent(st) && sub in st.subscriptions && other in st.subscriptions && Timed(st, sub)
    ensures Timed(st, other) && Timed(Join(st, sub, p), other)
    ensures Connections(Join(st, sub, p), other)
         == if other == sub && p.Url() !in Connections(st, sub) then Connections(st, sub)[p.Url() := p.regTime]
            else Connections(st, other)
    ensures Join(st, sub, p).subscriptions[other].subscribers == st.subscriptions[other].subscribers
  {
    hide Consistent;
    ConsistentTimes(st, other);
    assert p.Url() in Connections(st, sub) <==> p.Url() in st.subscriptions[sub].pollItemMap;
    hide Connections, Timed;
    ConnectShows(st, sub, p.Url(), p.regTime, other);
  }

  lemma {:induction false} JoinAllShows(st: Tables, sub: Sub, list: seq<Publisher>, other: Sub)
    requires Consistent(st) && sub in st.subscriptions && other in st.subscriptions
    ensures Consistent(JoinAll(st, sub, list)) && Timed(st, other) && Timed(JoinAll(st, sub, list), other)
    ensures Connections(JoinAll(st, sub, list), other)
         == if other == sub then Joined(Connections(st, sub), list) else Connections(st, other)
    ensures JoinAll(st, sub, list).subscriptions[other].subscribers == st.subscriptions[other].subscribers
  {
    hide Consistent, Connections, Timed, Join;
    ConsistentTimes(st, other);
    JoinAllKeeps(st, sub, list);
    if list != [] {
      var earlier, p := list[..|list| - 1], list[|list| - 1];
      JoinAllShows(st, sub, earlier, other);
      JoinAllShows(st, sub, earlier, sub);
      JoinShows(JoinAll(st, sub, earlier), sub, p, other);
    }
  }

  lemma NothingShows(st: Tables, sub: Sub)
    requires Consistent(st) && sub in st.subscriptions && st.subscriptions[sub].pollItemMap == map[]
    ensures WatchOf(st, sub) == Watch(map[], st.subscriptions[sub].subscribers)
  {
    hide Consistent;
    assert Connections(st, sub) == map[];
  }

  lemma SameWatch(st: Tables, st': Tables, sub: Sub)
    requires Consistent(st) && Consistent(st') && sub in st.subscriptions && sub in st'.subscriptions
    requires st'.subscriptions[sub].pollItemMap == st.subscriptions[sub].pollItemMap
    requires st'.subscriptions[sub].subscribers == st.subscriptions[sub].subscribers
    requires forall s | s in st.subscriptions[sub].pollItemMap.Values && s in st.verification ::
               s in st'.verification && st'.verification[s] == st.verification[s]
    ensures WatchOf(st', sub) == WatchOf(st, sub)
  {
    hide Consistent;
    ConsistentTimes(st, sub);
    SameConnections(st, st', sub);
  }

  lemma PrepareShows(st: Tables, sub: Sub, receiveCached: bool, other: Sub)
    requires Consistent(st) && (other in st.subscriptions || other == sub)
    ensures Consistent(Prepare(st, sub, receiveCached)) && other in Prepare(st, sub, receiveCached).subscriptions
    ensures WatchOf(Prepare(st, sub, receiveCached), other)
         == if other in st.subscriptions then WatchOf(st, other) else Watch(map[], {})
  {
    hide Consistent, WatchOf;
    PrepareKeeps(st, sub, receiveCached);
    if other in st.subscriptions {
      SameWatch(st, Prepare(st, sub, receiveCached), other);
    } else {
      NothingShows(Prepare(st, sub, receiveCached), sub);
    }
  }

  lemma SubscribedShows(st: Tables, sub: Sub, subscribers: set<nat>, other: Sub)
    requires Consistent(st) && sub in st.subscriptions && other in st.subscriptions
    ensures Consistent(Subscribed(st, sub, subscribers))
    ensures WatchOf(Subscribed(st, sub, subscribers), other)
         == if other == sub then WatchOf(st, sub).(subscribers := subscribers) else WatchOf(st, other)
  {
    hide Consistent;
    SubscribersKeep(st, sub, subscribers);
    ConsistentTimes(st, other);
  }

  lemma AddSubscriptionShows(st: Tables, sub: Sub, receiveCached: bool, subscriber: nat, list: seq<Publisher>)
    requires Consistent(st)
    ensures var st' := AddSubscription(st, sub, receiveCached, subscriber, list);
            var before := if sub in st.subscriptions then WatchOf(st, sub) else Watch(map[], {});
            && Consistent(st')
            && Watches(st') ==
               Watches(st)[sub := Watch(Joined(before.connections, list), before.subscribers + {subscriber})]
  {
    hide Consistent, JoinAll, Prepare, Connections, Joined, Timed;
    var st1 := Prepare(st, sub, receiveCached);
    PrepareShows(st, sub, receiveCached, sub);
    var st2 := JoinAll(st1, sub, list);
    JoinAllShows(st1, sub, list, sub);
    var subscribers := st2.subscriptions[sub].subscribers + {subscriber};
    SubscribedShows(st2, sub, subscribers, sub);
    var st' := Subscribed(st2, sub, subscribers);
    assert st' == AddSubscription(st, sub, receiveCached, subscriber, list);
    assert st'.subscriptions.Keys == st.subscriptions.Keys + {sub} by { PrepareKeys(st, sub, receiveCached); }
    hide Subscribed;
    forall other | other in st.subscriptions && other != sub ensures WatchOf(st', other) == WatchOf(st, other) {
      PrepareShows(st, sub, receiveCached, other);
      JoinAllShows(st1, sub, list, other);
      SubscribedShows(st2, sub, subscribers, other);
    }
  }

  lemma PrepareKeys(st: Tables, sub: Sub, receiveCached: bool)
    ensures Prepare(st, sub, receiveCached).subscriptions.Keys == st.subscriptions.Keys + {sub}
  {}

  lemma PlacesOf(st: Tables, sub: Sub)
    requires Consistent(st) && sub in st.subscriptions
    ensures forall s | s in st.subscriptions[sub].pollItemMap.Values :: s in st.sockets && st.sockets[s] == sub
  {
    hide Consistent;
    forall s | s in st.subscriptions[sub].pollItemMap.Values ensures s in st.sockets && st.sockets[s] == sub {
      var url :| url in st.subscriptions[sub].pollItemMap && st.subscriptions[sub].pollItemMap[url] == s;
      CurrentSocketConsistent(st, sub, url);
    }
  }

  lemma RemoveKeepsOthers(st: Tables, sub: Sub, subscriber: nat, other: Sub)
    requires Consistent(st) && sub in st.subscriptions && other in st.subscriptions && other != sub
    requires st.subscriptions[sub].subscribers - {subscriber} == {}
    ensures Consistent(RemoveSubscription(st, sub, subscriber))
            && other in RemoveSubscription(st, sub, subscriber).subscriptions
    ensures WatchOf(RemoveSubscription(st, sub, subscriber), other) == WatchOf(st, other)
  {
    hide Consistent, Dropped, WatchOf;
    RemoveSubscriptionKeeps(st, sub, subscriber);
    var st' := RemoveSubscription(st, sub, subscriber);
    PlacesOf(st, sub);
    PlacesOf(st, other);
    SameWatch(st, st', other);
  }

  lemma RemoveLastShows(st: Tables, sub: Sub, subscriber: nat)
    requires Consistent(st) && sub in st.subscriptions && st.subscriptions[sub].subscribers - {subscriber} == {}
    ensures Consistent(RemoveSubscription(st, sub, subscriber))
    ensures Watches(RemoveSubscription(st, sub, subscriber)) == Watches(st) - {sub}
  {
    hide Consistent, WatchOf, Dropped;
    RemoveSubscriptionKeeps(st, sub, subscriber);
    var st' := RemoveSubscription(st, sub, subscriber);
    assert st'.subscriptions.Keys == st.subscriptions.Keys - {sub};
    hide RemoveSubscription;
    forall other | other in st.subscriptions && other != sub ensures WatchOf(st', other) == WatchOf(st, other) {
      RemoveKeepsOthers(st, sub, subscriber, other);
    }
  }

  lemma SubscribedWatches(st: Tables, sub: Sub, subscribers: set<nat>)
    requires Consistent(st) && sub in st.subscriptions
    ensures Consistent(Subscribed(st, sub, subscribers))
    ensures Watches(Subscribed(st, sub, subscribers)) ==
            Watches(st)[sub := WatchOf(st, sub).(subscribers := subscribers)]
  {
    hide Consistent, WatchOf;
    SubscribersKeep(st, sub, subscribers);
    var st' := Subscribed(st, sub, subscribers);
    assert st'.subscriptions.Keys == st.subscriptions.Keys;
    hide Subscribed;
    forall other | other in st.subscriptions
      ensures WatchOf(st', other) ==
              if other == sub then WatchOf(st, sub).(subscribers := subscribers) else WatchOf(st, other)
    {
      SubscribedShows(st, sub, subscribers, other);
    }
  }

  lemma RemoveSubscriptionShows(st: Tables, place: Place, sub: Sub, subscriber: nat)
    requires Consistent(st)
    ensures Consistent(RemoveSubscription(st, sub, subscriber))
    ensures Watches(RemoveSubscription(st, sub, subscriber)) == Follow(Watches(st), place, Unsubscribe(sub, subscriber))
  {
    hide Consistent, WatchOf, Dropped, Subscribed;
    if sub in st.subscriptions {
      WatchersOf(st, sub);
      var subscribers := st.subscriptions[sub].subscribers - {subscriber};
      if subscribers != {} {
        SubscribedWatches(st, sub, subscribers);
      } else {
        RemoveLastShows(st, sub, subscriber);
      }
    }
  }

  lemma WatchersOf(st: Tables, sub: Sub)
    requires Consistent(st) && sub in st.subscriptions
    ensures WatchOf(st, sub).subscribers == st.subscriptions[sub].subscribers
  {
    hide Consistent;
  }

  lemma UpdateShowsOwn(st: Tables, product: Key, list: seq<Publisher>, sub: Sub)
    requires Consistent(st) && sub in st.subscriptions
    ensures sub in UpdatePublishers(st, product, list).subscriptions
    ensures WatchOf(UpdatePublishers(st, product, list), sub)
         == if sub.product == product then WatchOf(st, sub).(connections := Wanted(list)) else WatchOf(st, sub)
  {
    hide Consistent, Retained, Connections, Timed, SameValue;
    var st' := UpdatePublishers(st, product, list);
    UpdatesReachTheList(st, product, list);
    if sub.product == product {
      assert Rest(st'.subscriptions[sub]) == Rest(st.subscriptions[sub]);
    } else {
      assert Undisturbed(st, st', sub);
      SameWatch(st, st', sub);
    }
  }

  lemma UpdateShows(st: Tables, product: Key, list: seq<Publisher>)
    requires Consistent(st)
    ensures Watches(UpdatePublishers(st, product, list)) == Retarget(Watches(st), product, Wanted(list))
  {
    hide Consistent, Retained, Connections, Timed, SameValue, Undisturbed, UpdatePublishers, WatchOf;
    UpdatesReachTheList(st, product, list);
    forall sub | sub in st.subscriptions
      ensures WatchOf(UpdatePublishers(st, product, list), sub)
           == if sub.product == product then WatchOf(st, sub).(connections := Wanted(list)) else WatchOf(st, sub)
    {
      UpdateShowsOwn(st, product, list, sub);
    }
  }

  lemma CacheShows(st: Tables, lastCached: map<Socket, Product>)
    requires Consistent(st) && forall s | s in lastCached :: s in st.sockets
    ensures Consistent(st.(lastCached := lastCached))
    ensures Watches(st.(lastCached := lastCached)) == Watches(st)
  {
    hide Consistent, WatchOf;
    CacheKeeps(st, lastCached);
    var st' := st.(lastCached := lastCached);
    forall sub | sub in st.subscriptions ensures WatchOf(st', sub) == WatchOf(st, sub) { SameWatch(st, st', sub); }
  }

  lemma DeleteConnections(st: Tables, st': Tables, sub: Sub, url: string, s: Socket)
    requires sub in st.subscriptions && sub in st'.subscriptions && Timed(st, sub)
    requires forall other | other in st.subscriptions[sub].pollItemMap ::
               st.subscriptions[sub].pollItemMap[other] == s <==> other == url
    requires Live(st'.subscriptions[sub], {}) == Live(st.subscriptions[sub], {s})
    requires SameBut(st.verification, st'.verification, {s})
    ensures Timed(st', sub) && Connections(st', sub) == Connections(st, sub) - {url}
  {
    var before, after := st.subscriptions[sub].pollItemMap, st'.subscriptions[sub].pollItemMap;
    NobodyDoomed(st'.subscriptions[sub], {});
    forall other ensures other in after <==> other in before && other != url {
      assert other in after <==> other in Live(st.subscriptions[sub], {s});
    }
    forall other | other in after ensures after[other] == before[other] && after[other] != s {
      assert Live(st.subscriptions[sub], {s})[other] == before[other];
    }
    hide Live;
  }

  lemma OneUrl(st: Tables, sub: Sub, url: string)
    requires Consistent(st) && sub in st.subscriptions && url in st.subscriptions[sub].pollItemMap
    ensures forall other | other in st.subscriptions[sub].pollItemMap ::
              st.subscriptions[sub].pollItemMap[other] == st.subscriptions[sub].pollItemMap[url] <==> other == url
  {
    hide Consistent;
    forall other | other in st.subscriptions[sub].pollItemMap
      ensures st.subscriptions[sub].pollItemMap[other] == st.subscriptions[sub].pollItemMap[url] <==> other == url
    {
      CurrentSocketConsistent(st, sub, other);
      CurrentSocketConsistent(st, sub, url);
    }
  }

  lemma DeleteSpares(st: Tables, sub: Sub, s: Socket)
    requires Consistent(st) && s in st.sockets && st.sockets[s] == sub && sub in st.subscriptions
    ensures var st' := Delete(st, sub, s);
            && Consistent(st') && st'.subscriptions.Keys == st.subscriptions.Keys
            && SameBut(st.verification, st'.verification, {s})
            && (forall other | other in st.subscriptions ::
                  Rest(st'.subscriptions[other]) == Rest(st.subscriptions[other])
                  && Live(st'.subscriptions[other], {}) == Live(st.subscriptions[other], {s}))
  {
    hide Sound, Delete, Live, SameBut;
    AddDoomed(st, s);
    DeleteSteps(st, {}, sub, s);
    assert {} + {s} == {s};
  }

  lemma DeleteShows(st: Tables, sub: Sub, url: string)
    requires Consistent(st) && sub in st.subscriptions && url in st.subscriptions[sub].pollItemMap
    ensures var st' := Delete(st, sub, st.subscriptions[sub].pollItemMap[url]);
            && Consistent(st')
            && Watches(st') ==
               Watches(st)[sub := WatchOf(st, sub).(connections := WatchOf(st, sub).connections - {url})]
  {
    hide Consistent, Delete, Live, SameBut;
    var s := st.subscriptions[sub].pollItemMap[url];
    var st' := Delete(st, sub, s);
    CurrentSocketConsistent(st, sub, url);
    DeleteSpares(st, sub, s);
    forall other | other in st.subscriptions
      ensures WatchOf(st', other)
           == if other == sub then WatchOf(st, sub).(connections := WatchOf(st, sub).connections - {url})
               else WatchOf(st, other)
    {
      assert Rest(st'.subscriptions[other]).subscribers == Rest(st.subscriptions[other]).subscribers;
      DeleteShowsOne(st, st', sub, url, other);
    }
    hide WatchOf;
  }

  lemma DeleteShowsOne(st: Tables, st': Tables, sub: Sub, url: string, other: Sub)
    requires Consistent(st) && sub in st.subscriptions && url in st.subscriptions[sub].pollItemMap
    requires other in st.subscriptions && other in st'.subscriptions
    requires Live(st'.subscriptions[other], {}) ==
             Live(st.subscriptions[other], {st.subscriptions[sub].pollItemMap[url]})
    requires SameBut(st.verification, st'.verification, {st.subscriptions[sub].pollItemMap[url]})
    ensures Timed(st, other) && Timed(st', other)
    ensures Connections(st', other) == if other == sub then Connections(st, sub) - {url} else Connections(st, other)
  {
    hide Consistent;
    var s := st.subscriptions[sub].pollItemMap[url];
    ConsistentTimes(st, other);
    if other == sub {
      OneUrl(st, sub, url);
      DeleteConnections(st, st', sub, url, s);
    } else {
      PlacesOf(st, sub);
      PlacesOf(st, other);
      assert s in st.subscriptions[sub].pollItemMap.Values;
      assert forall u | u in st.subscriptions[other].pollItemMap :: st.subscriptions[other].pollItemMap[u] != s by {
        assert forall u | u in st.subscriptions[other].pollItemMap ::
                 st.subscriptions[other].pollItemMap[u] in st.subscriptions[other].pollItemMap.Values;
      }
      NobodyDoomed(st.subscriptions[other], {s});
      NobodyDoomed(st'.subscriptions[other], {});
      SameConnections(st, st', other);
    }
  }

  lemma ReceiveShows(st: Tables, place: Place, sub: Sub, url: string, products: seq<Product>)
    requires Consistent(st) && sub in st.subscriptions && url in st.subscriptions[sub].pollItemMap
    ensures var s := st.subscriptions[sub].pollItemMap[url];
            && s in st.sockets && st.sockets[s] == sub && Consistent(Receive(st, s, products))
            && Watches(Receive(st, s, products)) == Follow(Watches(st), place, Event.Data(sub, url, products))
  {
    hide Consistent, Read, Delete, Accepts;
    var s := st.subscriptions[sub].pollItemMap[url];
    CurrentSocketConsistent(st, sub, url);
    ConsistentTimes(st, sub);
    var r := Read(st.lastCached, s, Verification(st, s), st.subscriptions[sub].receiveCached, products);
    CacheShows(st, r.lastCached);
    ReadFindsMismatch(st.lastCached, s, Verification(st, s), st.subscriptions[sub].receiveCached, products);
    var st1 := st.(lastCached := r.lastCached);
    assert WatchOf(st1, sub) == WatchOf(st, sub) by { assert Watches(st1)[sub] == Watches(st)[sub]; }
    if r.mismatch { DeleteShows(st1, sub, url); }
  }

  /** Every pass does to the tables what Follow does to the watches. */
  lemma NextFollows(st: Tables, place: Place, e: Event)
    requires Consistent(st)
    ensures Consistent(Next(st, place, e)) && Watches(Next(st, place, e)) == Follow(Watches(st), place, e)
  {
    hide Consistent, Trimmed, Receive, AddSubscription, RemoveSubscription, WatchOf,
        UpdatePublishers, Retarget, Wanted, Joined;
    NextKeepsConsistent(st, place, e);
    match e
    case Subscribe(sub, receiveCached, subscriber, list) =>
      AddSubscriptionShows(st, sub, receiveCached, subscriber, Trimmed(list, place.componentId, place.ip));
    case Unsubscribe(sub, subscriber) => RemoveSubscriptionShows(st, place, sub, subscriber);
    case Update(product, list) => UpdateShows(st, product, Trimmed(list, place.componentId, place.ip));
    case Data(sub, url, products) =>
      if sub in st.subscriptions && url in st.subscriptions[sub].pollItemMap {
        ReceiveShows(st, place, sub, url, products);
      } else {
        UnknownShows(st, place, sub, url, products);
      }
  }

  lemma UnknownShows(st: Tables, place: Place, sub: Sub, url: string, products: seq<Product>)
    requires Consistent(st) && !(sub in st.subscriptions && url in st.subscriptions[sub].pollItemMap)
    ensures Follow(Watches(st), place, Event.Data(sub, url, products)) == Watches(st)
  {
    hide Consistent;
  }

  // ----- whole runs

  /** A manager that has just started. */
  const Blank: Tables := Tables(map[], map[], map[], map[], [NODE, METRICS], METRICS + 1)

  ghost predicate Reaches(place: Place, events: seq<Event>, st: Tables)
    decreases |events|
  {
    if events == [] then st == Blank
    else
      exists before :: Consistent(before) && Reaches(place, events[..|events| - 1], before)
                       && st == Next(before, place, events[|events| - 1])
  }

  function FollowAll(place: Place, events: seq<Event>): map<Sub, Watch> {
    if events == [] then map[] else Follow(FollowAll(place, events[..|events| - 1]), place, events[|events| - 1])
  }

  lemma BlankIsConsistent()
    ensures Consistent(Blank) && Watches(Blank) == map[]
  {
    assert Distinct(Blank.poll);
    assert UpdateSockets(Blank.subscriptions) == {};
  }

  /** In every run the five tables stay mutually inverse, and what they amount to is what the events ask for. */
  lemma {:induction false} RunsFollow(place: Place, events: seq<Event>, st: Tables)
    requires Reaches(place, events, st)
    ensures Consistent(st) && Watches(st) == FollowAll(place, events)
    decreases |events|
  {
    if events == [] {
      BlankIsConsistent();
    } else {
      hide Consistent, Watches, Follow;
      var earlier, e := events[..|events| - 1], events[|events| - 1];
      var before :| Consistent(before) && Reaches(place, earlier, before) && st == Next(before, place, e);
      RunsFollow(place, earlier, before);
      NextFollows(before, place, e);
    }
  }

  /** No event is ever refused, so every sequence of them is a run. */
  lemma {:induction false} EveryRunExists(place: Place, events: seq<Event>)
    ensures exists st :: Reaches(place, events, st)
    decreases |events|
  {
    hide Consistent, Next;
    if events == [] {
      assert Reaches(place, events, Blank);
    } else {
      var earlier, e := events[..|events| - 1], events[|events| - 1];
      EveryRunExists(place, earlier);
      var before :| Reaches(place, earlier, before);
      RunsFollow(place, earlier, before);
      assert Reaches(place, events, Next(before, place, e));
    }
  }

  /** And a subscription lives exactly as long as it has subscribers. */
  lemma {:induction false} RunsAreAttended(place: Place, events: seq<Event>, sub: Sub)
    requires sub in FollowAll(place, events)
    ensures FollowAll(place, events)[sub].subscribers != {}
  {
    hide Trimmed, Wanted, Joined;
    var earlier := events[..|events| - 1];
    if sub in FollowAll(place, earlier) { RunsAreAttended(place, earlier, sub); }
  }

  // ----- subscribing afresh

  /** When no URL is listed twice, a fresh subscription is connected exactly as reconciliation would connect it. */
  lemma {:induction false} FreshIsReconciled(list: seq<Publisher>)
    requires forall i, j | 0 <= i < j < |list| :: list[i].Url() != list[j].Url()
    ensures Joined(map[], list) == Wanted(list)
  {
    if list != [] {
      var last := |list| - 1;
      FreshIsReconciled(list[..last]);
      WantedAreListed(list[..last], list[last].Url());
      hide Wanted, Joined;
    }
  }

  /** Incremental equals from scratch, for a subscription with any history. */
  lemma UpdateEqualsFreshSubscribe(place: Place, events: seq<Event>, product: Key, list: seq<Publisher>, sub: Sub,
                                   receiveCached: bool, subscriber: nat)
    requires sub in FollowAll(place, events) && sub.product == product && product.id != ""
    requires var trimmed := Trimmed(list, place.componentId, place.ip);
             forall i, j | 0 <= i < j < |trimmed| :: trimmed[i].Url() != trimmed[j].Url()
    ensures var updated := FollowAll(place, events + [Event.Update(product, list)]);
            var afresh := FollowAll(place, [Subscribe(sub, receiveCached, subscriber, list)]);
            sub in updated && sub in afresh && updated[sub].connections == afresh[sub].connections
  {
    hide Trimmed, Wanted, Joined;
    FreshIsReconciled(Trimmed(list, place.componentId, place.ip));
    assert (events + [Event.Update(product, list)])[..|events|] == events;
    assert [Subscribe(sub, receiveCached, subscriber, list)][..0] == [];
  }
}
