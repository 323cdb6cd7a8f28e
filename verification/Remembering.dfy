/** What subscriptions remember of the data they have read, and so what they hand out, without sockets: the last value
    of each connection, and whether the first subscriber wanted cached values. */
module Remembering {
  import opened Common
  import opened Directory
  import opened Relays
  import opened Subscriptions
  import opened Reconciliation
  import opened Refreshing
  import opened Updating
  import opened Acceptance
  import opened Subscribing
  import opened SubscriptionRuns
  import opened Watching

  /** The last value of each connection that has one, by URL. */
  datatype Recall = Recall(receiveCached: bool, values: map<string, Product>)

  function ValuesOf(sockets: map<string, Socket>, lastCached: map<Socket, Product>): map<string, Product> {
    map url | url in sockets && sockets[url] in lastCached :: lastCached[sockets[url]]
  }

  function RecallOf(st: Tables, sub: Sub): Recall
    requires sub in st.subscriptions
  {
    Recall(st.subscriptions[sub].receiveCached, ValuesOf(st.subscriptions[sub].pollItemMap, st.lastCached))
  }

  function Memory(st: Tables): map<Sub, Recall> {
    map sub | sub in st.subscriptions :: RecallOf(st, sub)
  }

  // ----- the same without sockets

  function ValueAt(values: map<string, Product>, url: string): Option<Product> {
    if url in values then Some(values[url]) else None
  }

  function Held(memory: map<Sub, Recall>): set<Product> {
    set sub, url | sub in memory && url in memory[sub].values :: memory[sub].values[url]
  }

  /** A connection takes what is newer than its last value, or differs from it; its first value may have been relayed,
      and must not be the last value of another connection then. */
  predicate Takes(held: set<Product>, last: Option<Product>, p: Product) {
    match last
    case Some(v) => v.timestamp < p.timestamp || (v.timestamp == p.timestamp && (v.id != p.id || v.data != p.data))
    case None =>
      p.relayed ==> forall v | v in held ::
        v.timestamp != p.timestamp || v.componentId != p.componentId || v.id != p.id || v.data != p.data
  }

  datatype Intake = Intake(last: Option<Product>, handed: seq<Product>, mismatch: bool)

  function Taken(held: set<Product>, last: Option<Product>, regTime: nat, receiveCached: bool,
                 products: seq<Product>): Intake {
    if products == [] then Intake(last, [], false)
    else
      var before, p := Taken(held, last, regTime, receiveCached, products[..|products| - 1]), products[|products| - 1];
      if before.mismatch then before
      else if p.regTime != regTime then before.(mismatch := true)
      else if !Takes(held, before.last, p) then before
      else Intake(Some(p), if p.cached && !receiveCached then before.handed else before.handed + [p], false)
  }

  /** What arrives on a connection. */
  function TakenAt(memory: map<Sub, Recall>, watches: map<Sub, Watch>, sub: Sub, url: string,
                   products: seq<Product>): Intake
    requires sub in memory && sub in watches && url in watches[sub].connections
  {
    Taken(Held(memory), ValueAt(memory[sub].values, url), watches[sub].connections[url], memory[sub].receiveCached,
          products)
  }

  /** Connections whose publisher is listed as before keep their value. */
  function Retaken(values: map<string, Product>, connections: map<string, nat>,
                   list: seq<Publisher>): map<string, Product> {
    map url | url in values && url in connections && Lists(list, url) && Steady(list, url, connections[url]) ::
      values[url]
  }

  function Noted(values: map<string, Product>, url: string, last: Option<Product>): map<string, Product> {
    match last
    case Some(v) => values[url := v]
    case None => values - {url}
  }

  function Remember(memory: map<Sub, Recall>, watches: map<Sub, Watch>, place: Place, e: Event): map<Sub, Recall> {
    match e
    case Subscribe(sub, receiveCached, _, _) =>
      if sub in memory then memory else memory[sub := Recall(receiveCached, map[])]
    case Unsubscribe(sub, subscriber) =>
      if sub in watches && watches[sub].subscribers - {subscriber} == {} then memory - {sub} else memory
    case Update(product, list) =>
      if product.id == "" then memory
      else
        map sub | sub in memory ::
          if sub.product == product && sub in watches then
            memory[sub].(values := Retaken(memory[sub].values, watches[sub].connections,
                                           Trimmed(list, place.componentId, place.ip)))
          else memory[sub]
    case Data(sub, url, products) =>
      if sub in memory && sub in watches && url in watches[sub].connections then
        var r := TakenAt(memory, watches, sub, url, products);
        memory[sub := memory[sub].(values := Noted(memory[sub].values, url, if r.mismatch then None else r.last))]
      else memory
  }

  function RememberAll(place: Place, events: seq<Event>): map<Sub, Recall> {
    if events == [] then map[]
    else
      var init := events[..|events| - 1];
      Remember(RememberAll(place, init), FollowAll(place, init), place, events[|events| - 1])
  }

  // ----- reading

  /** Where nothing was read, nothing is cached. */
  lemma {:induction false} ReadTakes(lastCached: map<Socket, Product>, s: Socket, regTime: nat, receiveCached: bool,
                                     products: seq<Product>)
    ensures var r := Read(lastCached, s, regTime, receiveCached, products);
            var t := Taken(lastCached.Values, Last(lastCached, s), regTime, receiveCached, products);
            && t == Intake(Last(r.lastCached, s), r.delivered, r.mismatch)
            && (s !in r.lastCached ==> r.lastCached == lastCached)
  {
    if products != [] {
      var init, p := products[..|products| - 1], products[|products| - 1];
      ReadTakes(lastCached, s, regTime, receiveCached, init);
      var r := Read(lastCached, s, regTime, receiveCached, init);
      AcceptsTakes(r.lastCached, s, lastCached.Values, p);
      hide Accepts, Takes;
    }
  }

  lemma AcceptsTakes(lastCached: map<Socket, Product>, s: Socket, held: set<Product>, p: Product)
    requires s !in lastCached ==> held == lastCached.Values
    ensures Accepts(lastCached, s, p) <==> Takes(held, Last(lastCached, s), p)
  {
    if s !in lastCached && p.relayed {
      if SeenElsewhere(lastCached, p) {
        var t :| t in lastCached && lastCached[t].timestamp == p.timestamp
                 && lastCached[t].componentId == p.componentId && Same(lastCached[t], p);
        assert lastCached[t] in held;
      } else {
        forall v | v in held
          ensures v.timestamp != p.timestamp || v.componentId != p.componentId || v.id != p.id || v.data != p.data
        {
          var t :| t in lastCached && lastCached[t] == v;
        }
      }
    }
  }

  /** Every cached value is the last value of a connection. */
  lemma HeldIsCached(st: Tables)
    requires Consistent(st)
    ensures Held(Memory(st)) == st.lastCached.Values
  {
    hide Consistent;
    forall p ensures p in Held(Memory(st)) <==> p in st.lastCached.Values {
      if p in Held(Memory(st)) {
        var sub, url :| sub in Memory(st) && url in Memory(st)[sub].values && Memory(st)[sub].values[url] == p;
        assert RecallOf(st, sub).values[url] == p;
      }
      if p in st.lastCached.Values {
        var s :| s in st.lastCached && st.lastCached[s] == p;
        var (sub, url) := CachedAt(st, s);
        assert Memory(st)[sub].values[url] == p;
      }
    }
  }

  ghost function CachedAt(st: Tables, s: Socket): (at: (Sub, string))
    requires Consistent(st) && s in st.lastCached
    ensures at.0 in st.subscriptions && at.1 in st.subscriptions[at.0].pollItemMap
            && st.subscriptions[at.0].pollItemMap[at.1] == s
  {
    assert Owned(st) && Verified(st);
    assert Attached(st, s);
    var sub := st.sockets[s];
    InverseOf(st, {}, sub);
    (sub, st.subscriptions[sub].socketToUrlMap[s])
  }

  // ----- what changes nothing

  lemma SameRecall(st: Tables, st': Tables, sub: Sub)
    requires sub in st.subscriptions && sub in st'.subscriptions
    requires st'.subscriptions[sub].pollItemMap == st.subscriptions[sub].pollItemMap
    requires st'.subscriptions[sub].receiveCached == st.subscriptions[sub].receiveCached
    requires forall url | url in st.subscriptions[sub].pollItemMap ::
               SameValue(st.lastCached, st'.lastCached, st.subscriptions[sub].pollItemMap[url])
    ensures RecallOf(st', sub) == RecallOf(st, sub)
  {}

  // ----- subscribing

  lemma CachedIsOld(st: Tables)
    requires Consistent(st)
    ensures st.next !in st.lastCached
  {
    assert Verified(st) && Separate(st);
    hide Owned, Polled;
  }

  lemma ConnectRecalls(st: Tables, sub: Sub, url: string, regTime: nat, other: Sub)
    requires Consistent(st) && sub in st.subscriptions && other in st.subscriptions
    requires url !in st.subscriptions[sub].pollItemMap
    ensures RecallOf(Connect(st, sub, url, regTime), other) == RecallOf(st, other)
  {
    hide Consistent, ValuesOf;
    CachedIsOld(st);
    FreshHasNoValue(st.subscriptions[sub].pollItemMap, st.lastCached, url, st.next);
  }

  lemma FreshHasNoValue(sockets: map<string, Socket>, lastCached: map<Socket, Product>, url: string, s: Socket)
    requires url !in sockets && s !in lastCached
    ensures ValuesOf(sockets[url := s], lastCached) == ValuesOf(sockets, lastCached)
  {}

  lemma {:induction false} JoinAllRecalls(st: Tables, sub: Sub, list: seq<Publisher>, other: Sub)
    requires Consistent(st) && sub in st.subscriptions && other in st.subscriptions
    ensures Consistent(JoinAll(st, sub, list)) && RecallOf(JoinAll(st, sub, list), other) == RecallOf(st, other)
  {
    hide Consistent, RecallOf, Connect;
    JoinAllKeeps(st, sub, list);
    if list != [] {
      var init, p := list[..|list| - 1], list[|list| - 1];
      JoinAllRecalls(st, sub, init, other);
      var before := JoinAll(st, sub, init);
      if p.Url() !in before.subscriptions[sub].pollItemMap { ConnectRecalls(before, sub, p.Url(), p.regTime, other); }
    }
  }

  lemma PrepareRecalls(st: Tables, sub: Sub, receiveCached: bool)
    ensures Memory(Prepare(st, sub, receiveCached)) ==
            if sub in st.subscriptions then Memory(st) else Memory(st)[sub := Recall(receiveCached, map[])]
  {}

  lemma SubscribedRecalls(st: Tables, sub: Sub, subscribers: set<nat>)
    requires sub in st.subscriptions
    ensures Memory(Subscribed(st, sub, subscribers)) == Memory(st)
  {}

  lemma SubscribeRemembers(st: Tables, sub: Sub, receiveCached: bool, subscriber: nat, list: seq<Publisher>)
    requires Consistent(st)
    ensures Memory(AddSubscription(st, sub, receiveCached, subscriber, list)) ==
            if sub in Memory(st) then Memory(st) else Memory(st)[sub := Recall(receiveCached, map[])]
  {
    hide Consistent, RecallOf, JoinAll;
    var st1 := Prepare(st, sub, receiveCached);
    PrepareKeeps(st, sub, receiveCached);
    PrepareRecalls(st, sub, receiveCached);
    var st2 := JoinAll(st1, sub, list);
    forall other | other in st1.subscriptions ensures RecallOf(st2, other) == RecallOf(st1, other) {
      JoinAllRecalls(st1, sub, list, other);
    }
    assert st2.subscriptions.Keys == st1.subscriptions.Keys;
    assert Memory(st2) == Memory(st1);
    SubscribedRecalls(st2, sub, st2.subscriptions[sub].subscribers + {subscriber});
  }

  // ----- unsubscribing

  lemma RemoveRecalls(st: Tables, sub: Sub, subscriber: nat, other: Sub)
    requires Consistent(st) && sub in st.subscriptions && other in st.subscriptions && other != sub
    requires st.subscriptions[sub].subscribers - {subscriber} == {}
    ensures RecallOf(RemoveSubscription(st, sub, subscriber), other) == RecallOf(st, other)
  {
    hide Consistent, Dropped;
    PlacesOf(st, sub);
    PlacesOf(st, other);
    SameRecall(st, RemoveSubscription(st, sub, subscriber), other);
  }

  lemma UnsubscribeRemembers(st: Tables, place: Place, sub: Sub, subscriber: nat)
    requires Consistent(st)
    ensures Memory(RemoveSubscription(st, sub, subscriber)) ==
            Remember(Memory(st), Watches(st), place, Unsubscribe(sub, subscriber))
  {
    hide Consistent, RecallOf, Dropped, WatchOf;
    if sub in st.subscriptions {
      WatchersOf(st, sub);
      var subscribers := st.subscriptions[sub].subscribers - {subscriber};
      if subscribers != {} {
        SubscribedRecalls(st, sub, subscribers);
      } else {
        forall other | other in st.subscriptions && other != sub
          ensures RecallOf(RemoveSubscription(st, sub, subscriber), other) == RecallOf(st, other)
        {
          RemoveRecalls(st, sub, subscriber, other);
        }
      }
    }
  }

  // ----- publisher updates

  lemma RetainedRecalls(st: Tables, st': Tables, sub: Sub, list: seq<Publisher>)
    requires sub in st.subscriptions && sub in st'.subscriptions && Timed(st, sub) && Timed(st', sub)
    requires Retained(st, st', sub, list) && Rest(st'.subscriptions[sub]) == Rest(st.subscriptions[sub])
    requires Connections(st', sub) == Wanted(list)
    requires forall url | url in st.subscriptions[sub].pollItemMap :: st.subscriptions[sub].pollItemMap[url] < st.next
    ensures RecallOf(st', sub) ==
            RecallOf(st, sub).(values := Retaken(RecallOf(st, sub).values, Connections(st, sub), list))
  {
    hide Steady, Lists, Wanted;
    var before, after := st.subscriptions[sub].pollItemMap, st'.subscriptions[sub].pollItemMap;
    forall url ensures url in after <==> Lists(list, url) {
      WantedAreListed(list, url);
      assert url in after <==> url in Connections(st', sub);
    }
    assert Rest(st'.subscriptions[sub]).receiveCached == st'.subscriptions[sub].receiveCached;
  }

  lemma UpdateRecalls(st: Tables, product: Key, list: seq<Publisher>, sub: Sub)
    requires Consistent(st) && sub in st.subscriptions
    ensures sub in UpdatePublishers(st, product, list).subscriptions
    ensures sub in Watches(st)
    ensures RecallOf(UpdatePublishers(st, product, list), sub) ==
            if sub.product == product then
              RecallOf(st, sub).(values := Retaken(RecallOf(st, sub).values, Watches(st)[sub].connections, list))
            else RecallOf(st, sub)
  {
    hide Consistent, Retained, Connections, Timed, RecallOf, UpdatePublishers, Retaken, Wanted;
    var st' := UpdatePublishers(st, product, list);
    UpdatesReachTheList(st, product, list);
    if sub.product == product {
      ConsistentTimes(st, sub);
      SocketsAreOld(st, sub);
      RetainedRecalls(st, st', sub, list);
    } else {
      assert Undisturbed(st, st', sub);
      SameRecall(st, st', sub);
    }
  }

  lemma SocketsAreOld(st: Tables, sub: Sub)
    requires Consistent(st) && sub in st.subscriptions
    ensures forall url | url in st.subscriptions[sub].pollItemMap :: st.subscriptions[sub].pollItemMap[url] < st.next
  {
    hide Sound;
    forall url | url in st.subscriptions[sub].pollItemMap
      ensures st.subscriptions[sub].pollItemMap[url] < st.next
    {
      CurrentSocket(st, {}, sub, url);
    }
  }

  lemma UpdateRemembers(st: Tables, place: Place, product: Key, list: seq<Publisher>)
    requires Consistent(st)
    ensures Memory(Next(st, place, Event.Update(product, list))) ==
            Remember(Memory(st), Watches(st), place, Event.Update(product, list))
  {
    hide Consistent, RecallOf, UpdatePublishers, Watches, Retaken, Trimmed;
    if product.id != "" {
      var trimmed := Trimmed(list, place.componentId, place.ip);
      var st' := UpdatePublishers(st, product, trimmed);
      UpdateKeys(st, product, trimmed);
      forall sub | sub in st.subscriptions
        ensures sub in Watches(st)
        ensures RecallOf(st', sub) ==
                if sub.product == product then
                  RecallOf(st, sub).(values := Retaken(RecallOf(st, sub).values, Watches(st)[sub].connections, trimmed))
                else RecallOf(st, sub)
      {
        UpdateRecalls(st, product, trimmed, sub);
      }
    }
  }

  lemma UpdateKeys(st: Tables, product: Key, list: seq<Publisher>)
    requires Consistent(st)
    ensures UpdatePublishers(st, product, list).subscriptions.Keys == st.subscriptions.Keys
  {
    hide Consistent, UpdatePublishers, Retained, Connections, Timed, Undisturbed, Rest, Wanted;
    UpdatesReachTheList(st, product, list);
  }

  // ----- data

  lemma CacheRecalls(st: Tables, sub: Sub, url: string, lastCached: map<Socket, Product>, other: Sub)
    requires Consistent(st) && sub in st.subscriptions && url in st.subscriptions[sub].pollItemMap
    requires other in st.subscriptions
    requires forall t | t != st.subscriptions[sub].pollItemMap[url] :: SameValue(st.lastCached, lastCached, t)
    ensures var s := st.subscriptions[sub].pollItemMap[url];
            RecallOf(st.(lastCached := lastCached), other) ==
            if other == sub then
              RecallOf(st, sub).(values := Noted(RecallOf(st, sub).values, url, Last(lastCached, s)))
            else RecallOf(st, other)
  {
    hide Consistent, Noted, ValuesOf;
    var s := st.subscriptions[sub].pollItemMap[url];
    if other == sub {
      OneUrl(st, sub, url);
      OneNoted(st.subscriptions[sub].pollItemMap, url, st.lastCached, lastCached);
    } else {
      PlacesOf(st, sub);
      PlacesOf(st, other);
      assert s in st.subscriptions[sub].pollItemMap.Values;
      SameRecall(st, st.(lastCached := lastCached), other);
    }
  }

  lemma OneNoted(sockets: map<string, Socket>, url: string, lastCached: map<Socket, Product>,
                 lastCached': map<Socket, Product>)
    requires url in sockets && forall other | other in sockets :: sockets[other] == sockets[url] <==> other == url
    requires forall t | t != sockets[url] :: SameValue(lastCached, lastCached', t)
    ensures ValuesOf(sockets, lastCached') ==
            Noted(ValuesOf(sockets, lastCached), url, Last(lastCached', sockets[url]))
  {
    forall other | other in sockets && other != url ensures SameValue(lastCached, lastCached', sockets[other]) {}
    var after := ValuesOf(sockets, lastCached');
    var noted := Noted(ValuesOf(sockets, lastCached), url, Last(lastCached', sockets[url]));
    assert after.Keys == noted.Keys;
  }

  lemma DeleteRecalls(st: Tables, sub: Sub, url: string, other: Sub)
    requires Consistent(st) && sub in st.subscriptions && url in st.subscriptions[sub].pollItemMap
    requires other in st.subscriptions
    ensures var st' := Delete(st, sub, st.subscriptions[sub].pollItemMap[url]);
            other in st'.subscriptions
            && RecallOf(st', other) ==
               if other == sub then RecallOf(st, sub).(values := Noted(RecallOf(st, sub).values, url, None))
               else RecallOf(st, other)
  {
    hide Consistent;
    CurrentSocketConsistent(st, sub, url);
    PlacesOf(st, sub);
    PlacesOf(st, other);
    OneUrl(st, sub, url);
    var s := st.subscriptions[sub].pollItemMap[url];
    if other != sub { SameRecall(st, Delete(st, sub, s), other); }
  }

  lemma MismatchRecalls(st: Tables, sub: Sub, url: string, lastCached: map<Socket, Product>, other: Sub)
    requires Consistent(st) && sub in st.subscriptions && url in st.subscriptions[sub].pollItemMap
    requires other in st.subscriptions && Consistent(st.(lastCached := lastCached))
    requires forall t | t != st.subscriptions[sub].pollItemMap[url] :: SameValue(st.lastCached, lastCached, t)
    ensures var st' := Delete(st.(lastCached := lastCached), sub, st.subscriptions[sub].pollItemMap[url]);
            other in st'.subscriptions
            && RecallOf(st', other) ==
               if other == sub then RecallOf(st, sub).(values := Noted(RecallOf(st, sub).values, url, None))
               else RecallOf(st, other)
  {
    hide Consistent, RecallOf, Delete;
    CacheRecalls(st, sub, url, lastCached, other);
    CacheRecalls(st, sub, url, lastCached, sub);
    DeleteRecalls(st.(lastCached := lastCached), sub, url, other);
  }

  /** What a connection is given is decided by what is remembered. */
  lemma DataIsTaken(st: Tables, sub: Sub, url: string, products: seq<Product>)
    requires Consistent(st) && sub in st.subscriptions && url in st.subscriptions[sub].pollItemMap
    ensures var s, d := st.subscriptions[sub].pollItemMap[url], st.subscriptions[sub];
            var r := Read(st.lastCached, s, Verification(st, s), d.receiveCached, products);
            && sub in Watches(st) && url in Watches(st)[sub].connections
            && TakenAt(Memory(st), Watches(st), sub, url, products)
               == Intake(Last(r.lastCached, s), r.delivered, r.mismatch)
  {
    hide Consistent, Taken, Read;
    var s, d := st.subscriptions[sub].pollItemMap[url], st.subscriptions[sub];
    HeldIsCached(st);
    CurrentSocketConsistent(st, sub, url);
    ConsistentTimes(st, sub);
    ReadTakes(st.lastCached, s, Verification(st, s), d.receiveCached, products);
  }

  lemma ReadElsewhere(lastCached: map<Socket, Product>, s: Socket, regTime: nat, receiveCached: bool,
                      products: seq<Product>)
    ensures forall t | t != s ::
              SameValue(lastCached, Read(lastCached, s, regTime, receiveCached, products).lastCached, t)
  {}

  lemma DataRecalls(st: Tables, sub: Sub, url: string, products: seq<Product>, other: Sub)
    requires Consistent(st) && sub in st.subscriptions && url in st.subscriptions[sub].pollItemMap
    requires other in st.subscriptions
    ensures var s := st.subscriptions[sub].pollItemMap[url];
            && s in st.sockets && st.sockets[s] == sub
            && sub in Watches(st) && url in Watches(st)[sub].connections
            && other in Receive(st, s, products).subscriptions
            && var t := TakenAt(Memory(st), Watches(st), sub, url, products);
               RecallOf(Receive(st, s, products), other) ==
               if other == sub then
                 RecallOf(st, sub).(values := Noted(RecallOf(st, sub).values, url, if t.mismatch then None else t.last))
               else RecallOf(st, other)
  {
    hide Consistent, Read, Delete, RecallOf, TakenAt, Watches;
    var s := st.subscriptions[sub].pollItemMap[url];
    CurrentSocketConsistent(st, sub, url);
    DataIsTaken(st, sub, url, products);
    ReadElsewhere(st.lastCached, s, Verification(st, s), st.subscriptions[sub].receiveCached, products);
    var r := Read(st.lastCached, s, Verification(st, s), st.subscriptions[sub].receiveCached, products);
    ConsistentTimes(st, sub);
    ReadStaysCached(st, s, r.lastCached);
    CacheKeeps(st, r.lastCached);
    if r.mismatch {
      MismatchRecalls(st, sub, url, r.lastCached, other);
    } else {
      CacheRecalls(st, sub, url, r.lastCached, other);
    }
  }

  lemma ReadStaysCached(st: Tables, s: Socket, lastCached: map<Socket, Product>)
    requires s in st.sockets && forall t | t in st.lastCached :: t in st.sockets
    requires forall t | t != s :: SameValue(st.lastCached, lastCached, t)
    ensures forall t | t in lastCached :: t in st.sockets
  {
    forall t | t in lastCached ensures t in st.sockets {
      if t != s { assert SameValue(st.lastCached, lastCached, t); }
    }
  }

  lemma DataRemembers(st: Tables, place: Place, sub: Sub, url: string, products: seq<Product>)
    requires Consistent(st)
    ensures Memory(Next(st, place, Event.Data(sub, url, products))) ==
            Remember(Memory(st), Watches(st), place, Event.Data(sub, url, products))
  {
    hide Consistent, RecallOf, Receive, WatchOf, TakenAt, Noted;
    if sub in st.subscriptions && url in st.subscriptions[sub].pollItemMap {
      var st' := Next(st, place, Event.Data(sub, url, products));
      ReceiveKeys(st, place, sub, url, products);
      forall other | other in st.subscriptions
        ensures var t := TakenAt(Memory(st), Watches(st), sub, url, products);
                RecallOf(st', other) ==
                if other == sub then
                  RecallOf(st, sub).(values := Noted(RecallOf(st, sub).values, url,
                                                     if t.mismatch then None else t.last))
                else RecallOf(st, other)
      {
        DataRecalls(st, sub, url, products, other);
      }
    } else {
      NotConnected(st, sub, url);
    }
  }

  lemma NotConnected(st: Tables, sub: Sub, url: string)
    requires Consistent(st) && !(sub in st.subscriptions && url in st.subscriptions[sub].pollItemMap)
    ensures !(sub in Memory(st) && sub in Watches(st) && url in Watches(st)[sub].connections)
  {
    hide Consistent;
  }

  lemma ReceiveKeys(st: Tables, place: Place, sub: Sub, url: string, products: seq<Product>)
    requires Consistent(st) && sub in st.subscriptions && url in st.subscriptions[sub].pollItemMap
    ensures Next(st, place, Event.Data(sub, url, products)).subscriptions.Keys == st.subscriptions.Keys
    ensures sub in Watches(st) && url in Watches(st)[sub].connections
  {
    hide Consistent, Read;
    CurrentSocketConsistent(st, sub, url);
    ConsistentTimes(st, sub);
  }

  // ----- every run

  lemma NextRemembers(st: Tables, place: Place, e: Event)
    requires Consistent(st)
    ensures Memory(Next(st, place, e)) == Remember(Memory(st), Watches(st), place, e)
  {
    hide Consistent, Memory, Watches, AddSubscription, RemoveSubscription, Trimmed;
    match e
    case Subscribe(sub, receiveCached, subscriber, list) =>
      SubscribeRemembers(st, sub, receiveCached, subscriber, Trimmed(list, place.componentId, place.ip));
    case Unsubscribe(sub, subscriber) => UnsubscribeRemembers(st, place, sub, subscriber);
    case Update(product, list) => UpdateRemembers(st, place, product, list);
    case Data(sub, url, products) => DataRemembers(st, place, sub, url, products);
  }

  /** In every run the tables hold, for each subscription, the flag of the subscriber that opened it, and for each of
      its connections the last value taken from it. */
  lemma {:induction false} RunsRemember(place: Place, events: seq<Event>, st: Tables)
    requires Reaches(place, events, st)
    ensures Consistent(st) && Memory(st) == RememberAll(place, events)
    decreases |events|
  {
    RunsFollow(place, events, st);
    if events != [] {
      hide Consistent, Memory, Watches, Follow, Remember, Next;
      var earlier, e := events[..|events| - 1], events[|events| - 1];
      var before :| Consistent(before) && Reaches(place, earlier, before) && st == Next(before, place, e);
      RunsRemember(place, earlier, before);
      RunsFollow(place, earlier, before);
      NextRemembers(before, place, e);
    }
  }
}
