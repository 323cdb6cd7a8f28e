/** The thread that owns the subscription tables, with its updates in place. */
module SubscriptionManagers {
  import opened Common
  import opened Directory
  import opened Relays
  import opened Sorting
  import opened Subscriptions
  import opened Reconciliation
  import opened Refreshing
  import opened Updating
  import opened Acceptance
  import opened Subscribing
  import opened SubscriptionRuns
  import opened Watching
  import opened Remembering
  import opened LateSubscribers

  /** Cached values a late subscriber is given, before they are sorted. */
  function LateValues(st: Tables, d: Subscription, urls: seq<string>): seq<Product>
    requires forall url | url in urls :: url in d.pollItemMap
  {
    if urls == [] then []
    else
      var last := |urls| - 1;
      var s := d.pollItemMap[urls[last]];
      LateValues(st, d, urls[..last]) + if s in st.lastCached then [st.lastCached[s]] else []
  }

  function SocketsAt(d: Subscription, urls: seq<string>): set<Socket>
    requires forall url | url in urls :: url in d.pollItemMap
  {
    set url | url in urls :: d.pollItemMap[url]
  }

  /** What the subscribers and the directory hear of data that arrives on a connection. */
  ghost predicate Arrives(st: Tables, sub: Sub, url: string, products: seq<Product>, delivered: seq<Product>,
                          stale: Option<Unregistration>)
    requires Consistent(st)
  {
    var watches := Watches(st);
    if sub in Memory(st) && sub in watches && url in watches[sub].connections then
      var expected := watches[sub].connections[url];
      delivered == TakenAt(Memory(st), watches, sub, url, products).handed
      && stale == if exists p :: p in products && p.regTime != expected then
                    Some(Unregistration(sub.product.id, url, Kind.Data, Some(sub.product.domain), expected))
                  else None
    else delivered == [] && stale == None
  }

  lemma DataArrives(st: Tables, sub: Sub, url: string, products: seq<Product>, delivered: seq<Product>,
                    stale: Option<Unregistration>)
    requires Consistent(st) && sub in st.subscriptions && url in st.subscriptions[sub].pollItemMap
    requires var s := st.subscriptions[sub].pollItemMap[url];
             && delivered == Read(st.lastCached, s, Verification(st, s), st.subscriptions[sub].receiveCached,
                                  products).delivered
             && stale == if exists p :: p in products && p.regTime != Verification(st, s) then
                           Some(Unregistration(sub.product.id, url, Kind.Data, Some(sub.product.domain),
                                               Verification(st, s)))
                         else None
    ensures Arrives(st, sub, url, products, delivered, stale)
  {
    hide Consistent, Read, TakenAt;
    DataIsTaken(st, sub, url, products);
    ConsistentTimes(st, sub);
  }

  lemma NothingArrives(st: Tables, sub: Sub, url: string, products: seq<Product>)
    requires Consistent(st) && !(sub in st.subscriptions && url in st.subscriptions[sub].pollItemMap)
    ensures Arrives(st, sub, url, products, [], None)
  {
    hide Consistent;
    NotConnected(st, sub, url);
  }

  /** Those of the URLs whose last value this is. */
  function OfferingAmong(st: Tables, d: Subscription, urls: seq<string>, p: Product): set<string>
    requires forall url | url in urls :: url in d.pollItemMap
  {
    set url | url in urls && d.pollItemMap[url] in st.lastCached && st.lastCached[d.pollItemMap[url]] == p
  }

  lemma OfferingMore(st: Tables, d: Subscription, urls: seq<string>, last: string, p: Product)
    requires (forall url | url in urls :: url in d.pollItemMap) && last in d.pollItemMap && last !in urls
    ensures forall url | url in urls + [last] :: url in d.pollItemMap
    ensures var s := d.pollItemMap[last];
            |OfferingAmong(st, d, urls + [last], p)| ==
            |OfferingAmong(st, d, urls, p)| + if s in st.lastCached && st.lastCached[s] == p then 1 else 0
  {
    var s := d.pollItemMap[last];
    var before, after := OfferingAmong(st, d, urls, p), OfferingAmong(st, d, urls + [last], p);
    assert after == if s in st.lastCached && st.lastCached[s] == p then before + {last} else before;
  }

  lemma {:induction false} LateValuesCount(st: Tables, d: Subscription, urls: seq<string>, p: Product)
    requires (forall url | url in urls :: url in d.pollItemMap) && Distinct(urls)
    ensures multiset(LateValues(st, d, urls))[p] == |OfferingAmong(st, d, urls, p)|
  {
    if urls != [] {
      hide OfferingAmong;
      var init, last := urls[..|urls| - 1], urls[|urls| - 1];
      assert urls == init + [last] && last !in init;
      LateValuesCount(st, d, init, p);
      OfferingMore(st, d, init, last, p);
    }
  }

  lemma AllGivenLast(st: Tables, sub: Sub, late: seq<Product>)
    requires sub in st.subscriptions
    requires var d := st.subscriptions[sub];
             multiset(late) == multiset(LateValues(st, d, Ascending(d.pollItemMap.Keys)))
    ensures GivenLast(st, sub, late)
  {
    var d := st.subscriptions[sub];
    var urls := Ascending(d.pollItemMap.Keys);
    hide LateValues, Ascending;
    forall p: Product ensures multiset(late)[p] == |Offering(st, sub, p)| {
      LateValuesCount(st, d, urls, p);
      assert Offering(st, sub, p) == OfferingAmong(st, d, urls, p);
    }
  }

  class SubscriptionManager {
    const place: Place
    var subscriptions: map<Sub, Subscription>
    var sockets: map<Socket, Sub>
    var verification: map<Socket, nat>
    var lastCached: map<Socket, Product>
    var pollItems: seq<Socket>
    var next: Socket

    function View(): Tables
      reads this
    {
      Tables(subscriptions, sockets, verification, lastCached, pollItems, next)
    }

    constructor (place: Place)
      ensures this.place == place && View() == Tables(map[], map[], map[], map[], [NODE, METRICS], METRICS + 1)
    {
      this.place := place;
      subscriptions, sockets, verification, lastCached := map[], map[], map[], map[];
      pollItems := [NODE, METRICS];
      next := METRICS + 1;
    }

    /** A fresh socket that is polled from now on. */
    method SetupSubscription() returns (s: Socket)
      modifies this`pollItems, this`next
      ensures s == old(next) && next == s + 1 && pollItems == old(pollItems) + [s]
    {
      s := next;
      next := next + 1;
      pollItems := pollItems + [s];
    }

    method RemovePollItem(s: Socket)
      modifies this`pollItems
      ensures pollItems == Dropped(old(pollItems), {s})
    {
      var i := 0;
      var kept := [];
      while i < |pollItems|
        invariant i <= |pollItems| && pollItems == old(pollItems)
        invariant kept == Dropped(pollItems[..i], {s})
      {
        assert pollItems[..i + 1][..i] == pollItems[..i];
        if pollItems[i] != s { kept := kept + [pollItems[i]]; }
        i := i + 1;
      }
      assert pollItems[..i] == pollItems;
      pollItems := kept;
    }

    /** Connects a subscription to a publisher. */
    method Open(sub: Sub, url: string, regTime: nat)
      requires sub in subscriptions
      modifies this
      ensures View() == Connect(old(View()), sub, url, regTime) && sub in subscriptions
    {
      var s := SetupSubscription();
      var d := subscriptions[sub];
      sockets := sockets[s := sub];
      subscriptions :=
          subscriptions[sub := d.(pollItemMap := d.pollItemMap[url := s],
                                  socketToUrlMap := d.socketToUrlMap[s := url])];
      verification := verification[s := regTime];
    }

    // ----- subscribing

    method FindDetails(sub: Sub, receiveCached: bool)
      modifies this
      ensures View() == Prepare(old(View()), sub, receiveCached)
    {
      if sub !in subscriptions {
        var s := SetupSubscription();
        subscriptions := subscriptions[sub := Subscription(receiveCached, map[], map[], {}, s)];
      }
    }

    method JoinPublishers(sub: Sub, list: seq<Publisher>)
      requires sub in subscriptions
      modifies this
      ensures View() == JoinAll(old(View()), sub, list)
    {
      hide Connect;
      assert list[..0] == [];
      for i := 0 to |list|
        invariant sub in subscriptions
        invariant View() == JoinAll(old(View()), sub, list[..i])
      {
        assert list[..i + 1][..i] == list[..i];
        if list[i].Url() !in subscriptions[sub].pollItemMap { Open(sub, list[i].Url(), list[i].regTime); }
      }
      assert list[..|list|] == list;
    }

    /** What a new subscriber is given at once: the cached values of the subscription's sockets, in the order of
        time. */
    method CachedValues(sub: Sub, urls: seq<string>) returns (late: seq<Product>)
      requires sub in subscriptions && forall url | url in urls :: url in subscriptions[sub].pollItemMap
      ensures multiset(late) == multiset(LateValues(View(), subscriptions[sub], urls))
      ensures Ordered(late, (p: Product) => p.timestamp)
    {
      var values := [];
      assert urls[..0] == [];
      for i := 0 to |urls|
        invariant values == LateValues(View(), subscriptions[sub], urls[..i])
      {
        assert urls[..i + 1][..i] == urls[..i];
        var s := subscriptions[sub].pollItemMap[urls[i]];
        if s in lastCached { values := values + [lastCached[s]]; }
      }
      assert urls[..|urls|] == urls;
      late := Sort(values, (p: Product) => p.timestamp);
      SortOrders(values, (p: Product) => p.timestamp);
    }

    method AddSubscription(sub: Sub, receiveCached: bool, subscriber: nat, list: seq<Publisher>)
      returns (late: seq<Product>)
      modifies this
      ensures View() ==
              Subscribing.AddSubscription(old(View()), sub, receiveCached, subscriber,
                                          Trimmed(list, place.componentId, place.ip))
      ensures var known := sub in old(subscriptions) && subscriber in old(subscriptions)[sub].subscribers;
              if known || !receiveCached then late == []
              else sub in subscriptions && GivenLast(View(), sub, late) && Ordered(late, (p: Product) => p.timestamp)
    {
      hide Prepare, JoinAll, LateValues, Ascending, Ordered, GivenLast;
      ghost var st0 := View();
      FindDetails(sub, receiveCached);
      PrepareHas(st0, sub, receiveCached);
      var trimmed := TrimPublishers(list, place.componentId, place.ip);
      ghost var st1 := View();
      JoinPublishers(sub, trimmed);
      JoinAllKeepsSubscribers(st1, sub, trimmed);
      late := [];
      var d := subscriptions[sub];
      if subscriber !in d.subscribers {
        subscriptions := subscriptions[sub := d.(subscribers := d.subscribers + {subscriber})];
        if receiveCached {
          late := CachedValues(sub, Ascending(d.pollItemMap.Keys));
          AllGivenLast(View(), sub, late);
        }
      } else {
        assert d.subscribers + {subscriber} == d.subscribers;
        NothingToReplace(subscriptions, sub);
      }
    }

    // ----- unsubscribing

    /** Closes the sockets of a subscription that is no longer in the map. */
    method CloseSockets(d: Subscription, urls: seq<string>)
      requires forall url | url in urls :: url in d.pollItemMap
      modifies this`sockets, this`verification, this`lastCached, this`pollItems
      ensures sockets == old(sockets) - SocketsAt(d, urls) && verification == old(verification) - SocketsAt(d, urls)
      ensures lastCached == old(lastCached) - SocketsAt(d, urls)
      ensures pollItems == Dropped(old(pollItems), SocketsAt(d, urls))
    {
      hide Dropped;
      assert SocketsAt(d, urls[..0]) == {};
      DropNone(pollItems);
      for i := 0 to |urls|
        invariant var gone := SocketsAt(d, urls[..i]);
                  sockets == old(sockets) - gone && verification == old(verification) - gone
                  && lastCached == old(lastCached) - gone && pollItems == Dropped(old(pollItems), gone)
      {
        var s := d.pollItemMap[urls[i]];
        sockets, verification := sockets - {s}, verification - {s};
        RemovePollItem(s);
        lastCached := lastCached - {s};
        assert SocketsAt(d, urls[..i + 1]) == SocketsAt(d, urls[..i]) + {s};
        DroppedBoth(old(pollItems), SocketsAt(d, urls[..i]), {s});
      }
      assert urls[..|urls|] == urls;
    }

    method RemoveSubscription(sub: Sub, subscriber: nat)
      modifies this
      ensures View() == Subscribing.RemoveSubscription(old(View()), sub, subscriber)
    {
      hide Dropped, Ascending;
      if sub in subscriptions {
        var d := subscriptions[sub];
        var subscribers := d.subscribers - {subscriber};
        if subscribers == {} {
          subscriptions := subscriptions - {sub};
          RemovePollItem(d.updateSocket);
          var urls := Ascending(d.pollItemMap.Keys);
          assert SocketsAt(d, urls) == d.pollItemMap.Values;
          CloseSockets(d, urls);
          DroppedBoth(old(pollItems), {d.updateSocket}, d.pollItemMap.Values);
          assert {d.updateSocket} + d.pollItemMap.Values == d.pollItemMap.Values + {d.updateSocket};
        } else {
          subscriptions := subscriptions[sub := d.(subscribers := subscribers)];
        }
      }
    }

    // ----- publisher updates

    /** Keeps, replaces or makes the connection to one listed publisher. A socket that a subscription is connected by
        always has a verification time, so looking its time up adds no entry; looking up the null pointer may. */
    method RefreshPublisher(sub: Sub, p: Publisher, deletions0: seq<Deletion>) returns (deletions: seq<Deletion>)
      requires sub in subscriptions
      modifies this
      ensures Pass(View(), deletions) == Refresh(Pass(old(View()), deletions0), sub, p) && sub in subscriptions
    {
      hide Connect;
      deletions := deletions0;
      var d := subscriptions[sub];
      var known := p.Url() in d.pollItemMap;
      var s := if known then d.pollItemMap[p.Url()] else NULL;
      if !known && NULL !in verification { verification := verification[NULL := 0]; }
      var expected := if s in verification then verification[s] else 0;
      if !known || expected != p.regTime {
        if expected != p.regTime { deletions := deletions + [(sub, s)]; }
        Open(sub, p.Url(), p.regTime);
      }
    }

    method QueueGone(sub: Sub, list: seq<Publisher>, urls: seq<string>, deletions0: seq<Deletion>)
      returns (deletions: seq<Deletion>)
      requires sub in subscriptions && forall url | url in urls :: url in subscriptions[sub].pollItemMap
      ensures deletions == DropGone(deletions0, sub, subscriptions[sub], list, urls)
    {
      hide Lists;
      deletions := deletions0;
      assert urls[..0] == [];
      for i := 0 to |urls|
        invariant deletions == DropGone(deletions0, sub, subscriptions[sub], list, urls[..i])
      {
        assert urls[..i + 1][..i] == urls[..i];
        var found := IsListed(list, urls[i]);
        if !found { deletions := deletions + [(sub, subscriptions[sub].pollItemMap[urls[i]])]; }
      }
      assert urls[..|urls|] == urls;
    }

    /** Compares one subscription with a publisher list. */
    method ReconcileFilter(sub: Sub, list: seq<Publisher>, deletions0: seq<Deletion>) returns (deletions: seq<Deletion>)
      requires sub in subscriptions
      modifies this
      ensures Pass(View(), deletions) == ReconcileOne(Pass(old(View()), deletions0), sub, list)
    {
      hide Refresh, Ascending;
      ghost var p0 := Pass(View(), deletions0);
      deletions := deletions0;
      assert list[..0] == [];
      for i := 0 to |list|
        invariant sub in subscriptions
        invariant Pass(View(), deletions) == RefreshAll(p0, sub, list[..i])
      {
        assert list[..i + 1][..i] == list[..i];
        deletions := RefreshPublisher(sub, list[i], deletions);
      }
      assert list[..|list|] == list;
      deletions := QueueGone(sub, list, Ascending(subscriptions[sub].pollItemMap.Keys), deletions);
    }

    method ReconcileFilters(product: Key, list: seq<Publisher>, filters: seq<string>) returns (deletions: seq<Deletion>)
      requires forall filter | filter in filters :: Sub(product, filter) in subscriptions
      modifies this
      ensures Pass(View(), deletions) == ReconcileAll(Pass(old(View()), []), product, list, filters)
    {
      hide ReconcileOne;
      ghost var p0 := Pass(View(), []);
      deletions := [];
      assert filters[..0] == [];
      for i := 0 to |filters|
        invariant Pass(View(), deletions) == ReconcileAll(p0, product, list, filters[..i])
      {
        assert filters[..i + 1][..i] == filters[..i];
        assert subscriptions.Keys == p0.st.subscriptions.Keys by {
          assert Pass(View(), deletions).st.subscriptions.Keys == p0.st.subscriptions.Keys;
        }
        deletions := ReconcileFilter(Sub(product, filters[i]), list, deletions);
      }
      assert filters[..|filters|] == filters;
    }

    method ErasePollItem(s: Socket)
      modifies this`pollItems
      ensures pollItems == Erased(old(pollItems), s)
    {
      hide Erased;
      var i := 0;
      while i < |pollItems| && pollItems[i] != s
        invariant i <= |pollItems| && forall k | 0 <= k < i :: pollItems[k] != s
      {
        i := i + 1;
      }
      ErasedAt(pollItems, i, s);
      if i < |pollItems| { pollItems := pollItems[..i] + pollItems[i + 1..]; }
    }

    /** One entry of the deletion list. */
    method Close(sub: Sub, s: Socket)
      requires sub in subscriptions
      modifies this
      ensures View() == Delete(old(View()), sub, s)
    {
      var d := subscriptions[sub];
      var url := if s in d.socketToUrlMap then d.socketToUrlMap[s] else "";
      sockets, verification, lastCached := sockets - {s}, verification - {s}, lastCached - {s};
      var pollItemMap := d.pollItemMap;
      var current := if url in pollItemMap then pollItemMap[url] else NULL;
      pollItemMap := pollItemMap[url := current];
      if current == s {
        pollItemMap := pollItemMap - {url};
        assert pollItemMap == d.pollItemMap - {url};
      }
      subscriptions := subscriptions[sub := d.(pollItemMap := pollItemMap, socketToUrlMap := d.socketToUrlMap - {s})];
      ErasePollItem(s);
    }

    method CloseAll(deletions: seq<Deletion>)
      requires forall i | 0 <= i < |deletions| :: deletions[i].0 in subscriptions
      modifies this
      ensures View() == DeleteAll(old(View()), deletions)
    {
      hide Delete;
      ghost var st0 := View();
      var i := 0;
      assert deletions[0..] == deletions;
      while i < |deletions|
        invariant i <= |deletions| && View().subscriptions.Keys == st0.subscriptions.Keys
        invariant DeleteAll(View(), deletions[i..]) == DeleteAll(st0, deletions)
      {
        assert deletions[i..][0] == deletions[i] && deletions[i..][1..] == deletions[i + 1..];
        DeleteKeepsKeys(View(), deletions[i].0, deletions[i].1);
        Close(deletions[i].0, deletions[i].1);
        i := i + 1;
      }
    }

    /** A list of publishers from the directory; one without a product ID is ignored. */
    method PublisherUpdate(product: Key, list: seq<Publisher>)
      requires Consistent(View())
      modifies this
      ensures View() == Next(old(View()), place, Event.Update(product, list))
    {
      hide Consistent, Ascending, ReconcileAll, DeleteAll;
      ghost var st0 := View();
      if product.id == "" { return; }
      var trimmed := TrimPublishers(list, place.componentId, place.ip);
      var filters := Ascending(FiltersOf(View(), product));
      var deletions := ReconcileFilters(product, trimmed, filters);
      QueuedAreKnown(st0, product, trimmed, filters);
      CloseAll(deletions);
    }

    // ----- data

    /** Data on a socket. What carries another registration time than expected closes it, and the directory is told
        that the publisher it listed is gone. */
    method ReceiveData(s: Socket, products: seq<Product>)
      returns (delivered: seq<Product>, stale: Option<Unregistration>)
      requires s in sockets && sockets[s] in subscriptions
      modifies this
      ensures View() == Receive(old(View()), s, products)
      ensures var d := old(subscriptions)[old(sockets)[s]];
              delivered == Read(old(lastCached), s, Verification(old(View()), s), d.receiveCached, products).delivered
      ensures var sub, expected := old(sockets)[s], Verification(old(View()), s);
              var d := old(subscriptions)[sub];
              var url := if s in d.socketToUrlMap then d.socketToUrlMap[s] else "";
              stale == if exists p :: p in products && p.regTime != expected then
                         Some(Unregistration(sub.product.id, url, Kind.Data, Some(sub.product.domain), expected))
                       else None
    {
      hide Accepts, Delete;
      var sub := sockets[s];
      var d := subscriptions[sub];
      var receiveCached := d.receiveCached;
      var expected := if s in verification then verification[s] else 0;
      ghost var cached0 := lastCached;
      delivered := [];
      var mismatch := false;
      var i := 0;
      assert products[..0] == [];
      while i < |products| && !mismatch
        invariant i <= |products| && View() == old(View()).(lastCached := lastCached)
        invariant Read(cached0, s, expected, receiveCached, products[..i]) == Reading(lastCached, delivered, mismatch)
      {
        var p := products[i];
        assert products[..i + 1][..i] == products[..i];
        i := i + 1;
        if p.regTime != expected {
          mismatch := true;
        } else if Accepts(lastCached, s, p) {
          if !p.cached || receiveCached { delivered := delivered + [p]; }
          lastCached := lastCached[s := p];
        }
      }
      ReadStops(cached0, s, expected, receiveCached, products, i);
      ReadFindsMismatch(cached0, s, expected, receiveCached, products);
      stale := None;
      if mismatch {
        var url := if s in d.socketToUrlMap then d.socketToUrlMap[s] else "";
        stale := Some(Unregistration(sub.product.id, url, Kind.Data, Some(sub.product.domain), expected));
        Close(sub, s);
      }
    }

    // ----- one event after the other

    /** Whatever arrives, the tables change as specified and stay consistent, and the subscribers are given what the
        connections remember and take. */
    method Process(e: Subscribing.Event) returns (delivered: seq<Product>, stale: Option<Unregistration>)
      requires Consistent(View())
      modifies this
      ensures View() == Next(old(View()), place, e) && Consistent(View())
      ensures e.Subscribe? ==>
                var known := e.sub in old(subscriptions) && e.subscriber in old(subscriptions)[e.sub].subscribers;
                stale == None &&
                if known || !e.receiveCached then delivered == []
                else e.sub in subscriptions && GivenLast(View(), e.sub, delivered)
                     && Ordered(delivered, (p: Product) => p.timestamp)
      ensures e.Unsubscribe? || e.Update? ==> delivered == [] && stale == None
      ensures e.Data? ==> Arrives(old(View()), e.from, e.url, e.products, delivered, stale)
    {
      hide Consistent, Receive, Subscribing.AddSubscription, Subscribing.RemoveSubscription,
          UpdatePublishers, Trimmed, LateValues, GivenLast, Arrives,
        Ordered, Ascending;
      ghost var st0 := View();
      NextKeepsConsistent(st0, place, e);
      delivered, stale := [], None;
      match e
      case Subscribe(sub, receiveCached, subscriber, list) =>
        delivered := AddSubscription(sub, receiveCached, subscriber, list);
      case Unsubscribe(sub, subscriber) => RemoveSubscription(sub, subscriber);
      case Update(product, list) => PublisherUpdate(product, list);
      case Data(sub, url, products) =>
        if sub in subscriptions && url in subscriptions[sub].pollItemMap {
          CurrentSocketConsistent(st0, sub, url);
          delivered, stale := ReceiveData(subscriptions[sub].pollItemMap[url], products);
          DataArrives(st0, sub, url, products, delivered, stale);
        } else {
          NothingArrives(st0, sub, url, products);
        }
    }
  }

  lemma {:induction false} ErasedAt(poll: seq<Socket>, i: nat, s: Socket)
    requires i <= |poll| && (forall k | 0 <= k < i :: poll[k] != s) && (i < |poll| ==> poll[i] == s)
    ensures Erased(poll, s) == if i < |poll| then poll[..i] + poll[i + 1..] else poll
  {
    if i > 0 {
      var rest := poll[1..];
      assert forall k | 0 <= k < |rest| :: rest[k] == poll[k + 1];
      ErasedAt(rest, i - 1, s);
      assert Erased(poll, s) == [poll[0]] + Erased(rest, s);
      if i < |poll| { assert poll[..i] == [poll[0]] + rest[..i - 1] && poll[i + 1..] == rest[i..]; }
      assert poll == [poll[0]] + rest;
    } else if i < |poll| {
      assert poll[..0] + poll[1..] == poll[1..];
    }
  }

  lemma DeleteKeepsKeys(st: Tables, sub: Sub, s: Socket)
    requires sub in st.subscriptions
    ensures Delete(st, sub, s).subscriptions.Keys == st.subscriptions.Keys
  {
    hide Erased;
  }

  method IsListed(list: seq<Publisher>, url: string) returns (found: bool)
    ensures found == Lists(list, url)
  {
    for i := 0 to |list|
      invariant forall k | 0 <= k < i :: list[k].Url() != url
    {
      if list[i].Url() == url { return true; }
    }
    return false;
  }

  lemma QueuedAreKnown(st: Tables, product: Key, list: seq<Publisher>, filters: seq<string>)
    requires Consistent(st) && Distinct(filters)
    requires forall filter | filter in filters :: Sub(product, filter) in st.subscriptions
    ensures var p1 := ReconcileAll(Pass(st, []), product, list, filters);
            forall i | 0 <= i < |p1.deletions| :: p1.deletions[i].0 in p1.st.subscriptions
  {
    hide Consistent, Sound, Queued, Touched, Done, Distinct;
    var p1 := ReconcileAll(Pass(st, []), product, list, filters);
    ReconcileAllDrains(st, product, list, filters);
    forall i | 0 <= i < |p1.deletions| ensures p1.deletions[i].0 in p1.st.subscriptions {
      QueuedSubs(p1.st, p1.deletions, i);
    }
  }

  /** What comes after a mismatch is not read. */
  lemma {:induction false} ReadStops(lastCached: map<Socket, Product>, s: Socket, regTime: nat, receiveCached: bool,
                                     products: seq<Product>, i: nat)
    requires i <= |products|
    requires i < |products| ==> Read(lastCached, s, regTime, receiveCached, products[..i]).mismatch
    ensures Read(lastCached, s, regTime, receiveCached, products) ==
            Read(lastCached, s, regTime, receiveCached, products[..i])
  {
    hide Accepts;
    if i < |products| {
      var init := products[..|products| - 1];
      assert init[..i] == products[..i];
      ReadStops(lastCached, s, regTime, receiveCached, init, i);
    } else {
      assert products[..i] == products;
    }
  }

  lemma PrepareHas(st: Tables, sub: Sub, receiveCached: bool)
    ensures sub in Prepare(st, sub, receiveCached).subscriptions
    ensures Prepare(st, sub, receiveCached).subscriptions[sub].subscribers
         == if sub in st.subscriptions then st.subscriptions[sub].subscribers else {}
  {}

}
