/** Whatever arrives in whatever order: the tables stay consistent, and what they amount to follows a simple rule. */
module SubscriptionRuns {
  import opened Common
  import opened Directory
  import opened Relays
  import opened Subscriptions
  import opened Refreshing
  import opened Updating
  import opened Acceptance
  import opened Subscribing

  lemma PartsOf(st: Tables)
    requires Consistent(st)
    ensures Owned(st) && Verified(st) && Polled(st) && Separate(st)
    ensures forall sub | sub in st.subscriptions :: Inverse(st.subscriptions[sub], {})
  {
    hide Owned, Verified, Polled, Separate, Inverse;
  }

  lemma Assembled(st: Tables)
    requires Owned(st) && Verified(st) && Polled(st) && Separate(st)
    requires forall sub | sub in st.subscriptions :: Inverse(st.subscriptions[sub], {})
    ensures Consistent(st)
  {
    hide Owned, Verified, Polled, Separate, Inverse;
  }

  lemma SameInverse(d: Subscription, d': Subscription)
    requires Inverse(d, {}) && d'.pollItemMap == d.pollItemMap && d'.socketToUrlMap == d.socketToUrlMap
    ensures Inverse(d', {})
  {}

  lemma SameVerified(st: Tables, st': Tables)
    requires Verified(st)
    requires st'.sockets == st.sockets && st'.verification == st.verification && st'.lastCached == st.lastCached
    ensures Verified(st')
  {}

  // ----- subscribing

  lemma PreparePolls(st: Tables, sub: Sub, receiveCached: bool)
    requires Polled(st) && Separate(st) && sub !in st.subscriptions
    ensures Polled(Prepare(st, sub, receiveCached))
  {
    var st' := Prepare(st, sub, receiveCached);
    FreshIsUnused(st);
    DistinctMore(st.poll, st.next);
    forall s ensures s in UpdateSockets(st'.subscriptions) <==> s in UpdateSockets(st.subscriptions) || s == st.next {
      if s in UpdateSockets(st.subscriptions) {
        var other :| other in st.subscriptions && st.subscriptions[other].updateSocket == s;
        assert other in st'.subscriptions && st'.subscriptions[other] == st.subscriptions[other];
      }
      if s == st.next { assert sub in st'.subscriptions; }
    }
    hide UpdateSockets, Separate, Distinct;
  }

  lemma PrepareOwns(st: Tables, sub: Sub, receiveCached: bool)
    requires Owned(st) && Separate(st) && sub !in st.subscriptions
    ensures Owned(Prepare(st, sub, receiveCached)) && Separate(Prepare(st, sub, receiveCached))
  {
    var st' := Prepare(st, sub, receiveCached);
    forall s | s in st'.sockets ensures Attached(st', s) { assert Attached(st, s); }
  }

  lemma PrepareKeeps(st: Tables, sub: Sub, receiveCached: bool)
    requires Consistent(st)
    ensures Consistent(Prepare(st, sub, receiveCached))
  {
    hide Owned, Polled, Separate, Consistent, Inverse, Verified;
    if sub !in st.subscriptions {
      var st' := Prepare(st, sub, receiveCached);
      PartsOf(st);
      PreparePolls(st, sub, receiveCached);
      PrepareOwns(st, sub, receiveCached);
      BlankIsInverse(st'.subscriptions[sub]);
      SameVerified(st, st');
      Assembled(st');
    }
  }

  lemma BlankIsInverse(d: Subscription)
    requires d.pollItemMap == map[] && d.socketToUrlMap == map[]
    ensures Inverse(d, {})
  {}

  lemma {:induction false} JoinAllKeeps(st: Tables, sub: Sub, list: seq<Publisher>)
    requires Consistent(st) && sub in st.subscriptions
    ensures Consistent(JoinAll(st, sub, list))
  {
    if list != [] {
      JoinAllKeeps(st, sub, list[..|list| - 1]);
      var mid, p := JoinAll(st, sub, list[..|list| - 1]), list[|list| - 1];
      hide Sound, Connect, JoinAll;
      if p.Url() !in mid.subscriptions[sub].pollItemMap { ConnectNewKeeps(mid, {}, sub, p.Url(), p.regTime); }
    }
  }

  lemma SubscribersOwned(st: Tables, st': Tables, sub: Sub, subscribers: set<nat>)
    requires Owned(st) && sub in st.subscriptions
    requires st' == Subscribed(st, sub, subscribers)
    ensures Owned(st')
  {
    forall s | s in st'.sockets ensures Attached(st', s) { assert Attached(st, s); }
  }

  lemma SubscribersPoll(st: Tables, st': Tables, sub: Sub, subscribers: set<nat>)
    requires Polled(st) && Separate(st) && sub in st.subscriptions
    requires st' == Subscribed(st, sub, subscribers)
    ensures Polled(st') && Separate(st')
  {
    hide UpdateSockets, Distinct;
    SameUpdateSockets(st.subscriptions, st'.subscriptions);
  }

  lemma SubscribersInvert(st: Tables, sub: Sub, subscribers: set<nat>)
    requires sub in st.subscriptions
    requires forall other | other in st.subscriptions :: Inverse(st.subscriptions[other], {})
    ensures var st' := Subscribed(st, sub, subscribers);
            forall other | other in st'.subscriptions :: Inverse(st'.subscriptions[other], {})
  {
    var st' := Subscribed(st, sub, subscribers);
    SameInverse(st.subscriptions[sub], st'.subscriptions[sub]);
    hide Inverse;
  }

  lemma {:induction false} JoinAllKeepsSubscribers(st: Tables, sub: Sub, list: seq<Publisher>)
    requires sub in st.subscriptions
    ensures JoinAll(st, sub, list).subscriptions[sub].subscribers == st.subscriptions[sub].subscribers
  {
    if list != [] { JoinAllKeepsSubscribers(st, sub, list[..|list| - 1]); }
  }

  /** Who subscribes matters to none of the tables. */
  lemma SubscribersKeep(st: Tables, sub: Sub, subscribers: set<nat>)
    requires Consistent(st) && sub in st.subscriptions
    ensures Consistent(Subscribed(st, sub, subscribers))
  {
    var st' := Subscribed(st, sub, subscribers);
    assert st'.sockets == st.sockets && st'.verification == st.verification && st'.lastCached == st.lastCached;
    hide Owned, Polled, Separate, Consistent, Verified, Inverse, Subscribed, UpdateSockets, Distinct;
    PartsOf(st);
    SubscribersOwned(st, st', sub, subscribers);
    SubscribersPoll(st, st', sub, subscribers);
    SubscribersInvert(st, sub, subscribers);
    SameVerified(st, st');
    Assembled(st');
  }

  lemma AddSubscriptionKeeps(st: Tables, sub: Sub, receiveCached: bool, subscriber: nat, list: seq<Publisher>)
    requires Consistent(st)
    ensures Consistent(AddSubscription(st, sub, receiveCached, subscriber, list))
  {
    hide Consistent, JoinAll;
    var st1 := Prepare(st, sub, receiveCached);
    PrepareKeeps(st, sub, receiveCached);
    JoinAllKeeps(st1, sub, list);
    var st2 := JoinAll(st1, sub, list);
    SubscribersKeep(st2, sub, st2.subscriptions[sub].subscribers + {subscriber});
  }

  // ----- unsubscribing

  /** The sockets of a subscription and their numbers. */
  lemma SocketsOf(st: Tables, sub: Sub)
    requires Consistent(st) && sub in st.subscriptions
    ensures forall s | s in st.subscriptions[sub].pollItemMap.Values ::
              s in st.sockets && METRICS < s && s !in UpdateSockets(st.subscriptions)
    ensures METRICS < st.subscriptions[sub].updateSocket && st.subscriptions[sub].updateSocket !in st.sockets
  {
    PartsOf(st);
    var d := st.subscriptions[sub];
    hide Consistent, Polled, Owned, Inverse, Verified;
    forall s | s in d.pollItemMap.Values
      ensures s in st.sockets && METRICS < s && s !in UpdateSockets(st.subscriptions)
    {
      hide Separate;
      var url :| url in d.pollItemMap && d.pollItemMap[url] == s;
      CurrentSocketConsistent(st, sub, url);
      SocketIsData(st, s);
    }
  }

  lemma PolledOf(st: Tables)
    requires Consistent(st)
    ensures Polled(st)
  {
    hide Owned, Verified, Polled, Separate, Inverse;
  }

  lemma RemovedFromPoll(poll: seq<Socket>, poll': seq<Socket>, sockets: set<Socket>, updates: set<Socket>,
                        gone: set<Socket>, update: Socket)
    requires forall s :: s in poll <==> s == NODE || s == METRICS || s in sockets || s in updates
    requires forall s :: s in poll' <==> s in poll && s !in gone + {update}
    requires forall s | s in gone :: METRICS < s && s !in updates
    requires METRICS < update && update !in sockets
    ensures forall s :: s in poll' <==> s == NODE || s == METRICS || s in sockets - gone || s in updates - {update}
  {}

  lemma RemovedPoll(st: Tables, sub: Sub, st': Tables)
    requires Consistent(st) && sub in st.subscriptions
    requires var d := st.subscriptions[sub];
             st'.subscriptions == st.subscriptions - {sub} && st'.sockets == st.sockets - d.pollItemMap.Values
             && st'.poll == Dropped(st.poll, d.pollItemMap.Values + {d.updateSocket})
    ensures Polled(st')
  {
    hide Consistent, Polled, UpdateSockets, Distinct, Dropped;
    var d := st.subscriptions[sub];
    var gone := d.pollItemMap.Values + {d.updateSocket};
    SocketsOf(st, sub);
    PolledOf(st);
    PollParts(st);
    UpdateSocketsWithout(st, sub);
    DroppedHas(st.poll, gone);
    DroppedPrefix(st.poll, gone);
    RemovedFromPoll(st.poll, st'.poll, st.sockets.Keys, UpdateSockets(st.subscriptions),
                    d.pollItemMap.Values, d.updateSocket);
    PollIsWhole(st', st.sockets.Keys - d.pollItemMap.Values, UpdateSockets(st.subscriptions) - {d.updateSocket});
  }

  lemma PollParts(st: Tables)
    requires Polled(st)
    ensures 2 <= |st.poll| && st.poll[0] == NODE && st.poll[1] == METRICS && Distinct(st.poll)
    ensures forall s :: s in st.poll <==>
            s == NODE || s == METRICS || s in st.sockets.Keys || s in UpdateSockets(st.subscriptions)
  {
    hide Distinct, UpdateSockets;
  }

  lemma PollIsWhole(st: Tables, sockets: set<Socket>, updates: set<Socket>)
    requires st.sockets.Keys == sockets && UpdateSockets(st.subscriptions) == updates
    requires 2 <= |st.poll| && st.poll[0] == NODE && st.poll[1] == METRICS && Distinct(st.poll)
    requires forall s :: s in st.poll <==> s == NODE || s == METRICS || s in sockets || s in updates
    ensures Polled(st)
  {
    hide Distinct, UpdateSockets;
  }

  lemma UpdateSocketsWithout(st: Tables, sub: Sub)
    requires Consistent(st) && sub in st.subscriptions
    ensures UpdateSockets(st.subscriptions - {sub}) ==
            UpdateSockets(st.subscriptions) - {st.subscriptions[sub].updateSocket}
  {
    hide Consistent, Owned, Verified, Polled, Inverse;
    PartsOf(st);
    var d := st.subscriptions[sub];
    forall s
      ensures s in UpdateSockets(st.subscriptions - {sub}) <==>
              s in UpdateSockets(st.subscriptions) && s != d.updateSocket
    {
      if s in UpdateSockets(st.subscriptions) && s != d.updateSocket {
        var other :| other in st.subscriptions && st.subscriptions[other].updateSocket == s;
        assert other in st.subscriptions - {sub};
      }
      if s in UpdateSockets(st.subscriptions - {sub}) {
        var other :| other in st.subscriptions - {sub} && st.subscriptions[other].updateSocket == s;
        assert other in st.subscriptions;
      }
    }
  }

  lemma SameSockets(d: Subscription)
    requires Inverse(d, {})
    ensures d.pollItemMap.Values == d.socketToUrlMap.Keys
  {
    forall s | s in d.socketToUrlMap ensures s in d.pollItemMap.Values {
      assert d.pollItemMap[d.socketToUrlMap[s]] == s;
    }
  }

  lemma RemovedOwned(st: Tables, sub: Sub, st': Tables)
    requires Consistent(st) && sub in st.subscriptions
    requires st'.subscriptions == st.subscriptions - {sub}
    requires st'.sockets == st.sockets - st.subscriptions[sub].pollItemMap.Values
    ensures Owned(st')
  {
    hide Consistent, Verified, Polled, Separate, Inverse;
    PartsOf(st);
    SameSockets(st.subscriptions[sub]);
    forall s | s in st'.sockets ensures Attached(st', s) { assert Attached(st, s); }
    forall other, s | other in st'.subscriptions && s in st'.subscriptions[other].socketToUrlMap
      ensures s in st'.sockets && st'.sockets[s] == other
    {
      assert other in st.subscriptions && st.sockets[s] == other;
    }
  }

  lemma Removed(st: Tables, sub: Sub, st': Tables)
    requires Consistent(st) && sub in st.subscriptions
    requires var d := st.subscriptions[sub];
             var sockets := d.pollItemMap.Values;
             st' == st.(subscriptions := st.subscriptions - {sub},
                        sockets := st.sockets - sockets,
                        verification := st.verification - sockets,
                        lastCached := st.lastCached - sockets,
                        poll := Dropped(st.poll, sockets + {d.updateSocket}))
    ensures Consistent(st')
  {
    hide Consistent, Owned, Polled, Dropped, Inverse, Separate, Verified;
    RemovedOwned(st, sub, st');
    RemovedPoll(st, sub, st');
    PartsOf(st);
    FewerSeparate(st, sub, st');
    SocketsOf(st, sub);
    FewerVerified(st, st', st.subscriptions[sub].pollItemMap.Values);
    Assembled(st');
  }

  lemma FewerSeparate(st: Tables, sub: Sub, st': Tables)
    requires Separate(st) && st'.subscriptions == st.subscriptions - {sub} && st'.next == st.next
    requires st'.sockets.Keys <= st.sockets.Keys
    ensures Separate(st')
  {}

  lemma FewerVerified(st: Tables, st': Tables, sockets: set<Socket>)
    requires Verified(st) && st'.sockets == st.sockets - sockets && st'.verification == st.verification - sockets
    requires st'.lastCached == st.lastCached - sockets
    ensures Verified(st')
  {}

  lemma RemoveSubscriptionKeeps(st: Tables, sub: Sub, subscriber: nat)
    requires Consistent(st)
    ensures Consistent(RemoveSubscription(st, sub, subscriber))
  {
    hide Consistent, Dropped;
    if sub in st.subscriptions {
      var subscribers := st.subscriptions[sub].subscribers - {subscriber};
      if subscribers != {} {
        SubscribersKeep(st, sub, subscribers);
      } else {
        Removed(st, sub, RemoveSubscription(st, sub, subscriber));
      }
    }
  }

  // ----- receiving

  lemma CacheKeeps(st: Tables, lastCached: map<Socket, Product>)
    requires Consistent(st) && forall s | s in lastCached :: s in st.sockets
    ensures Consistent(st.(lastCached := lastCached))
  {
    var st' := st.(lastCached := lastCached);
    hide Consistent, Owned, Separate, UpdateSockets, Distinct, Inverse;
    PartsOf(st);
    assert Verified(st');
    hide Verified;
    SameOwned(st, st');
    SameSeparate(st, st');
    assert Polled(st');
    hide Polled;
    Assembled(st');
  }

  lemma ReceiveKeeps(st: Tables, s: Socket, products: seq<Product>)
    requires Consistent(st) && s in st.sockets && st.sockets[s] in st.subscriptions
    ensures Consistent(Receive(st, s, products))
  {
    var sub := st.sockets[s];
    var r := Read(st.lastCached, s, Verification(st, s), st.subscriptions[sub].receiveCached, products);
    hide Consistent, Read, Delete;
    ConsistentTimes(st, sub);
    CacheKeeps(st, r.lastCached);
    var st1 := st.(lastCached := r.lastCached);
    if r.mismatch {
      AddDoomed(st1, s);
      DeleteKeeps(st1, {}, sub, s);
    }
  }

  lemma AddDoomed(st: Tables, s: Socket)
    requires Consistent(st)
    ensures Sound(st, {} + {s})
  {
    hide Owned, Polled, Separate, Verified;
  }

  // ----- every pass

  lemma NextKeepsConsistent(st: Tables, place: Place, e: Event)
    requires Consistent(st)
    ensures Consistent(Next(st, place, e))
  {
    hide Consistent, Trimmed, Receive, AddSubscription, RemoveSubscription;
    match e
    case Subscribe(sub, receiveCached, subscriber, list) =>
      AddSubscriptionKeeps(st, sub, receiveCached, subscriber, Trimmed(list, place.componentId, place.ip));
    case Unsubscribe(sub, subscriber) => RemoveSubscriptionKeeps(st, sub, subscriber);
    case Update(product, list) =>
    case Data(sub, url, products) =>
      if sub in st.subscriptions && url in st.subscriptions[sub].pollItemMap {
        CurrentSocketConsistent(st, sub, url);
        ReceiveKeeps(st, st.subscriptions[sub].pollItemMap[url], products);
      }
  }
}
