/** What undoes what in the subscription tables, and what goes wrong when a socket is queued twice. */
module SubscriptionLaws {
  import opened Common
  import opened Directory
  import opened Subscriptions
  import opened Reconciliation
  import opened Subscribing
  import opened SubscriptionRuns
  import opened Watching

  // ----- unsubscribing undoes subscribing

  /** Everything in st1 that does not belong to sub is what st0 has. */
  ghost predicate Adds(st0: Tables, st1: Tables, sub: Sub) {
    sub in st1.subscriptions
    && var d := st1.subscriptions[sub];
    && st1.subscriptions - {sub} == st0.subscriptions
    && (forall s | s in d.pollItemMap.Values + {d.updateSocket} :: st0.next <= s < st1.next)
    && st0.next <= st1.next
    && st1.sockets - d.pollItemMap.Values == st0.sockets
    && st1.verification - d.pollItemMap.Values == st0.verification
    && st1.lastCached == st0.lastCached
    && Dropped(st1.poll, d.pollItemMap.Values + {d.updateSocket}) == st0.poll
  }

  lemma {:induction false} DroppedUnused(poll: seq<Socket>, gone: set<Socket>, s: Socket)
    requires s !in poll
    ensures Dropped(poll, gone + {s}) == Dropped(poll, gone)
  {
    if poll != [] {
      assert poll == poll[..|poll| - 1] + [poll[|poll| - 1]];
      DroppedUnused(poll[..|poll| - 1], gone, s);
    }
  }

  lemma DroppedMore(poll: seq<Socket>, gone: set<Socket>, s: Socket)
    requires s !in poll
    ensures Dropped(poll + [s], gone + {s}) == Dropped(poll, gone)
  {
    assert (poll + [s])[..|poll|] == poll;
    DroppedUnused(poll, gone, s);
  }

  lemma PrepareAdds(st: Tables, sub: Sub, receiveCached: bool)
    requires Consistent(st) && sub !in st.subscriptions
    ensures Adds(st, Prepare(st, sub, receiveCached), sub)
  {
    hide Consistent, Dropped;
    NextUnused(st);
    DropNone(st.poll);
    DroppedMore(st.poll, {}, st.next);
    var st1 := Prepare(st, sub, receiveCached);
    assert st1.subscriptions - {sub} == st.subscriptions;
    assert {} + {st.next} == st1.subscriptions[sub].pollItemMap.Values + {st.next};
  }

  lemma NextUnused(st: Tables)
    requires Consistent(st)
    ensures st.next !in st.poll
  {
    hide Consistent, Owned, Verified, Inverse;
    PartsOf(st);
    FreshIsUnused(st);
  }

  lemma ConnectAdds(st0: Tables, st1: Tables, sub: Sub, url: string, regTime: nat)
    requires Adds(st0, st1, sub) && st1.next !in st1.poll && url !in st1.subscriptions[sub].pollItemMap
    requires forall s | s in st0.sockets || s in st0.verification :: s < st0.next
    ensures Adds(st0, Connect(st1, sub, url, regTime), sub)
  {
    hide Dropped;
    var d, s := st1.subscriptions[sub], st1.next;
    var st2 := Connect(st1, sub, url, regTime);
    var d2 := st2.subscriptions[sub];
    AddedValue(d.pollItemMap, url, s);
    DroppedMore(st1.poll, d.pollItemMap.Values + {d.updateSocket}, s);
    assert d2.pollItemMap.Values + {d2.updateSocket} == d.pollItemMap.Values + {d.updateSocket} + {s};
    assert st2.subscriptions - {sub} == st1.subscriptions - {sub};
    NewIsWithout(st1.sockets, d.pollItemMap.Values, s, sub);
    NewIsWithout(st1.verification, d.pollItemMap.Values, s, regTime);
  }

  lemma NewIsWithout<T>(m: map<Socket, T>, gone: set<Socket>, s: Socket, value: T)
    requires s !in m - gone
    ensures m[s := value] - (gone + {s}) == m - gone
  {}

  lemma AddedValue(m: map<string, Socket>, url: string, s: Socket)
    requires url !in m
    ensures m[url := s].Values == m.Values + {s}
  {
    forall t | t in m.Values + {s} ensures t in m[url := s].Values {
      if t in m.Values {
        var other :| other in m && m[other] == t;
        assert m[url := s][other] == t;
      } else {
        assert m[url := s][url] == s;
      }
    }
  }

  lemma {:induction false} JoinAllAdds(st0: Tables, st1: Tables, sub: Sub, list: seq<Publisher>)
    requires Consistent(st1) && Adds(st0, st1, sub)
    requires forall s | s in st0.sockets || s in st0.verification :: s < st0.next
    ensures Consistent(JoinAll(st1, sub, list)) && Adds(st0, JoinAll(st1, sub, list), sub)
  {
    hide Consistent, Connect;
    JoinAllKeeps(st1, sub, list);
    if list != [] {
      JoinAllAdds(st0, st1, sub, list[..|list| - 1]);
      var mid, p := JoinAll(st1, sub, list[..|list| - 1]), list[|list| - 1];
      JoinAllKeeps(st1, sub, list[..|list| - 1]);
      NextUnused(mid);
      if p.Url() !in mid.subscriptions[sub].pollItemMap { ConnectAdds(st0, mid, sub, p.Url(), p.regTime); }
    }
  }

  lemma SocketsAreOld(st: Tables)
    requires Consistent(st)
    ensures forall s | s in st.sockets || s in st.verification || s in st.lastCached :: s < st.next
  {
    hide Consistent, Owned, Polled, Inverse;
    PartsOf(st);
  }

  /** The only subscriber of a product and filter leaves everything as it was, except that its sockets are spent. */
  lemma UnsubscribeUndoesSubscribe(st: Tables, sub: Sub, receiveCached: bool, subscriber: nat, list: seq<Publisher>)
    requires Consistent(st) && sub !in st.subscriptions
    ensures var st' := RemoveSubscription(AddSubscription(st, sub, receiveCached, subscriber, list), sub, subscriber);
            st' == st.(next := st'.next) && st.next < st'.next
  {
    hide Consistent, Dropped, JoinAll, Prepare;
    SocketsAreOld(st);
    PrepareAdds(st, sub, receiveCached);
    PrepareKeeps(st, sub, receiveCached);
    var st1 := Prepare(st, sub, receiveCached);
    JoinAllAdds(st, st1, sub, list);
    NewHasNoSubscribers(st, sub, receiveCached);
    JoinAllKeepsSubscribers(st1, sub, list);
    var st2 := JoinAll(st1, sub, list);
    RemovesWhatWasAdded(st, st2, sub, subscriber);
  }

  lemma NewHasNoSubscribers(st: Tables, sub: Sub, receiveCached: bool)
    requires sub !in st.subscriptions
    ensures Prepare(st, sub, receiveCached).subscriptions[sub].subscribers == {}
  {}

  lemma RemovesWhatWasAdded(st0: Tables, st1: Tables, sub: Sub, subscriber: nat)
    requires Adds(st0, st1, sub) && st1.subscriptions[sub].subscribers == {}
    requires forall s | s in st0.lastCached :: s < st0.next
    ensures st0.next < st1.next
    ensures RemoveSubscription(Enlist(st1, sub, subscriber), sub, subscriber) == st0.(next := st1.next)
  {
    hide Dropped;
    var d := st1.subscriptions[sub];
    var st2 := Enlist(st1, sub, subscriber);
    assert st2.subscriptions[sub].subscribers - {subscriber} == {};
    assert st2.subscriptions[sub].pollItemMap == d.pollItemMap && st2.subscriptions[sub].updateSocket == d.updateSocket;
    assert st2.subscriptions - {sub} == st1.subscriptions - {sub};
    assert st1.lastCached - d.pollItemMap.Values == st1.lastCached;
    assert d.updateSocket in d.pollItemMap.Values + {d.updateSocket};
  }

  // ----- a socket queued twice

  /** When two events of one pass queue the same socket, the second deletion leaves a connection without a socket
      behind, unless the subscription is connected to another publisher, one without a URL. */
  lemma QueuedTwice(st: Tables, sub: Sub, s: Socket)
    requires Consistent(st) && s in st.sockets && st.sockets[s] == sub && sub in st.subscriptions
    ensures var once, connected := Delete(st, sub, s), st.subscriptions[sub].pollItemMap;
            var twice := Delete(once, sub, s);
            && Consistent(once)
            && (Consistent(twice) <==> "" in connected && connected[""] != s)
            && (!("" in connected && connected[""] != s) ==>
                  twice.subscriptions[sub].pollItemMap == once.subscriptions[sub].pollItemMap["" := NULL])
  {
    hide Consistent, Delete, Live, SameBut;
    var once := Delete(st, sub, s);
    DeleteSpares(st, sub, s);
    DeletedIsGone(st, sub, s);
    DeletedUrl(st, sub, s);
    DeleteAgain(once, sub, s);
  }

  /** Closing a socket disconnects its URL and no other. */
  lemma DeletedUrl(st: Tables, sub: Sub, s: Socket)
    requires Consistent(st) && s in st.sockets && st.sockets[s] == sub && sub in st.subscriptions
    ensures forall url :: url in Delete(st, sub, s).subscriptions[sub].pollItemMap <==>
                          url in st.subscriptions[sub].pollItemMap && st.subscriptions[sub].pollItemMap[url] != s
  {
    hide Consistent, Owned, Inverse, Erased, UpdateSockets, Separate, Polled, Verified;
    PartsOf(st);
    SocketIsAttached(st, s);
    DeletedUrlOf(st.subscriptions[sub], s);
    DeletedIsClosed(st, {}, sub, s);
  }

  lemma SocketIsAttached(st: Tables, s: Socket)
    requires Owned(st) && s in st.sockets
    ensures Attached(st, s)
  {}

  lemma DeletedUrlOf(d: Subscription, s: Socket)
    requires Inverse(d, {}) && s in d.socketToUrlMap
    ensures d.socketToUrlMap[s] in d.pollItemMap
    ensures forall url :: url in Closed(d, s).pollItemMap <==> url in d.pollItemMap && d.pollItemMap[url] != s
  {
    assert forall url | url in d.pollItemMap :: d.socketToUrlMap[d.pollItemMap[url]] == url;
  }

  lemma DeletedIsGone(st: Tables, sub: Sub, s: Socket)
    requires Consistent(st) && s in st.sockets && st.sockets[s] == sub && sub in st.subscriptions
    ensures var once := Delete(st, sub, s);
            s !in once.sockets && s != NULL && s !in once.subscriptions[sub].socketToUrlMap && s !in once.poll
  {
    hide Consistent, Owned, Inverse, Erased, UpdateSockets, Separate, Distinct;
    PartsOf(st);
    ErasedHas(st.poll, s);
  }

  lemma DeleteAgain(st: Tables, sub: Sub, s: Socket)
    requires Consistent(st) && sub in st.subscriptions
    requires s !in st.sockets && s != NULL && s !in st.subscriptions[sub].socketToUrlMap && s !in st.poll
    ensures var twice := Delete(st, sub, s);
            && (Consistent(twice) <==> "" in st.subscriptions[sub].pollItemMap)
            && ("" !in st.subscriptions[sub].pollItemMap ==>
                  twice.subscriptions[sub].pollItemMap == st.subscriptions[sub].pollItemMap["" := NULL])
  {
    hide Consistent, Erased;
    var d := st.subscriptions[sub];
    var twice := Delete(st, sub, s);
    if "" in d.pollItemMap {
      DeleteNothing(st, sub, s);
    } else {
      assert twice.subscriptions[sub].pollItemMap[""] == NULL;
      if Consistent(twice) { NoNullConnection(twice, sub, ""); }
    }
  }

  lemma NoNullConnection(st: Tables, sub: Sub, url: string)
    requires Consistent(st) && sub in st.subscriptions && url in st.subscriptions[sub].pollItemMap
    ensures st.subscriptions[sub].pollItemMap[url] != NULL
  {
    hide Consistent;
    CurrentSocketConsistent(st, sub, url);
  }

  lemma DeleteNothing(st: Tables, sub: Sub, s: Socket)
    requires Consistent(st) && sub in st.subscriptions && "" in st.subscriptions[sub].pollItemMap
    requires s !in st.sockets && s != NULL && s !in st.subscriptions[sub].socketToUrlMap && s !in st.poll
    ensures Delete(st, sub, s) == st
  {
    hide Consistent, Owned, Inverse, Erased, UpdateSockets, Separate, Distinct;
    var d := st.subscriptions[sub];
    PartsOf(st);
    CurrentSocketConsistent(st, sub, "");
    ErasedHas(st.poll, s);
    assert d.pollItemMap[""] != s;
    NothingToReplace(d.pollItemMap, "");
    NothingToRemove(d.socketToUrlMap, s);
    NothingToRemove(st.sockets, s);
    NothingToRemove(st.verification, s);
    NothingToRemove(st.lastCached, s);
    NothingToReplace(st.subscriptions, sub);
  }
}
