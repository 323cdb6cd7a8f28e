/** A publisher update, from its arrival to the end of the pass, for all filters of its product. */
module Updating {
  import opened Common
  import opened Directory
  import opened Subscriptions
  import opened Reconciliation
  import opened Refreshing

  // ----- dropping publishers that are no longer listed

  /** The sockets of publishers that are no longer listed. */
  function Gone(d: Subscription, list: seq<Publisher>, urls: seq<string>): set<Socket>
    requires forall url | url in urls :: url in d.pollItemMap
  {
    set url | url in urls && !Lists(list, url) :: d.pollItemMap[url]
  }

  lemma {:induction false} DropGoneDooms(deletions: seq<Deletion>, sub: Sub, d: Subscription, list: seq<Publisher>,
                                         urls: seq<string>)
    requires forall url | url in urls :: url in d.pollItemMap
    ensures Doomed(DropGone(deletions, sub, d, list, urls)) == Doomed(deletions) + Gone(d, list, urls)
  {
    if urls != [] {
      var last := |urls| - 1;
      assert urls == urls[..last] + [urls[last]];
      var earlier := DropGone(deletions, sub, d, list, urls[..last]);
      DropGoneDooms(deletions, sub, d, list, urls[..last]);
      DoomedMore(earlier, (sub, d.pollItemMap[urls[last]]));
      assert Gone(d, list, urls)
          == Gone(d, list, urls[..last]) + if Lists(list, urls[last]) then {} else {d.pollItemMap[urls[last]]};
      hide Doomed, Lists;
    }
  }

  /** The sockets of a subscription, each reached by one URL. */
  predicate Reached(st: Tables, sub: Sub, d: Subscription) {
    && (forall url | url in d.pollItemMap :: d.pollItemMap[url] in st.sockets && st.sockets[d.pollItemMap[url]] == sub)
    && (forall a, b | a in d.pollItemMap && b in d.pollItemMap && a != b :: d.pollItemMap[a] != d.pollItemMap[b])
  }

  lemma {:induction false} DropGoneQueues(st: Tables, deletions: seq<Deletion>, sub: Sub, d: Subscription,
                                          list: seq<Publisher>, urls: seq<string>)
    requires Queued(st, deletions) && sub in st.subscriptions && Reached(st, sub, d) && Distinct(urls)
    requires forall url | url in urls :: url in d.pollItemMap && d.pollItemMap[url] !in Doomed(deletions)
    ensures Queued(st, DropGone(deletions, sub, d, list, urls))
  {
    if urls != [] {
      var last := |urls| - 1;
      var earlier := DropGone(deletions, sub, d, list, urls[..last]);
      DropGoneQueues(st, deletions, sub, d, list, urls[..last]);
      DropGoneDooms(deletions, sub, d, list, urls[..last]);
      hide Queued, Doomed, Lists;
      if !Lists(list, urls[last]) {
        QueuedMore(st, earlier, (sub, d.pollItemMap[urls[last]]));
      }
    }
  }

  lemma GoneInverts(d0: Subscription, d: Subscription, doomed: set<Socket>, verification: map<Socket, nat>,
                    list: seq<Publisher>, urls: seq<string>)
    requires Inverse(d, doomed) && Connected(d0, d, doomed, verification, Wanted(list))
    requires forall url :: url in urls <==> url in d.pollItemMap
    ensures Inverse(d, doomed + Gone(d, list, urls))
  {
    forall url ensures url in Wanted(list) <==> Lists(list, url) { WantedAreListed(list, url); }
    hide Wanted, Lists;
  }

  lemma ReachedFrom(st: Tables, deletions: seq<Deletion>, sub: Sub)
    requires Draining(st, deletions) && sub in st.subscriptions
    ensures Reached(st, sub, st.subscriptions[sub])
  {
    hide Draining, Doomed;
    var d := st.subscriptions[sub];
    CurrentSockets(st, deletions, sub);
    forall a, b | a in d.pollItemMap && b in d.pollItemMap && a != b ensures d.pollItemMap[a] != d.pollItemMap[b] {
      assert d.socketToUrlMap[d.pollItemMap[a]] == a;
      assert d.socketToUrlMap[d.pollItemMap[b]] == b;
    }
  }

  lemma NewlyDoomed(st: Tables, doomed: set<Socket>, more: set<Socket>)
    requires Sound(st, doomed)
    requires forall sub | sub in st.subscriptions :: Inverse(st.subscriptions[sub], doomed + more)
    ensures Sound(st, doomed + more)
  {
    hide Inverse, Owned, Polled, Verified, Separate;
  }

  lemma DropGoneSound(p0: Pass, pass: Pass, sub: Sub, list: seq<Publisher>, urls: seq<string>)
    requires Halfway(p0, pass, sub, list)
    requires forall url :: url in urls <==> url in pass.st.subscriptions[sub].pollItemMap
    ensures Sound(pass.st, Doomed(pass.deletions) + Gone(pass.st.subscriptions[sub], list, urls))
  {
    var st, deletions := pass.st, pass.deletions;
    var d := st.subscriptions[sub];
    var doomed, gone := Doomed(deletions), Gone(d, list, urls);
    hide Sound, Queued, Inverse, Doomed, Grown, Kept, Connected, Wanted;
    ReachedFrom(st, deletions, sub);
    forall other | other in st.subscriptions ensures Inverse(st.subscriptions[other], doomed + gone) {
      InverseOf(st, doomed, other);
      if other == sub {
        GoneInverts(p0.st.subscriptions[sub], d, doomed, st.verification, list, urls);
      } else {
        forall s | s in gone ensures s !in st.subscriptions[other].socketToUrlMap { PlaceOf(st, doomed, s, other); }
        MoreDoomed(st.subscriptions[other], doomed, gone);
      }
    }
    NewlyDoomed(st, doomed, gone);
  }

  /** Exactly the listed URLs stay connected, with the listed times. */
  ghost predicate Reconciled(d0: Subscription, d: Subscription, next: Socket, verification0: map<Socket, nat>,
                             doomed: set<Socket>, verification: map<Socket, nat>, list: seq<Publisher>) {
    && Live(d, doomed).Keys == Wanted(list).Keys
    && (forall url | url in Live(d, doomed) ::
          d.pollItemMap[url] in verification && verification[d.pollItemMap[url]] == Wanted(list)[url])
    && Kept(d0, d, next, verification0, list)
  }

  lemma LiveAreListed(d0: Subscription, d: Subscription, doomed: set<Socket>, verification: map<Socket, nat>,
                      list: seq<Publisher>, urls: seq<string>)
    requires Connected(d0, d, doomed, verification, Wanted(list))
    requires forall url :: url in urls <==> url in d.pollItemMap
    requires forall a, b | a in d.pollItemMap && b in d.pollItemMap && a != b :: d.pollItemMap[a] != d.pollItemMap[b]
    ensures var live := Live(d, doomed + Gone(d, list, urls));
            live.Keys == Wanted(list).Keys
            && forall url | url in live ::
                 d.pollItemMap[url] in verification && verification[d.pollItemMap[url]] == Wanted(list)[url]
  {
    forall url ensures url in Wanted(list) <==> Lists(list, url) { WantedAreListed(list, url); }
    hide Wanted, Lists;
  }

  lemma ReconcileOneDrains(p0: Pass, sub: Sub, list: seq<Publisher>)
    requires Intact(p0, sub)
    ensures var p1 := ReconcileOne(p0, sub, list);
            Draining(p1.st, p1.deletions) && Grown(p0, p1, sub)
            && Reconciled(p0.st.subscriptions[sub], p1.st.subscriptions[sub], p0.st.next, p0.st.verification,
                          Doomed(p1.deletions), p1.st.verification, list)
  {
    RefreshAllUpdates(p0, sub, list);
    var pass := RefreshAll(p0, sub, list);
    hide Intact, RefreshAll;
    var st := pass.st;
    var d := st.subscriptions[sub];
    var urls := Ascending(d.pollItemMap.Keys);
    hide Ascending, Draining, Grown, Kept, Wanted, Lists, Doomed, Queued, Live, Gone, Connected;
    DropGoneSound(p0, pass, sub, list, urls);
    ReachedFrom(st, pass.deletions, sub);
    DropGoneDooms(pass.deletions, sub, d, list, urls);
    DropGoneDrains(p0, pass, sub, list, urls);
    DropGoneGrows(p0, pass, sub, list, urls);
    LiveAreListed(p0.st.subscriptions[sub], d, Doomed(pass.deletions), st.verification, list, urls);
  }

  lemma DropGoneDrains(p0: Pass, pass: Pass, sub: Sub, list: seq<Publisher>, urls: seq<string>)
    requires Halfway(p0, pass, sub, list) && Distinct(urls)
    requires forall url :: url in urls <==> url in pass.st.subscriptions[sub].pollItemMap
    ensures Draining(pass.st, DropGone(pass.deletions, sub, pass.st.subscriptions[sub], list, urls))
  {
    var d := pass.st.subscriptions[sub];
    hide Sound, Queued, Doomed, Grown, Kept, Wanted, Distinct, Lists, Gone;
    DropGoneSound(p0, pass, sub, list, urls);
    ReachedFrom(pass.st, pass.deletions, sub);
    DropGoneDooms(pass.deletions, sub, d, list, urls);
    DropGoneQueues(pass.st, pass.deletions, sub, d, list, urls);
  }

  lemma DropGoneGrows(p0: Pass, pass: Pass, sub: Sub, list: seq<Publisher>, urls: seq<string>)
    requires Halfway(p0, pass, sub, list)
    requires forall url :: url in urls <==> url in pass.st.subscriptions[sub].pollItemMap
    ensures Grown(p0, pass.(deletions := DropGone(pass.deletions, sub, pass.st.subscriptions[sub], list, urls)), sub)
  {
    hide Draining, Doomed, Kept, Connected, Wanted, Lists;
    ReachedFrom(pass.st, pass.deletions, sub);
    DropGoneDooms(pass.deletions, sub, pass.st.subscriptions[sub], list, urls);
  }

  // ----- all filters of a product

  function FiltersOf(st: Tables, product: Key): set<string> {
    set sub | sub in st.subscriptions && sub.product == product :: sub.filter
  }

  function ReconcileAll(pass: Pass, product: Key, list: seq<Publisher>, filters: seq<string>): (pass': Pass)
    requires forall filter | filter in filters :: Sub(product, filter) in pass.st.subscriptions
    ensures pass'.st.subscriptions.Keys == pass.st.subscriptions.Keys
  {
    if filters == [] then pass
    else
      var last := |filters| - 1;
      ReconcileOne(ReconcileAll(pass, product, list, filters[..last]), Sub(product, filters[last]), list)
  }

  /** What working on some subscriptions leaves alone: the other subscriptions and every socket that was there. */
  ghost predicate Touched(st0: Tables, p1: Pass, subs: set<Sub>) {
    var st1 := p1.st;
    && st1.subscriptions.Keys == st0.subscriptions.Keys
    && (forall sub | sub in st0.subscriptions && sub !in subs :: st1.subscriptions[sub] == st0.subscriptions[sub])
    && (forall sub | sub in st0.subscriptions :: Rest(st1.subscriptions[sub]) == Rest(st0.subscriptions[sub]))
    && st0.next <= st1.next && st1.lastCached == st0.lastCached
    && (forall s | s in st0.sockets :: s in st1.sockets && st1.sockets[s] == st0.sockets[s])
    && (forall s | s in st0.sockets ::
          s in st0.verification && s in st1.verification && st1.verification[s] == st0.verification[s])
    && (forall s | s in st1.sockets && s !in st0.sockets :: st0.next <= s)
    && (forall s | s in Doomed(p1.deletions) && s != NULL :: s in st1.sockets && st1.sockets[s] in subs)
  }

  lemma TouchedMore(st0: Tables, p1: Pass, p2: Pass, subs: set<Sub>, sub: Sub)
    requires Touched(st0, p1, subs) && Grown(p1, p2, sub)
    ensures Touched(st0, p2, subs + {sub}) && p2.st.subscriptions.Keys == p1.st.subscriptions.Keys
  {
    hide Doomed, Rest;
    assert forall other | other in st0.subscriptions && other != sub ::
             p2.st.subscriptions[other] == p1.st.subscriptions[other];
    forall s | s in Doomed(p2.deletions) && s != NULL ensures s in p2.st.sockets && p2.st.sockets[s] in subs + {sub} {
      if s in Doomed(p1.deletions) { assert p1.st.sockets[s] in subs; }
    }
  }

  /** The subscriptions in subs have been brought up to date. */
  ghost predicate Done(st0: Tables, p1: Pass, sub: Sub, list: seq<Publisher>)
    requires sub in st0.subscriptions && sub in p1.st.subscriptions
  {
    Reconciled(st0.subscriptions[sub], p1.st.subscriptions[sub], st0.next, st0.verification, Doomed(p1.deletions),
               p1.st.verification, list)
  }

  lemma StillIntact(st0: Tables, p1: Pass, subs: set<Sub>, sub: Sub)
    requires Draining(p1.st, p1.deletions) && Touched(st0, p1, subs) && sub in st0.subscriptions && sub !in subs
    ensures Intact(p1, sub)
  {
    assert sub in p1.st.subscriptions;
    forall s | s in p1.st.subscriptions[sub].socketToUrlMap ensures s !in Doomed(p1.deletions) {
      hide Sound, Doomed, Queued;
      PlaceOfUrl(p1.st, Doomed(p1.deletions), sub, s);
      NoNullSocket(p1.st, p1.deletions, sub);
    }
    hide Draining, Touched;
  }

  lemma ReconciledRelative(d0: Subscription, d: Subscription, next0: Socket, next1: Socket,
                           verification0: map<Socket, nat>, verification1: map<Socket, nat>, doomed: set<Socket>,
                           verification: map<Socket, nat>, list: seq<Publisher>)
    requires Reconciled(d0, d, next1, verification1, doomed, verification, list)
    requires next0 <= next1
    requires forall url | url in d0.pollItemMap ::
               d0.pollItemMap[url] in verification0 && d0.pollItemMap[url] in verification1
               && verification1[d0.pollItemMap[url]] == verification0[d0.pollItemMap[url]]
    ensures Reconciled(d0, d, next0, verification0, doomed, verification, list)
  {
    hide Live, Wanted, Steady;
  }

  lemma StillReconciled(d0: Subscription, d: Subscription, next: Socket, verification0: map<Socket, nat>,
                        doomed: set<Socket>, doomed1: set<Socket>, verification: map<Socket, nat>,
                        verification1: map<Socket, nat>, list: seq<Publisher>)
    requires Reconciled(d0, d, next, verification0, doomed, verification, list)
    requires forall url | url in d.pollItemMap :: d.pollItemMap[url] in doomed1 <==> d.pollItemMap[url] in doomed
    requires forall url | url in d.pollItemMap ::
               d.pollItemMap[url] in verification && d.pollItemMap[url] in verification1
               && verification1[d.pollItemMap[url]] == verification[d.pollItemMap[url]]
    ensures Reconciled(d0, d, next, verification0, doomed1, verification1, list)
  {
    hide Kept, Wanted;
    assert Live(d, doomed1) == Live(d, doomed);
  }

  lemma OthersStayDone(st0: Tables, p1: Pass, p2: Pass, sub: Sub, list: seq<Publisher>, other: Sub)
    requires other in st0.subscriptions && other in p1.st.subscriptions && Done(st0, p1, other, list)
    requires Draining(p1.st, p1.deletions) && Grown(p1, p2, sub) && other != sub
    ensures Done(st0, p2, other, list)
  {
    hide Reconciled, Doomed, Draining;
    CurrentSockets(p1.st, p1.deletions, other);
    StillReconciled(st0.subscriptions[other], p1.st.subscriptions[other], st0.next,
                    st0.verification, Doomed(p1.deletions),
                    Doomed(p2.deletions), p1.st.verification, p2.st.verification, list);
  }

  lemma NewlyDone(st0: Tables, p1: Pass, subs: set<Sub>, sub: Sub, list: seq<Publisher>)
    requires Consistent(st0) && Draining(p1.st, p1.deletions) && Touched(st0, p1, subs)
    requires sub in st0.subscriptions && sub !in subs
    ensures sub in p1.st.subscriptions
    ensures var p2 := ReconcileOne(p1, sub, list);
            Draining(p2.st, p2.deletions) && Grown(p1, p2, sub) && Done(st0, p2, sub, list)
  {
    var p2 := ReconcileOne(p1, sub, list);
    StillIntact(st0, p1, subs, sub);
    ReconcileOneDrains(p1, sub, list);
    assert Draining(st0, []);
    hide Reconciled, Doomed, Sound, Queued, Intact, ReconcileOne;
    CurrentSockets(st0, [], sub);
    ReconciledRelative(st0.subscriptions[sub], p2.st.subscriptions[sub], st0.next, p1.st.next, st0.verification,
                       p1.st.verification, Doomed(p2.deletions), p2.st.verification, list);
  }

  function Subs(product: Key, filters: seq<string>): set<Sub> {
    set filter | filter in filters :: Sub(product, filter)
  }

  lemma NothingTouched(st: Tables)
    requires Consistent(st)
    ensures Draining(st, []) && Touched(st, Pass(st, []), {})
  {
    hide Sound;
    VerifiedOf(st, {});
  }

  ghost predicate AllDone(st0: Tables, p1: Pass, product: Key, list: seq<Publisher>, filters: seq<string>) {
    && Draining(p1.st, p1.deletions)
    && Touched(st0, p1, Subs(product, filters))
    && forall filter | filter in filters ::
         Sub(product, filter) in st0.subscriptions && Sub(product, filter) in p1.st.subscriptions
         && Done(st0, p1, Sub(product, filter), list)
  }

  lemma OneMoreDone(st0: Tables, p1: Pass, product: Key, list: seq<Publisher>, earlier: seq<string>, filter: string)
    requires Consistent(st0) && AllDone(st0, p1, product, list, earlier)
    requires filter !in earlier && Sub(product, filter) in st0.subscriptions
             && Sub(product, filter) in p1.st.subscriptions
    ensures AllDone(st0, ReconcileOne(p1, Sub(product, filter), list), product, list, earlier + [filter])
  {
    hide Consistent, Done, Touched, ReconcileOne, Draining, Grown;
    var sub := Sub(product, filter);
    NewlyDone(st0, p1, Subs(product, earlier), sub, list);
    var p2 := ReconcileOne(p1, sub, list);
    TouchedMore(st0, p1, p2, Subs(product, earlier), sub);
    assert Subs(product, earlier + [filter]) == Subs(product, earlier) + {sub};
    forall other | other in earlier ensures Done(st0, p2, Sub(product, other), list) {
      OthersStayDone(st0, p1, p2, sub, list, Sub(product, other));
    }
  }

  lemma {:induction false} ReconcileAllDrains(st0: Tables, product: Key, list: seq<Publisher>, filters: seq<string>)
    requires Consistent(st0) && Distinct(filters)
    requires forall filter | filter in filters :: Sub(product, filter) in st0.subscriptions
    ensures AllDone(st0, ReconcileAll(Pass(st0, []), product, list, filters), product, list, filters)
  {
    if filters == [] {
      hide Consistent;
      assert Subs(product, filters) == {};
      NothingTouched(st0);
    } else {
      var last := |filters| - 1;
      assert filters == filters[..last] + [filters[last]];
      hide Consistent, AllDone, ReconcileOne;
      ReconcileAllDrains(st0, product, list, filters[..last]);
      OneMoreDone(st0, ReconcileAll(Pass(st0, []), product, list, filters[..last]),
                  product, list, filters[..last], filters[last]);
    }
  }

  // ----- the whole pass

  /** A publisher list arrives for a product; at the end of the pass the queued sockets are closed. */
  ghost function UpdatePublishers(st: Tables, product: Key, list: seq<Publisher>): (st': Tables)
    requires Consistent(st)
    ensures Consistent(st')
  {
    var filters := Ascending(FiltersOf(st, product));
    var p1 := ReconcileAll(Pass(st, []), product, list, filters);
    ReconcileAllDrains(st, product, list, filters);
    DeleteAllSpares(p1.st, p1.deletions);
    DeleteAll(p1.st, p1.deletions)
  }

  /** Every connection has a registration time to expect. */
  predicate Timed(st: Tables, sub: Sub)
    requires sub in st.subscriptions
  {
    forall url | url in st.subscriptions[sub].pollItemMap :: st.subscriptions[sub].pollItemMap[url] in st.verification
  }

  /** A URL whose time has not changed keeps its socket and its cached value; every other socket is fresh. */
  ghost predicate Retained(st: Tables, st': Tables, sub: Sub, list: seq<Publisher>)
    requires sub in st.subscriptions && sub in st'.subscriptions && Timed(st, sub)
  {
    var before, after := st.subscriptions[sub].pollItemMap, st'.subscriptions[sub].pollItemMap;
    && (forall url | url in before && url in after ::
          (Steady(list, url, st.verification[before[url]]) ==> after[url] == before[url]))
    && (forall url | url in after ::
          (url in before && after[url] == before[url] && SameValue(st.lastCached, st'.lastCached, after[url])
           && Steady(list, url, st.verification[before[url]]))
          || (st.next <= after[url] && after[url] !in st'.lastCached))
  }

  predicate SameValue(m: map<Socket, Product>, m': map<Socket, Product>, s: Socket) {
    (s in m' <==> s in m) && (s in m ==> m'[s] == m[s])
  }

  lemma ConsistentTimes(st: Tables, sub: Sub)
    requires Consistent(st) && sub in st.subscriptions
    ensures Timed(st, sub)
    ensures forall url | url in st.subscriptions[sub].pollItemMap ::
              st.subscriptions[sub].pollItemMap[url] in st.sockets
    ensures forall s | s in st.lastCached :: s in st.sockets && s < st.next
  {
    assert Verified(st) && Separate(st);
    assert Draining(st, []);
    hide Sound, Queued;
    CurrentSockets(st, [], sub);
  }

  lemma SparedSub(st: Tables, st': Tables, doomed: set<Socket>, sub: Sub)
    requires Spared(st, st', doomed) && sub in st.subscriptions
    ensures sub in st'.subscriptions && st'.subscriptions[sub].pollItemMap == Live(st.subscriptions[sub], doomed)
    ensures Rest(st'.subscriptions[sub]) == Rest(st.subscriptions[sub])
    ensures SameBut(st.verification, st'.verification, doomed) && SameBut(st.lastCached, st'.lastCached, doomed)
  {
    hide Live, SameBut;
  }

  lemma TouchedParts(st: Tables, p1: Pass, subs: set<Sub>, sub: Sub)
    requires Touched(st, p1, subs) && sub in st.subscriptions
    ensures sub in p1.st.subscriptions && (sub !in subs ==> p1.st.subscriptions[sub] == st.subscriptions[sub])
    ensures Rest(p1.st.subscriptions[sub]) == Rest(st.subscriptions[sub])
    ensures p1.st.lastCached == st.lastCached && st.next <= p1.st.next
    ensures forall s | s in st.sockets ::
              s in st.verification && s in p1.st.verification && p1.st.verification[s] == st.verification[s]
    ensures forall s | s in Doomed(p1.deletions) && s != NULL :: s in p1.st.sockets && p1.st.sockets[s] in subs
    ensures forall s | s in st.sockets :: s in p1.st.sockets && p1.st.sockets[s] == st.sockets[s]
  {
    hide Doomed;
  }

  lemma UpdatedConnections(d: Subscription, doomed: set<Socket>, verification: map<Socket, nat>, st': Tables, sub: Sub,
                           wanted: map<string, nat>)
    requires Live(d, doomed).Keys == wanted.Keys
    requires forall url | url in Live(d, doomed) ::
               d.pollItemMap[url] in verification && verification[d.pollItemMap[url]] == wanted[url]
    requires sub in st'.subscriptions && st'.subscriptions[sub].pollItemMap == Live(d, doomed)
    requires SameBut(verification, st'.verification, doomed)
    ensures Timed(st', sub) && Connections(st', sub) == wanted
  {}

  lemma UpdatedSockets(st: Tables, d: Subscription, doomed: set<Socket>, st': Tables, sub: Sub, list: seq<Publisher>)
    requires sub in st.subscriptions && Timed(st, sub) && Kept(st.subscriptions[sub], d, st.next, st.verification, list)
    requires sub in st'.subscriptions && st'.subscriptions[sub].pollItemMap == Live(d, doomed)
    requires SameBut(st.lastCached, st'.lastCached, doomed)
    requires forall s | s in st.lastCached :: s < st.next
    ensures Retained(st, st', sub, list)
  {
    hide Steady;
  }

  lemma UpdatedFilter(st: Tables, p1: Pass, st': Tables, sub: Sub, list: seq<Publisher>, subs: set<Sub>)
    requires Consistent(st) && sub in st.subscriptions && sub in p1.st.subscriptions
    requires Touched(st, p1, subs) && Done(st, p1, sub, list) && Spared(p1.st, st', Doomed(p1.deletions))
    ensures sub in st'.subscriptions && Timed(st', sub) && Timed(st, sub)
    ensures Connections(st', sub) == Wanted(list) && Retained(st, st', sub, list)
    ensures Rest(st'.subscriptions[sub]) == Rest(st.subscriptions[sub])
  {
    var d, doomed := p1.st.subscriptions[sub], Doomed(p1.deletions);
    hide Consistent, Doomed, Wanted, Live, Kept, Retained, Timed, Connections, Touched, Spared, SameBut;
    ConsistentTimes(st, sub);
    SparedSub(p1.st, st', doomed, sub);
    TouchedParts(st, p1, subs, sub);
    UpdatedConnections(d, doomed, p1.st.verification, st', sub, Wanted(list));
    UpdatedSockets(st, d, doomed, st', sub, list);
  }

  lemma NobodyDoomed(d: Subscription, doomed: set<Socket>)
    requires forall url | url in d.pollItemMap :: d.pollItemMap[url] !in doomed
    ensures Live(d, doomed) == d.pollItemMap
  {}

  /** In a consistent state the sockets determine the other map. */
  lemma InverseDetermines(d: Subscription, d': Subscription)
    requires Inverse(d, {}) && Inverse(d', {}) && d.pollItemMap == d'.pollItemMap && Rest(d) == Rest(d')
    ensures d == d'
  {
    assert d.socketToUrlMap == d'.socketToUrlMap;
  }

  /** Nothing changes for a subscription to another product. */
  ghost predicate Undisturbed(st: Tables, st': Tables, sub: Sub)
    requires sub in st.subscriptions && sub in st'.subscriptions
  {
    var d := st.subscriptions[sub];
    && st'.subscriptions[sub] == d
    && (forall url | url in d.pollItemMap ::
          var s := d.pollItemMap[url];
          SameValue(st.lastCached, st'.lastCached, s)
          && s in st.verification && s in st'.verification && st'.verification[s] == st.verification[s])
  }

  lemma UntouchedFilter(st: Tables, p1: Pass, st': Tables, sub: Sub, subs: set<Sub>)
    requires Consistent(st) && Consistent(st') && sub in st.subscriptions && sub !in subs
    requires Touched(st, p1, subs) && Spared(p1.st, st', Doomed(p1.deletions))
    ensures sub in st'.subscriptions && Undisturbed(st, st', sub)
  {
    hide Doomed, Live, Touched, Spared, Sound, Inverse, Queued, Consistent, Draining;
    var d, doomed := st.subscriptions[sub], Doomed(p1.deletions);
    TouchedParts(st, p1, subs, sub);
    SparedSub(p1.st, st', doomed, sub);
    NothingDrains(st);
    NothingDrains(st');
    CurrentSockets(st, [], sub);
    NobodyDoomed(d, doomed);
    InverseOf(st, {}, sub);
    InverseOf(st', {}, sub);
    InverseDetermines(d, st'.subscriptions[sub]);
  }

  lemma NothingDrains(st: Tables)
    requires Consistent(st)
    ensures Draining(st, []) && Sound(st, {})
  {
    hide Sound;
    assert Doomed([]) == {} && Queued(st, []);
  }

  /** Incremental equals from scratch: after a publisher list has been processed, every filter of the product is
      connected to exactly the listed publishers, each expected at its listed time, whatever was connected before. */
  lemma UpdatesReachTheList(st: Tables, product: Key, list: seq<Publisher>)
    requires Consistent(st)
    ensures var st' := UpdatePublishers(st, product, list);
            && Consistent(st') && st'.subscriptions.Keys == st.subscriptions.Keys
            && (forall sub | sub in st.subscriptions && sub.product == product ::
                  Timed(st, sub) && Timed(st', sub) && Connections(st', sub) == Wanted(list)
                  && Retained(st, st', sub, list) && Rest(st'.subscriptions[sub]) == Rest(st.subscriptions[sub]))
            && (forall sub | sub in st.subscriptions && sub.product != product :: Undisturbed(st, st', sub))
  {
    var st' := UpdatePublishers(st, product, list);
    var filters := Ascending(FiltersOf(st, product));
    var p1 := ReconcileAll(Pass(st, []), product, list, filters);
    ReconcileAllDrains(st, product, list, filters);
    DeleteAllSpares(p1.st, p1.deletions);
    hide Ascending, Consistent, Touched, Done, Spared, Connections, Timed, Retained,
        Undisturbed, ReconcileAll, Wanted, Doomed;
    assert Spared(p1.st, st', Doomed(p1.deletions));
    assert st'.subscriptions.Keys == st.subscriptions.Keys;
    forall sub | sub in st.subscriptions && sub.product == product
      ensures Timed(st, sub) && Timed(st', sub) && Connections(st', sub) == Wanted(list)
      ensures Retained(st, st', sub, list) && Rest(st'.subscriptions[sub]) == Rest(st.subscriptions[sub])
    {
      assert sub.filter in filters && Sub(product, sub.filter) == sub;
      UpdatedFilter(st, p1, st', sub, list, Subs(product, filters));
    }
    forall sub | sub in st.subscriptions && sub.product != product ensures Undisturbed(st, st', sub) {
      UntouchedFilter(st, p1, st', sub, Subs(product, filters));
    }
  }
}
