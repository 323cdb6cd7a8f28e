/** Comparing a subscription with a new publisher list. */
module Refreshing {
  import opened Common
  import opened Directory
  import opened Subscriptions
  import opened Reconciliation

  /** The tables in the middle of a pass, and the sockets to be closed at its end. */
  datatype Pass = Pass(st: Tables, deletions: seq<Deletion>)

  function Verification(st: Tables, s: Socket): nat {
    if s in st.verification then st.verification[s] else 0
  }

  /** Reading the verification map at the null pointer. */
  function TouchNull(st: Tables): Tables {
    if NULL in st.verification then st else st.(verification := st.verification[NULL := 0])
  }

  /** One listed publisher: keep its socket, or connect to it and queue what its URL led to before. For a publisher that
      is new, that is the null pointer. */
  function Refresh(pass: Pass, sub: Sub, p: Publisher): Pass
    requires sub in pass.st.subscriptions
  {
    var d := pass.st.subscriptions[sub];
    if p.Url() in d.pollItemMap then
      var s := d.pollItemMap[p.Url()];
      if Verification(pass.st, s) == p.regTime then pass
      else Pass(Connect(pass.st, sub, p.Url(), p.regTime), pass.deletions + [(sub, s)])
    else
      var st := TouchNull(pass.st);
      Pass(Connect(st, sub, p.Url(), p.regTime),
           if Verification(st, NULL) != p.regTime then pass.deletions + [(sub, NULL)] else pass.deletions)
  }

  function RefreshAll(pass: Pass, sub: Sub, list: seq<Publisher>): (pass': Pass)
    requires sub in pass.st.subscriptions
    ensures pass'.st.subscriptions.Keys == pass.st.subscriptions.Keys
  {
    if list == [] then pass else Refresh(RefreshAll(pass, sub, list[..|list| - 1]), sub, list[|list| - 1])
  }

  /** Publishers that are no longer listed. */
  function DropGone(deletions: seq<Deletion>, sub: Sub, d: Subscription, list: seq<Publisher>,
                    urls: seq<string>): seq<Deletion>
    requires forall url | url in urls :: url in d.pollItemMap
  {
    if urls == [] then deletions
    else
      var last := |urls| - 1;
      var earlier := DropGone(deletions, sub, d, list, urls[..last]);
      if Lists(list, urls[last]) then earlier else earlier + [(sub, d.pollItemMap[urls[last]])]
  }

  function ReconcileOne(pass: Pass, sub: Sub, list: seq<Publisher>): Pass
    requires sub in pass.st.subscriptions
  {
    var refreshed := RefreshAll(pass, sub, list);
    var d := refreshed.st.subscriptions[sub];
    refreshed.(deletions := DropGone(refreshed.deletions, sub, d, list, Ascending(d.pollItemMap.Keys)))
  }

  // ----- the deletion list grows at its end

  lemma {:induction false} DoomedMore(deletions: seq<Deletion>, x: Deletion)
    ensures Doomed(deletions + [x]) == Doomed(deletions) + {x.1}
  {
    if deletions == [] {
      assert (deletions + [x])[1..] == [];
    } else {
      assert (deletions + [x])[1..] == deletions[1..] + [x];
      DoomedMore(deletions[1..], x);
    }
  }

  lemma {:induction false} QueuedMore(st: Tables, deletions: seq<Deletion>, x: Deletion)
    requires Queued(st, deletions) && x.0 in st.subscriptions
    requires x.1 != NULL ==> x.1 in st.sockets && st.sockets[x.1] == x.0 && x.1 !in Doomed(deletions)
    ensures Queued(st, deletions + [x])
  {
    if deletions == [] {
      assert (deletions + [x])[1..] == [];
    } else {
      assert (deletions + [x])[1..] == deletions[1..] + [x];
      QueuedMore(st, deletions[1..], x);
      DoomedMore(deletions[1..], x);
    }
  }

  lemma {:induction false} DoomedAreSockets(st: Tables, deletions: seq<Deletion>, s: Socket)
    requires Queued(st, deletions) && s in Doomed(deletions) && s != NULL
    ensures s in st.sockets && st.sockets[s] in st.subscriptions
  {
    if s != deletions[0].1 { DoomedAreSockets(st, deletions[1..], s); }
  }

  // ----- Refresh keeps the tables sound

  lemma TouchNullKeeps(st: Tables, doomed: set<Socket>)
    requires Sound(st, doomed)
    ensures Sound(TouchNull(st), doomed)
  {
    hide Sound;
    VerifiedOf(st, doomed);
    if NULL !in st.verification { NewVerification(st, doomed, st.verification[NULL := 0]); }
  }

  lemma ConnectQueues(st: Tables, deletions: seq<Deletion>, sub: Sub, url: string, regTime: nat)
    requires Draining(st, deletions) && sub in st.subscriptions
    ensures Queued(Connect(st, sub, url, regTime), deletions)
  {
    hide Sound, Queued, Doomed;
    NextIsFresh(st, Doomed(deletions));
    QueuedWithoutNull(st, Connect(st, sub, url, regTime), deletions);
  }

  /** A publisher that has moved on: its old socket is queued. */
  lemma ReconnectDrains(st: Tables, deletions: seq<Deletion>, sub: Sub, url: string, regTime: nat)
    requires Draining(st, deletions) && sub in st.subscriptions && url in st.subscriptions[sub].pollItemMap
    requires st.subscriptions[sub].pollItemMap[url] !in Doomed(deletions)
    ensures Draining(Connect(st, sub, url, regTime), deletions + [(sub, st.subscriptions[sub].pollItemMap[url])])
  {
    var s := st.subscriptions[sub].pollItemMap[url];
    hide Sound, Queued, Inverse;
    NextIsNotDoomed(st, deletions);
    NextIsFresh(st, Doomed(deletions));
    ConnectKeeps(st, Doomed(deletions), sub, url, regTime);
    ConnectQueues(st, deletions, sub, url, regTime);
    CurrentSocket(st, Doomed(deletions), sub, url);
    DoomedMore(deletions, (sub, s));
    QueuedMore(Connect(st, sub, url, regTime), deletions, (sub, s));
    hide Connect;
  }

  /** A new publisher. */
  lemma ConnectDrains(st: Tables, deletions: seq<Deletion>, sub: Sub, url: string, regTime: nat)
    requires Draining(st, deletions) && sub in st.subscriptions && url !in st.subscriptions[sub].pollItemMap
    ensures Draining(Connect(st, sub, url, regTime), deletions)
    ensures Draining(Connect(st, sub, url, regTime), deletions + [(sub, NULL)])
  {
    var st' := Connect(st, sub, url, regTime);
    hide Sound, Queued, Inverse;
    NextIsNotDoomed(st, deletions);
    ConnectNewKeeps(st, Doomed(deletions), sub, url, regTime);
    hide Doomed;
    ConnectQueues(st, deletions, sub, url, regTime);
    assert sub in st'.subscriptions;
    hide Connect;
    DoomNull(st', Doomed(deletions));
    DoomedMore(deletions, (sub, NULL));
    QueuedMore(st', deletions, (sub, NULL));
  }

  lemma CurrentSocket(st: Tables, doomed: set<Socket>, sub: Sub, url: string)
    requires Sound(st, doomed) && sub in st.subscriptions && url in st.subscriptions[sub].pollItemMap
    ensures var s := st.subscriptions[sub].pollItemMap[url];
            s in st.sockets && st.sockets[s] == sub && NULL < s < st.next && s in st.verification
  {
    InverseOf(st, doomed, sub);
    PlaceOfUrl(st, doomed, sub, st.subscriptions[sub].pollItemMap[url]);
    assert Separate(st) && Verified(st);
    hide Owned, Polled;
  }

  lemma NextIsFresh(st: Tables, doomed: set<Socket>)
    requires Sound(st, doomed)
    ensures st.next > METRICS && st.next !in st.sockets
  {}

  lemma NextIsNotDoomed(st: Tables, deletions: seq<Deletion>)
    requires Draining(st, deletions)
    ensures st.next !in Doomed(deletions)
  {
    NextIsFresh(st, Doomed(deletions));
    if st.next in Doomed(deletions) { DoomedAreSockets(st, deletions, st.next); }
    hide Sound, Queued;
  }

  lemma PlaceOfUrl(st: Tables, doomed: set<Socket>, sub: Sub, s: Socket)
    requires Sound(st, doomed) && sub in st.subscriptions && s in st.subscriptions[sub].socketToUrlMap
    ensures s in st.sockets && st.sockets[s] == sub
  {
    assert Owned(st);
    hide Sound;
  }

  lemma DoomNull(st: Tables, doomed: set<Socket>)
    requires Sound(st, doomed)
    ensures Sound(st, doomed + {NULL})
  {
    hide Inverse, Owned, Polled, Verified, Separate;
    forall sub | sub in st.subscriptions ensures Inverse(st.subscriptions[sub], doomed + {NULL}) {
      DoomNullIn(st, doomed, sub);
    }
  }

  lemma DoomNullIn(st: Tables, doomed: set<Socket>, sub: Sub)
    requires Sound(st, doomed) && sub in st.subscriptions
    ensures Inverse(st.subscriptions[sub], doomed + {NULL})
  {
    hide Sound;
    NullIsNowhere(st, doomed, sub);
    InverseOf(st, doomed, sub);
  }

  // ----- what a reconciled subscription looks like

  lemma {:induction false} WantedAreListed(list: seq<Publisher>, url: string)
    ensures url in Wanted(list) <==> Lists(list, url)
  {
    if list != [] {
      var last := |list| - 1;
      WantedAreListed(list[..last], url);
      if Lists(list[..last], url) {
        var k :| 0 <= k < last && list[..last][k].Url() == url;
        assert list[k].Url() == url;
      }
      if Lists(list, url) && list[last].Url() != url {
        var k :| 0 <= k < |list| && list[k].Url() == url;
        assert list[..last][k].Url() == url;
      }
    }
  }

  /** Every listing of the URL carries this registration time. */
  predicate Steady(list: seq<Publisher>, url: string, regTime: nat) {
    forall k | 0 <= k < |list| && list[k].Url() == url :: list[k].regTime == regTime
  }

  /** What working on one subscription leaves alone. */
  ghost predicate Grown(p0: Pass, p1: Pass, sub: Sub) {
    var st0, st1 := p0.st, p1.st;
    && sub in st0.subscriptions && st1.subscriptions.Keys == st0.subscriptions.Keys
    && (forall other | other in st0.subscriptions && other != sub ::
          st1.subscriptions[other] == st0.subscriptions[other])
    && Rest(st1.subscriptions[sub]) == Rest(st0.subscriptions[sub])
    && st0.next <= st1.next && st1.lastCached == st0.lastCached
    && (forall s | s in st0.sockets :: s in st1.sockets && st1.sockets[s] == st0.sockets[s])
    && (forall s | s in st0.sockets ::
          s in st0.verification && s in st1.verification && st1.verification[s] == st0.verification[s])
    && (forall s | s in st1.sockets && s !in st0.sockets :: st0.next <= s && st1.sockets[s] == sub)
    && Doomed(p0.deletions) <= Doomed(p1.deletions)
    && (forall s | s in Doomed(p1.deletions) && s !in Doomed(p0.deletions) && s != NULL ::
          s in st1.sockets && st1.sockets[s] == sub)
  }

  /** A subscription that had the connections of d0 is connected to what is wanted besides, with the wanted times, and
      only wanted URLs have had their sockets doomed. */
  ghost predicate Connected(d0: Subscription, d: Subscription, doomed: set<Socket>, verification: map<Socket, nat>,
                            wanted: map<string, nat>) {
    && (forall url :: url in d.pollItemMap <==> url in d0.pollItemMap || url in wanted)
    && (forall url | url in d.pollItemMap :: d.pollItemMap[url] !in doomed && d.pollItemMap[url] in verification)
    && (forall url | url in wanted :: verification[d.pollItemMap[url]] == wanted[url])
    && (forall s | s in d.socketToUrlMap && s in doomed :: d.socketToUrlMap[s] in wanted)
  }

  /** Old sockets stay exactly where their publisher is not listed or its time has not changed; all others are
      fresh. */
  ghost predicate Kept(d0: Subscription, d: Subscription, next: Socket, verification: map<Socket, nat>,
                       list: seq<Publisher>) {
    && (forall url | url in d0.pollItemMap ::
          url in d.pollItemMap && d0.pollItemMap[url] in verification
          && (Steady(list, url, verification[d0.pollItemMap[url]]) ==> d.pollItemMap[url] == d0.pollItemMap[url]))
    && (forall url | url in d.pollItemMap ::
          (url in d0.pollItemMap && d.pollItemMap[url] == d0.pollItemMap[url]
           && d0.pollItemMap[url] in verification && Steady(list, url, verification[d0.pollItemMap[url]]))
          || next <= d.pollItemMap[url])
  }

  /** None of the subscription's sockets is doomed yet. */
  ghost predicate Intact(pass: Pass, sub: Sub) {
    && Draining(pass.st, pass.deletions)
    && sub in pass.st.subscriptions
    && (forall s | s in pass.st.subscriptions[sub].socketToUrlMap :: s !in Doomed(pass.deletions))
  }

  ghost predicate Halfway(p0: Pass, p1: Pass, sub: Sub, list: seq<Publisher>) {
    && Draining(p1.st, p1.deletions)
    && Grown(p0, p1, sub)
    && Connected(p0.st.subscriptions[sub], p1.st.subscriptions[sub], Doomed(p1.deletions),
                 p1.st.verification, Wanted(list))
    && Kept(p0.st.subscriptions[sub], p1.st.subscriptions[sub], p0.st.next, p0.st.verification, list)
  }

  lemma NothingGrown(pass: Pass, sub: Sub)
    requires Draining(pass.st, pass.deletions) && sub in pass.st.subscriptions
    ensures Grown(pass, pass, sub)
  {
    hide Sound, Queued;
    VerifiedOf(pass.st, Doomed(pass.deletions));
  }

  lemma NothingConnected(d: Subscription, doomed: set<Socket>, verification: map<Socket, nat>, next: Socket)
    requires Inverse(d, doomed)
    requires forall s | s in d.socketToUrlMap :: s !in doomed
    requires forall url | url in d.pollItemMap :: d.pollItemMap[url] in verification
    ensures Connected(d, d, doomed, verification, Wanted([]))
    ensures Kept(d, d, next, verification, [])
  {}

  lemma NothingRefreshed(p0: Pass, sub: Sub)
    requires Intact(p0, sub)
    ensures Halfway(p0, p0, sub, [])
  {
    hide Draining, Grown, Inverse, Doomed, Kept, Connected, Wanted;
    CurrentSockets(p0.st, p0.deletions, sub);
    NothingConnected(p0.st.subscriptions[sub], Doomed(p0.deletions), p0.st.verification, p0.st.next);
    NothingGrown(p0, sub);
  }

  lemma GrownBoth(a: Pass, b: Pass, c: Pass, sub: Sub)
    requires Grown(a, b, sub) && Grown(b, c, sub)
    ensures Grown(a, c, sub)
  {
    hide Doomed;
  }

  lemma RefreshDrains(pass: Pass, sub: Sub, p: Publisher)
    requires Draining(pass.st, pass.deletions) && sub in pass.st.subscriptions
    requires forall url | url in pass.st.subscriptions[sub].pollItemMap ::
               pass.st.subscriptions[sub].pollItemMap[url] !in Doomed(pass.deletions)
    ensures Draining(Refresh(pass, sub, p).st, Refresh(pass, sub, p).deletions)
  {
    hide Sound, Queued, Connect, Doomed;
    if p.Url() in pass.st.subscriptions[sub].pollItemMap {
      ReconnectDrains(pass.st, pass.deletions, sub, p.Url(), p.regTime);
    } else {
      TouchNullDrains(pass.st, pass.deletions);
      ConnectDrains(TouchNull(pass.st), pass.deletions, sub, p.Url(), p.regTime);
    }
  }

  lemma TouchNullDrains(st: Tables, deletions: seq<Deletion>)
    requires Draining(st, deletions)
    ensures Draining(TouchNull(st), deletions)
  {
    hide Sound, Queued;
    TouchNullKeeps(st, Doomed(deletions));
    QueuedWithoutNull(st, TouchNull(st), deletions);
  }

  lemma ConnectGrows(pass: Pass, st: Tables, sub: Sub, url: string, regTime: nat, deletions: seq<Deletion>)
    requires Draining(pass.st, pass.deletions) && sub in pass.st.subscriptions
             && (st == pass.st || st == TouchNull(pass.st))
    requires Doomed(pass.deletions) <= Doomed(deletions)
    requires forall s | s in Doomed(deletions) && s !in Doomed(pass.deletions) && s != NULL ::
               s in pass.st.sockets && pass.st.sockets[s] == sub
    ensures Grown(pass, Pass(Connect(st, sub, url, regTime), deletions), sub)
  {
    hide Sound, Queued, Doomed, Rest, Verified;
    NextIsFresh(pass.st, Doomed(pass.deletions));
    VerifiedOf(pass.st, Doomed(pass.deletions));
    VerifiedSockets(pass.st);
    ConnectRests(st, sub, url, regTime);
  }

  lemma VerifiedSockets(st: Tables)
    requires Verified(st)
    ensures forall s | s in st.sockets :: s in st.verification
  {}

  lemma ConnectRests(st: Tables, sub: Sub, url: string, regTime: nat)
    requires sub in st.subscriptions
    ensures Rest(Connect(st, sub, url, regTime).subscriptions[sub]) == Rest(st.subscriptions[sub])
  {}

  lemma RefreshGrows(pass: Pass, sub: Sub, p: Publisher)
    requires Draining(pass.st, pass.deletions) && sub in pass.st.subscriptions
    ensures Grown(pass, Refresh(pass, sub, p), sub)
  {
    hide Draining, Doomed, Grown, Connect, TouchNull;
    var st, deletions := pass.st, pass.deletions;
    NothingGrown(pass, sub);
    if p.Url() in st.subscriptions[sub].pollItemMap {
      var s := st.subscriptions[sub].pollItemMap[p.Url()];
      CurrentSocketDraining(st, deletions, sub, p.Url());
      DoomedMore(deletions, (sub, s));
      ConnectGrows(pass, st, sub, p.Url(), p.regTime, deletions + [(sub, s)]);
    } else {
      DoomedMore(deletions, (sub, NULL));
      ConnectGrows(pass, TouchNull(st), sub, p.Url(), p.regTime, deletions + [(sub, NULL)]);
      ConnectGrows(pass, TouchNull(st), sub, p.Url(), p.regTime, deletions);
    }
  }

  lemma CurrentSocketDraining(st: Tables, deletions: seq<Deletion>, sub: Sub, url: string)
    requires Draining(st, deletions) && sub in st.subscriptions && url in st.subscriptions[sub].pollItemMap
    ensures var s := st.subscriptions[sub].pollItemMap[url];
            s in st.sockets && st.sockets[s] == sub && NULL < s < st.next && s in st.verification
  {
    hide Sound;
    CurrentSocket(st, Doomed(deletions), sub, url);
  }

  lemma SteadyParts(list: seq<Publisher>, url: string, regTime: nat)
    requires list != [] && Steady(list, url, regTime)
    ensures Steady(list[..|list| - 1], url, regTime)
    ensures list[|list| - 1].Url() == url ==> list[|list| - 1].regTime == regTime
  {
    var earlier := list[..|list| - 1];
    forall k | 0 <= k < |earlier| && earlier[k].Url() == url ensures earlier[k].regTime == regTime {
      assert list[k].Url() == url;
    }
  }

  lemma CurrentSockets(st: Tables, deletions: seq<Deletion>, sub: Sub)
    requires Draining(st, deletions) && sub in st.subscriptions
    ensures forall url | url in st.subscriptions[sub].pollItemMap ::
              var s := st.subscriptions[sub].pollItemMap[url];
              s in st.sockets && st.sockets[s] == sub && NULL < s < st.next && s in st.verification
    ensures Inverse(st.subscriptions[sub], Doomed(deletions))
    ensures st.next !in Doomed(deletions) && NULL < st.next && st.next !in st.subscriptions[sub].socketToUrlMap
  {
    hide Sound, Queued, Inverse;
    InverseOf(st, Doomed(deletions), sub);
    NextIsNotDoomed(st, deletions);
    NextIsFresh(st, Doomed(deletions));
    if st.next in st.subscriptions[sub].socketToUrlMap { PlaceOfUrl(st, Doomed(deletions), sub, st.next); }
    forall url | url in st.subscriptions[sub].pollItemMap
      ensures var s := st.subscriptions[sub].pollItemMap[url];
              s in st.sockets && st.sockets[s] == sub && NULL < s < st.next && s in st.verification
    {
      CurrentSocketDraining(st, deletions, sub, url);
    }
  }

  lemma WantedMore(list: seq<Publisher>, p: Publisher)
    ensures Wanted(list + [p]) == Wanted(list)[p.Url() := p.regTime]
  {
    assert (list + [p])[..|list|] == list;
  }

  lemma SteadyMore(list: seq<Publisher>, p: Publisher, url: string, regTime: nat)
    ensures Steady(list + [p], url, regTime) <==>
            Steady(list, url, regTime) && (p.Url() == url ==> p.regTime == regTime)
  {
    assert (list + [p])[..|list|] == list;
    assert (list + [p])[|list|] == p;
    if Steady(list + [p], url, regTime) { SteadyParts(list + [p], url, regTime); }
  }

  lemma StillConnected(d0: Subscription, d: Subscription, doomed: set<Socket>, verification: map<Socket, nat>,
                       wanted: map<string, nat>, url: string)
    requires Connected(d0, d, doomed, verification, wanted) && url in d.pollItemMap
    ensures Connected(d0, d, doomed, verification, wanted[url := verification[d.pollItemMap[url]]])
  {}

  lemma NewlyConnected(d0: Subscription, d: Subscription, d1: Subscription, doomed: set<Socket>, doomed1: set<Socket>,
                       verification: map<Socket, nat>, verification1: map<Socket, nat>, wanted: map<string, nat>,
                       url: string, s: Socket)
    requires Connected(d0, d, doomed, verification, wanted) && Inverse(d, doomed)
    requires d1.pollItemMap == d.pollItemMap[url := s] && d1.socketToUrlMap == d.socketToUrlMap[s := url]
    requires s !in doomed1 && s in verification1
    requires NULL !in d.socketToUrlMap
    requires forall t | t in doomed1 :: t in doomed || t == NULL || (url in d.pollItemMap && t == d.pollItemMap[url])
    requires forall t | t in verification && t != NULL && t != s ::
               t in verification1 && verification1[t] == verification[t]
    requires forall other | other in d.pollItemMap :: d.pollItemMap[other] != s
    ensures Connected(d0, d1, doomed1, verification1, wanted[url := verification1[s]])
  {
    forall other | other in d1.pollItemMap && other != url
      ensures d1.pollItemMap[other] !in doomed1 && d1.pollItemMap[other] != NULL
    {
      assert d.socketToUrlMap[d.pollItemMap[other]] == other;
    }
  }

  lemma SteadyOthers(list: seq<Publisher>, p: Publisher)
    ensures forall url, regTime | url != p.Url() :: Steady(list + [p], url, regTime) <==> Steady(list, url, regTime)
  {
    hide Steady;
    forall url, regTime | url != p.Url() ensures Steady(list + [p], url, regTime) <==> Steady(list, url, regTime) {
      SteadyMore(list, p, url, regTime);
    }
  }

  lemma KeptMore(d0: Subscription, d: Subscription, next: Socket, verification: map<Socket, nat>, list: seq<Publisher>,
                 p: Publisher)
    requires Kept(d0, d, next, verification, list) && p.Url() in d.pollItemMap
    requires var s := d.pollItemMap[p.Url()]; s < next ==> s in verification && verification[s] == p.regTime
    ensures Kept(d0, d, next, verification, list + [p])
  {
    hide Steady;
    SteadyOthers(list, p);
    if p.Url() in d0.pollItemMap {
      SteadyMore(list, p, p.Url(), verification[d0.pollItemMap[p.Url()]]);
    }
  }

  lemma KeptButOne(d0: Subscription, d: Subscription, d1: Subscription, next: Socket, verification: map<Socket, nat>,
                   list: seq<Publisher>, p: Publisher, s: Socket)
    requires Kept(d0, d, next, verification, list) && next <= s && d1.pollItemMap == d.pollItemMap[p.Url() := s]
    requires p.Url() in d0.pollItemMap ==>
               d0.pollItemMap[p.Url()] in verification
               && !Steady(list + [p], p.Url(), verification[d0.pollItemMap[p.Url()]])
    ensures Kept(d0, d1, next, verification, list + [p])
  {
    hide Steady;
    SteadyOthers(list, p);
  }

  /** An old socket whose time is still right passes the comparison. */
  lemma SteadyIsRight(p0: Pass, pass: Pass, sub: Sub, list: seq<Publisher>, p: Publisher)
    requires Draining(p0.st, p0.deletions) && Halfway(p0, pass, sub, list)
    requires var d0 := p0.st.subscriptions[sub];
             p.Url() in d0.pollItemMap && d0.pollItemMap[p.Url()] in p0.st.verification
             && Steady(list + [p], p.Url(), p0.st.verification[d0.pollItemMap[p.Url()]])
    ensures p.Url() in pass.st.subscriptions[sub].pollItemMap
    ensures Verification(pass.st, pass.st.subscriptions[sub].pollItemMap[p.Url()]) == p.regTime
  {
    var d0 := p0.st.subscriptions[sub];
    var url := p.Url();
    CurrentSockets(p0.st, p0.deletions, sub);
    SteadyMore(list, p, url, p0.st.verification[d0.pollItemMap[url]]);
    hide Draining, Doomed, Inverse, Steady, Wanted, Connected;
    assert pass.st.subscriptions[sub].pollItemMap[url] == d0.pollItemMap[url];
    hide Kept;
  }

  lemma ConnectKeepsOthers(pass: Pass, st: Tables, sub: Sub, url: string, regTime: nat)
    requires Draining(pass.st, pass.deletions) && sub in pass.st.subscriptions
             && (st == pass.st || st == TouchNull(pass.st))
    ensures var d, st1 := pass.st.subscriptions[sub], Connect(st, sub, url, regTime);
            && st1.subscriptions[sub].pollItemMap == d.pollItemMap[url := pass.st.next]
            && st1.subscriptions[sub].socketToUrlMap == d.socketToUrlMap[pass.st.next := url]
            && pass.st.next in st1.verification && st1.verification[pass.st.next] == regTime
            && (forall t | t in pass.st.verification && t != NULL && t != pass.st.next ::
                  t in st1.verification && st1.verification[t] == pass.st.verification[t])
  {
    hide Draining;
  }

  lemma ConnectUpdates(p0: Pass, pass: Pass, st: Tables, deletions: seq<Deletion>, sub: Sub, list: seq<Publisher>,
                       p: Publisher)
    requires Halfway(p0, pass, sub, list) && (st == pass.st || st == TouchNull(pass.st))
    requires var d := pass.st.subscriptions[sub];
             forall s | s in Doomed(deletions) ::
               s in Doomed(pass.deletions) || s == NULL || (p.Url() in d.pollItemMap && s == d.pollItemMap[p.Url()])
    requires var d0 := p0.st.subscriptions[sub];
             p.Url() in d0.pollItemMap ==>
               (d0.pollItemMap[p.Url()] in p0.st.verification
                && !Steady(list + [p], p.Url(), p0.st.verification[d0.pollItemMap[p.Url()]]))
    ensures var p1, d0 := Pass(Connect(st, sub, p.Url(), p.regTime), deletions), p0.st.subscriptions[sub];
            Connected(d0, p1.st.subscriptions[sub], Doomed(deletions), p1.st.verification, Wanted(list + [p]))
            && Kept(d0, p1.st.subscriptions[sub], p0.st.next, p0.st.verification, list + [p])
  {
    var d0, d := p0.st.subscriptions[sub], pass.st.subscriptions[sub];
    CurrentSockets(pass.st, pass.deletions, sub);
    NoNullSocket(pass.st, pass.deletions, sub);
    ConnectKeepsOthers(pass, st, sub, p.Url(), p.regTime);
    var st1 := Connect(st, sub, p.Url(), p.regTime);
    WantedMore(list, p);
    assert p0.st.next <= pass.st.next;
    hide Draining, Grown, Doomed, Wanted, Kept, Connected, Connect, TouchNull, Inverse, Steady;
    NewlyConnected(d0, d, st1.subscriptions[sub], Doomed(pass.deletions), Doomed(deletions), pass.st.verification,
                   st1.verification, Wanted(list), p.Url(), pass.st.next);
    KeptButOne(d0, d, st1.subscriptions[sub], p0.st.next, p0.st.verification, list, p, pass.st.next);
  }

  lemma NoNullSocket(st: Tables, deletions: seq<Deletion>, sub: Sub)
    requires Draining(st, deletions) && sub in st.subscriptions
    ensures NULL !in st.subscriptions[sub].socketToUrlMap
  {
    hide Sound;
    NullIsNowhere(st, Doomed(deletions), sub);
  }

  // ----- one publisher after the other

  /** An old socket that has stayed is verified as before. */
  lemma OldTime(p0: Pass, pass: Pass, sub: Sub, list: seq<Publisher>, url: string)
    requires Draining(p0.st, p0.deletions) && Halfway(p0, pass, sub, list)
    requires url in pass.st.subscriptions[sub].pollItemMap
    ensures var s := pass.st.subscriptions[sub].pollItemMap[url];
            s < p0.st.next ==> s in p0.st.verification && Verification(pass.st, s) == p0.st.verification[s]
  {
    CurrentSockets(p0.st, p0.deletions, sub);
    hide Draining, Doomed, Inverse, Steady, Wanted, Connected;
  }

  lemma RefreshKeepsSocket(p0: Pass, pass: Pass, sub: Sub, list: seq<Publisher>, p: Publisher)
    requires Draining(p0.st, p0.deletions) && Halfway(p0, pass, sub, list)
    requires p.Url() in pass.st.subscriptions[sub].pollItemMap
    requires Verification(pass.st, pass.st.subscriptions[sub].pollItemMap[p.Url()]) == p.regTime
    ensures Halfway(p0, pass, sub, list + [p])
  {
    var d0, d := p0.st.subscriptions[sub], pass.st.subscriptions[sub];
    hide Draining, Grown, Kept, Doomed, Wanted, Inverse;
    WantedMore(list, p);
    assert d.pollItemMap[p.Url()] in pass.st.verification;
    hide Connected;
    OldTime(p0, pass, sub, list, p.Url());
    StillConnected(d0, d, Doomed(pass.deletions), pass.st.verification, Wanted(list), p.Url());
    KeptMore(d0, d, p0.st.next, p0.st.verification, list, p);
  }

  lemma RefreshFrame(p0: Pass, pass: Pass, sub: Sub, list: seq<Publisher>, p: Publisher)
    requires Halfway(p0, pass, sub, list)
    ensures sub in pass.st.subscriptions
    ensures Draining(Refresh(pass, sub, p).st, Refresh(pass, sub, p).deletions) && Grown(p0, Refresh(pass, sub, p), sub)
  {
    assert sub in pass.st.subscriptions;
    hide Draining, Grown, Kept, Doomed, Wanted, Refresh;
    RefreshDrains(pass, sub, p);
    RefreshGrows(pass, sub, p);
    GrownBoth(p0, pass, Refresh(pass, sub, p), sub);
  }

  lemma KeptHas(d0: Subscription, d: Subscription, next: Socket, verification: map<Socket, nat>,
                list: seq<Publisher>, url: string)
    requires Kept(d0, d, next, verification, list) && url in d0.pollItemMap
    ensures url in d.pollItemMap && d0.pollItemMap[url] in verification
  {}

  lemma NotSteady(p0: Pass, pass: Pass, sub: Sub, list: seq<Publisher>, p: Publisher)
    requires Draining(p0.st, p0.deletions) && Halfway(p0, pass, sub, list) && sub in pass.st.subscriptions
    requires var d := pass.st.subscriptions[sub];
             p.Url() !in d.pollItemMap || Verification(pass.st, d.pollItemMap[p.Url()]) != p.regTime
    ensures var d0 := p0.st.subscriptions[sub];
            p.Url() in d0.pollItemMap ==>
              (d0.pollItemMap[p.Url()] in p0.st.verification
               && !Steady(list + [p], p.Url(), p0.st.verification[d0.pollItemMap[p.Url()]]))
  {
    var d0, d := p0.st.subscriptions[sub], pass.st.subscriptions[sub];
    if p.Url() in d0.pollItemMap {
      hide Draining, Grown, Doomed, Wanted, Connected, Steady, Kept, Verification;
      KeptHas(d0, d, p0.st.next, p0.st.verification, list, p.Url());
      if Steady(list + [p], p.Url(), p0.st.verification[d0.pollItemMap[p.Url()]]) {
        SteadyIsRight(p0, pass, sub, list, p);
      }
    }
  }

  ghost predicate Updated(p0: Pass, p1: Pass, sub: Sub, list: seq<Publisher>)
    requires sub in p0.st.subscriptions && sub in p1.st.subscriptions
  {
    && Connected(p0.st.subscriptions[sub], p1.st.subscriptions[sub], Doomed(p1.deletions),
                 p1.st.verification, Wanted(list))
    && Kept(p0.st.subscriptions[sub], p1.st.subscriptions[sub], p0.st.next, p0.st.verification, list)
  }

  lemma RefreshReconnects(p0: Pass, pass: Pass, sub: Sub, list: seq<Publisher>, p: Publisher)
    requires Draining(p0.st, p0.deletions) && Halfway(p0, pass, sub, list) && sub in pass.st.subscriptions
    requires var d := pass.st.subscriptions[sub];
             p.Url() in d.pollItemMap && Verification(pass.st, d.pollItemMap[p.Url()]) != p.regTime
    ensures sub in Refresh(pass, sub, p).st.subscriptions && Updated(p0, Refresh(pass, sub, p), sub, list + [p])
  {
    var s := pass.st.subscriptions[sub].pollItemMap[p.Url()];
    hide Draining, Halfway, Doomed, Wanted, Connected, Steady, Kept, Connect, TouchNull;
    NotSteady(p0, pass, sub, list, p);
    DoomedMore(pass.deletions, (sub, s));
    ConnectUpdates(p0, pass, pass.st, pass.deletions + [(sub, s)], sub, list, p);
  }

  lemma RefreshConnects(p0: Pass, pass: Pass, sub: Sub, list: seq<Publisher>, p: Publisher)
    requires Draining(p0.st, p0.deletions) && Halfway(p0, pass, sub, list) && sub in pass.st.subscriptions
    requires p.Url() !in pass.st.subscriptions[sub].pollItemMap
    ensures sub in Refresh(pass, sub, p).st.subscriptions && Updated(p0, Refresh(pass, sub, p), sub, list + [p])
  {
    hide Draining, Halfway, Doomed, Wanted, Connected, Steady, Kept;
    assert sub in Refresh(pass, sub, p).st.subscriptions;
    hide Connect, TouchNull;
    NotSteady(p0, pass, sub, list, p);
    DoomedMore(pass.deletions, (sub, NULL));
    var st := TouchNull(pass.st);
    if Verification(st, NULL) != p.regTime {
      ConnectUpdates(p0, pass, st, pass.deletions + [(sub, NULL)], sub, list, p);
    } else {
      ConnectUpdates(p0, pass, st, pass.deletions, sub, list, p);
    }
  }

  lemma RefreshUpdates(p0: Pass, pass: Pass, sub: Sub, list: seq<Publisher>, p: Publisher)
    requires Draining(p0.st, p0.deletions) && Halfway(p0, pass, sub, list)
    ensures sub in pass.st.subscriptions && Halfway(p0, Refresh(pass, sub, p), sub, list + [p])
  {
    RefreshFrame(p0, pass, sub, list, p);
    var d := pass.st.subscriptions[sub];
    if p.Url() in d.pollItemMap && Verification(pass.st, d.pollItemMap[p.Url()]) == p.regTime {
      assert Refresh(pass, sub, p) == pass;
      hide Halfway, Refresh;
      RefreshKeepsSocket(p0, pass, sub, list, p);
    } else {
      hide Draining, Grown, Kept, Doomed, Wanted, Connected, Refresh;
      if p.Url() in d.pollItemMap {
        RefreshReconnects(p0, pass, sub, list, p);
      } else {
        RefreshConnects(p0, pass, sub, list, p);
      }
    }
  }

  lemma IntactDrains(pass: Pass, sub: Sub)
    requires Intact(pass, sub)
    ensures Draining(pass.st, pass.deletions)
  {
    hide Draining, Doomed;
  }

  lemma {:induction false} RefreshAllUpdates(p0: Pass, sub: Sub, list: seq<Publisher>)
    requires Intact(p0, sub)
    ensures Halfway(p0, RefreshAll(p0, sub, list), sub, list)
  {
    hide Halfway, Refresh, Draining, Doomed;
    if list == [] {
      NothingRefreshed(p0, sub);
    } else {
      var last := |list| - 1;
      IntactDrains(p0, sub);
      RefreshAllUpdates(p0, sub, list[..last]);
      RefreshUpdates(p0, RefreshAll(p0, sub, list[..last]), sub, list[..last], list[last]);
      assert list[..last] + [list[last]] == list;
    }
  }
}
