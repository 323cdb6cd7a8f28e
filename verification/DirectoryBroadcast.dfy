/** Every change to the own domain is broadcast as one picture of the domain and the change that led to it. */
module DirectoryBroadcast {
  import opened Common
  import opened Directory
  import opened DirectoryRuns
  import opened DirectoryTimes
  import opened DirectoryHoldings

  /** What the rows of a picture say about one product. */
  function HeldIn(rows: seq<Row>, id: string): seq<Holding> {
    if rows == [] then []
    else
      var last := |rows| - 1;
      if rows[last].id == id then HeldIn(rows[..last], id) + [Holding(rows[last].url, rows[last].timestamp)]
      else HeldIn(rows[..last], id)
  }

  lemma {:induction false} HeldInBoth(a: seq<Row>, b: seq<Row>, id: string)
    ensures HeldIn(a + b, id) == HeldIn(a, id) + HeldIn(b, id)
  {
    if b == [] {
      assert a + b == a;
    } else {
      assert (a + b)[..|a + b| - 1] == a + b[..|b| - 1];
      HeldInBoth(a, b[..|b| - 1], id);
    }
  }

  lemma {:induction false} PublisherRowsHold(st: State, of: string, list: seq<Publisher>, id: string)
    ensures HeldIn(PublisherRows(st, of, list), id) == if of == id then HoldingsOf(st, list) else []
  {
    if list != [] {
      var last := |list| - 1;
      PublisherRowsHold(st, of, list[..last], id);
      assert PublisherRows(st, of, list)[..|PublisherRows(st, of, list)| - 1] == PublisherRows(st, of, list[..last]);
    }
  }

  lemma NoRowsHold(id: string)
    ensures HeldIn([], id) == []
  {}

  lemma {:induction false} ProductRowsHold(st: State, ids: seq<string>, id: string)
    requires Distinct(ids)
    ensures HeldIn(ProductRows(st, ids), id) == if id in ids then Holdings(st, st.Own(id)) else []
  {
    hide HeldIn, Holdings, HoldingsOf, PublisherRows, Distinct;
    if ids == [] {
      NoRowsHold(id);
    } else {
      var init, of := ids[..|ids| - 1], ids[|ids| - 1];
      var earlier, rows := ProductRows(st, init), PublisherRows(st, of, st.Listed(st.Own(of)));
      LastIsNew(ids);
      ProductRowsHold(st, init, id);
      PublisherRowsHold(st, of, st.Listed(st.Own(of)), id);
      HeldInBoth(earlier, rows, id);
      assert ProductRows(st, ids) == earlier + rows;
      HeldOf(st, of);
      assert id in ids <==> id in init || id == of;
    }
  }

  lemma LastIsNew(ids: seq<string>)
    requires Distinct(ids) && ids != []
    ensures Distinct(ids[..|ids| - 1]) && ids[|ids| - 1] !in ids[..|ids| - 1]
    ensures forall id :: id in ids <==> id in ids[..|ids| - 1] || id == ids[|ids| - 1]
  {
    assert ids == ids[..|ids| - 1] + [ids[|ids| - 1]];
  }

  lemma HeldOf(st: State, id: string)
    ensures Holdings(st, st.Own(id)) == HoldingsOf(st, st.Listed(st.Own(id)))
  {
    hide HoldingsOf;
  }

  /** Every URL in the tables is there in the name of its owner. */
  ghost predicate ByRight(owners: Owners, st: State) {
    && (forall key: Key, url | Lists(st.Listed(key), url) :: owners(url) == Owner(key, Data))
    && (forall key | key in st.services :: owners(st.services[key]) == Owner(key, Service))
  }

  /** The message shows the own domain of st. */
  ghost predicate Pictures(owners: Owners, st: State, m: Details) {
    && m.domain == st.domain
    && (forall id :: HeldIn(m.products, id) == Holdings(st, st.Own(id)))
    && (forall i | 0 <= i < |m.products| :: owners(m.products[i].url) == Owner(st.Own(m.products[i].id), Data))
    && (forall i | 0 <= i < |m.services| :: owners(m.services[i].url) == Owner(st.Own(m.services[i].id), Service))
  }

  /** The last message of st' is the only one since st, and it shows st'. */
  ghost predicate Broadcasts(owners: Owners, st: State, st': State) {
    && |st'.details| == |st.details| + 1
    && st'.details[..|st.details|] == st.details
    && Pictures(owners, st', st'.details[|st.details|])
  }

  function LastChange(st: State): Change
    requires st.details != []
  {
    st.details[|st.details| - 1].change
  }

  /** The request a synchronizer makes of a reported change. */
  function ChangeRequest(domain: string, c: Change): Request {
    if c.added then
      Register(Registration(c.id, c.url, c.kind, Some(domain), Some(c.timestamp), Some(c.componentId), None, None))
    else Unregister(Unregistration(c.id, c.url, c.kind, Some(domain), Seconds(c.timestamp)))
  }

  /** A data registration is not older than the holding it refreshes. */
  predicate Timely(held: seq<Holding>, request: Request, domain: string, key: Key) {
    request.Register? && request.reg.kind.Data? && key == Key(request.reg.domain.Or(domain), request.reg.id) ==>
      request.reg.timestamp.Some?
      && (Position(held, request.reg.url) < |held| ==>
            held[Position(held, request.reg.url)].timestamp <= request.reg.timestamp.value)
  }

  lemma ProductRowsByRight(owners: Owners, st: State, i: nat)
    requires ByRight(owners, st) && i < |ProductRows(st, Ascending(ProductIds(st)))|
    ensures var row := ProductRows(st, Ascending(ProductIds(st)))[i];
            owners(row.url) == Owner(st.Own(row.id), Data)
  {
    ProductRowAt(st, Ascending(ProductIds(st)), i);
    hide ProductRows, Ascending, Lists;
  }

  lemma ServiceRowsByRight(owners: Owners, st: State, i: nat)
    requires ByRight(owners, st) && i < |ServiceRows(st, Ascending(ServiceIds(st)))|
    ensures var row := ServiceRows(st, Ascending(ServiceIds(st)))[i];
            owners(row.url) == Owner(st.Own(row.id), Service)
  {
    var ids := Ascending(ServiceIds(st));
    ServiceRowAt(st, ids, i);
    assert ids[i] in ServiceIds(st);
    assert st.Own(ids[i]) in st.services;
    hide ServiceRows, Ascending;
  }

  lemma ListedAreHeld(st: State, id: string)
    ensures HeldIn(ProductRows(st, Ascending(ProductIds(st))), id) == Holdings(st, st.Own(id))
  {
    ProductRowsHold(st, Ascending(ProductIds(st)), id);
    if st.Own(id) in st.lists { assert id in ProductIds(st); }
    hide ProductRows, Ascending, HeldIn;
  }

  lemma PublishKeepsHoldings(st: State, id: string, url: string, timestamp: nat, added: bool, kind: Kind, key: Key)
    ensures Holdings(PublishDetails(st, id, url, timestamp, added, kind), key) == Holdings(st, key)
  {
    var st' := PublishDetails(st, id, url, timestamp, added, kind);
    forall i | 0 <= i < |st.Listed(key)|
      ensures st'.Instance(st.Listed(key)[i].Url()) == st.Instance(st.Listed(key)[i].Url())
    {
      PublishingReadsTimes(st, id, url, timestamp, added, kind, st.Listed(key)[i].Url());
    }
    SameHoldings(st, st', key);
    hide PublishDetails;
  }

  lemma PublishPictures(owners: Owners, st: State, id: string, url: string, timestamp: nat, added: bool, kind: Kind)
    requires ByRight(owners, st)
    ensures var st' := PublishDetails(st, id, url, timestamp, added, kind);
            Broadcasts(owners, st, st') && LastChange(st') == Change(id, url, st.Component(url), timestamp, added, kind)
  {
    hide ProductRows, ServiceRows, Ascending, ProductIds, ServiceIds, HeldIn, Touch, Holdings, ByRight;
    var st' := PublishDetails(st, id, url, timestamp, added, kind);
    var services := ServiceRows(st, Ascending(ServiceIds(st)));
    var products := ProductRows(st, Ascending(ProductIds(st)));
    var m := st'.details[|st.details|];
    assert m.products == products && m.services == services;
    hide PublishDetails;
    forall i | 0 <= i < |products| ensures owners(products[i].url) == Owner(st.Own(products[i].id), Data) {
      ProductRowsByRight(owners, st, i);
    }
    forall i | 0 <= i < |services| ensures owners(services[i].url) == Owner(st.Own(services[i].id), Service) {
      ServiceRowsByRight(owners, st, i);
    }
    forall other ensures HeldIn(products, other) == Holdings(st', st.Own(other)) {
      ListedAreHeld(st, other);
      PublishKeepsHoldings(st, id, url, timestamp, added, kind, st.Own(other));
    }
  }

  // ----- what each request broadcasts

  lemma TimedIsByRight(owners: Owners, st: State)
    requires Timed(owners, st)
    ensures ByRight(owners, st)
  {
    TimedIsTracked(owners, st);
  }

  lemma RegisterDataBroadcasts(owners: Owners, st: State, key: Key, r: Registration, timestamp: nat)
    requires Timed(owners, st) && owners(r.url) == Owner(key, Data) && key.id == r.id && key.domain == st.domain
    requires Known(st.Listed(key), r.url, timestamp) || r.id != REGISTERED_PUBLISHERS
    ensures var st' := RegisterData(st, key, r, timestamp);
            Broadcasts(owners, st, st')
            && LastChange(st').(componentId := "") == Change(r.id, r.url, "", timestamp, true, Data)
  {
    TimedIsByRight(owners, st);
    if Known(st.Listed(key), r.url, timestamp) {
      var stamped := st.(ready := st.ready || r.id == REGISTERED_PUBLISHERS,
                         instances := st.instances[r.url := timestamp]);
      assert ByRight(owners, stamped) by {
        assert forall other: Key :: stamped.Listed(other) == st.Listed(other);
        hide Lists, Known;
      }
      hide Timed, ByRight, Known, Pictures, PublishDetails;
      PublishPictures(owners, stamped, r.id, r.url, timestamp, true, Data);
    } else {
      PlacementQuiet(owners, st, key, r, timestamp);
      hide Timed, ByRight, Known, Pictures, PublishDetails, Purge, Announce, PlaceData;
      PublishPictures(owners, Purge(Announce(PlaceData(st, key, r, timestamp), key), r.id, r.url),
                      r.id, r.url, timestamp, true, Data);
    }
  }

  /** Nothing is broadcast before the new registration itself. */
  lemma PlacementQuiet(owners: Owners, st: State, key: Key, r: Registration, timestamp: nat)
    requires Timed(owners, st) && owners(r.url) == Owner(key, Data) && key.id == r.id
    ensures var purged := Purge(Announce(PlaceData(st, key, r, timestamp), key), r.id, r.url);
            purged.details == st.details && ByRight(owners, purged)
  {
    TimedIsByRight(owners, st);
    var announced := Announce(PlaceData(st, key, r, timestamp), key);
    var purged := Purge(announced, r.id, r.url);
    PurgeInstances(announced, r.id, r.url);
    forall other, url | Lists(purged.Listed(other), url) ensures owners(url) == Owner(other, Data) {
      PurgedUrls(owners, st, key, r, timestamp, other, url);
      hide Purge, Announce, PlaceData, Timed, Lists;
    }
    hide Purge, Announce, Placed, Timed, Lists;
    forall other ensures !Rival(announced, r.id, r.url, other) {
      assert other != r.id ==> announced.Listed(announced.Own(other)) == st.Listed(st.Own(other));
    }
  }

  lemma RegisterServiceBroadcasts(owners: Owners, st: State, key: Key, r: Registration, timestamp: nat)
    requires Timed(owners, st) && owners(r.url) == Owner(key, Service) && key.id == r.id
    ensures var st' := RegisterService(st, key, r, timestamp);
            if key.domain == st.domain then
              Broadcasts(owners, st, st')
              && LastChange(st').(componentId := "") == Change(r.id, r.url, "", timestamp, true, Service)
            else st'.details == st.details
  {
    ServiceQuiet(owners, st, key, r, timestamp);
    var purged := Purge(PlaceService(st, key, r), r.id, r.url);
    var stamped := purged.(instances := purged.instances[r.url := timestamp]);
    hide Timed, ByRight, Pictures, PublishDetails, Purge, PlaceService;
    PublishPictures(owners, stamped, r.id, r.url, timestamp, true, Service);
  }

  lemma ServiceQuiet(owners: Owners, st: State, key: Key, r: Registration, timestamp: nat)
    requires Timed(owners, st) && owners(r.url) == Owner(key, Service)
    ensures var purged := Purge(PlaceService(st, key, r), r.id, r.url);
            purged.details == st.details && ByRight(owners, purged.(instances := purged.instances[r.url := timestamp]))
  {
    TimedIsByRight(owners, st);
    var placed := PlaceService(st, key, r);
    var purged := Purge(placed, r.id, r.url);
    var stamped := purged.(instances := purged.instances[r.url := timestamp]);
    PurgeInstances(placed, r.id, r.url);
    forall other, url | Lists(stamped.Listed(other), url) ensures owners(url) == Owner(other, Data) {
      assert stamped.Listed(other) == purged.Listed(other);
      PurgeLists(placed, r.id, r.url, other);
      ServicePurgeUrls(owners, st, r.url, other, url);
      hide Purge, Timed, Lists, Drop;
    }
    hide Purge, Timed, Lists;
    forall other ensures !Rival(placed, r.id, r.url, other) {
      assert placed.Listed(placed.Own(other)) == st.Listed(st.Own(other));
    }
  }

  lemma WithdrawByRight(owners: Owners, st: State, key: Key, k: nat)
    requires Timed(owners, st) && k < |st.Listed(key)|
    ensures ByRight(owners, Announce(Withdraw(st, key, k), key))
  {
    TimedIsByRight(owners, st);
    var removed := Announce(Withdraw(st, key, k), key);
    assert DistinctUrls(st.Listed(key));
    forall other, url | Lists(removed.Listed(other), url) ensures owners(url) == Owner(other, Data) {
      assert removed.Listed(other) == Withdraw(st, key, k).Listed(other);
      WithdrawUrls(st, key, k, other);
      hide Withdraw, Announce, Lists, Timed, DistinctUrls;
    }
    hide Announce, Lists, Timed, DistinctUrls;
  }

  /** Forgetting the time of a URL that is not listed changes no holding and no picture. */
  lemma ForgetKeepsPicture(owners: Owners, st: State, told: State, url: string)
    requires Broadcasts(owners, st, told) && forall key :: !Lists(told.Listed(key), url)
    ensures Broadcasts(owners, st, told.(instances := told.instances - {url}))
  {
    var st' := told.(instances := told.instances - {url});
    forall key ensures Holdings(st', key) == Holdings(told, key) {
      assert st'.Listed(key) == told.Listed(key);
      assert !Lists(told.Listed(key), url);
      SameHoldings(told, st', key);
    }
    hide Holdings, HeldIn, Lists;
    var m := told.details[|st.details|];
    assert forall id :: HeldIn(m.products, id) == Holdings(st', st'.Own(id));
  }

  lemma UnregisterDataBroadcasts(owners: Owners, st: State, key: Key, u: Unregistration)
    requires Timed(owners, st) && owners(u.url) == Owner(key, Data) && key.id == u.id && key.domain == st.domain
    requires FindInstance(st.Listed(key), u.url, u.regTime) < |st.Listed(key)|
    ensures var st' := UnregisterData(st, key, u);
            Broadcasts(owners, st, st')
            && LastChange(st').(componentId := "") == Change(u.id, u.url, "", st.Instance(u.url), false, Data)
  {
    hide Timed, ByRight, Broadcasts, PublishDetails, Announce, Withdraw, Lists, FindInstance;
    var k := FindInstance(st.Listed(key), u.url, u.regTime);
    var removed := Announce(Withdraw(st, key, k), key);
    var told := PublishDetails(removed, u.id, u.url, removed.Instance(u.url), false, Data);
    WithdrawByRight(owners, st, key, k);
    PublishPictures(owners, removed, u.id, u.url, removed.Instance(u.url), false, Data);
    forall other ensures !Lists(told.Listed(other), u.url) {
      WithdrawnIsGone(owners, st, key, k, other);
      assert told.Listed(other) == removed.Listed(other);
    }
    ForgetKeepsPicture(owners, removed, told, u.url);
    QuietWithdrawal(st, key, k);
    SameBroadcasts(owners, removed, st, told.(instances := told.instances - {u.url}));
    LastOf(owners, removed, told, told.(instances := told.instances - {u.url}));
  }

  lemma QuietWithdrawal(st: State, key: Key, k: nat)
    requires k < |st.Listed(key)|
    ensures var removed := Announce(Withdraw(st, key, k), key);
            removed == st.(lists := removed.lists, updates := removed.updates, backlog := removed.backlog)
  {}

  lemma SameBroadcasts(owners: Owners, a: State, b: State, st': State)
    requires a.details == b.details && Broadcasts(owners, a, st')
    ensures Broadcasts(owners, b, st')
  {
    hide Pictures;
  }

  lemma LastOf(owners: Owners, st: State, a: State, b: State)
    requires Broadcasts(owners, st, a) && Broadcasts(owners, st, b) && a.details == b.details
    ensures |a.details| > 0 && LastChange(a) == LastChange(b)
  {
    hide Pictures;
  }

  lemma WithdrawnIsGone(owners: Owners, st: State, key: Key, k: nat, other: Key)
    requires Timed(owners, st) && k < |st.Listed(key)|
    ensures !Lists(Announce(Withdraw(st, key, k), key).Listed(other), st.Listed(key)[k].Url())
  {
    var list := st.Listed(key);
    var url := list[k].Url();
    WithdrawUrls(st, key, k, other);
    assert DistinctUrls(list);
    assert InTime(owners, st, key, list[k]);
    TimedIsTracked(owners, st);
    assert !Lists(Without(list, k), url);
    hide Timed, Announce, Withdraw, Without, Lists;
    assert Announce(Withdraw(st, key, k), key).Listed(other) == Withdraw(st, key, k).Listed(other);
  }

  lemma UnregisterServiceBroadcasts(owners: Owners, st: State, key: Key, u: Unregistration)
    requires Timed(owners, st) && owners(u.url) == Owner(key, Service) && key.id == u.id
    ensures var st' := UnregisterService(st, key, u);
            if key.domain == st.domain && ServiceMatches(st, key, u) then
              Broadcasts(owners, st, st')
              && LastChange(st').(componentId := "") == Change(u.id, u.url, "", st.Instance(u.url), false, Service)
            else st'.details == st.details
  {
    if key.domain == st.domain && ServiceMatches(st, key, u) {
      var removed := st.(services := st.services - {key});
      var told := PublishDetails(removed, u.id, u.url, removed.instances[u.url], false, Service);
      TimedIsTracked(owners, st);
      assert ByRight(owners, removed) by {
        assert forall other: Key :: removed.Listed(other) == st.Listed(other);
        hide Lists;
      }
      PublishPictures(owners, removed, u.id, u.url, removed.instances[u.url], false, Service);
      hide Timed, ByRight, Pictures, PublishDetails, Lists;
      forall other ensures !Lists(told.Listed(other), u.url) {
        assert told.Listed(other) == st.Listed(other);
      }
      ForgetKeepsPicture(owners, removed, told, u.url);
    }
  }

  /** Between two steps the stream and the holdings of an own product move together. */
  ghost predicate Follows(owners: Owners, st: State, st': State, id: string) {
    var held, held' := Holdings(st, st.Own(id)), Holdings(st', st.Own(id));
    if st'.details == st.details then held' == held
    else
      && Broadcasts(owners, st, st')
      && var request := ChangeRequest(st.domain, LastChange(st'));
         Obeys(owners, st.domain, request)
         && Timely(held, request, st.domain, st.Own(id))
         && held' == Effect(held, request, st.domain, st.Own(id))
  }

  lemma AcceptedIsTimely(owners: Owners, st: State, r: Registration, key: Key)
    requires Timed(owners, st) && !Stale(st, r)
    ensures Timely(Holdings(st, key), Register(r), st.domain, key)
  {
    var held := Holdings(st, key);
    var k := Position(held, r.url);
    HoldingsAt(st, key);
    if k < |held| {
      assert InTime(owners, st, key, st.Listed(key)[k]);
    }
    hide Timed, Position;
  }

  lemma FlushKeepsPicture(owners: Owners, st: State, handled: State)
    ensures Flush(handled).details == handled.details
    ensures Broadcasts(owners, st, handled) ==> Broadcasts(owners, st, Flush(handled))
  {
    hide BacklogUpdates, Ascending;
    var st' := Flush(handled);
    if Broadcasts(owners, st, handled) {
      forall key ensures Holdings(st', key) == Holdings(handled, key) {
        SameHoldings(handled, st', key);
      }
      hide Flush, Holdings, HeldIn;
      var m := handled.details[|st.details|];
      assert forall id :: HeldIn(m.products, id) == Holdings(st', st'.Own(id));
    }
  }

  /** Registrations for other domains, and the first one of RegisteredPublishers, are not broadcast. */
  lemma QuietRegistration(owners: Owners, st: State, key: Key, r: Registration, timestamp: nat)
    requires Timed(owners, st) && owners(r.url) == Owner(key, Data) && key.id == r.id
    requires key.domain != st.domain || (!Known(st.Listed(key), r.url, timestamp) && r.id == REGISTERED_PUBLISHERS)
    ensures RegisterData(st, key, r, timestamp).details == st.details
  {
    PlacementQuiet(owners, st, key, r, timestamp);
    hide Timed, Known, Purge, Announce, PlaceData, ByRight;
  }

  /** The change is the request in other words. */
  predicate Means(st: State, request: Request, c: Change) {
    match request
    case Lookup(_, _, _) => false
    case Register(r) =>
      c.added && r.domain.Or(st.domain) == st.domain
          && c.(componentId := "") == Change(r.id, r.url, "", r.timestamp.Or(0), true, r.kind)
      && r.timestamp.Some?
    case Unregister(u) =>
      !c.added && u.domain.Or(st.domain) == st.domain && c.id == u.id && c.url == u.url && c.kind == u.kind
      && Seconds(c.timestamp) == u.regTime
  }

  lemma BroadcastFollows(owners: Owners, st: State, st': State, request: Request, id: string)
    requires Broadcasts(owners, st, st') && Means(st, request, LastChange(st'))
    requires Obeys(owners, st.domain, request) && Timely(Holdings(st, st.Own(id)), request, st.domain, st.Own(id))
    requires Holdings(st', st.Own(id)) == Effect(Holdings(st, st.Own(id)), request, st.domain, st.Own(id))
    ensures Follows(owners, st, st', id)
  {
    hide Pictures, Holdings, Position, Take, Release;
  }

  lemma RegisterBroadcasts(owners: Owners, st: State, r: Registration)
    requires Timed(owners, st) && Obeys(owners, st.domain, Register(r)) && !Stale(st, r)
    ensures var st' := Step(st, Register(r));
            if r.domain.Or(st.domain) == st.domain
               && (r.kind.Service? || Known(st.Listed(st.Own(r.id)), r.url, r.timestamp.value)
                   || r.id != REGISTERED_PUBLISHERS)
            then Broadcasts(owners, st, st') && Means(st, Register(r), LastChange(st'))
            else st'.details == st.details
  {
    var key := Key(r.domain.Or(st.domain), r.id);
    FlushKeepsPicture(owners, st, HandleRegister(st, r));
    hide RegisterData, RegisterService, Timed, Known, Flush, Pictures;
    if r.kind.Service? {
      RegisterServiceBroadcasts(owners, st, key, r, r.timestamp.value);
    } else if key.domain == st.domain
        && (Known(st.Listed(key), r.url, r.timestamp.value) || r.id != REGISTERED_PUBLISHERS) {
      RegisterDataBroadcasts(owners, st, key, r, r.timestamp.value);
    } else {
      QuietRegistration(owners, st, key, r, r.timestamp.value);
    }
  }

  lemma RegisterFollows(owners: Owners, st: State, r: Registration, id: string)
    requires Timed(owners, st) && Obeys(owners, st.domain, Register(r)) && id != REGISTERED_PUBLISHERS
    ensures Follows(owners, st, Step(st, Register(r)), id)
  {
    StepHoldings(owners, st, Register(r), st.Own(id));
    if Stale(st, r) {
      hide Timed, Broadcasts, Holdings, Flush, RegisterData, RegisterService;
      assert Step(st, Register(r)).details == st.details;
    } else {
      var st' := Step(st, Register(r));
      AcceptedIsTimely(owners, st, r, st.Own(id));
      RegisterBroadcasts(owners, st, r);
      hide Step, Timed, Stale, Known, Holdings, Broadcasts, Means, Timely, Take;
      if r.domain.Or(st.domain) == st.domain
         && (r.kind.Service? || Known(st.Listed(st.Own(r.id)), r.url, r.timestamp.value)
             || r.id != REGISTERED_PUBLISHERS) {
        BroadcastFollows(owners, st, st', Register(r), id);
        hide Follows;
      }
    }
  }

  lemma UnregisterBroadcasts(owners: Owners, st: State, u: Unregistration)
    requires Timed(owners, st) && Obeys(owners, st.domain, Unregister(u))
    ensures var st' := Step(st, Unregister(u));
            if u.domain.Or(st.domain) == st.domain && Found(st, u)
            then Broadcasts(owners, st, st') && Means(st, Unregister(u), LastChange(st'))
            else st'.details == st.details
  {
    var key := Key(u.domain.Or(st.domain), u.id);
    FlushKeepsPicture(owners, st, HandleUnregister(st, u));
    if u.kind.Service? {
      UnregisterServiceBroadcasts(owners, st, key, u);
      hide UnregisterService, UnregisterData, Timed, Flush, Pictures;
    } else {
      OnlyItsOwnSecondUnregisters(owners, st, u);
      if key.domain == st.domain && Found(st, u) {
        UnregisterDataBroadcasts(owners, st, key, u);
        hide UnregisterService, UnregisterData, FindInstance, Timed, Flush, Pictures;
      } else {
        hide UnregisterService, FindInstance, Timed, Flush, Pictures, Announce, Broadcasts;
      }
    }
  }

  lemma UnregisterFollows(owners: Owners, st: State, u: Unregistration, id: string)
    requires Timed(owners, st) && Obeys(owners, st.domain, Unregister(u))
    ensures Follows(owners, st, Step(st, Unregister(u)), id)
  {
    var st' := Step(st, Unregister(u));
    StepHoldings(owners, st, Unregister(u), st.Own(id));
    UnregisterBroadcasts(owners, st, u);
    if u.domain.Or(st.domain) == st.domain && Found(st, u) {
      hide Step, Timed, Found, Holdings, Broadcasts, Means;
      BroadcastFollows(owners, st, st', Unregister(u), id);
      hide Follows;
    } else {
      if u.kind.Data? && !Found(st, u) { UnregisterMisses(owners, st, u, st.Own(id)); }
      hide Step, Timed, Found, Holdings, Broadcasts, Means, Release;
    }
  }

  lemma UnregisterMisses(owners: Owners, st: State, u: Unregistration, key: Key)
    requires Timed(owners, st) && Obeys(owners, st.domain, Unregister(u)) && !Found(st, u) && u.kind.Data?
    ensures Holdings(Step(st, Unregister(u)), key) == Holdings(st, key)
  {
    StepLists(st, Unregister(u), key);
    OnlyItsOwnSecondUnregisters(owners, st, u);
    forall i | 0 <= i < |st.Listed(key)|
      ensures Step(st, Unregister(u)).Instance(st.Listed(key)[i].Url()) == st.Instance(st.Listed(key)[i].Url())
    {
      InstanceOfRecorded(owners, st, Unregister(u), key, i);
      hide Step, Found, Timed;
    }
    hide Step, Found, Timed;
    SameHoldings(st, Step(st, Unregister(u)), key);
  }

  /** Whatever the directory is asked, its stream reports exactly what happens to its own products. */
  lemma StepFollows(owners: Owners, st: State, request: Request, id: string)
    requires Timed(owners, st) && Obeys(owners, st.domain, request) && id != REGISTERED_PUBLISHERS
    ensures Follows(owners, st, Step(st, request), id)
  {
    match request
    case Register(r) => RegisterFollows(owners, st, r, id);
    case Unregister(u) => UnregisterFollows(owners, st, u, id);
    case Lookup(_, _, _) =>
      StepHoldings(owners, st, request, st.Own(id));
      hide Timed, Holdings, Broadcasts, BacklogUpdates, Ascending;
  }
}
