/** The recorded registration times, in runs where every URL is used by one product or service only. */
module DirectoryTimes {
  import opened Common
  import opened Directory
  import opened DirectoryRuns

  datatype Owner = Owner(key: Key, kind: Kind)

  /** Who uses which URL. */
  type Owners = string -> Owner

  /** The request speaks about a URL in the name of its owner. */
  predicate Obeys(owners: Owners, domain: string, request: Request) {
    match request
    case Register(r) => owners(r.url) == Owner(Key(r.domain.Or(domain), r.id), r.kind)
    case Unregister(u) => owners(u.url) == Owner(Key(u.domain.Or(domain), u.id), u.kind)
    case Lookup(_, _, _) => true
  }

  /** Publisher p of key is there by right and was registered in the second of the recorded time of its URL. */
  predicate InTime(owners: Owners, st: State, key: Key, p: Publisher) {
    && owners(p.Url()) == Owner(key, Data)
    && p.Url() in st.instances
    && p.regTime == Seconds(st.instances[p.Url()])
  }

  ghost predicate Timed(owners: Owners, st: State) {
    && (forall key :: DistinctUrls(st.Listed(key)))
    && (forall key: Key, i | 0 <= i < |st.Listed(key)| :: InTime(owners, st, key, st.Listed(key)[i]))
    && (forall key | key in st.services :: owners(st.services[key]) == Owner(key, Service))
    && (forall url | url in st.instances && owners(url).kind.Data? :: Lists(st.Listed(owners(url).key), url))
  }

  lemma TimedList(owners: Owners, st: State, key: Key)
    requires Timed(owners, st)
    ensures DistinctUrls(st.Listed(key))
    ensures forall i | 0 <= i < |st.Listed(key)| :: InTime(owners, st, key, st.Listed(key)[i])
  {
    hide InTime, DistinctUrls, Lists;
  }

  function Recorded(st: State, url: string): Option<nat> {
    if url in st.instances then Some(st.instances[url]) else None
  }

  /** The recorded time of a publisher's URL after a request. */
  function RecordedAfter(st: State, request: Request, url: string): Option<nat> {
    match request
    case Lookup(_, _, _) => Recorded(st, url)
    case Register(r) => if r.url == url && !Stale(st, r) then r.timestamp else Recorded(st, url)
    case Unregister(u) => if u.url == url && Found(st, u) then None else Recorded(st, url)
  }

  // ----- purging

  predicate Rival(st: State, id: string, url: string, other: string) {
    other != id && Lists(st.Listed(st.Own(other)), url)
  }

  lemma PurgeOneInstances(st: State, id: string, url: string, other: string)
    ensures var st' := PurgeOne(st, id, url, other);
            if Rival(st, id, url, other) then url !in st'.instances else st' == st.(lists := st'.lists)
  {
    hide Announce, PublishDetails, Without;
  }

  lemma {:induction false} PurgeAllInstances(st: State, id: string, url: string, others: seq<string>)
    ensures var st' := PurgeAll(st, id, url, others);
            if exists other :: other in others && Rival(st, id, url, other) then url !in st'.instances
            else st' == st.(lists := st'.lists)
    decreases |others|
  {
    hide PurgeOne, Rival;
    if others != [] {
      var next := PurgeOne(st, id, url, others[0]);
      PurgeOneInstances(st, id, url, others[0]);
      PurgeAllInstances(next, id, url, others[1..]);
      forall other | other != others[0] ensures Rival(next, id, url, other) == Rival(st, id, url, other) {
        OtherRivals(st, id, url, others[0], other);
      }
      if !Rival(st, id, url, others[0]) { StillNoRival(st, id, url, others[0]); }
      assert forall other :: other in others <==> other == others[0] || other in others[1..];
    }
  }

  lemma StillNoRival(st: State, id: string, url: string, purged: string)
    requires !Rival(st, id, url, purged)
    ensures !Rival(PurgeOne(st, id, url, purged), id, url, purged)
  {
    hide Evict, Find;
  }

  lemma OtherRivals(st: State, id: string, url: string, purged: string, other: string)
    requires other != purged
    ensures Rival(PurgeOne(st, id, url, purged), id, url, other) == Rival(st, id, url, other)
  {
    hide PurgeOne, Lists;
    PurgeOneOthers(st, id, url, purged, st.Own(other));
  }

  /** A purge forgets the recorded time of the URL exactly when it unregisters somebody. */
  lemma PurgeInstances(st: State, id: string, url: string)
    ensures var st' := Purge(st, id, url);
            if exists other :: Rival(st, id, url, other) then url !in st'.instances
            else st' == st.(lists := st'.lists)
  {
    PurgeAllInstances(st, id, url, Ascending(ProductIds(st)));
    forall other | Rival(st, id, url, other) ensures other in Ascending(ProductIds(st)) {
      assert st.Own(other) in st.lists;
    }
    hide PurgeAll, Rival;
  }

  // ----- publishing the product locations

  lemma {:induction false} ServiceRowAt(st: State, ids: seq<string>, i: nat)
    ensures |ServiceRows(st, ids)| == |ids|
    ensures i < |ids| ==>
              ServiceRows(st, ids)[i].id == ids[i] && ServiceRows(st, ids)[i].url == st.Provider(st.Own(ids[i]))
  {
    if ids != [] {
      var last := |ids| - 1;
      ServiceRowAt(st, ids[..last], i);
    }
  }

  lemma {:induction false} PublisherRowAt(st: State, id: string, list: seq<Publisher>, i: nat)
    ensures |PublisherRows(st, id, list)| == |list|
    ensures i < |list| ==>
              var row := PublisherRows(st, id, list)[i];
              row.id == id && row.url == list[i].Url() && row.timestamp == st.Instance(row.url)
  {
    if list != [] {
      PublisherRowAt(st, id, list[..|list| - 1], i);
    }
  }

  lemma {:induction false} ProductRowAt(st: State, ids: seq<string>, i: nat)
    requires i < |ProductRows(st, ids)|
    ensures Lists(st.Listed(st.Own(ProductRows(st, ids)[i].id)), ProductRows(st, ids)[i].url)
  {
    var last := |ids| - 1;
    var earlier := ProductRows(st, ids[..last]);
    var list := st.Listed(st.Own(ids[last]));
    if i < |earlier| {
      ProductRowAt(st, ids[..last], i);
    } else {
      var k := i - |earlier|;
      PublisherRowAt(st, ids[last], list, k);
      assert ProductRows(st, ids)[i] == PublisherRows(st, ids[last], list)[k];
      assert list[k].Url() == ProductRows(st, ids)[i].url;
    }
  }

  /** Every listed URL has a recorded time, and no own service is at a URL of a data product. */
  ghost predicate Tracked(owners: Owners, st: State) {
    && (forall key: Key, url | Lists(st.Listed(key), url) :: url in st.instances)
    && (forall key | key in st.services :: owners(st.services[key]).kind.Service?)
  }

  lemma TouchedUrls(owners: Owners, st: State, url: string)
    requires Tracked(owners, st) && owners(url).kind.Data?
    ensures var services := ServiceRows(st, Ascending(ServiceIds(st)));
            var products := ProductRows(st, Ascending(ProductIds(st)));
            url in Touch(Touch(st.instances, services), products) <==> url in st.instances
  {
    var services := ServiceRows(st, Ascending(ServiceIds(st)));
    var products := ProductRows(st, Ascending(ProductIds(st)));
    forall i | 0 <= i < |services| ensures services[i].url != url {
      ServiceRowAt(st, Ascending(ServiceIds(st)), i);
      assert Ascending(ServiceIds(st))[i] in ServiceIds(st);
    }
    forall i | 0 <= i < |products| && products[i].url == url ensures url in st.instances {
      ProductRowAt(st, Ascending(ProductIds(st)), i);
    }
    hide Touch, ServiceRows, ProductRows, Ascending, ServiceIds, ProductIds;
  }

  lemma PublishKeepsTimes(owners: Owners, st: State, id: string, at: string, timestamp: nat, added: bool, kind: Kind,
                          url: string)
    requires Tracked(owners, st) && owners(url).kind.Data?
    ensures Recorded(PublishDetails(st, id, at, timestamp, added, kind), url) == Recorded(st, url)
  {
    TouchedUrls(owners, st, url);
    var services := ServiceRows(st, Ascending(ServiceIds(st)));
    var products := ProductRows(st, Ascending(ProductIds(st)));
    hide Touch, ServiceRows, ProductRows, Ascending, ServiceIds, ProductIds;
  }

  // ----- what a request does to the recorded times

  lemma ListedByRight(owners: Owners, st: State, key: Key, url: string)
    requires Timed(owners, st) && Lists(st.Listed(key), url)
    ensures owners(url) == Owner(key, Data) && url in st.instances
  {
    var i :| 0 <= i < |st.Listed(key)| && st.Listed(key)[i].Url() == url;
    assert InTime(owners, st, key, st.Listed(key)[i]);
  }

  lemma UnrecordedIsUnlisted(owners: Owners, st: State, key: Key, url: string)
    requires Timed(owners, st) && url !in st.instances
    ensures Find(st.Listed(key), url) == |st.Listed(key)|
  {
    hide Timed, Find;
    TimedList(owners, st, key);
  }

  lemma TimedIsTracked(owners: Owners, st: State)
    requires Timed(owners, st)
    ensures Tracked(owners, st)
    ensures forall key: Key, url | Lists(st.Listed(key), url) :: owners(url) == Owner(key, Data)
  {
    forall key: Key, url | Lists(st.Listed(key), url) ensures owners(url) == Owner(key, Data) && url in st.instances {
      ListedByRight(owners, st, key, url);
    }
  }

  lemma StillTracked(owners: Owners, st: State, st': State)
    requires Timed(owners, st) && st'.lists == st.lists && st.instances.Keys <= st'.instances.Keys
    requires forall key | key in st'.services :: key in st.services && st'.services[key] == st.services[key]
    ensures Tracked(owners, st')
  {
    TimedIsTracked(owners, st);
    forall key: Key, url | Lists(st'.Listed(key), url) ensures url in st'.instances {
      assert st'.Listed(key) == st.Listed(key);
      assert url in st.instances.Keys;
      hide Lists;
    }
    hide Timed, Lists;
  }

  /** The tables after a new data registration, before it is published: nobody was purged. */
  lemma PurgedPlacement(owners: Owners, st: State, key: Key, r: Registration, timestamp: nat)
    requires Timed(owners, st) && owners(r.url) == Owner(key, Data) && key.id == r.id
    ensures var purged := Purge(Announce(PlaceData(st, key, r, timestamp), key), r.id, r.url);
            purged.instances == st.instances[r.url := timestamp] && purged.services == st.services
            && Tracked(owners, purged)
  {
    TimedIsTracked(owners, st);
    var announced := Announce(PlaceData(st, key, r, timestamp), key);
    var purged := Purge(announced, r.id, r.url);
    hide Announce, Placed, Purge, Timed, Lists;
    assert announced.instances == st.instances[r.url := timestamp] && announced.services == st.services;
    forall other ensures !Rival(announced, r.id, r.url, other) {
      assert other != r.id ==> announced.Listed(announced.Own(other)) == st.Listed(st.Own(other));
    }
    PurgeInstances(announced, r.id, r.url);
    assert purged.instances == announced.instances;
    forall other: Key, url | Lists(purged.Listed(other), url) ensures url in purged.instances {
      PurgedUrls(owners, st, key, r, timestamp, other, url);
      hide PlaceData;
    }
  }

  /** Placing and purging add the registered URL to the list of its product and no other URL to any list. */
  lemma PurgedUrls(owners: Owners, st: State, key: Key, r: Registration, timestamp: nat, other: Key, url: string)
    requires Timed(owners, st)
    requires Lists(Purge(Announce(PlaceData(st, key, r, timestamp), key), r.id, r.url).Listed(other), url)
    ensures (other == key && url == r.url) || Lists(st.Listed(other), url)
  {
    var announced := Announce(PlaceData(st, key, r, timestamp), key);
    PurgeLists(announced, r.id, r.url, other);
    PlacedUrls(st.Listed(key), r, Seconds(timestamp));
    assert DistinctUrls(st.Listed(other));
    assert announced.Listed(other) ==
           if other == key then Placed(st.Listed(key), r, Seconds(timestamp)) else st.Listed(other);
    DropForgets(announced.Listed(other), r.url);
    hide Purge, Announce, Placed, PlaceData, Timed, Drop, Lists;
  }

  lemma RepeatTimes(owners: Owners, st: State, key: Key, r: Registration, timestamp: nat, url: string)
    requires Timed(owners, st) && owners(url).kind.Data? && Known(st.Listed(key), r.url, timestamp)
    ensures var st' := RegisterData(st, key, r, timestamp);
            Recorded(st', url) == if url == r.url then Some(timestamp) else Recorded(st, url)
  {
    var stamped := st.(ready := st.ready || r.id == REGISTERED_PUBLISHERS,
                       instances := st.instances[r.url := timestamp]);
    StillTracked(owners, st, stamped);
    hide Timed, Known, PublishDetails, Lists, Tracked;
    PublishKeepsTimes(owners, stamped, r.id, r.url, timestamp, true, Data, url);
  }

  lemma PlacementTimes(owners: Owners, st: State, key: Key, r: Registration, timestamp: nat, url: string)
    requires Timed(owners, st) && owners(r.url) == Owner(key, Data) && key.id == r.id
    requires owners(url).kind.Data? && !Known(st.Listed(key), r.url, timestamp)
    ensures var st' := RegisterData(st, key, r, timestamp);
            Recorded(st', url) == if url == r.url then Some(timestamp) else Recorded(st, url)
  {
    PurgedPlacement(owners, st, key, r, timestamp);
    hide Timed, Known, PublishDetails, Announce, PlaceData, Purge, Tracked;
    var purged := Purge(Announce(PlaceData(st, key, r, timestamp), key), r.id, r.url);
    PublishKeepsTimes(owners, purged, r.id, r.url, timestamp, true, Data, url);
  }

  lemma RegisterDataTimes(owners: Owners, st: State, key: Key, r: Registration, timestamp: nat, url: string)
    requires Timed(owners, st) && owners(r.url) == Owner(key, Data) && key.id == r.id
    requires owners(url).kind.Data?
    ensures var st' := RegisterData(st, key, r, timestamp);
            Recorded(st', url) == if url == r.url then Some(timestamp) else Recorded(st, url)
  {
    hide Timed, Known, RegisterData;
    if Known(st.Listed(key), r.url, timestamp) {
      RepeatTimes(owners, st, key, r, timestamp, url);
    } else {
      PlacementTimes(owners, st, key, r, timestamp, url);
    }
  }

  lemma RegisterServiceTimes(owners: Owners, st: State, key: Key, r: Registration, timestamp: nat, url: string)
    requires Timed(owners, st) && owners(r.url) == Owner(key, Service)
    requires owners(url).kind.Data?
    ensures Recorded(RegisterService(st, key, r, timestamp), url) == Recorded(st, url)
  {
    var purged := Purge(PlaceService(st, key, r), r.id, r.url);
    var stamped := purged.(instances := purged.instances[r.url := timestamp]);
    ServicePlacement(owners, st, key, r, timestamp);
    hide Timed, Purge, PublishDetails, Tracked, PlaceService;
    PublishKeepsTimes(owners, stamped, r.id, r.url, timestamp, true, Service, url);
  }

  lemma ServicePlacement(owners: Owners, st: State, key: Key, r: Registration, timestamp: nat)
    requires Timed(owners, st) && owners(r.url) == Owner(key, Service)
    ensures var purged := Purge(PlaceService(st, key, r), r.id, r.url);
            purged.instances == st.instances && purged.services == st.services[key := r.url]
            && Tracked(owners, purged.(instances := purged.instances[r.url := timestamp]))
  {
    TimedIsTracked(owners, st);
    var placed := PlaceService(st, key, r);
    hide Timed, Purge, Lists;
    forall other ensures !Rival(placed, r.id, r.url, other) {
      assert placed.Listed(placed.Own(other)) == st.Listed(st.Own(other));
    }
    PurgeInstances(placed, r.id, r.url);
    var purged := Purge(placed, r.id, r.url);
    var stamped := purged.(instances := purged.instances[r.url := timestamp]);
    forall other: Key, at | Lists(stamped.Listed(other), at) ensures at in stamped.instances {
      PurgeLists(placed, r.id, r.url, other);
      ServicePurgeUrls(owners, st, r.url, other, at);
      hide Drop;
    }
  }

  lemma ServicePurgeUrls(owners: Owners, st: State, url: string, key: Key, at: string)
    requires Timed(owners, st)
    requires Lists(Drop(st.Listed(key), url), at) || Lists(st.Listed(key), at)
    ensures at in st.instances && owners(at) == Owner(key, Data)
  {
    TimedIsTracked(owners, st);
    DropForgets(st.Listed(key), url);
    hide Drop, Lists;
  }

  lemma WithdrawUrls(st: State, key: Key, k: nat, other: Key)
    requires k < |st.Listed(key)| && DistinctUrls(st.Listed(key))
    ensures Withdraw(st, key, k).Listed(other) == if other == key then Without(st.Listed(key), k) else st.Listed(other)
    ensures forall url | Lists(Withdraw(st, key, k).Listed(other), url) :: Lists(st.Listed(other), url)
  {
    WithoutUrls(st.Listed(key), k);
    assert |st.Listed(key)| == 1 ==> Without(st.Listed(key), k) == [];
    hide Without, Lists, DistinctUrls;
    assert Withdraw(st, key, k).Listed(other) == if other == key then Without(st.Listed(key), k) else st.Listed(other);
  }

  lemma WithdrawTimes(owners: Owners, st: State, key: Key, k: nat, id: string, at: string, url: string)
    requires Timed(owners, st) && owners(url).kind.Data? && k < |st.Listed(key)|
    ensures var removed := Announce(Withdraw(st, key, k), key);
            Recorded(PublishDetails(removed, id, at, removed.Instance(at), false, Data), url) == Recorded(st, url)
  {
    TimedIsTracked(owners, st);
    forall other: Key, at | Lists(Withdraw(st, key, k).Listed(other), at) ensures at in st.instances {
      WithdrawUrls(st, key, k, other);
    }
    var removed := Announce(Withdraw(st, key, k), key);
    hide Timed, Lists, Announce, PublishDetails;
    assert forall other: Key :: removed.Listed(other) == Withdraw(st, key, k).Listed(other);
    assert removed.instances == st.instances && removed.services == st.services;
    hide Withdraw;
    PublishKeepsTimes(owners, removed, id, at, removed.Instance(at), false, Data, url);
  }

  lemma UnregisterDataTimes(owners: Owners, st: State, key: Key, u: Unregistration, url: string)
    requires Timed(owners, st) && owners(url).kind.Data?
    ensures var found := FindInstance(st.Listed(key), u.url, u.regTime) < |st.Listed(key)|;
            Recorded(UnregisterData(st, key, u), url) == if url == u.url && found then None else Recorded(st, url)
  {
    var k := FindInstance(st.Listed(key), u.url, u.regTime);
    if k < |st.Listed(key)| {
      WithdrawTimes(owners, st, key, k, u.id, u.url, url);
    }
    hide Timed, PublishDetails, Announce, Withdraw, FindInstance;
  }

  lemma UnregisterServiceTimes(owners: Owners, st: State, key: Key, u: Unregistration, url: string)
    requires Timed(owners, st) && owners(url).kind.Data? && owners(u.url).kind.Service?
    ensures Recorded(UnregisterService(st, key, u), url) == Recorded(st, url)
  {
    hide Timed, PublishDetails, Lists, Tracked;
    if ServiceMatches(st, key, u) {
      var removed := st.(services := st.services - {key});
      StillTracked(owners, st, removed);
      PublishKeepsTimes(owners, removed, u.id, u.url, removed.instances[u.url], false, Service, url);
    }
  }

  lemma HandleTimes(owners: Owners, st: State, request: Request, url: string)
    requires Timed(owners, st) && Obeys(owners, st.domain, request) && owners(url).kind.Data?
    ensures Recorded(Handle(st, request), url) == RecordedAfter(st, request, url)
  {
    assert forall key | key in st.services :: owners(st.services[key]) == Owner(key, Service);
    hide Timed, RegisterData, RegisterService, UnregisterData, UnregisterService;
    match request
    case Lookup(_, _, _) =>
    case Unregister(u) =>
      var key := Key(u.domain.Or(st.domain), u.id);
      if u.kind.Data? {
        UnregisterDataTimes(owners, st, key, u, url);
      } else {
        UnregisterServiceTimes(owners, st, key, u, url);
      }
      hide FindInstance, ServiceMatches;
    case Register(r) =>
      var key := Key(r.domain.Or(st.domain), r.id);
      if !Stale(st, r) {
        if r.kind.Data? { RegisterDataTimes(owners, st, key, r, r.timestamp.value, url); }
        else { RegisterServiceTimes(owners, st, key, r, r.timestamp.value, url); }
      }
  }

  lemma ServicesByRight(owners: Owners, st: State)
    requires Timed(owners, st)
    ensures forall key | key in st.services :: owners(st.services[key]) == Owner(key, Service)
  {
    hide InTime, DistinctUrls, Lists;
  }

  lemma ServicesStay(owners: Owners, st: State, request: Request)
    requires Timed(owners, st) && Obeys(owners, st.domain, request)
    ensures forall key | key in Step(st, request).services ::
              owners(Step(st, request).services[key]) == Owner(key, Service)
  {
    hide Timed, RegisterData, RegisterService, UnregisterData, UnregisterService, BacklogUpdates, Ascending, Stale;
    ServicesByRight(owners, st);
  }

  predicate InTimeAfter(owners: Owners, st: State, request: Request, key: Key, p: Publisher) {
    && owners(p.Url()) == Owner(key, Data)
    && RecordedAfter(st, request, p.Url()).Some?
    && p.regTime == Seconds(RecordedAfter(st, request, p.Url()).value)
  }

  /** A publisher that was listed before and is not the subject of the request. */
  lemma StaysInTime(owners: Owners, st: State, request: Request, key: Key, i: nat)
    requires Timed(owners, st) && i < |st.Listed(key)|
    requires request.Register? && !Stale(st, request.reg) && st.Listed(key)[i].Url() == request.reg.url ==>
               st.Listed(key)[i].regTime == Seconds(request.reg.timestamp.value)
    requires request.Unregister? ==> st.Listed(key)[i].Url() != request.unreg.url || !Found(st, request.unreg)
    ensures InTimeAfter(owners, st, request, key, st.Listed(key)[i])
  {
    assert InTime(owners, st, key, st.Listed(key)[i]);
    hide Timed, Found;
  }

  lemma RegisteredInTime(owners: Owners, st: State, r: Registration, key: Key, i: nat)
    requires Timed(owners, st) && Obeys(owners, st.domain, Register(r)) && !Stale(st, r)
    requires i < |ListAfter(st, Register(r), key)|
    ensures InTimeAfter(owners, st, Register(r), key, ListAfter(st, Register(r), key)[i])
  {
    var list := st.Listed(key);
    var after := ListAfter(st, Register(r), key);
    var target := Key(r.domain.Or(st.domain), r.id);
    if r.kind.Data? && key == target && !Known(list, r.url, r.timestamp.value) {
      assert after == Placed(list, r, Seconds(r.timestamp.value));
      if i < |list| && i != Find(list, r.url) {
        assert after[i] == list[i];
        assert DistinctUrls(list);
        assert list[i].Url() != r.url;
        StaysInTime(owners, st, Register(r), key, i);
      } else {
        assert after[i].Url() == r.url;
      }
    } else if r.kind.Data? && key == target {
      assert DistinctUrls(list);
      StaysInTime(owners, st, Register(r), key, i);
    } else {
      OthersStay(owners, st, r, key);
      assert InTime(owners, st, key, list[i]);
      StaysInTime(owners, st, Register(r), key, i);
    }
  }

  /** Nobody else lists the URL of an obeying registration, so its purge drops nobody. */
  lemma OthersStay(owners: Owners, st: State, r: Registration, key: Key)
    requires Timed(owners, st) && Obeys(owners, st.domain, Register(r))
    requires r.kind.Data? ==> key != Key(r.domain.Or(st.domain), r.id)
    ensures ListAfter(st, Register(r), key) == st.Listed(key) && !Lists(st.Listed(key), r.url)
  {
    TimedIsTracked(owners, st);
    hide Timed;
  }

  lemma UnregisteredInTime(owners: Owners, st: State, u: Unregistration, key: Key, i: nat)
    requires Timed(owners, st) && Obeys(owners, st.domain, Unregister(u))
    requires i < |ListAfter(st, Unregister(u), key)|
    ensures InTimeAfter(owners, st, Unregister(u), key, ListAfter(st, Unregister(u), key)[i])
  {
    hide Timed, Found, InTimeAfter, FindInstance, DistinctUrls;
    var list := st.Listed(key);
    var k := FindInstance(list, u.url, u.regTime);
    if u.kind.Data? && key == Key(u.domain.Or(st.domain), u.id) {
      if k < |list| {
        var j := if i < k then i else i + 1;
        assert ListAfter(st, Unregister(u), key)[i] == list[j];
        OtherUrl(owners, st, key, k, j);
        StaysInTime(owners, st, Unregister(u), key, j);
      } else {
        MissedIsNotFound(st, u);
        StaysInTime(owners, st, Unregister(u), key, i);
      }
    } else {
      TimedList(owners, st, key);
      assert InTime(owners, st, key, list[i]);
      StaysInTime(owners, st, Unregister(u), key, i);
    }
  }

  lemma OtherUrl(owners: Owners, st: State, key: Key, k: nat, j: nat)
    requires Timed(owners, st) && k < |st.Listed(key)| && j < |st.Listed(key)| && j != k
    ensures st.Listed(key)[j].Url() != st.Listed(key)[k].Url()
  {
    hide Timed;
    TimedList(owners, st, key);
  }

  lemma MissedIsNotFound(st: State, u: Unregistration)
    requires var list := st.Listed(Key(u.domain.Or(st.domain), u.id)); FindInstance(list, u.url, u.regTime) == |list|
    requires u.kind.Data?
    ensures !Found(st, u)
  {
    hide FindInstance;
  }

  lemma StillListedWithout(st: State, u: Unregistration, key: Key, url: string)
    requires Lists(st.Listed(key), url) && (u.url == url ==> !Found(st, u))
    ensures Lists(ListAfter(st, Unregister(u), key), url)
  {
    var list := st.Listed(key);
    var i :| 0 <= i < |list| && list[i].Url() == url;
    if u.kind.Data? && key == Key(u.domain.Or(st.domain), u.id) {
      var k := FindInstance(list, u.url, u.regTime);
      if k < |list| { assert Without(list, k)[if i < k then i else i - 1].Url() == url; }
    }
  }

  lemma StillListedWith(list: seq<Publisher>, r: Registration, regTime: nat, url: string)
    requires Lists(list, url)
    ensures Lists(Placed(list, r, regTime), url)
  {
    var i :| 0 <= i < |list| && list[i].Url() == url;
    assert Placed(list, r, regTime)[i].Url() == url;
  }

  lemma NewlyListed(list: seq<Publisher>, r: Registration, regTime: nat)
    requires Find(list, r.url) == |list|
    ensures Lists(Placed(list, r, regTime), r.url)
  {
    assert Placed(list, r, regTime)[|list|].Url() == r.url;
  }

  /** A recorded time of a data product's URL belongs to a listed publisher. */
  lemma RecordedIsListed(owners: Owners, st: State, request: Request, url: string)
    requires Timed(owners, st) && Obeys(owners, st.domain, request) && owners(url).kind.Data?
    requires RecordedAfter(st, request, url).Some?
    ensures Lists(ListAfter(st, request, owners(url).key), url)
  {
    hide Timed, Lists, Found, Placed, Find, FindInstance, Seconds;
    var key := owners(url).key;
    var list := st.Listed(key);
    if Recorded(st, url).Some? {
      RecordedIsListedBefore(owners, st, url);
      match request
      case Lookup(_, _, _) =>
      case Unregister(u) => StillListedWithout(st, u, key, url);
      case Register(r) =>
        if r.kind.Data? && key == Key(r.domain.Or(st.domain), r.id) {
          if r.timestamp.Some? { StillListedWith(list, r, Seconds(r.timestamp.value), url); }
        } else {
          OthersStay(owners, st, r, key);
        }
    } else {
      var r := request.reg;
      UnrecordedIsUnlisted(owners, st, key, url);
      NewlyListed(list, r, Seconds(r.timestamp.value));
    }
  }

  lemma RecordedIsListedBefore(owners: Owners, st: State, url: string)
    requires Timed(owners, st) && url in st.instances && owners(url).kind.Data?
    ensures Lists(st.Listed(owners(url).key), url)
  {
    hide Lists;
  }

  lemma StepKeepsTimed(owners: Owners, st: State, request: Request)
    requires Timed(owners, st) && Obeys(owners, st.domain, request)
    ensures Timed(owners, Step(st, request))
    ensures forall url | owners(url).kind.Data? :: Recorded(Step(st, request), url) == RecordedAfter(st, request, url)
  {
    var st' := Step(st, request);
    forall url | owners(url).kind.Data? ensures Recorded(st', url) == RecordedAfter(st, request, url) {
      HandleTimes(owners, st, request, url);
      hide Handle, RecordedAfter, Timed;
    }
    forall key ensures st'.Listed(key) == ListAfter(st, request, key) && DistinctUrls(st'.Listed(key)) {
      StepLists(st, request, key);
      ListAfterUrls(st, request, key);
      hide Step, ListAfter, DistinctUrls;
    }
    forall key | key in st'.services ensures owners(st'.services[key]) == Owner(key, Service) {
      ServicesStay(owners, st, request);
      hide Timed, Handle;
    }
    forall key: Key, i | 0 <= i < |st'.Listed(key)| ensures InTime(owners, st', key, st'.Listed(key)[i]) {
      AllInTime(owners, st, request, key, i);
      hide Step, ListAfter, Timed, RecordedAfter;
    }
    forall url | url in st'.instances && owners(url).kind.Data? ensures Lists(st'.Listed(owners(url).key), url) {
      RecordedIsListed(owners, st, request, url);
      hide Step, ListAfter, Timed, RecordedAfter;
    }
    hide Step, ListAfter, RecordedAfter, InTime, Lists, DistinctUrls;
  }

  lemma AllInTime(owners: Owners, st: State, request: Request, key: Key, i: nat)
    requires Timed(owners, st) && Obeys(owners, st.domain, request) && i < |ListAfter(st, request, key)|
    ensures InTimeAfter(owners, st, request, key, ListAfter(st, request, key)[i])
  {
    match request
    case Lookup(_, _, _) => StaysInTime(owners, st, request, key, i);
    case Unregister(u) => UnregisteredInTime(owners, st, u, key, i);
    case Register(r) =>
      if Stale(st, r) { StaysInTime(owners, st, request, key, i); } else { RegisteredInTime(owners, st, r, key, i); }
  }

  // ----- whole runs

  ghost predicate AllObey(owners: Owners, domain: string, requests: seq<Request>) {
    forall i | 0 <= i < |requests| :: Obeys(owners, domain, requests[i])
  }

  lemma {:induction false} RunsStayTimed(owners: Owners, st: State, requests: seq<Request>)
    requires Timed(owners, st) && AllObey(owners, st.domain, requests)
    ensures Timed(owners, Run(st, requests)) && Run(st, requests).domain == st.domain
    decreases |requests|
  {
    if requests != [] {
      var last := |requests| - 1;
      RunsStayTimed(owners, st, requests[..last]);
      StepKeepsTimed(owners, Run(st, requests[..last]), requests[last]);
      hide Timed, Step;
    }
  }

  lemma FreshIsTimed(owners: Owners, domain: string)
    ensures Timed(owners, Fresh(domain))
  {}

  /** In every run that shares no URL, each listed publisher has a recorded time in the second it was registered. */
  lemma PublishersHaveTheirTime(owners: Owners, domain: string, requests: seq<Request>, key: Key, i: nat)
    requires AllObey(owners, domain, requests)
    requires i < |Run(Fresh(domain), requests).Listed(key)|
    ensures var st := Run(Fresh(domain), requests);
            var p := st.Listed(key)[i];
            p.Url() in st.instances && Seconds(st.instances[p.Url()]) == p.regTime
  {
    RunsStayTimed(owners, Fresh(domain), requests);
    assert InTime(owners, Run(Fresh(domain), requests), key, Run(Fresh(domain), requests).Listed(key)[i]);
  }

  predicate UnregistersUrl(request: Request, url: string) {
    request.Unregister? && request.unreg.url == url
  }

  /** Until it is unregistered, the recorded time of a URL never goes back. */
  lemma {:induction false} TimesNeverGoBack(owners: Owners, st: State, requests: seq<Request>, url: string)
    requires Timed(owners, st) && AllObey(owners, st.domain, requests)
    requires owners(url).kind.Data? && url in st.instances
    requires forall i | 0 <= i < |requests| :: !UnregistersUrl(requests[i], url)
    ensures url in Run(st, requests).instances && st.instances[url] <= Run(st, requests).instances[url]
    decreases |requests|
  {
    hide Timed, Step, Obeys, Stale, RecordedAfter;
    if requests != [] {
      var last := |requests| - 1;
      var before := Run(st, requests[..last]);
      TimesNeverGoBack(owners, st, requests[..last], url);
      RunsStayTimed(owners, st, requests[..last]);
      StepKeepsTimed(owners, before, requests[last]);
      assert !UnregistersUrl(requests[last], url);
      assert Recorded(Run(st, requests), url) == RecordedAfter(before, requests[last], url);
      StillRecorded(before, requests[last], url);
    }
  }

  lemma StillRecorded(st: State, request: Request, url: string)
    requires url in st.instances && !UnregistersUrl(request, url)
    ensures RecordedAfter(st, request, url).Some? && st.instances[url] <= RecordedAfter(st, request, url).value
  {}

  /** A data unregistration removes a publisher exactly when it names the second of the recorded registration, so one
      that is older never removes a newer registration. */
  lemma OnlyItsOwnSecondUnregisters(owners: Owners, st: State, u: Unregistration)
    requires Timed(owners, st) && u.kind.Data? && Obeys(owners, st.domain, Unregister(u))
    ensures Found(st, u) <==> u.url in st.instances && Seconds(st.instances[u.url]) == u.regTime
    ensures !Found(st, u) ==> forall key :: Step(st, Unregister(u)).Listed(key) == st.Listed(key)
  {
    var key := Key(u.domain.Or(st.domain), u.id);
    var list := st.Listed(key);
    if u.url in st.instances && Seconds(st.instances[u.url]) == u.regTime {
      assert Lists(list, u.url);
      var i :| 0 <= i < |list| && list[i].Url() == u.url;
      assert InTime(owners, st, key, list[i]);
    }
    if Found(st, u) {
      assert InTime(owners, st, key, list[FindInstance(list, u.url, u.regTime)]);
    }
    forall other ensures Step(st, Unregister(u)).Listed(other) == ListAfter(st, Unregister(u), other) {
      StepLists(st, Unregister(u), other);
    }
    hide Step, Timed;
  }

  lemma PublishingReadsTimes(st: State, id: string, at: string, timestamp: nat, added: bool, kind: Kind, url: string)
    ensures PublishDetails(st, id, at, timestamp, added, kind).Instance(url) == st.Instance(url)
  {
    hide Touch, ServiceRows, ProductRows, Ascending;
  }

  lemma PlacementForgets(st: State, key: Key, r: Registration, timestamp: nat)
    requires key.id == r.id
    ensures Purge(Announce(PlaceData(st, key, r, timestamp), key), r.id, r.url).Instance(r.url) == timestamp <==>
            (timestamp == 0 || forall other | other != r.id :: !Lists(st.Listed(st.Own(other)), r.url))
  {
    var announced := Announce(PlaceData(st, key, r, timestamp), key);
    PurgeInstances(announced, r.id, r.url);
    hide Purge, Announce, Placed, Lists;
    forall other | other != r.id
      ensures Rival(announced, r.id, r.url, other) == Lists(st.Listed(st.Own(other)), r.url)
    {
      assert announced.Listed(announced.Own(other)) == st.Listed(st.Own(other));
    }
  }

  lemma RegistrationIsHandled(st: State, r: Registration)
    requires r.kind.Data? && !Stale(st, r)
    ensures Step(st, Register(r)).Instance(r.url) ==
            RegisterData(st, Key(r.domain.Or(st.domain), r.id), r, r.timestamp.value).Instance(r.url)
  {
    hide RegisterData, BacklogUpdates, Ascending;
  }

  lemma RepetitionRecords(st: State, key: Key, r: Registration, timestamp: nat)
    requires Known(st.Listed(key), r.url, timestamp)
    ensures RegisterData(st, key, r, timestamp).Instance(r.url) == timestamp
  {
    hide Known, PublishDetails;
    var stamped := st.(ready := st.ready || r.id == REGISTERED_PUBLISHERS,
                       instances := st.instances[r.url := timestamp]);
    PublishingReadsTimes(stamped, r.id, r.url, timestamp, true, Data, r.url);
  }

  lemma PlacementRecords(st: State, key: Key, r: Registration, timestamp: nat)
    requires !Known(st.Listed(key), r.url, timestamp)
    ensures RegisterData(st, key, r, timestamp).Instance(r.url) ==
            Purge(Announce(PlaceData(st, key, r, timestamp), key), r.id, r.url).Instance(r.url)
  {
    hide Known, PublishDetails, Purge, Announce, PlaceData;
    var purged := Purge(Announce(PlaceData(st, key, r, timestamp), key), r.id, r.url);
    PublishingReadsTimes(purged, r.id, r.url, timestamp, true, Data, r.url);
  }

  /** Without that discipline a registration can lose the time it has just recorded: exactly when it purges another
      product of the own domain from its URL. The time then reads as zero, and any older registration is accepted. */
  lemma PurgeForgetsTheTime(st: State, r: Registration)
    requires r.kind.Data? && !Stale(st, r)
    ensures Step(st, Register(r)).Instance(r.url) == r.timestamp.value <==>
            (r.timestamp.value == 0
             || Known(st.Listed(Key(r.domain.Or(st.domain), r.id)), r.url, r.timestamp.value)
             || forall other | other != r.id :: !Lists(st.Listed(st.Own(other)), r.url))
  {
    hide Step, RegisterData, Purge, Announce, PlaceData, Known, Lists;
    var key := Key(r.domain.Or(st.domain), r.id);
    RegistrationIsHandled(st, r);
    if Known(st.Listed(key), r.url, r.timestamp.value) {
      RepetitionRecords(st, key, r, r.timestamp.value);
    } else {
      PlacementRecords(st, key, r, r.timestamp.value);
      PlacementForgets(st, key, r, r.timestamp.value);
    }
  }
}
