/** What the broadcasts of a directory say of its services, when every service keeps to one URL. */
module ServicePictures {
  import opened Common
  import opened Directory
  import opened DirectoryTimes
  import opened DirectoryBroadcast
  import opened ServiceLookups

  // ----- one service

  datatype Post = Vacant | Filled(url: string, timestamp: nat)

  function PostOf(st: State, key: Key): Post {
    if key in st.services then Filled(st.services[key], st.Instance(st.services[key])) else Vacant
  }

  function Taken(post: Post, url: string, timestamp: nat): Post {
    if post.Filled? && timestamp < post.timestamp then post else Filled(url, timestamp)
  }

  /** What a directory makes of a request about the service of key. */
  function Posted(post: Post, request: Request, domain: string, key: Key): Post {
    match request
    case Register(r) =>
      if r.kind.Service? && Key(r.domain.Or(domain), r.id) == key && r.timestamp.Some?
      then Taken(post, r.url, r.timestamp.value) else post
    case Unregister(u) =>
      if u.kind.Service? && Key(u.domain.Or(domain), u.id) == key && post.Filled?
         && post.timestamp / 1000000 == u.regTime
      then Vacant else post
    case Lookup(_, _, _) => post
  }

  /** No two URLs belong to one service. */
  ghost predicate Settled(owners: Owners) {
    forall u, v: string | owners(u).kind.Service? && owners(u) == owners(v) :: u == v
  }

  /** And every recorded time of a service is the one of its provider. */
  ghost predicate Manned(owners: Owners, st: State) {
    && Anchored(owners, st)
    && forall url | url in st.instances && owners(url).kind.Service? :: owners(url).key in st.services
  }

  lemma MannedParts(owners: Owners, st: State)
    requires Manned(owners, st)
    ensures Anchored(owners, st)
    ensures forall url | url in st.instances && owners(url).kind.Service? :: owners(url).key in st.services
    ensures forall key | key in st.services ::
              st.services[key] in st.instances && owners(st.services[key]) == Owner(key, Service)
  {
    AnchoredParts(owners, st);
    hide Anchored;
  }

  /** The time of the URL of a service is recorded exactly while it is the provider. */
  lemma ProviderOf(owners: Owners, st: State, key: Key, url: string)
    requires Settled(owners) && Manned(owners, st) && owners(url) == Owner(key, Service)
    ensures url in st.instances <==> key in st.services
    ensures key in st.services ==> st.services[key] == url
    ensures PostOf(st, key) == if url in st.instances then Filled(url, st.instances[url]) else Vacant
  {
    MannedParts(owners, st);
    hide Manned;
  }

  /** Tables in which nobody else's entries have changed. */
  lemma OthersKeepTheirPost(owners: Owners, st: State, st': State, url: string, key: Key)
    requires Manned(owners, st) && owners(url) != Owner(key, Service)
    requires key in st'.services <==> key in st.services
    requires key in st.services ==> st'.services[key] == st.services[key]
    requires forall other | other != url :: Recorded(st', other) == Recorded(st, other)
    ensures PostOf(st', key) == PostOf(st, key)
  {
    MannedParts(owners, st);
    hide Manned;
    if key in st.services { assert Recorded(st', st.services[key]) == Recorded(st, st.services[key]); }
  }

  lemma StillManned(owners: Owners, st: State, st': State, url: string)
    requires Manned(owners, st) && Anchored(owners, st')
    requires forall other | other != url :: Recorded(st', other) == Recorded(st, other)
    requires forall key | key != owners(url).key || owners(url).kind.Data? ::
               key in st'.services <==> key in st.services
    requires owners(url).kind.Service? && url in st'.instances ==> owners(url).key in st'.services
    requires forall other | other in st.instances && owners(other).kind.Service? && owners(other).key == owners(url).key
               && owners(url).kind.Service? :: other == url
    ensures Manned(owners, st')
  {
    MannedParts(owners, st);
    hide Anchored, Manned;
    forall other | other in st'.instances && owners(other).kind.Service? ensures owners(other).key in st'.services {
      if other != url { assert Recorded(st', other) == Recorded(st, other); }
    }
    Mans(owners, st');
  }

  lemma Mans(owners: Owners, st: State)
    requires Anchored(owners, st)
    requires forall url | url in st.instances && owners(url).kind.Service? :: owners(url).key in st.services
    ensures Manned(owners, st)
  {
    hide Anchored;
  }

  lemma OneUrlOnly(owners: Owners, url: string, other: string)
    requires Settled(owners) && owners(url).kind.Service? && owners(other).kind.Service?
    requires owners(other).key == owners(url).key
    ensures other == url
  {
    assert owners(other) == owners(url);
  }

  lemma RegisterPost(owners: Owners, st: State, r: Registration, key: Key)
    requires Settled(owners) && Manned(owners, st) && Obeys(owners, st.domain, Register(r))
    requires var st' := Step(st, Register(r));
             && Anchored(owners, st') && st'.instances == InstancesAfter(st, Register(r))
             && st'.services == if r.kind.Service? && !Stale(st, r)
                                then st.services[Key(r.domain.Or(st.domain), r.id) := r.url] else st.services
    ensures Manned(owners, Step(st, Register(r)))
    ensures PostOf(Step(st, Register(r)), key) == Posted(PostOf(st, key), Register(r), st.domain, key)
  {
    hide Anchored, Settled, Step, Seconds, Manned;
    var st', target := Step(st, Register(r)), Key(r.domain.Or(st.domain), r.id);
    forall other | other in st.instances && owners(other).kind.Service? && owners(other).key == owners(r.url).key
                   && owners(r.url).kind.Service? ensures other == r.url
    {
      OneUrlOnly(owners, r.url, other);
    }
    if r.kind.Service? { ProviderOf(owners, st, target, r.url); }
    assert forall other | other != r.url :: Recorded(st', other) == Recorded(st, other);
    StillManned(owners, st, st', r.url);
    if owners(r.url) != Owner(key, Service) {
      OthersKeepTheirPost(owners, st, st', r.url, key);
    } else {
      ProviderOf(owners, st', key, r.url);
    }
  }

  lemma UnregisterPost(owners: Owners, st: State, u: Unregistration, key: Key)
    requires Settled(owners) && Manned(owners, st) && Obeys(owners, st.domain, Unregister(u))
    requires var st' := Step(st, Unregister(u));
             && Anchored(owners, st') && st'.instances == InstancesAfter(st, Unregister(u))
             && st'.services == if u.kind.Service? && Found(st, u)
                                then st.services - {Key(u.domain.Or(st.domain), u.id)} else st.services
    ensures Manned(owners, Step(st, Unregister(u)))
    ensures PostOf(Step(st, Unregister(u)), key) == Posted(PostOf(st, key), Unregister(u), st.domain, key)
  {
    hide Anchored, Settled, Step, FindInstance, Manned;
    var st', target := Step(st, Unregister(u)), Key(u.domain.Or(st.domain), u.id);
    forall other | other in st.instances && owners(other).kind.Service? && owners(other).key == owners(u.url).key
                   && owners(u.url).kind.Service? ensures other == u.url
    {
      OneUrlOnly(owners, u.url, other);
    }
    if u.kind.Service? { ProviderOf(owners, st, target, u.url); }
    assert forall other | other != u.url :: Recorded(st', other) == Recorded(st, other);
    StillManned(owners, st, st', u.url);
    if owners(u.url) != Owner(key, Service) {
      OthersKeepTheirPost(owners, st, st', u.url, key);
    } else {
      ProviderOf(owners, st', key, u.url);
    }
  }

  lemma PostStep(owners: Owners, st: State, request: Request, key: Key)
    requires Settled(owners) && Manned(owners, st) && Obeys(owners, st.domain, request)
    ensures Manned(owners, Step(st, request))
    ensures PostOf(Step(st, request), key) == Posted(PostOf(st, key), request, st.domain, key)
  {
    hide Manned, Anchored, Settled, Step, Stale, Found, Obeys;
    MannedParts(owners, st);
    StepAnchored(owners, st, request);
    StepServices(st, request);
    match request
    case Register(r) => RegisterPost(owners, st, r, key);
    case Unregister(u) => UnregisterPost(owners, st, u, key);
    case Lookup(_, _, _) => LookedUp(owners, st, Step(st, request), key);
  }

  lemma LookedUp(owners: Owners, st: State, st': State, key: Key)
    requires Manned(owners, st) && Anchored(owners, st')
    requires st'.instances == st.instances && st'.services == st.services
    ensures Manned(owners, st') && PostOf(st', key) == PostOf(st, key)
  {
    hide Anchored;
  }

  // ----- what a broadcast shows

  function PostIn(rows: seq<Row>, id: string): Post {
    if rows == [] then Vacant
    else
      var before, last := PostIn(rows[..|rows| - 1], id), rows[|rows| - 1];
      if last.id == id then Taken(before, last.url, last.timestamp) else before
  }

  lemma {:induction false} RowsShowPosts(st: State, ids: seq<string>, id: string)
    requires Distinct(ids)
    ensures PostIn(ServiceRows(st, ids), id) ==
            if id in ids then Filled(st.Provider(st.Own(id)), st.Instance(st.Provider(st.Own(id)))) else Vacant
  {
    if ids != [] {
      hide Distinct;
      LastIsNew(ids);
      RowsShowPosts(st, ids[..|ids| - 1], id);
      assert ServiceRows(st, ids)[..|ServiceRows(st, ids)| - 1] == ServiceRows(st, ids[..|ids| - 1]);
    }
  }

  lemma PublishShows(st: State, id: string, url: string, timestamp: nat, added: bool, kind: Kind, other: string)
    ensures var st' := PublishDetails(st, id, url, timestamp, added, kind);
            |st'.details| == |st.details| + 1 && st'.details[..|st.details|] == st.details
            && PostIn(st'.details[|st.details|].services, other) == PostOf(st, st.Own(other))
  {
    hide ServiceRows, ProductRows, Ascending, Touch, PostIn, Distinct;
    RowsShowPosts(st, Ascending(ServiceIds(st)), other);
    if st.Own(other) in st.services { assert other in ServiceIds(st); }
  }

  /** Every row names the component that the state knows for its URL, and so does the change. */
  ghost predicate ShowsComponents(st: State, m: Details) {
    && (forall i | 0 <= i < |m.services| :: m.services[i].componentId == st.Component(m.services[i].url))
    && (forall i | 0 <= i < |m.products| :: m.products[i].componentId == st.Component(m.products[i].url))
    && m.change.componentId == st.Component(m.change.url)
  }

  /** The state has broadcast nothing, or last a picture of its services, and of the components behind all its URLs. */
  ghost predicate Shows(st: State, st': State) {
    st'.details == st.details
    || (|st'.details| == |st.details| + 1 && st'.details[..|st.details|] == st.details
        && ShowsComponents(st', st'.details[|st.details|])
        && forall id :: PostIn(st'.details[|st.details|].services, id) == PostOf(st', st'.Own(id)))
  }

  lemma {:induction false} ServiceRowsName(st: State, ids: seq<string>, i: nat)
    requires i < |ServiceRows(st, ids)|
    ensures ServiceRows(st, ids)[i].componentId == st.Component(ServiceRows(st, ids)[i].url)
  {
    var earlier := ServiceRows(st, ids[..|ids| - 1]);
    if i < |earlier| { ServiceRowsName(st, ids[..|ids| - 1], i); }
  }

  lemma {:induction false} PublisherRowsName(st: State, id: string, list: seq<Publisher>, i: nat)
    requires i < |PublisherRows(st, id, list)|
    ensures PublisherRows(st, id, list)[i].componentId == st.Component(PublisherRows(st, id, list)[i].url)
  {
    var earlier := PublisherRows(st, id, list[..|list| - 1]);
    if i < |earlier| { PublisherRowsName(st, id, list[..|list| - 1], i); }
  }

  lemma {:induction false} ProductRowsName(st: State, ids: seq<string>, i: nat)
    requires i < |ProductRows(st, ids)|
    ensures ProductRows(st, ids)[i].componentId == st.Component(ProductRows(st, ids)[i].url)
  {
    var last := |ids| - 1;
    var earlier := ProductRows(st, ids[..last]);
    if i < |earlier| {
      ProductRowsName(st, ids[..last], i);
    } else {
      PublisherRowsName(st, ids[last], st.Listed(st.Own(ids[last])), i - |earlier|);
    }
  }

  lemma PublishNames(st: State, id: string, url: string, timestamp: nat, added: bool, kind: Kind)
    ensures var st' := PublishDetails(st, id, url, timestamp, added, kind);
            |st'.details| == |st.details| + 1 && ShowsComponents(st, st'.details[|st.details|])
  {
    hide ServiceRows, ProductRows, Ascending, Touch;
    var services, products := Ascending(ServiceIds(st)), Ascending(ProductIds(st));
    forall i | 0 <= i < |ServiceRows(st, services)|
      ensures ServiceRows(st, services)[i].componentId == st.Component(ServiceRows(st, services)[i].url)
    {
      ServiceRowsName(st, services, i);
    }
    forall i | 0 <= i < |ProductRows(st, products)|
      ensures ProductRows(st, products)[i].componentId == st.Component(ProductRows(st, products)[i].url)
    {
      ProductRowsName(st, products, i);
    }
  }

  /** What is published shows the tables at that time, and the services stay as they are after it. */
  lemma PublishedShows(st: State, at: State, id: string, url: string, timestamp: nat, added: bool, kind: Kind,
                       st': State)
    requires st'.details == PublishDetails(at, id, url, timestamp, added, kind).details && at.details == st.details
    requires st'.services == at.services && st'.domain == at.domain && st'.components == at.components
    requires forall key | key in at.services :: st'.Instance(at.services[key]) == at.Instance(at.services[key])
    ensures Shows(st, st')
  {
    hide PublishDetails, PostIn, PostOf;
    PublishShows(at, id, url, timestamp, added, kind, "");
    PublishNames(at, id, url, timestamp, added, kind);
    SameNames(at, st', st'.details[|st.details|]);
    forall other ensures PostIn(st'.details[|st.details|].services, other) == PostOf(st', st'.Own(other)) {
      PublishShows(at, id, url, timestamp, added, kind, other);
      SamePost(at, st', at.Own(other));
      assert st'.Own(other) == at.Own(other);
    }
  }

  lemma SameNames(st: State, st': State, m: Details)
    requires ShowsComponents(st, m) && st'.components == st.components
    ensures ShowsComponents(st', m)
  {}

  lemma SamePost(st: State, st': State, key: Key)
    requires st'.services == st.services
    requires forall key | key in st.services :: st'.Instance(st.services[key]) == st.Instance(st.services[key])
    ensures PostOf(st', key) == PostOf(st, key)
  {}

  lemma RepetitionShows(owners: Owners, st: State, key: Key, r: Registration, timestamp: nat)
    requires Anchored(owners, st) && owners(r.url) == Owner(key, Data) && key.id == r.id
    requires Known(st.Listed(key), r.url, timestamp)
    ensures Shows(st, RegisterData(st, key, r, timestamp))
  {
    hide Timed, Known, PublishDetails, Announce, PlaceData, Purge, Tracked, Anchored, Shows;
    AnchoredParts(owners, st);
    RegisterDataInstances(owners, st, key, r, timestamp);
    var st' := RegisterData(st, key, r, timestamp);
    var stamped := st.(ready := st.ready || r.id == REGISTERED_PUBLISHERS,
                       instances := st.instances[r.url := timestamp]);
    if key.domain == st.domain {
      PublishedShows(st, stamped, r.id, r.url, timestamp, true, Data, st');
    } else {
      Silent(st, st');
    }
  }

  lemma PlacementShows(owners: Owners, st: State, key: Key, r: Registration, timestamp: nat)
    requires Anchored(owners, st) && owners(r.url) == Owner(key, Data) && key.id == r.id
    requires !Known(st.Listed(key), r.url, timestamp)
    ensures Shows(st, RegisterData(st, key, r, timestamp))
  {
    hide Timed, Known, PublishDetails, Announce, PlaceData, Purge, Tracked, Anchored, Shows, ByRight;
    AnchoredParts(owners, st);
    RegisterDataInstances(owners, st, key, r, timestamp);
    PurgedPlacement(owners, st, key, r, timestamp);
    PlacementQuiet(owners, st, key, r, timestamp);
    var st', purged :=
      RegisterData(st, key, r, timestamp), Purge(Announce(PlaceData(st, key, r, timestamp), key), r.id, r.url);
    if key.domain == st.domain && r.id != REGISTERED_PUBLISHERS {
      PlacedDomain(st, key, r, timestamp);
      PublishedShows(st, purged, r.id, r.url, timestamp, true, Data, st');
    } else {
      Silent(st, st');
    }
  }

  lemma RegisterDataShows(owners: Owners, st: State, key: Key, r: Registration, timestamp: nat)
    requires Anchored(owners, st) && owners(r.url) == Owner(key, Data) && key.id == r.id
    ensures Shows(st, RegisterData(st, key, r, timestamp))
  {
    hide RegisterData, Known, Anchored, Shows;
    if Known(st.Listed(key), r.url, timestamp) {
      RepetitionShows(owners, st, key, r, timestamp);
    } else {
      PlacementShows(owners, st, key, r, timestamp);
    }
  }

  lemma PlacedDomain(st: State, key: Key, r: Registration, timestamp: nat)
    ensures Purge(Announce(PlaceData(st, key, r, timestamp), key), r.id, r.url).domain == st.domain
  {
    hide Announce, Purge;
  }

  lemma Silent(st: State, st': State)
    requires st'.details == st.details
    ensures Shows(st, st')
  {}

  lemma RegisterServiceShows(owners: Owners, st: State, key: Key, r: Registration, timestamp: nat)
    requires Anchored(owners, st) && owners(r.url) == Owner(key, Service) && key.id == r.id
    ensures Shows(st, RegisterService(st, key, r, timestamp))
  {
    AnchoredParts(owners, st);
    RegisterServiceInstances(owners, st, key, r, timestamp);
    ServicePlacement(owners, st, key, r, timestamp);
    ServiceQuiet(owners, st, key, r, timestamp);
    hide Timed, PublishDetails, Purge, Tracked, Anchored, Shows;
    var purged := Purge(PlaceService(st, key, r), r.id, r.url);
    var stamped := purged.(instances := purged.instances[r.url := timestamp]);
    var st' := RegisterService(st, key, r, timestamp);
    if key.domain == st.domain {
      PublishedShows(st, stamped, r.id, r.url, timestamp, true, Service, st');
    } else {
      Silent(st, st');
    }
  }

  lemma UnregisterDataShows(owners: Owners, st: State, key: Key, u: Unregistration)
    requires Anchored(owners, st) && owners(u.url) == Owner(key, Data)
    ensures Shows(st, UnregisterData(st, key, u))
  {
    hide Timed, PublishDetails, Announce, Withdraw, FindInstance, Tracked, Anchored, Shows;
    AnchoredParts(owners, st);
    UnregisterDataInstances(owners, st, key, u);
    var k, st' := FindInstance(st.Listed(key), u.url, u.regTime), UnregisterData(st, key, u);
    if k < |st.Listed(key)| && key.domain == st.domain {
      WithdrawServices(st, key, k);
      QuietWithdrawal(st, key, k);
      var removed := Announce(Withdraw(st, key, k), key);
      PublishedShows(st, removed, u.id, u.url, removed.Instance(u.url), false, Data, st');
    } else {
      if k < |st.Listed(key)| { QuietWithdrawal(st, key, k); }
      Silent(st, st');
    }
  }

  lemma UnregisterServiceShows(owners: Owners, st: State, key: Key, u: Unregistration)
    requires Anchored(owners, st) && owners(u.url) == Owner(key, Service)
    ensures Shows(st, UnregisterService(st, key, u))
  {
    AnchoredParts(owners, st);
    UnregisterServiceInstances(owners, st, key, u);
    hide Timed, PublishDetails, Tracked, Anchored, Shows, Seconds;
    var st' := UnregisterService(st, key, u);
    if ServiceMatches(st, key, u) && key.domain == st.domain {
      var removed := st.(services := st.services - {key});
      PublishedShows(st, removed, u.id, u.url, removed.instances[u.url], false, Service, st');
    } else {
      Silent(st, st');
    }
  }

  lemma HandleShows(owners: Owners, st: State, request: Request)
    requires Anchored(owners, st) && Obeys(owners, st.domain, request)
    ensures Shows(st, Handle(st, request))
  {
    hide Anchored, Timed, RegisterData, RegisterService, UnregisterData, UnregisterService, Stale, Shows;
    match request
    case Register(r) =>
      var key := Key(r.domain.Or(st.domain), r.id);
      if Stale(st, r) {
        Silent(st, st);
      } else {
        Stamped(st, r);
        if r.kind.Data? {
          RegisterDataShows(owners, st, key, r, r.timestamp.value);
        } else {
          RegisterServiceShows(owners, st, key, r, r.timestamp.value);
        }
      }
    case Unregister(u) =>
      var key := Key(u.domain.Or(st.domain), u.id);
      if u.kind.Data? { UnregisterDataShows(owners, st, key, u); } else { UnregisterServiceShows(owners, st, key, u); }
    case Lookup(_, _, _) => Silent(st, Handle(st, request));
  }

  lemma FlushShows(st: State, handled: State)
    requires Shows(st, handled)
    ensures Shows(st, Flush(handled))
  {
    hide BacklogUpdates, PostIn, PostOf, ShowsComponents, Ascending;
    var st' := Flush(handled);
    if handled.details != st.details {
      SameNames(handled, st', handled.details[|st.details|]);
      forall id ensures PostOf(st', st'.Own(id)) == PostOf(handled, handled.Own(id)) {
        SamePost(handled, st', handled.Own(id));
      }
    }
  }

  /** A request is broadcast, if at all, by a picture that shows for each own service its provider and the time of it,
      and names the component behind each URL. */
  lemma StepShows(owners: Owners, st: State, request: Request)
    requires Anchored(owners, st) && Obeys(owners, st.domain, request)
    ensures Shows(st, Step(st, request))
  {
    hide Handle, Anchored, Obeys, Flush, Shows;
    HandleShows(owners, st, request);
    FlushShows(st, Handle(st, request));
  }

  // ----- the stream

  /** The message's change leads to its own picture, from itself and from the picture before. */
  predicate Leads(post: Post, m: Details, key: Key) {
    Posted(post, ChangeRequest(m.domain, m.change), key.domain, key) == PostIn(m.services, key.id)
  }

  ghost predicate ShownPosts(st: State, key: Key) {
    && (forall i | 0 <= i < |st.details| ::
          st.details[i].domain == key.domain && Leads(PostIn(st.details[i].services, key.id), st.details[i], key))
    && (forall i | 1 <= i < |st.details| :: Leads(PostIn(st.details[i - 1].services, key.id), st.details[i], key))
    && (st.details != [] ==> PostIn(st.details[|st.details| - 1].services, key.id) == PostOf(st, key))
  }

  lemma PostedTwice(post: Post, request: Request, domain: string, key: Key)
    ensures var once := Posted(post, request, domain, key); Posted(once, request, domain, key) == once
  {}

  lemma ChangePosts(st: State, request: Request, c: Change, post: Post, key: Key)
    requires Means(st, request, c) && key.domain == st.domain
    ensures Posted(post, ChangeRequest(st.domain, c), key.domain, key) == Posted(post, request, st.domain, key)
  {}

  lemma UnbroadcastLeavesPosts(owners: Owners, st: State, request: Request, key: Key)
    requires Settled(owners) && Manned(owners, st) && Obeys(owners, st.domain, request) && key.domain == st.domain
    requires Step(st, request).details == st.details
    ensures PostOf(Step(st, request), key) == PostOf(st, key)
  {
    hide Settled, Manned, Timed, Step, Anchored, Known, Obeys;
    TimedOf(owners, st);
    PostStep(owners, st, request, key);
    match request
    case Register(r) =>
      if !Stale(st, r) {
        RegisterBroadcasts(owners, st, r);
        hide Broadcasts;
      } else {
        StaleLeavesPosts(owners, st, r, key);
      }
    case Unregister(u) =>
      UnregisterBroadcasts(owners, st, u);
      MissLeavesPosts(owners, st, u, key);
    case Lookup(_, _, _) =>
  }

  lemma TimedOf(owners: Owners, st: State)
    requires Manned(owners, st)
    ensures Timed(owners, st)
  {
    hide Timed;
  }

  lemma StaleLeavesPosts(owners: Owners, st: State, r: Registration, key: Key)
    requires Manned(owners, st) && Stale(st, r)
    ensures PostOf(Step(st, Register(r)), key) == PostOf(st, key)
  {
    hide Manned, BacklogUpdates;
  }

  lemma MissLeavesPosts(owners: Owners, st: State, u: Unregistration, key: Key)
    requires Manned(owners, st) && Settled(owners) && Obeys(owners, st.domain, Unregister(u))
    requires key.domain == st.domain
    ensures (u.domain.Or(st.domain) == st.domain && Found(st, u))
            || Posted(PostOf(st, key), Unregister(u), st.domain, key) == PostOf(st, key)
  {
    hide Manned, Settled, FindInstance;
    if u.kind.Service? && Key(u.domain.Or(st.domain), u.id) == key { ProviderOf(owners, st, key, u.url); }
  }

  lemma BroadcastLeads(owners: Owners, st: State, request: Request, key: Key)
    requires Settled(owners) && Manned(owners, st) && Obeys(owners, st.domain, request) && key.domain == st.domain
    requires Step(st, request).details != st.details
    ensures var st' := Step(st, request);
            |st'.details| == |st.details| + 1 && st'.details[..|st.details|] == st.details
            && var m := st'.details[|st.details|];
               m.domain == key.domain && PostIn(m.services, key.id) == PostOf(st', key)
               && Leads(PostOf(st, key), m, key) && Leads(PostOf(st', key), m, key)
  {
    hide Settled, Manned, Timed, Step, Anchored, Known, Obeys, PostIn, Found, Stale;
    var st' := Step(st, request);
    TimedOf(owners, st);
    MannedParts(owners, st);
    PostStep(owners, st, request, key);
    StepShows(owners, st, request);
    ChangeMeans(owners, st, request);
    assert key == st'.Own(key.id);
    ChangePosts(st, request, LastChange(st'), PostOf(st, key), key);
    ChangePosts(st, request, LastChange(st'), PostOf(st', key), key);
    PostedTwice(PostOf(st, key), request, st.domain, key);
  }

  /** A change that is broadcast is the request, and the message is of the own domain. */
  lemma ChangeMeans(owners: Owners, st: State, request: Request)
    requires Timed(owners, st) && Obeys(owners, st.domain, request) && Step(st, request).details != st.details
    ensures var st' := Step(st, request);
            st'.details != [] && Means(st, request, LastChange(st'))
            && |st'.details| == |st.details| + 1 && st'.details[|st.details|].domain == st.domain
  {
    hide Timed, Step, Known, Means, Obeys, HeldIn;
    match request
    case Register(r) =>
      if Stale(st, r) {
        StaleIsSilent(st, r);
      } else {
        RegisterBroadcasts(owners, st, r);
      }
    case Unregister(u) => UnregisterBroadcasts(owners, st, u);
    case Lookup(_, _, _) => LookupIsSilent(st, request);
  }

  lemma StaleIsSilent(st: State, r: Registration)
    requires Stale(st, r)
    ensures Step(st, Register(r)).details == st.details
  {
    hide BacklogUpdates, Stale;
  }

  lemma LookupIsSilent(st: State, request: Request)
    requires request.Lookup?
    ensures Step(st, request).details == st.details
  {
    hide BacklogUpdates;
  }

  lemma StreamShowsPosts(owners: Owners, st: State, request: Request, key: Key)
    requires Settled(owners) && Manned(owners, st) && Obeys(owners, st.domain, request) && key.domain == st.domain
    requires ShownPosts(st, key)
    ensures ShownPosts(Step(st, request), key) && st.details <= Step(st, request).details
  {
    hide Settled, Manned, Step, Obeys, PostIn, Posted, PostOf;
    if Step(st, request).details == st.details {
      UnbroadcastLeavesPosts(owners, st, request, key);
    } else {
      BroadcastLeads(owners, st, request, key);
    }
  }
}
