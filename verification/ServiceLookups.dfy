/** What a lookup of a service answers, in terms of the requests the directory has served. */
module ServiceLookups {
  import opened Common
  import opened Directory
  import opened DirectoryTimes

  predicate Names(domain: string, requested: Option<string>, id: string, key: Key) {
    key == Key(requested.Or(domain), id)
  }

  /** Request i registers the service, and is not stale. */
  predicate Enrols(domain: string, requests: seq<Request>, key: Key, i: nat) {
    && i < |requests| && requests[i].Register?
    && var r := requests[i].reg;
       r.kind.Service? && Names(domain, r.domain, r.id, key) && !Stale(Run(Fresh(domain), requests[..i]), r)
  }

  /** Request i unregisters the service, and is not told that there is none. */
  predicate Withdraws(domain: string, requests: seq<Request>, key: Key, i: nat) {
    && i < |requests| && requests[i].Unregister?
    && var u := requests[i].unreg;
       u.kind.Service? && Names(domain, u.domain, u.id, key)
       && Reply(Run(Fresh(domain), requests[..i]), requests[i]) == Accepted
  }

  /** Request i has brought the provider that the service has now. */
  predicate Provides(domain: string, requests: seq<Request>, key: Key, i: nat) {
    && Enrols(domain, requests, key, i)
    && forall j: nat | i < j < |requests| ::
         !Enrols(domain, requests, key, j) && !Withdraws(domain, requests, key, j)
  }

  // ----- the table of services

  lemma StepServices(st: State, request: Request)
    ensures Step(st, request).services ==
            match request
            case Register(r) =>
              if r.kind.Service? && !Stale(st, r) then st.services[Key(r.domain.Or(st.domain), r.id) := r.url]
              else st.services
            case Unregister(u) =>
              if u.kind.Service? && Found(st, u) then st.services - {Key(u.domain.Or(st.domain), u.id)}
              else st.services
            case Lookup(_, _, _) => st.services
  {
    hide RegisterData, RegisterService, UnregisterData, BacklogUpdates, PublishDetails, Stale, ServiceMatches,
      FindInstance;
  }

  lemma EarlierSame(domain: string, requests: seq<Request>, key: Key, i: nat)
    requires requests != [] && i < |requests| - 1
    ensures Enrols(domain, requests[..|requests| - 1], key, i) <==> Enrols(domain, requests, key, i)
    ensures Withdraws(domain, requests[..|requests| - 1], key, i) <==> Withdraws(domain, requests, key, i)
  {
    hide Run, Stale, Reply;
    assert requests[..|requests| - 1][..i] == requests[..i];
  }

  /** The last request decides, or leaves it to the earlier ones. */
  lemma ProvidesMore(domain: string, requests: seq<Request>, key: Key, i: nat)
    requires requests != []
    ensures var last := |requests| - 1;
            Provides(domain, requests, key, i) <==>
            if Enrols(domain, requests, key, last) then i == last
            else Provides(domain, requests[..last], key, i) && !Withdraws(domain, requests, key, last)
  {
    hide Enrols, Withdraws;
    var last := |requests| - 1;
    forall j: nat | j < last
      ensures Enrols(domain, requests[..last], key, j) <==> Enrols(domain, requests, key, j)
      ensures Withdraws(domain, requests[..last], key, j) <==> Withdraws(domain, requests, key, j)
    {
      EarlierSame(domain, requests, key, j);
    }
    EnrolledInside(domain, requests, key, i);
    EnrolledInside(domain, requests[..last], key, i);
  }

  lemma EnrolledInside(domain: string, requests: seq<Request>, key: Key, i: nat)
    ensures Enrols(domain, requests, key, i) ==> i < |requests|
  {
    hide Run, Stale;
  }

  /** The table of services holds what the requests provide. */
  ghost predicate Provided(st: State, domain: string, requests: seq<Request>, key: Key) {
    && (forall i: nat | Provides(domain, requests, key, i) ::
          i < |requests| && requests[i].Register? && key in st.services && st.services[key] == requests[i].reg.url)
    && (key in st.services ==> exists i: nat :: Provides(domain, requests, key, i))
  }

  lemma RegisterProvides(domain: string, requests: seq<Request>, key: Key)
    requires requests != [] && requests[|requests| - 1].Register?
    requires Run(Fresh(domain), requests[..|requests| - 1]).domain == domain
    requires Provided(Run(Fresh(domain), requests[..|requests| - 1]), domain, requests[..|requests| - 1], key)
    ensures Provided(Run(Fresh(domain), requests), domain, requests, key)
  {
    hide Step, Stale, Run, Provides;
    var last := |requests| - 1;
    var before, request := Run(Fresh(domain), requests[..last]), requests[last];
    OneMoreRun(Fresh(domain), requests);
    StepServices(before, request);
    assert !Withdraws(domain, requests, key, last);
    forall i: nat ensures Provides(domain, requests, key, i) <==>
                          if Enrols(domain, requests, key, last) then i == last
                          else Provides(domain, requests[..last], key, i)
    {
      ProvidesMore(domain, requests, key, i);
    }
    if Enrols(domain, requests, key, last) {
      assert Provides(domain, requests, key, last);
    } else if key in before.services {
      var i: nat :| Provides(domain, requests[..last], key, i);
      assert Provides(domain, requests, key, i);
    }
  }

  lemma WithdrawalProvides(domain: string, requests: seq<Request>, key: Key)
    requires requests != [] && !requests[|requests| - 1].Register?
    requires Run(Fresh(domain), requests[..|requests| - 1]).domain == domain
    requires Provided(Run(Fresh(domain), requests[..|requests| - 1]), domain, requests[..|requests| - 1], key)
    ensures Provided(Run(Fresh(domain), requests), domain, requests, key)
  {
    hide Step, Stale, Run, Provides, Found;
    var last := |requests| - 1;
    var before, request := Run(Fresh(domain), requests[..last]), requests[last];
    OneMoreRun(Fresh(domain), requests);
    StepServices(before, request);
    assert !Enrols(domain, requests, key, last);
    forall i: nat ensures Provides(domain, requests, key, i) <==>
                          Provides(domain, requests[..last], key, i) && !Withdraws(domain, requests, key, last)
    {
      ProvidesMore(domain, requests, key, i);
    }
  }

  lemma OneMoreRun(st: State, requests: seq<Request>)
    requires requests != []
    ensures var last := |requests| - 1; Run(st, requests) == Step(Run(st, requests[..last]), requests[last])
  {
    hide Step;
  }

  lemma {:induction false} ServicesAreProvided(domain: string, requests: seq<Request>, key: Key)
    ensures Provided(Run(Fresh(domain), requests), domain, requests, key)
    ensures Run(Fresh(domain), requests).domain == domain
  {
    if requests == [] {
      hide Provides;
      assert forall i: nat :: !Provides(domain, [], key, i) by {
        forall i: nat ensures !Provides(domain, [], key, i) { NothingProvided(domain, key, i); }
      }
    } else {
      hide Provided, Step;
      ServicesAreProvided(domain, requests[..|requests| - 1], key);
      OneMoreRun(Fresh(domain), requests);
      if requests[|requests| - 1].Register? {
        RegisterProvides(domain, requests, key);
      } else {
        WithdrawalProvides(domain, requests, key);
      }
    }
  }

  lemma NothingProvided(domain: string, key: Key, i: nat)
    ensures !Provides(domain, [], key, i)
  {
    hide Run, Stale;
  }

  /** In every run a lookup of a service answers the URL of the last registration of the service that was accepted and
      that no accepted unregistration of it has followed, and without one that there is none. A lookup that names no
      domain, or an empty one, asks about the own one. */
  lemma ServiceLookupsAnswerTheLast(domain: string, requests: seq<Request>, id: string, requested: Option<string>)
    ensures var key := Key(if requested == None || requested == Some("") then domain else requested.value, id);
            var reply := Reply(Run(Fresh(domain), requests), Lookup(id, Service, requested));
            && (forall i: nat | Provides(domain, requests, key, i) ::
                  i < |requests| && requests[i].Register? && reply.ProviderIs? && reply.key == key
                  && reply.url == requests[i].reg.url && reply.regTime.Some?)
            && ((forall i: nat :: !Provides(domain, requests, key, i)) ==> reply == ProviderIs(key, "", None))
  {
    hide Run, Provides;
    var key := Key(if requested == None || requested == Some("") then domain else requested.value, id);
    ServicesAreProvided(domain, requests, key);
  }

  // ----- times

  /** Every provider has a recorded time. */
  ghost predicate Anchored(owners: Owners, st: State) {
    Timed(owners, st) && forall key | key in st.services :: st.services[key] in st.instances
  }

  lemma AnchoredParts(owners: Owners, st: State)
    requires Anchored(owners, st)
    ensures Timed(owners, st)
    ensures forall key | key in st.services ::
              st.services[key] in st.instances && owners(st.services[key]) == Owner(key, Service)
  {
    ServicesByRight(owners, st);
    hide Timed;
  }

  /** Publishing the tables reads times that are there. */
  lemma PublishIsQuiet(owners: Owners, st: State, id: string, at: string, timestamp: nat, added: bool, kind: Kind)
    requires Tracked(owners, st) && forall key | key in st.services :: st.services[key] in st.instances
    ensures PublishDetails(st, id, at, timestamp, added, kind).instances == st.instances
  {
    var services := ServiceRows(st, Ascending(ServiceIds(st)));
    var products := ProductRows(st, Ascending(ProductIds(st)));
    forall i | 0 <= i < |services| ensures services[i].url in st.instances {
      ServiceRowAt(st, Ascending(ServiceIds(st)), i);
      assert Ascending(ServiceIds(st))[i] in ServiceIds(st);
    }
    forall i | 0 <= i < |products| ensures products[i].url in st.instances {
      ProductRowAt(st, Ascending(ProductIds(st)), i);
    }
    hide Touch, ServiceRows, ProductRows, Ascending, ServiceIds, ProductIds, Tracked;
    TouchesNothing(st.instances, services);
    TouchesNothing(st.instances, products);
  }

  lemma TouchesNothing(instances: map<string, nat>, rows: seq<Row>)
    requires forall i | 0 <= i < |rows| :: rows[i].url in instances
    ensures Touch(instances, rows) == instances
  {
    hide Touch;
    var touched := Touch(instances, rows);
    assert touched.Keys == instances.Keys;
  }

  /** The recorded times after a request. */
  function InstancesAfter(st: State, request: Request): map<string, nat> {
    match request
    case Lookup(_, _, _) => st.instances
    case Register(r) => if Stale(st, r) then st.instances else st.instances[r.url := r.timestamp.value]
    case Unregister(u) => if Found(st, u) then st.instances - {u.url} else st.instances
  }

  lemma RegisterDataInstances(owners: Owners, st: State, key: Key, r: Registration, timestamp: nat)
    requires Anchored(owners, st) && owners(r.url) == Owner(key, Data) && key.id == r.id
    ensures RegisterData(st, key, r, timestamp).instances == st.instances[r.url := timestamp]
  {
    AnchoredParts(owners, st);
    hide Timed, Known, PublishDetails, Announce, PlaceData, Purge, Tracked, Anchored;
    if Known(st.Listed(key), r.url, timestamp) {
      var stamped := st.(ready := st.ready || r.id == REGISTERED_PUBLISHERS,
                         instances := st.instances[r.url := timestamp]);
      StillTracked(owners, st, stamped);
      PublishIsQuiet(owners, stamped, r.id, r.url, timestamp, true, Data);
    } else {
      PurgedPlacement(owners, st, key, r, timestamp);
      var purged := Purge(Announce(PlaceData(st, key, r, timestamp), key), r.id, r.url);
      PublishIsQuiet(owners, purged, r.id, r.url, timestamp, true, Data);
    }
  }

  lemma RegisterServiceInstances(owners: Owners, st: State, key: Key, r: Registration, timestamp: nat)
    requires Anchored(owners, st) && owners(r.url) == Owner(key, Service) && key.id == r.id
    ensures RegisterService(st, key, r, timestamp).instances == st.instances[r.url := timestamp]
  {
    AnchoredParts(owners, st);
    hide Timed, PublishDetails, Purge, Tracked, Anchored;
    ServicePlacement(owners, st, key, r, timestamp);
    var purged := Purge(PlaceService(st, key, r), r.id, r.url);
    var stamped := purged.(instances := purged.instances[r.url := timestamp]);
    PublishIsQuiet(owners, stamped, r.id, r.url, timestamp, true, Service);
  }

  lemma WithdrawTracked(owners: Owners, st: State, key: Key, k: nat)
    requires Timed(owners, st) && k < |st.Listed(key)|
    ensures Tracked(owners, Announce(Withdraw(st, key, k), key))
  {
    TimedIsTracked(owners, st);
    TimedList(owners, st, key);
    forall other: Key, at | Lists(Withdraw(st, key, k).Listed(other), at) ensures at in st.instances {
      WithdrawUrls(st, key, k, other);
    }
    var removed := Announce(Withdraw(st, key, k), key);
    hide Timed, Lists, Announce;
    assert forall other: Key :: removed.Listed(other) == Withdraw(st, key, k).Listed(other);
  }

  lemma UnregisterDataInstances(owners: Owners, st: State, key: Key, u: Unregistration)
    requires Anchored(owners, st)
    ensures UnregisterData(st, key, u).instances ==
            if FindInstance(st.Listed(key), u.url, u.regTime) < |st.Listed(key)| then st.instances - {u.url}
            else st.instances
  {
    AnchoredParts(owners, st);
    hide Timed, PublishDetails, Announce, Withdraw, FindInstance, Tracked, Anchored;
    var k := FindInstance(st.Listed(key), u.url, u.regTime);
    if k < |st.Listed(key)| {
      WithdrawTracked(owners, st, key, k);
      WithdrawServices(st, key, k);
      var removed := Announce(Withdraw(st, key, k), key);
      PublishIsQuiet(owners, removed, u.id, u.url, removed.Instance(u.url), false, Data);
    }
  }

  lemma WithdrawServices(st: State, key: Key, k: nat)
    requires k < |st.Listed(key)|
    ensures var removed := Announce(Withdraw(st, key, k), key);
            removed.services == st.services && removed.instances == st.instances && removed.domain == st.domain
  {
    hide Announce;
  }

  lemma UnregisterServiceInstances(owners: Owners, st: State, key: Key, u: Unregistration)
    requires Anchored(owners, st)
    ensures UnregisterService(st, key, u).instances ==
            if ServiceMatches(st, key, u) then st.instances - {u.url} else st.instances
  {
    AnchoredParts(owners, st);
    hide Timed, PublishDetails, Tracked, Anchored, Seconds;
    if ServiceMatches(st, key, u) {
      var removed := st.(services := st.services - {key});
      StillTracked(owners, st, removed);
      PublishIsQuiet(owners, removed, u.id, u.url, removed.instances[u.url], false, Service);
    }
  }

  lemma HandleInstances(owners: Owners, st: State, request: Request)
    requires Anchored(owners, st) && Obeys(owners, st.domain, request)
    ensures Handle(st, request).instances == InstancesAfter(st, request)
  {
    AnchoredParts(owners, st);
    hide Anchored, Timed, RegisterData, RegisterService, UnregisterData, UnregisterService, FindInstance,
      ServiceMatches, Stale;
    match request
    case Register(r) =>
      var key := Key(r.domain.Or(st.domain), r.id);
      if !Stale(st, r) {
        Stamped(st, r);
        if r.kind.Data? {
          RegisterDataInstances(owners, st, key, r, r.timestamp.value);
        } else {
          RegisterServiceInstances(owners, st, key, r, r.timestamp.value);
        }
      }
    case Unregister(u) =>
      var key := Key(u.domain.Or(st.domain), u.id);
      if u.kind.Data? {
        UnregisterDataInstances(owners, st, key, u);
      } else {
        UnregisterServiceInstances(owners, st, key, u);
      }
    case Lookup(_, _, _) =>
  }

  lemma Stamped(st: State, r: Registration)
    requires !Stale(st, r)
    ensures r.timestamp.Some?
  {}

  lemma StepAnchored(owners: Owners, st: State, request: Request)
    requires Anchored(owners, st) && Obeys(owners, st.domain, request)
    ensures Anchored(owners, Step(st, request)) && Step(st, request).instances == InstancesAfter(st, request)
  {
    AnchoredParts(owners, st);
    HandleInstances(owners, st, request);
    StepKeepsTimed(owners, st, request);
    StepServices(st, request);
    FlushKeepsTables(Handle(st, request));
    hide Timed, Handle, Stale, Found, Anchored;
    StillAnchored(owners, st, request);
  }

  lemma FlushKeepsTables(st: State)
    ensures Flush(st).instances == st.instances && Flush(st).services == st.services
  {
    hide BacklogUpdates;
  }

  lemma StillAnchored(owners: Owners, st: State, request: Request)
    requires Timed(owners, Step(st, request)) && Obeys(owners, st.domain, request)
    requires Step(st, request).instances == InstancesAfter(st, request)
    requires forall key | key in st.services ::
               st.services[key] in st.instances && owners(st.services[key]) == Owner(key, Service)
    ensures Anchored(owners, Step(st, request))
  {
    StepServices(st, request);
    hide Timed, Step, Stale, Found;
  }

  lemma {:induction false} RunsAreAnchored(owners: Owners, domain: string, requests: seq<Request>)
    requires AllObey(owners, domain, requests)
    ensures Anchored(owners, Run(Fresh(domain), requests)) && Run(Fresh(domain), requests).domain == domain
  {
    if requests != [] {
      hide Anchored, Step, Obeys;
      RunsAreAnchored(owners, domain, requests[..|requests| - 1]);
      StepAnchored(owners, Run(Fresh(domain), requests[..|requests| - 1]), requests[|requests| - 1]);
    }
  }
}
