/** What is listed of a publisher, field by field, when every URL has one owner: a matter of the requests about it. */
module PublisherHistories {
  import opened Common
  import opened Directory
  import opened DirectoryRuns
  import opened DirectoryTimes
  import opened ServiceTimes

  /** A publisher with the time of its last registration, and the component that broadcasts name for it. */
  datatype Standing = Absent | Present(publisher: Publisher, timestamp: nat, component: string)

  predicate Concerns(domain: string, named: Option<string>, id: string, kind: Kind, at: string, key: Key, url: string) {
    kind.Data? && Key(named.Or(domain), id) == key && at == url
  }

  /** A field that a registration leaves out stays as it was. */
  function Renewed<T>(latest: Option<T>, earlier: Option<T>): Option<T> {
    if latest.Some? then latest else earlier
  }

  function Signed(s: Standing, r: Registration, timestamp: nat): Standing {
    var second := timestamp / 1000000;
    match s
    case Absent =>
      Present(Publisher(Some(r.url), r.isRelay, r.componentId, r.ipAddress, second), timestamp, r.componentId.Or(""))
    case Present(p, _, component) =>
      if second == p.regTime then Present(p, timestamp, component)
      else
        Present(Publisher(p.url, Renewed(r.isRelay, p.isRelay), Renewed(r.componentId, p.componentId),
                          Renewed(r.ipAddress, p.ipAddress), second),
                timestamp, r.componentId.Or(""))
  }

  /** Registrations older than the last one are ignored, those of the same second change nothing but the time, and an
      unregistration must name the second of the last one. */
  function Stands(domain: string, requests: seq<Request>, key: Key, url: string): Standing {
    if requests == [] then Absent
    else
      var s := Stands(domain, requests[..|requests| - 1], key, url);
      match requests[|requests| - 1]
      case Register(r) =>
        if Concerns(domain, r.domain, r.id, r.kind, r.url, key, url) && r.timestamp.Some?
           && (s.Present? ==> s.timestamp <= r.timestamp.value)
        then Signed(s, r, r.timestamp.value) else s
      case Unregister(u) =>
        if Concerns(domain, u.domain, u.id, u.kind, u.url, key, url) && s.Present? && s.publisher.regTime == u.regTime
        then Absent else s
      case Lookup(_, _, _) => s
  }

  // ----- finding a publisher

  function At(list: seq<Publisher>, url: string): Option<Publisher> {
    var k := Find(list, url);
    if k < |list| then Some(list[k]) else None
  }

  lemma AtPlace(list: seq<Publisher>, url: string, k: nat)
    requires DistinctUrls(list) && k < |list| && list[k].Url() == url
    ensures At(list, url) == Some(list[k])
  {
    hide Find;
    if Find(list, url) < |list| { assert list[Find(list, url)].Url() == list[k].Url(); }
  }

  lemma AtNone(list: seq<Publisher>, url: string)
    ensures At(list, url) == None <==> !Lists(list, url)
  {
    hide Find;
    var k := Find(list, url);
    if k < |list| { assert Lists(list, url); }
  }

  lemma PlacedAt(list: seq<Publisher>, r: Registration, regTime: nat, url: string)
    requires DistinctUrls(list)
    ensures At(Placed(list, r, regTime), url) ==
            if url != r.url then At(list, url)
            else
              match At(list, url)
              case None => Some(Publisher(Some(r.url), r.isRelay, r.componentId, r.ipAddress, regTime))
              case Some(p) =>
                Some(Publisher(p.url, Renewed(r.isRelay, p.isRelay), Renewed(r.componentId, p.componentId),
                               Renewed(r.ipAddress, p.ipAddress), regTime))
  {
    hide Find;
    PlacedUrls(list, r, regTime);
    var placed, k := Placed(list, r, regTime), Find(list, r.url);
    if url == r.url {
      AtPlace(placed, url, k);
    } else if Find(list, url) < |list| {
      AtPlace(placed, url, Find(list, url));
    } else {
      assert forall i | 0 <= i < |list| :: list[i].Url() != url;
      AtNone(placed, url);
    }
  }

  lemma WithoutAt(list: seq<Publisher>, k: nat, url: string)
    requires DistinctUrls(list) && k < |list|
    ensures At(Without(list, k), url) == if list[k].Url() == url then None else At(list, url)
  {
    hide Find;
    WithoutUrls(list, k);
    var rest, f := Without(list, k), Find(list, url);
    assert forall i | 0 <= i < |rest| :: rest[i] == list[if i < k then i else i + 1];
    if list[k].Url() != url && f < |list| {
      AtPlace(rest, url, if f < k then f else f - 1);
    } else {
      assert forall i | 0 <= i < |list| && i != k :: list[i].Url() != url;
      AtNone(rest, url);
    }
  }

  lemma InstanceAt(list: seq<Publisher>, url: string, regTime: nat)
    requires DistinctUrls(list)
    ensures var k := FindInstance(list, url, regTime);
            k < |list| <==> At(list, url).Some? && At(list, url).value.regTime == regTime
  {
    hide Find, FindInstance;
    var k := FindInstance(list, url, regTime);
    if k < |list| { AtPlace(list, url, k); }
  }

  // ----- one request

  /** The list and the recorded times say what the requests say. */
  ghost predicate Agrees(st: State, key: Key, url: string, s: Standing) {
    match s
    case Absent => At(st.Listed(key), url) == None && url !in st.instances
    case Present(p, timestamp, component) =>
      At(st.Listed(key), url) == Some(p) && url in st.instances && st.instances[url] == timestamp
      && st.Component(url) == component
  }

  /** The component of a URL after a request: repetitions of a data registration do not count. */
  function ComponentAfter(st: State, request: Request, url: string): string {
    if request.Register? && request.reg.url == url && !Stale(st, request.reg)
       && (request.reg.kind.Data? ==>
             !Known(st.Listed(Key(request.reg.domain.Or(st.domain), request.reg.id)), url, request.reg.timestamp.value))
    then request.reg.componentId.Or("") else st.Component(url)
  }

  lemma RegisterComponents(st: State, key: Key, r: Registration, timestamp: nat)
    ensures RegisterData(st, key, r, timestamp).components ==
            if Known(st.Listed(key), r.url, timestamp) then st.components
            else st.components[r.url := r.componentId.Or("")]
    ensures RegisterService(st, key, r, timestamp).components == st.components[r.url := r.componentId.Or("")]
  {
    hide Known, Purge, Announce, PublishDetails, Placed;
  }

  lemma UnregisterComponents(st: State, key: Key, u: Unregistration)
    ensures UnregisterData(st, key, u).components == st.components
    ensures UnregisterService(st, key, u).components == st.components
  {
    hide Announce, PublishDetails, FindInstance, Without;
  }

  lemma StepComponents(st: State, request: Request, url: string)
    ensures Step(st, request).Component(url) == ComponentAfter(st, request, url)
  {
    hide Known, RegisterData, RegisterService, UnregisterData, UnregisterService, BacklogUpdates, Ascending;
    match request
    case Register(r) =>
      if r.timestamp.Some? { RegisterComponents(st, Key(r.domain.Or(st.domain), r.id), r, r.timestamp.value); }
    case Unregister(u) => UnregisterComponents(st, Key(u.domain.Or(st.domain), u.id), u);
    case Lookup(_, _, _) =>
  }

  lemma RegisterAgrees(owners: Owners, st: State, r: Registration, key: Key, url: string, s: Standing)
    requires Timed(owners, st) && Obeys(owners, st.domain, Register(r)) && owners(url) == Owner(key, Data)
    requires Agrees(st, key, url, s)
    ensures var s' := if Concerns(st.domain, r.domain, r.id, r.kind, r.url, key, url) && r.timestamp.Some?
                         && (s.Present? ==> s.timestamp <= r.timestamp.value)
                      then Signed(s, r, r.timestamp.value) else s;
            var list, recorded := ListAfter(st, Register(r), key), RecordedAfter(st, Register(r), url);
            if s'.Absent? then At(list, url) == None && recorded == None
            else At(list, url) == Some(s'.publisher) && recorded == Some(s'.timestamp)
                 && ComponentAfter(st, Register(r), url) == s'.component
  {
    TimedList(owners, st, key);
    hide Timed, Find, Placed;
    if !(r.kind.Data? && key == Key(r.domain.Or(st.domain), r.id)) {
      OthersStay(owners, st, r, key);
    } else if !Stale(st, r) {
      PlacedAt(st.Listed(key), r, Seconds(r.timestamp.value), url);
    }
    hide Drop, DistinctUrls, Lists, InTime;
  }

  lemma UnregisterAgrees(owners: Owners, st: State, u: Unregistration, key: Key, url: string, s: Standing)
    requires Timed(owners, st) && Obeys(owners, st.domain, Unregister(u)) && owners(url) == Owner(key, Data)
    requires Agrees(st, key, url, s)
    ensures var s' := if Concerns(st.domain, u.domain, u.id, u.kind, u.url, key, url) && s.Present?
                         && s.publisher.regTime == u.regTime then Absent else s;
            var list, recorded := ListAfter(st, Unregister(u), key), RecordedAfter(st, Unregister(u), url);
            if s'.Absent? then At(list, url) == None && recorded == None
            else At(list, url) == Some(s'.publisher) && recorded == Some(s'.timestamp)
                 && ComponentAfter(st, Unregister(u), url) == s'.component
  {
    TimedList(owners, st, key);
    hide Timed, Find, FindInstance, At, Without, InTime;
    var k := FindInstance(st.Listed(key), u.url, u.regTime);
    InstanceAt(st.Listed(key), u.url, u.regTime);
    if k < |st.Listed(key)| { WithoutAt(st.Listed(key), k, url); }
  }

  lemma {:induction false} StandingsAgree(owners: Owners, domain: string, requests: seq<Request>, key: Key, url: string)
    requires AllObey(owners, domain, requests) && owners(url) == Owner(key, Data)
    ensures Timed(owners, Run(Fresh(domain), requests)) && Run(Fresh(domain), requests).domain == domain
    ensures Agrees(Run(Fresh(domain), requests), key, url, Stands(domain, requests, key, url))
  {
    hide Timed, Step, ListAfter, RecordedAfter, ComponentAfter, At, Concerns, Signed;
    if requests != [] {
      var last := |requests| - 1;
      var before := Run(Fresh(domain), requests[..last]);
      ObeyInit(owners, domain, requests);
      StandingsAgree(owners, domain, requests[..last], key, url);
      StepKeepsTimed(owners, before, requests[last]);
      StepLists(before, requests[last], key);
      StepComponents(before, requests[last], url);
      assert Recorded(Run(Fresh(domain), requests), url) == RecordedAfter(before, requests[last], url);
      match requests[last]
      case Register(r) =>
        RegisterAgrees(owners, before, r, key, url, Stands(domain, requests[..last], key, url));
      case Unregister(u) =>
        UnregisterAgrees(owners, before, u, key, url, Stands(domain, requests[..last], key, url));
      case Lookup(id, kind, named) => LookupLeaves(before, id, kind, named, key, url);
    } else {
      NothingStands(owners, domain, key, url);
    }
  }

  lemma LookupLeaves(st: State, id: string, kind: Kind, named: Option<string>, key: Key, url: string)
    ensures ListAfter(st, Lookup(id, kind, named), key) == st.Listed(key)
    ensures RecordedAfter(st, Lookup(id, kind, named), url) == Recorded(st, url)
    ensures ComponentAfter(st, Lookup(id, kind, named), url) == st.Component(url)
  {}

  lemma NothingStands(owners: Owners, domain: string, key: Key, url: string)
    ensures Timed(owners, Run(Fresh(domain), [])) && Agrees(Run(Fresh(domain), []), key, url, Absent)
  {}

  /** In every run with one owner for each URL, a lookup of a data product answers one publisher for each URL that
      stands for it by the requests about that URL, and with exactly the fields these requests have left. */
  lemma DataLookupsFollowTheRequests(owners: Owners, domain: string, requests: seq<Request>, id: string,
                                     requested: Option<string>)
    requires AllObey(owners, domain, requests)
    ensures var key := Key(if requested == None || requested == Some("") then domain else requested.value, id);
            var reply := Reply(Run(Fresh(domain), requests), Lookup(id, Data, requested));
            && reply.Publishers? && reply.key == key
            && (forall i, j | 0 <= i < j < |reply.publishers| ::
                  reply.publishers[i].Url() != reply.publishers[j].Url())
            && (forall i | 0 <= i < |reply.publishers| ::
                  var s := Stands(domain, requests, key, reply.publishers[i].Url());
                  s.Present? && s.publisher == reply.publishers[i])
            && (forall url | owners(url) == Owner(key, Data) && Stands(domain, requests, key, url).Present? ::
                  exists i :: 0 <= i < |reply.publishers| && reply.publishers[i].Url() == url)
  {
    hide Run, Stands, AllObey, At, Timed, Find;
    var key := Key(if requested == None || requested == Some("") then domain else requested.value, id);
    var st := Run(Fresh(domain), requests);
    var list := st.Listed(key);
    FreshIsTimed(owners, domain);
    RunsStayTimed(owners, Fresh(domain), requests);
    TimedList(owners, st, key);
    forall i | 0 <= i < |list|
      ensures var s := Stands(domain, requests, key, list[i].Url()); s.Present? && s.publisher == list[i]
    {
      assert InTime(owners, st, key, list[i]);
      StandingsAgree(owners, domain, requests, key, list[i].Url());
      AtPlace(list, list[i].Url(), i);
    }
    forall url | owners(url) == Owner(key, Data) && Stands(domain, requests, key, url).Present?
      ensures Lists(list, url)
    {
      StandingsAgree(owners, domain, requests, key, url);
      AtNone(list, url);
    }
  }

  /** And broadcasts name for it the component of the last registration that was not a repetition. */
  lemma ComponentsFollowTheRequests(owners: Owners, domain: string, requests: seq<Request>, key: Key, url: string)
    requires AllObey(owners, domain, requests) && owners(url) == Owner(key, Data)
    requires Stands(domain, requests, key, url).Present?
    ensures Run(Fresh(domain), requests).Component(url) == Stands(domain, requests, key, url).component
  {
    hide Run, Stands, AllObey, At, Timed;
    StandingsAgree(owners, domain, requests, key, url);
  }
}
