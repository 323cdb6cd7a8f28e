/** The nodes know between them everything the directory must be told again after a restart. */
module Recovery {
  import opened Common
  import opened Directory
  import opened DirectoryTimes

  /** publishMap, urlInstanceMap and dataRegistrationTimeMap of a GravityNode. */
  datatype Node = Node(
    componentId: string, published: map<string, string>, instances: map<string, nat>, regTimes: map<string, nat>)

  function RegisterRequest(node: Node, id: string, url: string, timestamp: nat, isRelay: bool,
                           ip: Option<string>): Request {
    Register(Registration(id, url, Data, None, Some(timestamp), Some(node.componentId), Some(isRelay), ip))
  }

  function Registered(node: Node, id: string, url: string, timestamp: nat): Node {
    node.(published := node.published[id := url],
          instances := node.instances[url := timestamp],
          regTimes := node.regTimes[id := Seconds(timestamp)])
  }

  function UnregisterRequest(node: Node, id: string): Request
    requires id in node.published && id in node.regTimes
  {
    Unregister(Unregistration(id, node.published[id], Data, None, node.regTimes[id]))
  }

  function Unregistered(node: Node, id: string): Node
    requires id in node.published
  {
    node.(published := node.published - {id},
          instances := node.instances - {node.published[id]},
          regTimes := node.regTimes - {id})
  }

  /** What a node sends for a product when it sees that the directory has restarted. */
  function ReregisterRequest(node: Node, id: string): Request
    requires id in node.published && node.published[id] in node.instances
  {
    var url := node.published[id];
    Register(Registration(id, url, Data, None, Some(node.instances[url]), Some(node.componentId), None, None))
  }

  /** Every published product has its URL's timestamp and its registration second on record. */
  predicate WellFormed(node: Node) {
    forall id | id in node.published ::
      node.published[id] in node.instances && id in node.regTimes
      && node.regTimes[id] == Seconds(node.instances[node.published[id]])
  }

  // ----- a directory and its nodes

  datatype Cluster = Cluster(directory: State, nodes: seq<Node>)

  datatype Event =
    | Publishes(node: nat, id: string, url: string, timestamp: nat, isRelay: bool, ip: Option<string>)
    | Withdraws(node: nat, id: string)
    | Asks(id: string, domain: Option<string>)

  /** Node n publishes product id at url since timestamp. */
  predicate Has(nodes: seq<Node>, n: nat, id: string, url: string, timestamp: nat) {
    && n < |nodes|
    && id in nodes[n].published && nodes[n].published[id] == url
    && url in nodes[n].instances && nodes[n].instances[url] == timestamp
    && id in nodes[n].regTimes && nodes[n].regTimes[id] == Seconds(timestamp)
  }

  function Start(domain: string, componentIds: seq<string>): Cluster {
    Cluster(Fresh(domain),
            seq(|componentIds|, i requires 0 <= i < |componentIds| => Node(componentIds[i], map[], map[], map[])))
  }

  /** A socket is bound to a free URL only. */
  ghost predicate Possible(c: Cluster, event: Event) {
    event.Publishes? ==> forall n: nat | n < |c.nodes| :: event.url !in c.nodes[n].published.Values
  }

  /** Registering a known product or unregistering an unknown one does not reach the directory. */
  function Next(c: Cluster, event: Event): Cluster {
    match event
    case Publishes(n, id, url, timestamp, isRelay, ip) =>
      if n < |c.nodes| && id !in c.nodes[n].published then
        Cluster(Step(c.directory, RegisterRequest(c.nodes[n], id, url, timestamp, isRelay, ip)),
                c.nodes[n := Registered(c.nodes[n], id, url, timestamp)])
      else c
    case Withdraws(n, id) =>
      if n < |c.nodes| && id in c.nodes[n].published && id in c.nodes[n].regTimes then
        Cluster(Step(c.directory, UnregisterRequest(c.nodes[n], id)), c.nodes[n := Unregistered(c.nodes[n], id)])
      else c
    case Asks(id, domain) => c.(directory := Step(c.directory, Lookup(id, Data, domain)))
  }

  function Play(c: Cluster, events: seq<Event>): Cluster
    decreases |events|
  {
    if events == [] then c else Play(Next(c, events[0]), events[1..])
  }

  ghost predicate AllPossible(c: Cluster, events: seq<Event>)
    decreases |events|
  {
    events == [] || (Possible(c, events[0]) && AllPossible(Next(c, events[0]), events[1..]))
  }

  // ----- the relation a directory and its nodes agree on

  ghost predicate Holds(st: State, id: string, url: string, regTime: nat) {
    exists i :: 0 <= i < |st.Listed(st.Own(id))|
      && st.Listed(st.Own(id))[i].Url() == url && st.Listed(st.Own(id))[i].regTime == regTime
  }

  ghost predicate Knows(nodes: seq<Node>, id: string, url: string, regTime: nat) {
    exists n: nat, timestamp: nat :: Has(nodes, n, id, url, timestamp) && Seconds(timestamp) == regTime
  }

  /** The maps of every node fit together, and no two products are at one URL. */
  ghost predicate Apart(nodes: seq<Node>) {
    && (forall n: nat, id | n < |nodes| && id in nodes[n].published ::
          nodes[n].published[id] in nodes[n].instances
          && Has(nodes, n, id, nodes[n].published[id], nodes[n].instances[nodes[n].published[id]]))
    && (forall n: nat, id, t: nat, n': nat, id', t': nat, url
          | Has(nodes, n, id, url, t) && Has(nodes, n', id', url, t') ::
          n == n' && id == id')
  }

  /** The directory's tables, and the times it has recorded, are those of the nodes. */
  ghost predicate Agreed(owners: Owners, c: Cluster) {
    && Apart(c.nodes)
    && Timed(owners, c.directory)
    && (forall url :: owners(url).kind.Data?)
    && (forall n: nat, id, url, t: nat | Has(c.nodes, n, id, url, t) ::
          owners(url) == Owner(c.directory.Own(id), Data) && Recorded(c.directory, url) == Some(t))
    && (forall url | url in c.directory.instances ::
          exists n: nat, id :: Has(c.nodes, n, id, url, c.directory.instances[url]))
  }

  lemma HeldIsKnown(owners: Owners, c: Cluster, id: string, url: string, regTime: nat)
    requires Agreed(owners, c) && Holds(c.directory, id, url, regTime)
    ensures Knows(c.nodes, id, url, regTime)
  {
    var st := c.directory;
    var list := st.Listed(st.Own(id));
    var i :| 0 <= i < |list| && list[i].Url() == url && list[i].regTime == regTime;
    assert InTime(owners, st, st.Own(id), list[i]);
    var n: nat, other :| Has(c.nodes, n, other, url, st.instances[url]);
    hide Timed, Apart, Has;
    assert other == id;
  }

  lemma KnownIsHeld(owners: Owners, c: Cluster, id: string, url: string, regTime: nat)
    requires Agreed(owners, c) && Knows(c.nodes, id, url, regTime)
    ensures Holds(c.directory, id, url, regTime)
  {
    var st := c.directory;
    var list := st.Listed(st.Own(id));
    var n: nat, t: nat :| Has(c.nodes, n, id, url, t) && Seconds(t) == regTime;
    assert Recorded(st, url) == Some(t);
    assert Lists(list, url);
    var i :| 0 <= i < |list| && list[i].Url() == url;
    assert InTime(owners, st, st.Own(id), list[i]);
  }

  // ----- events keep it

  lemma NewOwner(owners: Owners, st: State, url: string, owner: Owner) returns (owners': Owners)
    requires Timed(owners, st) && url !in st.instances && owner.kind.Data? && owners(url).kind.Data?
    ensures owners'(url) == owner && forall other | other != url :: owners'(other) == owners(other)
    ensures Timed(owners', st)
  {
    owners' := other => if other == url then owner else owners(other);
    forall key: Key, i | 0 <= i < |st.Listed(key)| ensures InTime(owners', st, key, st.Listed(key)[i]) {
      assert InTime(owners, st, key, st.Listed(key)[i]);
    }
  }

  /** The nodes after one of them publishes at a free URL. */
  lemma PublishHas(nodes: seq<Node>, n: nat, id: string, url: string, timestamp: nat)
    requires Apart(nodes) && n < |nodes| && id !in nodes[n].published
    requires forall m: nat | m < |nodes| :: url !in nodes[m].published.Values
    ensures var nodes' := nodes[n := Registered(nodes[n], id, url, timestamp)];
            Apart(nodes') && Has(nodes', n, id, url, timestamp)
            && (forall m: nat, other, at, t: nat :: Has(nodes', m, other, at, t) <==>
                  Has(nodes, m, other, at, t) || (m == n && other == id && at == url && t == timestamp))
  {
    var nodes' := nodes[n := Registered(nodes[n], id, url, timestamp)];
    forall m: nat, other, at, t: nat
      ensures Has(nodes', m, other, at, t) <==>
              Has(nodes, m, other, at, t) || (m == n && other == id && at == url && t == timestamp)
    {
      if m == n && other != id && other in nodes[n].published {
        assert nodes[n].published[other] in nodes[n].published.Values;
      }
    }
    assert forall m: nat, t: nat, other :: !Has(nodes, m, other, url, t);
    forall m: nat, other | m < |nodes'| && other in nodes'[m].published
      ensures nodes'[m].published[other] in nodes'[m].instances
      ensures Has(nodes', m, other, nodes'[m].published[other], nodes'[m].instances[nodes'[m].published[other]])
    {
      if m != n || other != id {
        assert Has(nodes, m, other, nodes[m].published[other], nodes[m].instances[nodes[m].published[other]]);
      }
    }
    hide Has;
  }

  lemma RecordedIsPublished(owners: Owners, c: Cluster, url: string)
    requires Agreed(owners, c) && url in c.directory.instances
    ensures exists n: nat :: n < |c.nodes| && url in c.nodes[n].published.Values
  {
    var n: nat, id :| Has(c.nodes, n, id, url, c.directory.instances[url]);
    hide Timed, Apart;
    assert c.nodes[n].published[id] in c.nodes[n].published.Values;
  }

  lemma AgreedParts(owners: Owners, c: Cluster)
    requires Agreed(owners, c)
    ensures Apart(c.nodes) && Timed(owners, c.directory) && forall url :: owners(url).kind.Data?
  {
    hide Timed, Apart, Has;
  }

  lemma FreeIsUnrecorded(owners: Owners, c: Cluster, event: Event)
    requires Agreed(owners, c) && event.Publishes? && Possible(c, event)
    ensures event.url !in c.directory.instances
  {
    hide Agreed;
    if event.url in c.directory.instances { RecordedIsPublished(owners, c, event.url); }
  }

  lemma UnrecordedIsUnpublished(owners: Owners, c: Cluster, url: string)
    requires Agreed(owners, c) && url !in c.directory.instances
    ensures forall n: nat, id, t: nat :: !Has(c.nodes, n, id, url, t)
  {
    hide Timed, Apart, Has;
  }

  /** An obedient request changes the recorded times as RecordedAfter says. */
  lemma StepRecords(owners: Owners, st: State, request: Request)
    requires Timed(owners, st) && Obeys(owners, st.domain, request) && forall url :: owners(url).kind.Data?
    ensures Timed(owners, Step(st, request))
    ensures forall url :: Recorded(Step(st, request), url) == RecordedAfter(st, request, url)
  {
    hide Timed, Step, RecordedAfter, Recorded, Obeys;
    StepKeepsTimed(owners, st, request);
  }

  lemma FreshRegistration(st: State, request: Request, url: string)
    requires request.Register? && request.reg.timestamp.Some? && request.reg.url !in st.instances
    ensures RecordedAfter(st, request, url) ==
            if url == request.reg.url then request.reg.timestamp else Recorded(st, url)
  {}

  lemma PublishAgrees(owners: Owners, c: Cluster, event: Event) returns (owners': Owners)
    requires Agreed(owners, c) && event.Publishes? && Possible(c, event)
    requires event.node < |c.nodes| && event.id !in c.nodes[event.node].published
    ensures Agreed(owners', Next(c, event))
  {
    hide Agreed, Timed, Apart, Step, Has, RecordedAfter;
    var n, id, url := event.node, event.id, event.url;
    var st := c.directory;
    var request := RegisterRequest(c.nodes[n], id, url, event.timestamp, event.isRelay, event.ip);
    AgreedParts(owners, c);
    FreeIsUnrecorded(owners, c, event);
    owners' := NewOwner(owners, st, url, Owner(st.Own(id), Data));
    assert forall at :: owners'(at).kind.Data?;
    PublishHas(c.nodes, n, id, url, event.timestamp);
    StepRecords(owners', st, request);
    forall at ensures Recorded(Step(st, request), at) == if at == url then Some(event.timestamp) else Recorded(st, at) {
      FreshRegistration(st, request, at);
    }
    var c' := Next(c, event);
    assert c'.directory == Step(st, request) && Recorded(c'.directory, url) == Some(event.timestamp);
    UnrecordedIsUnpublished(owners, c, url);
    AgreedAfterChange(owners, c, owners', c', url);
  }

  /** An event that concerns one URL leaves the others agreed. */
  lemma AgreedAfterChange(owners: Owners, c: Cluster, owners': Owners, c': Cluster, url: string)
    requires Agreed(owners, c) && Apart(c'.nodes) && Timed(owners', c'.directory)
    requires c'.directory.domain == c.directory.domain
    requires owners'(url).kind.Data? && forall at | at != url :: owners'(at) == owners(at)
    requires forall at | at != url :: Recorded(c'.directory, at) == Recorded(c.directory, at)
    requires forall n: nat, id, at, t: nat | at != url :: Has(c'.nodes, n, id, at, t) <==> Has(c.nodes, n, id, at, t)
    requires forall n: nat, id, t: nat | Has(c'.nodes, n, id, url, t) ::
               owners'(url) == Owner(c.directory.Own(id), Data) && Recorded(c'.directory, url) == Some(t)
    requires url in c'.directory.instances ==>
               exists n: nat, id :: Has(c'.nodes, n, id, url, c'.directory.instances[url])
    ensures Agreed(owners', c')
  {
    hide Timed, Apart, Has;
    forall at | at in c'.directory.instances
      ensures exists n: nat, id :: Has(c'.nodes, n, id, at, c'.directory.instances[at])
    {
      if at != url {
        assert Recorded(c'.directory, at) == Recorded(c.directory, at);
        var n: nat, id :| Has(c.nodes, n, id, at, c.directory.instances[at]);
        assert Has(c'.nodes, n, id, at, c'.directory.instances[at]);
      }
    }
  }

  /** The nodes after one of them withdraws a product. */
  lemma WithdrawHas(nodes: seq<Node>, n: nat, id: string)
    requires Apart(nodes) && n < |nodes| && id in nodes[n].published
    ensures var url := nodes[n].published[id];
            var nodes' := nodes[n := Unregistered(nodes[n], id)];
            Apart(nodes') && (forall m: nat, other, t: nat :: !Has(nodes', m, other, url, t))
            && (forall m: nat, other, at, t: nat | at != url ::
                  Has(nodes', m, other, at, t) <==> Has(nodes, m, other, at, t))
  {
    var url := nodes[n].published[id];
    var nodes' := nodes[n := Unregistered(nodes[n], id)];
    var since := nodes[n].instances[url];
    assert Has(nodes, n, id, url, since);
    forall m: nat, other, t: nat ensures !Has(nodes', m, other, url, t) {
      if Has(nodes', m, other, url, t) {
        assert Has(nodes, m, other, url, t);
      }
    }
    forall m: nat, other | m < |nodes'| && other in nodes'[m].published
      ensures nodes'[m].published[other] in nodes'[m].instances
      ensures Has(nodes', m, other, nodes'[m].published[other], nodes'[m].instances[nodes'[m].published[other]])
    {
      assert Has(nodes, m, other, nodes[m].published[other], nodes[m].instances[nodes[m].published[other]]);
    }
  }

  lemma HeldIsRecorded(owners: Owners, c: Cluster, n: nat, id: string)
    requires Agreed(owners, c) && n < |c.nodes| && id in c.nodes[n].published
    ensures var url := c.nodes[n].published[id];
            url in c.nodes[n].instances && Has(c.nodes, n, id, url, c.nodes[n].instances[url])
            && owners(url) == Owner(c.directory.Own(id), Data)
            && Recorded(c.directory, url) == Some(c.nodes[n].instances[url])
  {
    hide Timed, Has, Recorded;
    assert Has(c.nodes, n, id, c.nodes[n].published[id], c.nodes[n].instances[c.nodes[n].published[id]]);
  }

  lemma WithdrawalIsFound(owners: Owners, c: Cluster, n: nat, id: string)
    requires Agreed(owners, c) && n < |c.nodes| && id in c.nodes[n].published && id in c.nodes[n].regTimes
    ensures Found(c.directory, UnregisterRequest(c.nodes[n], id).unreg)
    ensures Obeys(owners, c.directory.domain, UnregisterRequest(c.nodes[n], id))
  {
    hide Agreed, Timed, Found, Apart;
    AgreedParts(owners, c);
    HeldIsRecorded(owners, c, n, id);
    OnlyItsOwnSecondUnregisters(owners, c.directory, UnregisterRequest(c.nodes[n], id).unreg);
  }

  lemma FoundIsForgotten(st: State, request: Request, url: string)
    requires request.Unregister? && Found(st, request.unreg)
    ensures RecordedAfter(st, request, url) == if url == request.unreg.url then None else Recorded(st, url)
  {
    hide Found;
  }

  lemma WithdrawAgrees(owners: Owners, c: Cluster, event: Event)
    requires Agreed(owners, c) && event.Withdraws?
    requires event.node < |c.nodes| && event.id in c.nodes[event.node].published
             && event.id in c.nodes[event.node].regTimes
    ensures Agreed(owners, Next(c, event))
  {
    hide Agreed, Timed, Apart, Step, Has, Found, Obeys;
    var n, id := event.node, event.id;
    var request := UnregisterRequest(c.nodes[n], id);
    AgreedParts(owners, c);
    HeldIsRecorded(owners, c, n, id);
    WithdrawalIsFound(owners, c, n, id);
    WithdrawHas(c.nodes, n, id);
    StepRecords(owners, c.directory, request);
    forall at
      ensures Recorded(Step(c.directory, request), at) ==
              if at == request.unreg.url then None else Recorded(c.directory, at)
    {
      FoundIsForgotten(c.directory, request, at);
    }
    var c' := Next(c, event);
    assert c'.directory == Step(c.directory, request) && Recorded(c'.directory, request.unreg.url) == None;
    AgreedAfterChange(owners, c, owners, c', c.nodes[n].published[id]);
  }

  lemma AskAgrees(owners: Owners, c: Cluster, event: Event)
    requires Agreed(owners, c) && event.Asks?
    ensures Agreed(owners, Next(c, event))
  {
    StepKeepsTimed(owners, c.directory, Lookup(event.id, Data, event.domain));
    hide Timed, Apart, Has, BacklogUpdates, Ascending;
  }

  lemma {:induction false} PlayAgrees(owners: Owners, c: Cluster, events: seq<Event>) returns (owners': Owners)
    requires Agreed(owners, c) && AllPossible(c, events)
    ensures Agreed(owners', Play(c, events))
    ensures Play(c, events).directory.domain == c.directory.domain
    decreases |events|
  {
    owners' := owners;
    if events != [] {
      var event := events[0];
      var next := owners;
      match event {
        case Publishes(n, id, _, _, _, _) =>
          if n < |c.nodes| && id !in c.nodes[n].published { next := PublishAgrees(owners, c, event); }
        case Withdraws(n, id) =>
          if n < |c.nodes| && id in c.nodes[n].published && id in c.nodes[n].regTimes {
            WithdrawAgrees(owners, c, event);
          }
        case Asks(_, _) => AskAgrees(owners, c, event);
      }
      hide Agreed, Step;
      owners' := PlayAgrees(next, Next(c, event), events[1..]);
    }
  }

  lemma StartAgrees(domain: string, componentIds: seq<string>) returns (owners: Owners)
    ensures Agreed(owners, Start(domain, componentIds))
  {
    owners := url => Owner(Key(domain, ""), Data);
  }

  /** When replies arrive and URLs are not shared, the directory lists exactly what the nodes publish, at the same URLs
      and since the same second. */
  lemma DirectoryHoldsWhatNodesPublish(domain: string, componentIds: seq<string>, events: seq<Event>,
                                       id: string, url: string, regTime: nat)
    requires AllPossible(Start(domain, componentIds), events)
    ensures var c := Play(Start(domain, componentIds), events);
            Holds(c.directory, id, url, regTime) <==> Knows(c.nodes, id, url, regTime)
  {
    var owners := StartAgrees(domain, componentIds);
    var owners' := PlayAgrees(owners, Start(domain, componentIds), events);
    var c := Play(Start(domain, componentIds), events);
    hide Agreed, Play, Holds, Knows;
    if Holds(c.directory, id, url, regTime) { HeldIsKnown(owners', c, id, url, regTime); }
    if Knows(c.nodes, id, url, regTime) { KnownIsHeld(owners', c, id, url, regTime); }
  }

  // ----- after a restart

  /** One node's re-registration of one of its products. */
  ghost predicate Reregisters(nodes: seq<Node>, request: Request, n: nat, id: string) {
    n < |nodes| && id in nodes[n].published && nodes[n].published[id] in nodes[n].instances
    && request == ReregisterRequest(nodes[n], id)
  }

  ghost predicate Reregistration(nodes: seq<Node>, request: Request) {
    exists n: nat, id :: Reregisters(nodes, request, n, id)
  }

  /** Re-registrations of the nodes' products and nothing else, in any order and as often as they were retried. */
  ghost predicate OnlyReregistrations(nodes: seq<Node>, requests: seq<Request>) {
    forall i | 0 <= i < |requests| :: Reregistration(nodes, requests[i])
  }

  ghost predicate EveryProductReregistered(nodes: seq<Node>, requests: seq<Request>) {
    forall n: nat, id | n < |nodes| && id in nodes[n].published ::
      exists i :: 0 <= i < |requests| && Reregisters(nodes, requests[i], n, id)
  }

  predicate Mentions(requests: seq<Request>, url: string) {
    exists i | 0 <= i < |requests| :: requests[i].Register? && requests[i].reg.url == url
  }

  lemma ReregistrationIsKnown(owners: Owners, c: Cluster, request: Request)
    requires Agreed(owners, c) && Reregistration(c.nodes, request)
    ensures request.Register? && request.reg.timestamp.Some? && Obeys(owners, c.directory.domain, request)
    ensures Recorded(c.directory, request.reg.url) == request.reg.timestamp
  {
    var n: nat, id :| Reregisters(c.nodes, request, n, id);
    assert Has(c.nodes, n, id, request.reg.url, request.reg.timestamp.value);
    hide Timed;
  }

  /** The recorded times of exactly the URLs mentioned are back. */
  ghost predicate Restored(st: State, directory: State, requests: seq<Request>) {
    forall url :: Recorded(st, url) == if Mentions(requests, url) then Recorded(directory, url) else None
  }

  lemma RestoreLast(owners: Owners, directory: State, before: State, requests: seq<Request>)
    requires requests != []
    requires var request := requests[|requests| - 1];
             request.Register? && request.reg.timestamp.Some? && Obeys(owners, before.domain, request)
             && Recorded(directory, request.reg.url) == request.reg.timestamp
    requires Timed(owners, before) && Restored(before, directory, requests[..|requests| - 1])
    requires forall url :: owners(url).kind.Data?
    ensures var st := Step(before, requests[|requests| - 1]);
            Timed(owners, st) && Restored(st, directory, requests)
  {
    hide Timed, Restored, Step;
    RestoreOne(owners, directory, before, requests, requests[..|requests| - 1], requests[|requests| - 1]);
  }

  lemma NotStale(st: State, r: Registration)
    requires r.timestamp.Some? && (Recorded(st, r.url).Some? ==> Recorded(st, r.url) == r.timestamp)
    ensures !Stale(st, r)
  {}

  lemma RestoreOne(owners: Owners, directory: State, before: State, requests: seq<Request>, earlier: seq<Request>,
                   request: Request)
    requires requests == earlier + [request]
    requires request.Register? && request.reg.timestamp.Some? && Obeys(owners, before.domain, request)
    requires Recorded(directory, request.reg.url) == request.reg.timestamp
    requires Timed(owners, before) && Restored(before, directory, earlier)
    requires forall url :: owners(url).kind.Data?
    ensures Timed(owners, Step(before, request)) && Restored(Step(before, request), directory, requests)
  {
    hide Timed, Step, Mentions, Obeys, Recorded, Stale;
    StepKeepsTimed(owners, before, request);
    MentionsOneMore(earlier, request);
    assert Recorded(before, request.reg.url).Some? ==> Recorded(before, request.reg.url) == request.reg.timestamp;
    NotStale(before, request.reg);
  }

  lemma NothingRestored(owners: Owners, directory: State)
    ensures Timed(owners, Fresh(directory.domain)) && Restored(Fresh(directory.domain), directory, [])
  {}

  /** However far the replay has come, it has restored the recorded times of the URLs it has mentioned. */
  lemma {:induction false} ReplayRestores(owners: Owners, c: Cluster, requests: seq<Request>)
    requires Agreed(owners, c) && OnlyReregistrations(c.nodes, requests)
    ensures var st := Run(Fresh(c.directory.domain), requests);
            st.domain == c.directory.domain && Timed(owners, st) && Restored(st, c.directory, requests)
    decreases |requests|
  {
    assert forall url :: owners(url).kind.Data?;
    hide Timed, Agreed, Step, Restored, Reregistration, Obeys, Fresh;
    if requests == [] {
      NothingRestored(owners, c.directory);
    } else {
      var last := |requests| - 1;
      ReplayRestores(owners, c, requests[..last]);
      ReregistrationIsKnown(owners, c, requests[last]);
      RestoreLast(owners, c.directory, Run(Fresh(c.directory.domain), requests[..last]), requests);
    }
  }

  lemma MentionsOneMore(earlier: seq<Request>, request: Request)
    requires request.Register?
    ensures forall url :: Mentions(earlier + [request], url) <==> Mentions(earlier, url) || url == request.reg.url
  {
    var requests := earlier + [request];
    assert requests[|earlier|] == request && forall i | 0 <= i < |earlier| :: requests[i] == earlier[i];
    forall url | Mentions(earlier, url) ensures Mentions(requests, url) {
      var i :| 0 <= i < |earlier| && earlier[i].Register? && earlier[i].reg.url == url;
      assert requests[i] == earlier[i];
    }
  }

  lemma RestoredAgrees(owners: Owners, c: Cluster, st: State, requests: seq<Request>)
    requires Agreed(owners, c) && EveryProductReregistered(c.nodes, requests)
    requires st.domain == c.directory.domain && Timed(owners, st) && Restored(st, c.directory, requests)
    ensures Agreed(owners, Cluster(st, c.nodes))
  {
    hide Timed, Apart;
    forall n: nat, id, url, t: nat | Has(c.nodes, n, id, url, t) ensures Recorded(st, url) == Some(t) {
      var i :| 0 <= i < |requests| && Reregisters(c.nodes, requests[i], n, id);
      assert Mentions(requests, url);
      assert Recorded(c.directory, url) == Some(t);
    }
    hide Has, Mentions, EveryProductReregistered;
    forall url | url in st.instances ensures exists n: nat, id :: Has(c.nodes, n, id, url, st.instances[url]) {
      assert Recorded(st, url) == Recorded(c.directory, url);
    }
  }

  lemma ReplayAgrees(owners: Owners, c: Cluster, requests: seq<Request>)
    requires Agreed(owners, c) && OnlyReregistrations(c.nodes, requests) && EveryProductReregistered(c.nodes, requests)
    ensures Agreed(owners, Cluster(Run(Fresh(c.directory.domain), requests), c.nodes))
  {
    ReplayRestores(owners, c, requests);
    hide Run, Timed, Agreed, Restored, EveryProductReregistered;
    RestoredAgrees(owners, c, Run(Fresh(c.directory.domain), requests), requests);
  }

  /** A fresh directory that is told every product of every node, in any order and with any repetitions, lists for the
      nodes what the old directory listed. */
  lemma RestartRebuildsTheDirectory(domain: string, componentIds: seq<string>, events: seq<Event>,
                                    requests: seq<Request>, id: string, url: string, regTime: nat)
    requires AllPossible(Start(domain, componentIds), events)
    requires var nodes := Play(Start(domain, componentIds), events).nodes;
             OnlyReregistrations(nodes, requests) && EveryProductReregistered(nodes, requests)
    ensures var before := Play(Start(domain, componentIds), events).directory;
            Holds(Run(Fresh(domain), requests), id, url, regTime) <==> Holds(before, id, url, regTime)
  {
    var owners := StartAgrees(domain, componentIds);
    var owners' := PlayAgrees(owners, Start(domain, componentIds), events);
    var c := Play(Start(domain, componentIds), events);
    assert c.directory.domain == domain;
    ReplayAgrees(owners', c, requests);
    var rebuilt := Cluster(Run(Fresh(domain), requests), c.nodes);
    hide Agreed, Play, Holds, Knows, Run, OnlyReregistrations, EveryProductReregistered;
    if Holds(c.directory, id, url, regTime) {
      HeldIsKnown(owners', c, id, url, regTime);
      KnownIsHeld(owners', rebuilt, id, url, regTime);
    }
    if Holds(rebuilt.directory, id, url, regTime) {
      HeldIsKnown(owners', rebuilt, id, url, regTime);
      KnownIsHeld(owners', c, id, url, regTime);
    }
  }
}
