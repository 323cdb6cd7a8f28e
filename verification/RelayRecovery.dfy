/** What a restart of the directory does to relays: re-registrations do not repeat that a publisher is one. */
module RelayRecovery {
  import opened Common
  import opened Directory
  import opened DirectoryRuns
  import opened DirectoryTimes
  import opened Recovery
  import opened Relays

  // ----- what all lists have in common

  /** Every publisher has a URL. */
  predicate AllValid(list: seq<Publisher>) {
    forall p | p in list :: Valid(p)
  }

  predicate Plain(list: seq<Publisher>) {
    forall p | p in list :: p.isRelay.None?
  }

  lemma DropIsPart(list: seq<Publisher>, url: string)
    ensures forall p | p in Drop(list, url) :: p in list
  {}

  lemma PlacedIsValid(list: seq<Publisher>, r: Registration, regTime: nat)
    requires AllValid(list)
    ensures AllValid(Placed(list, r, regTime))
  {
    var k := Find(list, r.url);
    if k < |list| { assert list[k] in list; }
    hide Find;
  }

  lemma StepKeepsValid(st: State, request: Request)
    requires forall key :: AllValid(st.Listed(key))
    ensures forall key :: AllValid(Step(st, request).Listed(key))
  {
    forall key ensures AllValid(Step(st, request).Listed(key)) {
      StepLists(st, request, key);
      assert AllValid(st.Listed(key));
      if request.Register? {
        DropIsPart(st.Listed(key), request.reg.url);
        PlacedIsValid(st.Listed(key), request.reg, Seconds(request.reg.timestamp.Or(0)));
      }
      hide Step, Find, FindInstance, Drop, Stale, Known, Placed;
    }
  }

  lemma StepKeepsPlain(st: State, r: Registration)
    requires r.isRelay.None? && forall key :: Plain(st.Listed(key))
    ensures forall key :: Plain(Step(st, Register(r)).Listed(key))
  {
    forall key ensures Plain(Step(st, Register(r)).Listed(key)) {
      StepLists(st, Register(r), key);
      assert Plain(st.Listed(key));
      DropIsPart(st.Listed(key), r.url);
      hide Step, Find, FindInstance, Drop, Stale, Known;
    }
  }

  lemma {:induction false} RebuiltIsPlain(domain: string, nodes: seq<Node>, requests: seq<Request>)
    requires OnlyReregistrations(nodes, requests)
    ensures forall key ::
              Plain(Run(Fresh(domain), requests).Listed(key)) && AllValid(Run(Fresh(domain), requests).Listed(key))
  {
    if requests != [] {
      var last := |requests| - 1;
      hide Step, Plain, AllValid;
      RebuiltIsPlain(domain, nodes, requests[..last]);
      assert Reregistration(nodes, requests[last]);
      StepKeepsPlain(Run(Fresh(domain), requests[..last]), requests[last].reg);
      StepKeepsValid(Run(Fresh(domain), requests[..last]), requests[last]);
    }
  }

  lemma {:induction false} PlayKeepsValid(c: Cluster, events: seq<Event>)
    requires forall key :: AllValid(c.directory.Listed(key))
    ensures forall key :: AllValid(Play(c, events).directory.Listed(key))
    decreases |events|
  {
    if events != [] {
      NextKeepsValid(c, events[0]);
      PlayKeepsValid(Next(c, events[0]), events[1..]);
      hide Next, AllValid;
    }
  }

  lemma NextKeepsValid(c: Cluster, event: Event)
    requires forall key :: AllValid(c.directory.Listed(key))
    ensures forall key :: AllValid(Next(c, event).directory.Listed(key))
  {
    hide Step, AllValid;
    match event
    case Publishes(n, id, url, timestamp, isRelay, ip) =>
      if n < |c.nodes| { StepKeepsValid(c.directory, RegisterRequest(c.nodes[n], id, url, timestamp, isRelay, ip)); }
    case Withdraws(n, id) =>
      if n < |c.nodes| && id in c.nodes[n].published && id in c.nodes[n].regTimes {
        StepKeepsValid(c.directory, UnregisterRequest(c.nodes[n], id));
      }
    case Asks(id, domain) => StepKeepsValid(c.directory, Lookup(id, Data, domain));
  }

  // ----- what nodes connect to

  function UrlSet(list: seq<Publisher>): set<string> {
    set p | p in list :: p.Url()
  }

  /** Every node is told to connect to the same URLs by both lists. */
  ghost predicate SameConnections(a: seq<Publisher>, b: seq<Publisher>) {
    forall componentId, ip :: UrlSet(Trimmed(a, componentId, ip)) == UrlSet(Trimmed(b, componentId, ip))
  }

  lemma WithoutRelays(list: seq<Publisher>, componentId: string, ip: string)
    requires AllValid(list) && forall p | p in list :: !IsRelay(p)
    ensures UrlSet(Trimmed(list, componentId, ip)) == UrlSet(list)
  {
    OneRelayOrAllSources(list, componentId, ip);
    hide Trimmed;
  }

  lemma RelayHearsOthers(list: seq<Publisher>, relay: Publisher, ip: string)
    requires DistinctUrls(list) && relay in list && IsRelay(relay)
    ensures relay.Url() !in UrlSet(Trimmed(list, relay.componentId.Or(""), ip))
  {
    var componentId := relay.componentId.Or("");
    OneRelayOrAllSources(list, componentId, ip);
    assert Relaying(list, componentId);
    hide Trimmed;
    forall p | p in Trimmed(list, componentId, ip) ensures p.Url() != relay.Url() {
      var i :| 0 <= i < |list| && list[i] == relay;
      var j :| 0 <= j < |list| && list[j] == p;
    }
  }

  lemma SameExactlyWithoutRelays(before: seq<Publisher>, after: seq<Publisher>)
    requires DistinctUrls(before) && AllValid(before) && AllValid(after) && Plain(after)
    requires UrlSet(before) == UrlSet(after)
    ensures SameConnections(before, after) <==> forall p | p in before :: !IsRelay(p)
  {
    hide Trimmed, UrlSet, DistinctUrls;
    if p :| p in before && IsRelay(p) {
      var componentId := p.componentId.Or("");
      RelayHearsOthers(before, p, "");
      WithoutRelays(after, componentId, "");
      ItsUrl(before, p);
      assert UrlSet(Trimmed(before, componentId, "")) != UrlSet(Trimmed(after, componentId, ""));
    } else {
      forall componentId, ip
        ensures UrlSet(Trimmed(before, componentId, ip)) == UrlSet(Trimmed(after, componentId, ip))
      {
        WithoutRelays(before, componentId, ip);
        WithoutRelays(after, componentId, ip);
      }
    }
  }

  lemma ItsUrl(list: seq<Publisher>, p: Publisher)
    requires p in list
    ensures p.Url() in UrlSet(list)
  {}

  /** A publisher's URL and second are held; a held URL is a publisher's. */
  lemma UrlsAreHeld(st: State, id: string, url: string)
    ensures url in UrlSet(st.Listed(st.Own(id))) <==> exists regTime: nat :: Holds(st, id, url, regTime)
  {
    var list := st.Listed(st.Own(id));
    if url in UrlSet(list) {
      var p :| p in list && p.Url() == url;
      var i :| 0 <= i < |list| && list[i] == p;
      assert Holds(st, id, url, list[i].regTime);
    }
    if regTime: nat :| Holds(st, id, url, regTime) {
      var i :| 0 <= i < |list| && list[i].Url() == url && list[i].regTime == regTime;
      assert list[i] in list;
    }
  }

  lemma RebuiltUrls(domain: string, componentIds: seq<string>, events: seq<Event>, requests: seq<Request>, id: string)
    requires AllPossible(Start(domain, componentIds), events)
    requires var nodes := Play(Start(domain, componentIds), events).nodes;
             OnlyReregistrations(nodes, requests) && EveryProductReregistered(nodes, requests)
    ensures var before, after := Play(Start(domain, componentIds), events).directory, Run(Fresh(domain), requests);
            UrlSet(before.Listed(before.Own(id))) == UrlSet(after.Listed(after.Own(id)))
  {
    hide Play, Run, Holds, UrlSet, OnlyReregistrations, EveryProductReregistered;
    var before, after := Play(Start(domain, componentIds), events).directory, Run(Fresh(domain), requests);
    forall url ensures url in UrlSet(before.Listed(before.Own(id))) <==> url in UrlSet(after.Listed(after.Own(id))) {
      UrlsAreHeld(before, id, url);
      UrlsAreHeld(after, id, url);
      forall regTime: nat ensures Holds(after, id, url, regTime) <==> Holds(before, id, url, regTime) {
        RestartRebuildsTheDirectory(domain, componentIds, events, requests, id, url, regTime);
      }
    }
  }

  lemma BeforeIsDistinct(domain: string, componentIds: seq<string>, events: seq<Event>, key: Key)
    requires AllPossible(Start(domain, componentIds), events)
    ensures var before := Play(Start(domain, componentIds), events).directory;
            DistinctUrls(before.Listed(key)) && AllValid(before.Listed(key)) && before.domain == domain
  {
    hide Play, DistinctUrls, AllValid, Timed;
    var owners := StartAgrees(domain, componentIds);
    var owners' := PlayAgrees(owners, Start(domain, componentIds), events);
    var c := Play(Start(domain, componentIds), events);
    AgreedIsTimed(owners', c);
    TimedList(owners', c.directory, key);
    StartIsValid(domain, componentIds);
    PlayKeepsValid(Start(domain, componentIds), events);
  }

  lemma AgreedIsTimed(owners: Owners, c: Cluster)
    requires Agreed(owners, c)
    ensures Timed(owners, c.directory)
  {
    hide Timed;
  }

  lemma StartIsValid(domain: string, componentIds: seq<string>)
    ensures forall key :: AllValid(Start(domain, componentIds).directory.Listed(key))
  {}

  lemma {:induction false} RunsStay(domain: string, requests: seq<Request>)
    ensures Run(Fresh(domain), requests).domain == domain
  {
    if requests != [] {
      RunsStay(domain, requests[..|requests| - 1]);
      hide Step;
    }
  }

  /** After a restart and any complete set of re-registrations, every node is told to connect to what it was told before
      exactly when none of the product's publishers was a relay. */
  lemma RelaysAreForgottenExactly(domain: string, componentIds: seq<string>, events: seq<Event>, requests: seq<Request>,
                                  id: string)
    requires AllPossible(Start(domain, componentIds), events)
    requires var nodes := Play(Start(domain, componentIds), events).nodes;
             OnlyReregistrations(nodes, requests) && EveryProductReregistered(nodes, requests)
    ensures var before := Play(Start(domain, componentIds), events).directory.Listed(Key(domain, id));
            var after := Run(Fresh(domain), requests).Listed(Key(domain, id));
            SameConnections(before, after) <==> forall p | p in before :: !IsRelay(p)
  {
    hide Play, Run, UrlSet, Plain, AllValid, DistinctUrls, SameConnections,
        OnlyReregistrations, EveryProductReregistered;
    var c := Play(Start(domain, componentIds), events);
    var key := Key(domain, id);
    BeforeIsDistinct(domain, componentIds, events, key);
    RebuiltIsPlain(domain, c.nodes, requests);
    RebuiltUrls(domain, componentIds, events, requests, id);
    RunsStay(domain, requests);
    SameExactlyWithoutRelays(c.directory.Listed(key), Run(Fresh(domain), requests).Listed(key));
  }

  // ----- a relay that is forgotten

  function OneRelay(): seq<Event> { [Publishes(0, "Telemetry", "tcp://r:1", 1000000, true, None)] }

  lemma RelayIsListed()
    ensures var c := Start("near", ["relay"]);
            var node := Registered(Node("relay", map[], map[], map[]), "Telemetry", "tcp://r:1", 1000000);
            && Play(c, OneRelay()).nodes == [node]
            && Play(c, OneRelay()).directory.Listed(Key("near", "Telemetry")) ==
               [Publisher(Some("tcp://r:1"), Some(true), Some("relay"), None, 1)]
  {
    hide Step;
    var c := Start("near", ["relay"]);
    assert Play(c, OneRelay()) == Next(c, OneRelay()[0]);
    StepLists(Fresh("near"), RegisterRequest(c.nodes[0], "Telemetry", "tcp://r:1", 1000000, true, None),
              Key("near", "Telemetry"));
  }

  /** One relay and nobody else: after the restart its own node is told to listen to it. */
  lemma RelayIsForgotten()
    ensures var nodes := Play(Start("near", ["relay"]), OneRelay()).nodes;
            |nodes| == 1 && WellFormed(nodes[0]) && "Telemetry" in nodes[0].published
    ensures var c := Play(Start("near", ["relay"]), OneRelay());
            var after := Run(Fresh("near"), [ReregisterRequest(c.nodes[0], "Telemetry")]);
            !SameConnections(c.directory.Listed(Key("near", "Telemetry")), after.Listed(Key("near", "Telemetry")))
  {
    hide Play, Run, SameConnections, Trimmed;
    RelayIsListed();
    var c := Play(Start("near", ["relay"]), OneRelay());
    var requests := [ReregisterRequest(c.nodes[0], "Telemetry")];
    OneIsPossible();
    assert Reregisters(c.nodes, requests[0], 0, "Telemetry");
    RelaysAreForgottenExactly("near", ["relay"], OneRelay(), requests, "Telemetry");
    assert IsRelay(c.directory.Listed(Key("near", "Telemetry"))[0]);
  }

  lemma OneIsPossible()
    ensures AllPossible(Start("near", ["relay"]), OneRelay())
  {
    hide Step;
    assert OneRelay()[1..] == [];
  }
}
