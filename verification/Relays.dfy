/** Which publishers a node connects to when some of them are relays. */
module Relays {
  import opened Common
  import opened Directory

  // ----- what the trimmed list means

  predicate Valid(p: Publisher) { p.url.Some? }

  predicate IsRelay(p: Publisher) { Valid(p) && p.isRelay.Or(false) }

  predicate IsSource(p: Publisher) { Valid(p) && !p.isRelay.Or(false) }

  /** A relay that serves every host. */
  predicate IsGlobal(p: Publisher) { IsRelay(p) && p.ipAddress.None? }

  /** A relay that serves the given host only. */
  predicate IsLocal(p: Publisher, ip: string) { IsRelay(p) && p.ipAddress == Some(ip) }

  /** The node itself relays this product. */
  predicate Relaying(list: seq<Publisher>, componentId: string) {
    exists p | p in list :: IsRelay(p) && p.componentId.Or("") == componentId
  }

  function Sources(list: seq<Publisher>): seq<Publisher> {
    if list == [] then []
    else
      var last := list[|list| - 1];
      Sources(list[..|list| - 1]) + if IsSource(last) then [last] else []
  }

  function Locals(list: seq<Publisher>, ip: string): seq<Publisher> {
    if list == [] then []
    else
      var last := list[|list| - 1];
      Locals(list[..|list| - 1], ip) + if IsLocal(last, ip) then [last] else []
  }

  function Globals(list: seq<Publisher>): seq<Publisher> {
    if list == [] then []
    else
      var last := list[|list| - 1];
      Globals(list[..|list| - 1]) + if IsGlobal(last) then [last] else []
  }

  /** A relay listens to all sources. Another node listens to the first relay of its host; without one, to the last
      global relay; without any, to all sources. */
  function Trimmed(list: seq<Publisher>, componentId: string, ip: string): seq<Publisher> {
    if Relaying(list, componentId) then Sources(list)
    else if Locals(list, ip) != [] then [Locals(list, ip)[0]]
    else if Globals(list) != [] then [Globals(list)[|Globals(list)| - 1]]
    else Sources(list)
  }

  lemma {:induction false} LocalsBoth(a: seq<Publisher>, b: seq<Publisher>, ip: string)
    ensures Locals(a + b, ip) == Locals(a, ip) + Locals(b, ip)
  {
    if b == [] {
      assert a + b == a;
    } else {
      assert (a + b)[..|a + b| - 1] == a + b[..|b| - 1];
      LocalsBoth(a, b[..|b| - 1], ip);
    }
  }

  lemma FirstLocal(list: seq<Publisher>, k: nat, ip: string)
    requires k < |list| && IsLocal(list[k], ip) && Locals(list[..k], ip) == []
    ensures Locals(list, ip) != [] && Locals(list, ip)[0] == list[k]
  {
    assert list == list[..k + 1] + list[k + 1..] && list[..k + 1][..k] == list[..k];
    LocalsBoth(list[..k + 1], list[k + 1..], ip);
  }

  // ----- how it is computed

  method AmRelay(list: seq<Publisher>, componentId: string) returns (relaying: bool)
    ensures relaying == Relaying(list, componentId)
  {
    relaying := false;
    for i := 0 to |list|
      invariant relaying == Relaying(list[..i], componentId)
    {
      assert forall p :: p in list[..i + 1] <==> p in list[..i] || p == list[i];
      if list[i].url.Some? && list[i].isRelay.Or(false) && list[i].componentId.Or("") == componentId {
        relaying := true;
      }
    }
    assert list[..|list|] == list;
  }

  /** What the loop has collected after a prefix without a local relay. */
  function Collected(prefix: seq<Publisher>, relaying: bool): seq<Publisher> {
    if relaying || Globals(prefix) == [] then Sources(prefix) else [Globals(prefix)[|Globals(prefix)| - 1]]
  }

  /** What one more publisher adds to the three kinds. */
  lemma OneMore(list: seq<Publisher>, i: nat, ip: string)
    requires i < |list|
    ensures Sources(list[..i + 1]) == Sources(list[..i]) + if IsSource(list[i]) then [list[i]] else []
    ensures Locals(list[..i + 1], ip) == Locals(list[..i], ip) + if IsLocal(list[i], ip) then [list[i]] else []
    ensures Globals(list[..i + 1]) == Globals(list[..i]) + if IsGlobal(list[i]) then [list[i]] else []
  {
    assert list[..i + 1][..i] == list[..i];
  }

  lemma NoneYet(ip: string)
    ensures Sources([]) == Locals([], ip) == Globals([]) == []
  {}

  /** One pass over the list: a relay found replaces what was collected, and a local one ends the search. */
  method TrimPublishers(fullList: seq<Publisher>, componentId: string, ip: string) returns (trimmed: seq<Publisher>)
    ensures trimmed == Trimmed(fullList, componentId, ip)
  {
    hide Sources, Locals, Globals, Relaying;
    var relaying := AmRelay(fullList, componentId);
    NoneYet(ip);
    trimmed := [];
    var foundGlobalRelay := false;
    var i := 0;
    while i < |fullList|
      invariant 0 <= i <= |fullList|
      invariant relaying || Locals(fullList[..i], ip) == []
      invariant foundGlobalRelay == (!relaying && Globals(fullList[..i]) != [])
      invariant trimmed == Collected(fullList[..i], relaying)
    {
      var p := fullList[i];
      OneMore(fullList, i, ip);
      i := i + 1;
      if p.url.None? {
        continue;
      } else if relaying {
        if !p.isRelay.Or(false) { trimmed := trimmed + [p]; }
      } else if p.isRelay.Or(false) {
        if p.ipAddress.None? || p.ipAddress.value == ip {
          trimmed := [p];
          if p.ipAddress.None? {
            foundGlobalRelay := true;
          } else {
            FirstLocal(fullList, i - 1, ip);
            return;
          }
        } else {
          continue;
        }
      }
      if !relaying && !foundGlobalRelay {
        trimmed := trimmed + [p];
      }
    }
    assert fullList[..|fullList|] == fullList;
  }

  // ----- what follows for the way data takes

  lemma {:induction false} SourcesAreIn(list: seq<Publisher>, p: Publisher)
    ensures p in Sources(list) <==> p in list && IsSource(p)
  {
    if list != [] {
      SourcesAreIn(list[..|list| - 1], p);
      assert list == list[..|list| - 1] + [list[|list| - 1]];
    }
  }

  lemma {:induction false} LocalsAreIn(list: seq<Publisher>, p: Publisher, ip: string)
    ensures p in Locals(list, ip) <==> p in list && IsLocal(p, ip)
  {
    if list != [] {
      LocalsAreIn(list[..|list| - 1], p, ip);
      assert list == list[..|list| - 1] + [list[|list| - 1]];
    }
  }

  lemma {:induction false} GlobalsAreIn(list: seq<Publisher>, p: Publisher)
    ensures p in Globals(list) <==> p in list && IsGlobal(p)
  {
    if list != [] {
      GlobalsAreIn(list[..|list| - 1], p);
      assert list == list[..|list| - 1] + [list[|list| - 1]];
    }
  }

  /** A node connects to sources only, unless some relay serves its host and it is not a relay itself; then it connects
      to exactly one such relay and to nothing else. */
  lemma OneRelayOrAllSources(list: seq<Publisher>, componentId: string, ip: string)
    ensures var trimmed := Trimmed(list, componentId, ip);
            if !Relaying(list, componentId) && exists p :: p in list && (IsLocal(p, ip) || IsGlobal(p)) then
              |trimmed| == 1 && trimmed[0] in list && (IsLocal(trimmed[0], ip) || IsGlobal(trimmed[0]))
              && ((exists p :: p in list && IsLocal(p, ip)) ==> IsLocal(trimmed[0], ip))
            else forall p :: p in trimmed <==> p in list && IsSource(p)
  {
    forall p ensures p in Sources(list) <==> p in list && IsSource(p) { SourcesAreIn(list, p); }
    forall p ensures p in Locals(list, ip) <==> p in list && IsLocal(p, ip) { LocalsAreIn(list, p, ip); }
    forall p ensures p in Globals(list) <==> p in list && IsGlobal(p) { GlobalsAreIn(list, p); }
    hide Sources, Locals, Globals;
    if Locals(list, ip) != [] { assert Locals(list, ip)[0] in Locals(list, ip); }
    if Globals(list) != [] { assert Globals(list)[|Globals(list)| - 1] in Globals(list); }
  }

  /** A way of the data, from the subscriber back: each node on it listens to the next publisher, and every publisher
      but the last one passes on what it hears. */
  predicate Route(list: seq<Publisher>, componentId: string, ip: string, hostOf: string -> string,
                  route: seq<Publisher>)
    decreases |route|
  {
    route == [] ||
    (route[0] in Trimmed(list, componentId, ip)
     && (|route| > 1 ==> IsRelay(route[0]))
     && Route(list, route[0].componentId.Or(""), hostOf(route[0].componentId.Or("")), hostOf, route[1..]))
  }

  /** When all nodes trim the same list, no data passes through two relays, so no relays can feed each other. */
  lemma NoRouteHasTwoRelays(list: seq<Publisher>, componentId: string, ip: string, hostOf: string -> string,
                            route: seq<Publisher>)
    requires Route(list, componentId, ip, hostOf, route)
    ensures |route| <= 2 && (|route| == 2 ==> IsSource(route[1]))
  {
    if |route| >= 2 {
      var relay := route[0].componentId.Or("");
      TrimmedAreIn(list, componentId, ip, route[0]);
      assert Relaying(list, relay);
      var rest := route[1..];
      assert rest[0] in Trimmed(list, relay, hostOf(relay));
      SourcesAreIn(list, rest[0]);
    }
  }

  lemma TrimmedAreIn(list: seq<Publisher>, componentId: string, ip: string, p: Publisher)
    requires p in Trimmed(list, componentId, ip)
    ensures p in list && Valid(p)
  {
    SourcesAreIn(list, p);
    LocalsAreIn(list, p, ip);
    GlobalsAreIn(list, p);
  }

  /** And every source reaches every node, directly or through the relay the node listens to. */
  lemma EverySourceReachesEveryNode(list: seq<Publisher>, componentId: string, ip: string, hostOf: string -> string,
                                    source: Publisher)
    requires source in list && IsSource(source)
    ensures exists route :: Route(list, componentId, ip, hostOf, route) && route != [] && route[|route| - 1] == source
  {
    SourcesAreIn(list, source);
    OneRelayOrAllSources(list, componentId, ip);
    var trimmed := Trimmed(list, componentId, ip);
    if source in trimmed {
      assert [source][1..] == [];
      assert Route(list, componentId, ip, hostOf, [source]);
    } else {
      var relay := trimmed[0];
      var at := relay.componentId.Or("");
      assert Relaying(list, at);
      var route := [relay, source];
      assert route[1..] == [source] && [source][1..] == [];
      assert Route(list, at, hostOf(at), hostOf, [source]);
      assert Route(list, componentId, ip, hostOf, route);
    }
  }
}
