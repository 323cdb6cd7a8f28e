/** The registration side of a node: its maps are changed together with the directory's tables. */
module GravityNodes {
  import opened Common
  import opened Directory
  import opened DirectoryServer
  import opened Recovery

  const DIRECTORY_IDS := {"RegisteredPublishers", "ServiceDirectory_DomainDetails", "ServiceDirectory_DomainUpdate",
                          "DirectoryService"}
  const NODE_IDS := {"GravityMetricsData", "GRAVITY_SETTINGS", "GRAVITY_LOGGER"}

  datatype Code = Success | ReservedId | NoPortsAvailable | RegistrationConflict

  predicate Reserved(componentId: string, id: string, allowReserved: bool) {
    (componentId != "ServiceDirectory" && id in DIRECTORY_IDS) || (!allowReserved && id in NODE_IDS)
  }

  lemma NotStarted(st: State, r: Registration)
    requires r.id != REGISTERED_PUBLISHERS
    ensures Step(st, Register(r)).ready == st.ready
  {
    hide HandleRegister, BacklogUpdates;
  }

  class GravityNode {
    const componentId: string
    var publishMap: map<string, string>
    var urlInstanceMap: map<string, nat>
    var dataRegistrationTimeMap: map<string, nat>

    function View(): Node
      reads this
    {
      Node(componentId, publishMap, urlInstanceMap, dataRegistrationTimeMap)
    }

    constructor (componentId: string)
      ensures View() == Node(componentId, map[], map[], map[])
    {
      this.componentId := componentId;
      publishMap, urlInstanceMap, dataRegistrationTimeMap := map[], map[], map[];
    }

    /** url is what the publish manager has bound, or empty if it found no free port; every request gets its reply. Some
        IDs are for the directory, some for nodes themselves; so no other component ends the directory's start-up. */
    method RegisterDataProduct(sd: ServiceDirectory, id: string, url: string, timestamp: nat, isRelay: bool,
                               ip: Option<string>, allowReserved: bool)
      returns (code: Code)
      modifies this, sd
      ensures code == if Reserved(componentId, id, allowReserved) then ReservedId
                      else if id in old(publishMap) then Success
                      else if url == "" then NoPortsAvailable
                      else Success
      ensures code == ReservedId <==>
              (componentId != "ServiceDirectory"
               && (id == "RegisteredPublishers" || id == "DirectoryService"
                   || id == "ServiceDirectory_DomainDetails" || id == "ServiceDirectory_DomainUpdate"))
              || (!allowReserved && (id == "GravityMetricsData" || id == "GRAVITY_SETTINGS" || id == "GRAVITY_LOGGER"))
      ensures componentId != "ServiceDirectory" ==> sd.View().ready == old(sd.View().ready)
      ensures if code == Success && id !in old(publishMap) then
                View() == Registered(old(View()), id, url, timestamp)
                && sd.View() == Step(old(sd.View()), RegisterRequest(old(View()), id, url, timestamp, isRelay, ip))
              else View() == old(View()) && sd.View() == old(sd.View())
    {
      hide Step;
      if Reserved(componentId, id, allowReserved) {
        return ReservedId;
      }
      if id in publishMap {
        return Success;
      }
      if url == "" {
        return NoPortsAvailable;
      }
      var registration := Registration(id, url, Data, None, Some(timestamp), Some(componentId), Some(isRelay), ip);
      if id != REGISTERED_PUBLISHERS { NotStarted(sd.View(), registration); }
      var _ := sd.Serve(Register(registration));
      publishMap := publishMap[id := url];
      urlInstanceMap := urlInstanceMap[url := timestamp];
      dataRegistrationTimeMap := dataRegistrationTimeMap[id := Seconds(timestamp)];
      code := Success;
    }

    method UnregisterDataProduct(sd: ServiceDirectory, id: string) returns (code: Code)
      requires WellFormed(View())
      modifies this, sd
      ensures code == if id in old(publishMap) then Success else RegistrationConflict
      ensures if id in old(publishMap) then
                View() == Unregistered(old(View()), id)
                && sd.View() == Step(old(sd.View()), UnregisterRequest(old(View()), id))
              else View() == old(View()) && sd.View() == old(sd.View())
    {
      hide Step;
      if id !in publishMap {
        return RegistrationConflict;
      }
      var url := publishMap[id];
      publishMap := publishMap - {id};
      urlInstanceMap := urlInstanceMap - {url};
      var regTime := dataRegistrationTimeMap[id];
      dataRegistrationTimeMap := dataRegistrationTimeMap - {id};
      var _ := sd.Serve(Unregister(Unregistration(id, url, Data, None, regTime)));
      code := Success;
    }

    /** A request is sent again until its reply arrives; so many of the attempts reached the directory. */
    method Send(sd: ServiceDirectory, request: Request, received: nat)
      modifies sd
      ensures sd.View() == Run(old(sd.View()), Repeated(request, received))
    {
      ghost var st := sd.View();
      hide Step;
      for k := 0 to received
        invariant sd.View() == Run(st, Repeated(request, k))
      {
        RunBoth(st, Repeated(request, k), [request]);
        var _ := sd.Serve(request);
      }
    }

    method ReregisterProducts(sd: ServiceDirectory, ids: seq<string>, received: map<string, nat>)
      requires WellFormed(View())
      requires forall id | id in ids :: id in publishMap && id in received
      modifies sd
      ensures sd.View() == Run(old(sd.View()), Reregistrations(View(), ids, received))
    {
      ghost var st, node := sd.View(), View();
      hide Step, Run, Repeated;
      for i := 0 to |ids|
        invariant sd.View() == Run(st, Reregistrations(node, ids[..i], received))
        invariant View() == node
      {
        assert ids[..i + 1][..i] == ids[..i];
        var url := publishMap[ids[i]];
        var request :=
          Register(Registration(ids[i], url, Data, None, Some(urlInstanceMap[url]), Some(componentId), None, None));
        RunBoth(st, Reregistrations(node, ids[..i], received), Repeated(request, received[ids[i]]));
        Send(sd, request, received[ids[i]]);
      }
      assert ids[..|ids|] == ids;
    }

    /** The directory has restarted: every product is sent again, some of them repeatedly because a reply was lost. Of
        the at most four attempts for a product, at least one reaches the directory. */
    method Reregister(sd: ServiceDirectory, received: map<string, nat>)
      requires WellFormed(View())
      requires forall id | id in publishMap :: id in received && 1 <= received[id] <= 4
      modifies sd
      ensures sd.View() == Run(old(sd.View()), Reregistrations(View(), Ascending(publishMap.Keys), received))
    {
      var ids := Ascending(publishMap.Keys);
      hide Step, Run, Ascending;
      ReregisterProducts(sd, ids, received);
    }
  }

  function Repeated(request: Request, times: nat): (requests: seq<Request>)
    ensures |requests| == times && forall i | 0 <= i < times :: requests[i] == request
  {
    if times == 0 then [] else Repeated(request, times - 1) + [request]
  }

  /** What reaches the directory when a node re-registers the given products. */
  function Reregistrations(node: Node, ids: seq<string>, received: map<string, nat>): seq<Request>
    requires forall id | id in ids :: id in node.published && node.published[id] in node.instances && id in received
  {
    if ids == [] then []
    else
      var last := |ids| - 1;
      Reregistrations(node, ids[..last], received) + Repeated(ReregisterRequest(node, ids[last]), received[ids[last]])
  }

  lemma {:induction false} RunBoth(st: State, a: seq<Request>, b: seq<Request>)
    ensures Run(st, a + b) == Run(Run(st, a), b)
  {
    hide Step;
    if b == [] {
      assert a + b == a;
    } else {
      var last := |b| - 1;
      assert (a + b)[..|a + b| - 1] == a + b[..last];
      RunBoth(st, a, b[..last]);
    }
  }

  /** One node's re-registration is a replay in the sense of the recovery theorem, and leaves out none of its
      products. */
  lemma {:induction false} ReregistrationsAreComplete(nodes: seq<Node>, n: nat, ids: seq<string>,
                                                      received: map<string, nat>)
    requires n < |nodes|
    requires forall id | id in ids :: id in nodes[n].published && nodes[n].published[id] in nodes[n].instances
                                      && id in received && 1 <= received[id]
    ensures OnlyReregistrations(nodes, Reregistrations(nodes[n], ids, received))
    ensures forall id | id in ids :: ReregisterRequest(nodes[n], id) in Reregistrations(nodes[n], ids, received)
  {
    if ids != [] {
      var last := |ids| - 1;
      var earlier := Reregistrations(nodes[n], ids[..last], received);
      var request := ReregisterRequest(nodes[n], ids[last]);
      var repeated := Repeated(request, received[ids[last]]);
      ReregistrationsAreComplete(nodes, n, ids[..last], received);
      assert Reregisters(nodes, request, n, ids[last]);
      assert Reregistration(nodes, request);
      hide Reregistration, ReregisterRequest;
      forall i | 0 <= i < |earlier + repeated| ensures Reregistration(nodes, (earlier + repeated)[i]) {
        if i < |earlier| { assert (earlier + repeated)[i] == earlier[i]; }
      }
      forall id | id in ids ensures ReregisterRequest(nodes[n], id) in earlier + repeated {
        if id in ids[..last] {
          assert ReregisterRequest(nodes[n], id) in earlier;
        } else {
          assert id == ids[last] && repeated[0] == request;
        }
      }
    }
  }
}
