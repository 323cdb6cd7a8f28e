/** The synchronizer: a queue of requests to the own directory, one of them outstanding at a time. Each method makes the
    turn that Synchronizing describes. */
module Synchronizers {
  import opened Common
  import opened Directory
  import opened Replication
  import opened Leaving
  import opened Synchronizing

  class Synchronizer {
    var syncMap: map<string, Followed>
    var registrationUpdates: seq<Request>
    var pendingResponse: bool

    function State(): Sync
      reads this
    {
      Sync(syncMap, registrationUpdates, pendingResponse)
    }

    constructor ()
      ensures State() == Sync(map[], [], false)
    {
      syncMap, registrationUpdates, pendingResponse := map[], [], false;
    }

    method AddDomain(domain: string)
      modifies this
      ensures State() == Added(old(State()), domain)
    {
      if domain !in syncMap {
        syncMap := syncMap[domain := UNSEEN];
      }
    }

    /** The domain has restarted: its socket is replaced and its next picture counts as the first. */
    method UpdateDomain(domain: string)
      requires domain in syncMap
      modifies this
      ensures State() == Reset(old(State()), domain)
    {
      var details := syncMap[domain];
      details := details.(checked := false);
      details := details.(initialized := false);
      syncMap := syncMap[domain := details];
    }

    method RemoveDomain(domain: string)
      modifies this
      ensures State() == Forgotten(old(State()), domain)
    {
      if domain in syncMap {
        var details := syncMap[domain];
        WithdrawRows(domain, details.services, details.kind, details.registrationTime);
        WithdrawRows(domain, details.products, details.kind, details.registrationTime);
        RemovalOfBoth(domain, details.services, details.products, details.kind, details.registrationTime);
        syncMap := syncMap - {domain};
      }
    }

    /** The lookup has told where the domain publishes its pictures. */
    method ReceiveLocation(domain: string, registrationTime: nat)
      requires domain in syncMap
      modifies this
      ensures State() == Located(old(State()), domain, registrationTime)
    {
      var details := syncMap[domain];
      details := details.(initialized := false, registrationTime := registrationTime);
      details := details.(checked := true);
      syncMap := syncMap[domain := details];
    }

    method CreateRegistrationRequest(id: string, url: string, componentId: string, domain: string, kind: Kind,
                                     timestamp: nat)
      modifies this`registrationUpdates
      ensures registrationUpdates == old(registrationUpdates) +
                                     [RowRequest(domain, Row(id, url, componentId, timestamp), kind)]
    {
      registrationUpdates := registrationUpdates +
        [Register(Registration(id, url, kind, Some(domain), Some(timestamp), Some(componentId), None, None))];
    }

    method CreateUnregistrationRequest(id: string, url: string, domain: string, kind: Kind, regTime: nat)
      modifies this`registrationUpdates
      ensures registrationUpdates == old(registrationUpdates) +
                                     [Unregister(Unregistration(id, url, kind, Some(domain), regTime))]
    {
      registrationUpdates := registrationUpdates +
        [Unregister(Unregistration(id, url, kind, Some(domain), regTime))];
    }

    method QueueRows(domain: string, rows: seq<Row>, kind: Kind)
      modifies this`registrationUpdates
      ensures registrationUpdates == old(registrationUpdates) + RowRequests(domain, rows, kind)
    {
      ghost var earlier := registrationUpdates;
      for i := 0 to |rows|
        invariant registrationUpdates == earlier + RowRequests(domain, rows[..i], kind)
      {
        assert rows[..i + 1][..i] == rows[..i];
        CreateRegistrationRequest(rows[i].id, rows[i].url, rows[i].componentId, domain, kind, rows[i].timestamp);
      }
      assert rows[..|rows|] == rows;
    }

    method WithdrawRows(domain: string, rows: seq<Row>, kind: Kind, regTime: nat)
      modifies this`registrationUpdates
      ensures registrationUpdates == old(registrationUpdates) + RemovalRequests(domain, rows, kind, regTime)
    {
      ghost var earlier := registrationUpdates;
      for i := 0 to |rows|
        invariant registrationUpdates == earlier + RemovalRequests(domain, rows[..i], kind, regTime)
      {
        assert rows[..i + 1][..i] == rows[..i];
        CreateUnregistrationRequest(rows[i].id, rows[i].url, domain, kind, regTime);
      }
      assert rows[..|rows|] == rows;
    }

    /** A picture from a publisher other than the one the lookup named is ignored. Otherwise the first one is queued
        as a whole and a later one as its change, behind everything queued before. */
    method ReceiveUpdate(m: Details, registrationTime: nat)
      requires m.domain in syncMap
      modifies this
      ensures State() == Heard(old(State()), m, registrationTime)
    {
      var details := syncMap[m.domain];
      if details.checked && details.registrationTime != registrationTime {
        return;
      }
      syncMap := syncMap[m.domain := details.(initialized := true, services := m.services, products := m.products,
                                              kind := m.change.kind)];
      if !details.initialized {
        QueueRows(m.domain, m.services, Service);
        QueueRows(m.domain, m.products, Data);
      } else {
        var c := m.change;
        if c.added {
          CreateRegistrationRequest(c.id, c.url, c.componentId, m.domain, c.kind, c.timestamp);
        } else {
          CreateUnregistrationRequest(c.id, c.url, m.domain, c.kind, Seconds(c.timestamp));
        }
      }
    }

    method ReceiveResponse()
      modifies this`pendingResponse
      ensures State() == old(State()).(pending := false)
    {
      pendingResponse := false;
    }

    /** The end of every pass: with no answer outstanding, the oldest queued request goes to the own directory. */
    method SendNext() returns (request: Option<Request>)
      modifies this`registrationUpdates, this`pendingResponse
      ensures State() == SentNext(old(State()))
      ensures request ==
              if !old(pendingResponse) && old(registrationUpdates) != [] then Some(old(registrationUpdates)[0])
                         else None
    {
      request := None;
      if !pendingResponse && registrationUpdates != [] {
        request := Some(registrationUpdates[0]);
        registrationUpdates := registrationUpdates[1..];
        pendingResponse := true;
      }
    }
  }
}
