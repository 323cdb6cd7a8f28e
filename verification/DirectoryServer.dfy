/** The service directory as it runs: tables changed in place, every change published.
    gn.publish becomes an append to the stream of the product it publishes. */
module DirectoryServer {
  import opened Common
  import opened Directory

  class ServiceDirectory {
    const domain: string
    var dataProductMap: map<Key, seq<Publisher>>
    var serviceMap: map<Key, string>
    var urlToComponentMap: map<string, string>
    var registrationInstanceMap: map<string, nat>
    var registeredPublishersReady: bool
    var registeredPublishersProcessed: bool
    var registerUpdatesToSend: set<string>
    var publisherUpdates: seq<Update>
    var domainDetails: seq<Details>

    function View(): State
      reads this
    {
      State(domain, dataProductMap, serviceMap, urlToComponentMap, registrationInstanceMap,
            registeredPublishersReady, registeredPublishersProcessed, registerUpdatesToSend,
            publisherUpdates, domainDetails)
    }

    constructor (domain: string)
      ensures View() == Fresh(domain)
    {
      this.domain := domain;
      dataProductMap, serviceMap, urlToComponentMap, registrationInstanceMap := map[], map[], map[], map[];
      registeredPublishersReady, registeredPublishersProcessed, registerUpdatesToSend := false, false, {};
      publisherUpdates, domainDetails := [], [];
    }

    /** Sends the current list of a product, or notes that it is to be sent when start-up is over. */
    method AnnouncePublishers(key: Key)
      modifies this`publisherUpdates, this`registerUpdatesToSend
      ensures View() == Announce(old(View()), key)
    {
      if registeredPublishersReady {
        var publishers := if key in dataProductMap then dataProductMap[key] else [];
        publisherUpdates := publisherUpdates + [Update(key, publishers)];
      } else {
        registerUpdatesToSend := registerUpdatesToSend + {key.id};
      }
    }

    /** registrationInstanceMap[url]: a missing entry is created with time zero. */
    method InstanceTime(url: string) returns (timestamp: nat)
      modifies this`registrationInstanceMap
      ensures timestamp == old(View()).Instance(url)
      ensures registrationInstanceMap ==
              if url in old(registrationInstanceMap) then old(registrationInstanceMap)
              else old(registrationInstanceMap)[url := 0]
    {
      if url !in registrationInstanceMap {
        registrationInstanceMap := registrationInstanceMap[url := 0];
      }
      timestamp := registrationInstanceMap[url];
    }

    method AddRow(id: string, url: string, ghost before: map<string, nat>, ghost rows: seq<Row>) returns (row: Row)
      requires registrationInstanceMap == Touch(before, rows)
      modifies this`registrationInstanceMap
      ensures row == Row(id, url, View().Component(url), if url in before then before[url] else 0)
      ensures registrationInstanceMap == Touch(before, rows + [row])
    {
      var timestamp := InstanceTime(url);
      row := Row(id, url, if url in urlToComponentMap then urlToComponentMap[url] else "", timestamp);
      assert (rows + [row])[..|rows|] == rows;
    }

    method CollectServices(ids: seq<string>) returns (services: seq<Row>)
      requires forall id | id in ids :: Key(domain, id) in serviceMap
      modifies this`registrationInstanceMap
      ensures services == ServiceRows(old(View()), ids)
      ensures registrationInstanceMap == Touch(old(registrationInstanceMap), services)
    {
      ghost var st := View();
      services := [];
      hide Touch;
      for i := 0 to |ids|
        invariant services == ServiceRows(st, ids[..i])
        invariant registrationInstanceMap == Touch(st.instances, services)
      {
        assert ids[..i + 1][..i] == ids[..i];
        var row := AddRow(ids[i], serviceMap[Key(domain, ids[i])], st.instances, services);
        services := services + [row];
      }
      assert ids[..|ids|] == ids;
    }

    method CollectPublishers(id: string, list: seq<Publisher>) returns (rows: seq<Row>)
      modifies this`registrationInstanceMap
      ensures rows == PublisherRows(old(View()), id, list)
      ensures registrationInstanceMap == Touch(old(registrationInstanceMap), rows)
    {
      ghost var st := View();
      rows := [];
      hide Touch;
      for i := 0 to |list|
        invariant rows == PublisherRows(st, id, list[..i])
        invariant registrationInstanceMap == Touch(st.instances, rows)
      {
        assert list[..i + 1][..i] == list[..i];
        var row := AddRow(id, list[i].Url(), st.instances, rows);
        rows := rows + [row];
      }
      assert list[..|list|] == list;
    }

    method CollectProducts(ids: seq<string>) returns (products: seq<Row>)
      requires forall id | id in ids :: Key(domain, id) in dataProductMap
      modifies this`registrationInstanceMap
      ensures products == ProductRows(old(View()), ids)
      ensures registrationInstanceMap == Touch(old(registrationInstanceMap), products)
    {
      ghost var st := View();
      products := [];
      hide Touch, PublisherRows;
      for i := 0 to |ids|
        invariant products == ProductRows(st, ids[..i])
        invariant registrationInstanceMap == Touch(st.instances, products)
      {
        assert ids[..i + 1][..i] == ids[..i];
        var list := dataProductMap[Key(domain, ids[i])];
        TouchedRows(st, products, ids[i], list);
        var rows := CollectPublishers(ids[i], list);
        TouchBoth(st.instances, products, rows);
        products := products + rows;
      }
      assert ids[..|ids|] == ids;
    }

    /** The keys of the own service submap, as its iterator visits them. */
    method OwnServiceIds() returns (ids: seq<string>)
      ensures ids == Ascending(ServiceIds(View()))
      ensures forall id | id in ids :: Key(domain, id) in serviceMap
    {
      var own := set key | key in serviceMap && key.domain == domain :: key.id;
      assert own == ServiceIds(View());
      ids := Ascending(own);
      hide Ascending;
    }

    method OwnProductIds() returns (ids: seq<string>)
      ensures ids == Ascending(ProductIds(View()))
      ensures forall id | id in ids :: Key(domain, id) in dataProductMap
    {
      var own := set key | key in dataProductMap && key.domain == domain :: key.id;
      assert own == ProductIds(View());
      ids := Ascending(own);
      hide Ascending;
    }

    method UpdateProductLocations(id: string, url: string, timestamp: nat, added: bool, kind: Kind)
      modifies this`registrationInstanceMap, this`domainDetails
      ensures View() == PublishDetails(old(View()), id, url, timestamp, added, kind)
    {
      ghost var st := View();
      var serviceIds := OwnServiceIds();
      var productIds := OwnProductIds();
      var services := CollectServices(serviceIds);
      TouchedProducts(st, services, productIds);
      var products := CollectProducts(productIds);
      hide Ascending, ServiceIds, ProductIds, Touch, ServiceRows, ProductRows;
      var componentId := if url in urlToComponentMap then urlToComponentMap[url] else "";
      var change := Change(id, url, componentId, timestamp, added, kind);
      domainDetails := domainDetails + [Details(domain, services, products, change)];
    }

    /** Index of the publisher at url, or the length of the list. */
    static method FindUrl(list: seq<Publisher>, url: string) returns (k: nat)
      ensures k == Find(list, url)
    {
      k := 0;
      while k < |list| && list[k].Url() != url
        invariant k <= |list|
        invariant forall j | 0 <= j < k :: list[j].Url() != url
      {
        k := k + 1;
      }
    }

    static method FindRegistered(list: seq<Publisher>, url: string, regTime: nat) returns (k: nat)
      ensures k == FindInstance(list, url, regTime)
    {
      k := 0;
      while k < |list| && !(list[k].Url() == url && list[k].regTime == regTime)
        invariant k <= |list|
        invariant forall j | 0 <= j < k :: !(list[j].Url() == url && list[j].regTime == regTime)
      {
        k := k + 1;
      }
    }

    method EvictPublisher(other: string, k: nat, url: string)
      requires Key(domain, other) in dataProductMap && k < |dataProductMap[Key(domain, other)]|
      modifies this
      ensures View() == Evict(old(View()), other, k, url)
    {
      hide Announce, PublishDetails;
      var key := Key(domain, other);
      dataProductMap := dataProductMap[key := dataProductMap[key][..k] + dataProductMap[key][k + 1..]];
      AnnouncePublishers(key);
      var timestamp := if url in registrationInstanceMap then registrationInstanceMap[url] else 0;
      UpdateProductLocations(other, url, timestamp, false, Data);
      registrationInstanceMap := registrationInstanceMap - {url};
    }

    /** Drops url from one own product, and the product with its last publisher. */
    method PurgeProduct(id: string, url: string, other: string)
      requires Key(domain, other) in dataProductMap
      modifies this
      ensures View() == PurgeOne(old(View()), id, url, other)
      ensures forall key | key in old(dataProductMap) && key != Key(domain, other) :: key in dataProductMap
    {
      hide Evict, Find;
      var key := Key(domain, other);
      var k := FindUrl(dataProductMap[key], url);
      if other != id && k < |dataProductMap[key]| {
        EvictPublisher(other, k, url);
      }
      if dataProductMap[key] == [] {
        dataProductMap := dataProductMap - {key};
      }
    }

    /** Whoever registered at this URL before obviously no longer exists. */
    method PurgeObsoletePublishers(id: string, url: string)
      modifies this
      ensures View() == Purge(old(View()), id, url)
    {
      ghost var st := View();
      var ids := OwnProductIds();
      hide PurgeOne, Ascending, ProductIds;
      for i := 0 to |ids|
        invariant Purge(st, id, url) == PurgeAll(View(), id, url, ids[i..])
        invariant forall j | i <= j < |ids| :: Key(domain, ids[j]) in dataProductMap
      {
        assert ids[i..][0] == ids[i] && ids[i..][1..] == ids[i + 1..];
        PurgeProduct(id, url, ids[i]);
        assert forall j | i + 1 <= j < |ids| :: ids[j] != ids[i];
      }
    }

    /** A new publisher goes to the end of the list; a known one is refreshed in place. */
    method PlaceProduct(key: Key, r: Registration, timestamp: nat, k: nat)
      requires k == Find(View().Listed(key), r.url)
      modifies this`dataProductMap, this`urlToComponentMap
      ensures dataProductMap == old(dataProductMap)[key := Placed(old(View()).Listed(key), r, Seconds(timestamp))]
      ensures urlToComponentMap == old(urlToComponentMap)[r.url := r.componentId.Or("")]
    {
      var list := if key in dataProductMap then dataProductMap[key] else [];
      if k == |list| {
        dataProductMap := dataProductMap[key :=
          list + [Publisher(Some(r.url), r.isRelay, r.componentId, r.ipAddress, Seconds(timestamp))]];
      } else {
        var p := list[k].(regTime := Seconds(timestamp));
        if r.isRelay.Some? { p := p.(isRelay := r.isRelay); }
        if r.componentId.Some? { p := p.(componentId := r.componentId); }
        if r.ipAddress.Some? { p := p.(ipAddress := r.ipAddress); }
        dataProductMap := dataProductMap[key := list[k := p]];
      }
      urlToComponentMap := urlToComponentMap[r.url := r.componentId.Or("")];
    }

    /** The RegisteredPublishers product makes the directory ready; every accepted registration records its time. */
    method Stamp(r: Registration, timestamp: nat)
      modifies this`registeredPublishersReady, this`registrationInstanceMap
      ensures registeredPublishersReady == (old(registeredPublishersReady) || r.id == REGISTERED_PUBLISHERS)
      ensures registrationInstanceMap == old(registrationInstanceMap)[r.url := timestamp]
    {
      if r.id == REGISTERED_PUBLISHERS {
        registeredPublishersReady := true;
      }
      registrationInstanceMap := registrationInstanceMap[r.url := timestamp];
    }

    method RecordProduct(key: Key, r: Registration, timestamp: nat, k: nat)
      requires k == Find(View().Listed(key), r.url)
      modifies this
      ensures View() == PlaceData(old(View()), key, r, timestamp)
    {
      hide Find, Placed, Seconds;
      Stamp(r, timestamp);
      PlaceProduct(key, r, timestamp, k);
    }

    method RegisterProduct(key: Key, r: Registration, timestamp: nat)
      requires key.id == r.id
      modifies this
      ensures View() == RegisterData(old(View()), key, r, timestamp)
    {
      hide Announce, PublishDetails, Purge, Find, Placed, Seconds, PlaceData;
      ghost var st := View();
      var list := if key in dataProductMap then dataProductMap[key] else [];
      var k := FindUrl(list, r.url);
      if k == |list| || list[k].regTime != Seconds(timestamp) {
        RecordProduct(key, r, timestamp, k);
        AnnouncePublishers(key);
        PurgeObsoletePublishers(r.id, r.url);
        if key.domain == domain && r.id != REGISTERED_PUBLISHERS {
          UpdateProductLocations(r.id, r.url, timestamp, true, Data);
        }
      } else {
        Stamp(r, timestamp);
        if key.domain == domain {
          UpdateProductLocations(r.id, r.url, timestamp, true, Data);
        }
      }
    }

    method RegisterProvider(key: Key, r: Registration, timestamp: nat)
      requires key.id == r.id
      modifies this
      ensures View() == RegisterService(old(View()), key, r, timestamp)
    {
      hide PublishDetails, Purge;
      serviceMap := serviceMap[key := r.url];
      urlToComponentMap := urlToComponentMap[r.url := r.componentId.Or("")];
      PurgeObsoletePublishers(r.id, r.url);
      registrationInstanceMap := registrationInstanceMap[r.url := timestamp];
      if key.domain == domain {
        UpdateProductLocations(r.id, r.url, timestamp, true, Service);
      }
    }

    method Register(r: Registration) returns (response: Response)
      modifies this
      ensures View() == HandleRegister(old(View()), r)
      ensures response == Accepted
    {
      hide RegisterData, RegisterService;
      response := Accepted;
      if r.timestamp.None? || (r.url in registrationInstanceMap && r.timestamp.value < registrationInstanceMap[r.url]) {
        return;
      }
      var key := Key(if r.domain.Some? then r.domain.value else domain, r.id);
      if r.kind.Data? {
        RegisterProduct(key, r, r.timestamp.value);
      } else {
        RegisterProvider(key, r, r.timestamp.value);
      }
    }

    method WithdrawPublisher(key: Key, k: nat)
      requires key in dataProductMap && k < |dataProductMap[key]|
      modifies this`dataProductMap
      ensures View() == Withdraw(old(View()), key, k)
    {
      var list := dataProductMap[key];
      dataProductMap := dataProductMap[key := list[..k] + list[k + 1..]];
      if dataProductMap[key] == [] {
        dataProductMap := dataProductMap - {key};
      }
    }

    method UnregisterProduct(key: Key, u: Unregistration) returns (found: bool)
      requires key.id == u.id
      modifies this
      ensures View() == UnregisterData(old(View()), key, u)
      ensures found == (FindInstance(old(View()).Listed(key), u.url, u.regTime) < |old(View()).Listed(key)|)
    {
      hide Announce, PublishDetails, FindInstance, Withdraw;
      ghost var st := View();
      if key !in dataProductMap {
        dataProductMap := dataProductMap[key := []];
      }
      var k := FindRegistered(dataProductMap[key], u.url, u.regTime);
      found := k < |dataProductMap[key]|;
      if found {
        assert View() == st;
        WithdrawPublisher(key, k);
        AnnouncePublishers(key);
        if key.domain == domain {
          var timestamp := if u.url in registrationInstanceMap then registrationInstanceMap[u.url] else 0;
          UpdateProductLocations(u.id, u.url, timestamp, false, Data);
        }
        registrationInstanceMap := registrationInstanceMap - {u.url};
      }
    }

    method UnregisterProvider(key: Key, u: Unregistration) returns (found: bool)
      requires key.id == u.id
      modifies this
      ensures View() == UnregisterService(old(View()), key, u)
      ensures found == ServiceMatches(old(View()), key, u)
    {
      found := false;
      if key in serviceMap && u.url in registrationInstanceMap {
        var regTime := Seconds(registrationInstanceMap[u.url]);
        if regTime == u.regTime {
          found := true;
          serviceMap := serviceMap - {key};
          hide PublishDetails;
          if key.domain == domain {
            UpdateProductLocations(u.id, u.url, registrationInstanceMap[u.url], false, Service);
          }
          registrationInstanceMap := registrationInstanceMap - {u.url};
        }
      }
    }

    method Unregister(u: Unregistration) returns (response: Response)
      modifies this
      ensures View() == HandleUnregister(old(View()), u)
      ensures response == Reply(old(View()), Request.Unregister(u))
    {
      hide UnregisterData, UnregisterService, FindInstance;
      var key := Key(if u.domain.Some? then u.domain.value else domain, u.id);
      var found;
      if u.kind.Data? {
        found := UnregisterProduct(key, u);
      } else {
        found := UnregisterProvider(key, u);
      }
      response := if found then Accepted else NotRegistered;
    }

    method LookUp(id: string, kind: Kind, requested: Option<string>) returns (response: Response)
      modifies this
      ensures View() == HandleLookup(old(View()), LookupKey(old(View()), id, requested), kind)
      ensures response == Reply(old(View()), Lookup(id, kind, requested))
    {
      var key := Key(if requested.Some? && requested.value != "" then requested.value else domain, id);
      if kind.Data? {
        response := Publishers(key, if key in dataProductMap then dataProductMap[key] else []);
      } else if key in serviceMap {
        var timestamp := InstanceTime(serviceMap[key]);
        response := ProviderIs(key, serviceMap[key], Some(Seconds(timestamp)));
      } else {
        response := ProviderIs(key, "", None);
      }
    }

    /** The end of start-up: everything that changed while RegisteredPublishers did not exist is sent. */
    method FlushBacklog()
      modifies this
      ensures View() == Flush(old(View()))
    {
      if registeredPublishersReady && !registeredPublishersProcessed {
        ghost var st := View();
        var ids := Ascending(registerUpdatesToSend);
        hide Ascending;
        for i := 0 to |ids|
          invariant View() == st.(updates := st.updates + BacklogUpdates(st, ids[..i]))
        {
          assert ids[..i + 1][..i] == ids[..i];
          var key := Key(domain, ids[i]);
          publisherUpdates := publisherUpdates +
            [Update(key, if key in dataProductMap then dataProductMap[key] else [])];
        }
        assert ids[..|ids|] == ids;
        registerUpdatesToSend := {};
        registeredPublishersProcessed := true;
      }
    }

    method Process(request: Request) returns (response: Response)
      modifies this
      ensures View() == Handle(old(View()), request)
      ensures response == Reply(old(View()), request)
    {
      hide HandleRegister, HandleUnregister, HandleLookup;
      match request
      case Register(r) => response := Register(r);
      case Unregister(u) => response := Unregister(u);
      case Lookup(id, kind, requested) => response := LookUp(id, kind, requested);
    }

    /** One pass of the main loop: a request, its response, and the flush when start-up is over. */
    method Serve(request: Request) returns (response: Response)
      modifies this
      ensures View() == Step(old(View()), request)
      ensures response == Reply(old(View()), request)
    {
      hide Handle, Flush, Reply;
      response := Process(request);
      FlushBacklog();
    }
  }

  lemma {:induction false} TouchBoth(instances: map<string, nat>, a: seq<Row>, b: seq<Row>)
    ensures Touch(Touch(instances, a), b) == Touch(instances, a + b)
  {
    if b == [] {
      assert a + b == a;
    } else {
      var last := |b| - 1;
      assert (a + b)[..|a + b| - 1] == a + b[..last];
      TouchBoth(instances, a, b[..last]);
    }
  }

  lemma {:induction false} TouchedRows(st: State, touched: seq<Row>, id: string, list: seq<Publisher>)
    ensures PublisherRows(st.(instances := Touch(st.instances, touched)), id, list) == PublisherRows(st, id, list)
  {
    if list != [] { TouchedRows(st, touched, id, list[..|list| - 1]); }
  }

  lemma {:induction false} TouchedProducts(st: State, touched: seq<Row>, ids: seq<string>)
    ensures ProductRows(st.(instances := Touch(st.instances, touched)), ids) == ProductRows(st, ids)
  {
    if ids != [] {
      TouchedProducts(st, touched, ids[..|ids| - 1]);
      TouchedRows(st, touched, ids[|ids| - 1], st.Listed(st.Own(ids[|ids| - 1])));
    }
  }
}
