/** What the service directory's handlers do to its tables and to the two streams it publishes.
    The class in DirectoryServer.dfy is proved against these functions. */
module Directory {
  import opened Common

  const REGISTERED_PUBLISHERS := "RegisteredPublishers"

  datatype Kind = Data | Service

  /** DomainDataKey: a product or service of one domain. */
  datatype Key = Key(domain: string, id: string)

  /** PublisherInfoPB. */
  datatype Publisher = Publisher(
    url: Option<string>, isRelay: Option<bool>, componentId: Option<string>, ipAddress: Option<string>, regTime: nat) {
    function Url(): string { url.Or("") }
  }

  datatype Registration = Registration(
    id: string, url: string, kind: Kind, domain: Option<string>, timestamp: Option<nat>,
    componentId: Option<string>, isRelay: Option<bool>, ipAddress: Option<string>)

  datatype Unregistration = Unregistration(id: string, url: string, kind: Kind, domain: Option<string>, regTime: nat)

  datatype Request =
    | Register(reg: Registration)
    | Unregister(unreg: Unregistration)
    | Lookup(id: string, kind: Kind, domain: Option<string>)

  datatype Response =
    | Accepted
    | NotRegistered
    | Publishers(key: Key, publishers: seq<Publisher>)
    | ProviderIs(key: Key, url: string, regTime: Option<nat>)

  /** ComponentDataLookupResponsePB published on the RegisteredPublishers product, filter text key.id. */
  datatype Update = Update(key: Key, publishers: seq<Publisher>)

  /** One URL of a ProductLocations entry. */
  datatype Row = Row(id: string, url: string, componentId: string, timestamp: nat)

  datatype Change = Change(id: string, url: string, componentId: string, timestamp: nat, added: bool, kind: Kind)

  /** ServiceDirectoryMapPB: the whole own domain and the change that led to it. */
  datatype Details = Details(domain: string, services: seq<Row>, products: seq<Row>, change: Change)

  datatype State = State(
    domain: string,
    lists: map<Key, seq<Publisher>>,
    services: map<Key, string>,
    components: map<string, string>,
    instances: map<string, nat>,
    ready: bool,
    processed: bool,
    backlog: set<string>,
    updates: seq<Update>,
    details: seq<Details>)
  {
    function Listed(key: Key): seq<Publisher> {
      if key in lists then lists[key] else []
    }

    function Provider(key: Key): string {
      if key in services then services[key] else ""
    }

    function Own(id: string): Key { Key(domain, id) }

    /** operator[] of a std::map: a missing time reads as zero. */
    function Instance(url: string): nat {
      if url in instances then instances[url] else 0
    }

    function Component(url: string): string {
      if url in components then components[url] else ""
    }
  }

  function Fresh(domain: string): State {
    State(domain, map[], map[], map[], map[], false, false, {}, [], [])
  }

  /** Registration times are kept in whole seconds of the microsecond timestamp. */
  function Seconds(timestamp: nat): nat { timestamp / 1000000 }

  predicate Lists(list: seq<Publisher>, url: string) {
    exists k | 0 <= k < |list| :: list[k].Url() == url
  }

  /** Index of the first publisher at url, or the length of the list. */
  function Find(list: seq<Publisher>, url: string): (k: nat)
    ensures k <= |list|
    ensures k < |list| ==> list[k].Url() == url
    ensures forall j | 0 <= j < k :: list[j].Url() != url
  {
    if list == [] || list[0].Url() == url then 0 else 1 + Find(list[1..], url)
  }

  /** Index of the first publisher at url registered in that second, or the length of the list. */
  function FindInstance(list: seq<Publisher>, url: string, regTime: nat): (k: nat)
    ensures k <= |list|
    ensures k < |list| ==> list[k].Url() == url && list[k].regTime == regTime
    ensures forall j | 0 <= j < k :: !(list[j].Url() == url && list[j].regTime == regTime)
  {
    if list == [] || (list[0].Url() == url && list[0].regTime == regTime) then 0
    else 1 + FindInstance(list[1..], url, regTime)
  }

  function Without<T>(s: seq<T>, k: nat): (r: seq<T>)
    requires k < |s|
  {
    s[..k] + s[k + 1..]
  }

  // ----- publishing a change

  /** A publishers update for one key: sent at once, or remembered by id until the product exists. */
  function Announce(st: State, key: Key): (st': State)
    ensures st' == st.(updates := st'.updates, backlog := st'.backlog)
    ensures if st.ready then st'.backlog == st.backlog else st'.updates == st.updates
  {
    if st.ready then st.(updates := st.updates + [Update(key, st.Listed(key))])
    else st.(backlog := st.backlog + {key.id})
  }

  function ServiceIds(st: State): set<string> {
    set key | key in st.services && key.domain == st.domain :: key.id
  }

  function ProductIds(st: State): set<string> {
    set key | key in st.lists && key.domain == st.domain :: key.id
  }

  function ServiceRows(st: State, ids: seq<string>): seq<Row> {
    if ids == [] then []
    else
      var last := |ids| - 1;
      var url := st.Provider(st.Own(ids[last]));
      ServiceRows(st, ids[..last]) + [Row(ids[last], url, st.Component(url), st.Instance(url))]
  }

  function PublisherRows(st: State, id: string, list: seq<Publisher>): seq<Row> {
    if list == [] then []
    else
      var last := |list| - 1;
      var url := list[last].Url();
      PublisherRows(st, id, list[..last]) + [Row(id, url, st.Component(url), st.Instance(url))]
  }

  function ProductRows(st: State, ids: seq<string>): seq<Row> {
    if ids == [] then []
    else
      var last := |ids| - 1;
      ProductRows(st, ids[..last]) + PublisherRows(st, ids[last], st.Listed(st.Own(ids[last])))
  }

  /** Building the rows reads the recorded time of every URL, which records zero for one that has none. */
  function Touch(instances: map<string, nat>, rows: seq<Row>): (touched: map<string, nat>)
    ensures forall url | url in instances :: url in touched && touched[url] == instances[url]
    ensures forall url | url in touched && url !in instances ::
              touched[url] == 0 && exists i | 0 <= i < |rows| :: rows[i].url == url
  {
    if rows == [] then instances
    else
      var last := |rows| - 1;
      var earlier := Touch(instances, rows[..last]);
      assert forall i | 0 <= i < last :: rows[..last][i] == rows[i];
      if rows[last].url in earlier then earlier else earlier[rows[last].url := 0]
  }

  function PublishDetails(st: State, id: string, url: string, timestamp: nat, added: bool, kind: Kind): (st': State)
    ensures st' == st.(instances := st'.instances, details := st'.details)
  {
    var services := ServiceRows(st, Ascending(ServiceIds(st)));
    var products := ProductRows(st, Ascending(ProductIds(st)));
    var change := Change(id, url, st.Component(url), timestamp, added, kind);
    st.(instances := Touch(Touch(st.instances, services), products),
        details := st.details + [Details(st.domain, services, products, change)])
  }

  // ----- auto-unregistration

  /** Unregisters the publisher at one place of an own list and tells everyone. */
  function Evict(st: State, id: string, k: nat, url: string): (st': State)
    requires k < |st.Listed(st.Own(id))|
    ensures st'.lists == st.lists[st.Own(id) := Without(st.Listed(st.Own(id)), k)]
    ensures st' == st.(lists := st'.lists, instances := st'.instances, backlog := st'.backlog,
                       updates := st'.updates, details := st'.details)
    ensures if st.ready then st'.backlog == st.backlog else st'.updates == st.updates
  {
    var removed := Announce(st.(lists := st.lists[st.Own(id) := Without(st.Listed(st.Own(id)), k)]), st.Own(id));
    var told := PublishDetails(removed, id, url, removed.Instance(url), false, Data);
    told.(instances := told.instances - {url})
  }

  /** Forgets an own product whose list has become empty. */
  function Tidy(st: State, id: string): State {
    if st.Listed(st.Own(id)) == [] then st.(lists := st.lists - {st.Own(id)}) else st
  }

  /** Drops url from one own product that is not the one just registered there. */
  function PurgeOne(st: State, id: string, url: string, other: string): (st': State)
    ensures st' == st.(lists := st'.lists, instances := st'.instances, backlog := st'.backlog,
                       updates := st'.updates, details := st'.details)
    ensures if st.ready then st'.backlog == st.backlog else st'.updates == st.updates
  {
    var list := st.Listed(st.Own(other));
    if other == id || Find(list, url) == |list| then Tidy(st, other)
    else Tidy(Evict(st, other, Find(list, url), url), other)
  }

  function PurgeAll(st: State, id: string, url: string, others: seq<string>): (st': State)
    ensures st' == st.(lists := st'.lists, instances := st'.instances, backlog := st'.backlog,
                       updates := st'.updates, details := st'.details)
    ensures if st.ready then st'.backlog == st.backlog else st'.updates == st.updates
    decreases |others|
  {
    if others == [] then st
    else PurgeAll(PurgeOne(st, id, url, others[0]), id, url, others[1..])
  }

  function Purge(st: State, id: string, url: string): (st': State)
    ensures st' == st.(lists := st'.lists, instances := st'.instances, backlog := st'.backlog,
                       updates := st'.updates, details := st'.details)
    ensures if st.ready then st'.backlog == st.backlog else st'.updates == st.updates
  {
    PurgeAll(st, id, url, Ascending(ProductIds(st)))
  }

  // ----- requests

  predicate Stale(st: State, r: Registration) {
    r.timestamp.None? || (r.url in st.instances && r.timestamp.value < st.instances[r.url])
  }

  /** The list of a product after a registration that is not a duplicate. */
  function Placed(list: seq<Publisher>, r: Registration, regTime: nat): seq<Publisher> {
    var k := Find(list, r.url);
    if k == |list| then list + [Publisher(Some(r.url), r.isRelay, r.componentId, r.ipAddress, regTime)]
    else
      var was := list[k];
      list[k := Publisher(was.url,
                          if r.isRelay.Some? then r.isRelay else was.isRelay,
                          if r.componentId.Some? then r.componentId else was.componentId,
                          if r.ipAddress.Some? then r.ipAddress else was.ipAddress,
                          regTime)]
  }

  /** The tables after recording a data registration, before the old users of the URL are purged. */
  function PlaceData(st: State, key: Key, r: Registration, timestamp: nat): (st': State)
    ensures st'.lists == st.lists[key := Placed(st.Listed(key), r, Seconds(timestamp))]
  {
    st.(ready := st.ready || r.id == REGISTERED_PUBLISHERS,
        instances := st.instances[r.url := timestamp],
        lists := st.lists[key := Placed(st.Listed(key), r, Seconds(timestamp))],
        components := st.components[r.url := r.componentId.Or("")])
  }

  /** The same publisher was registered in the same second. */
  predicate Known(list: seq<Publisher>, url: string, timestamp: nat) {
    var k := Find(list, url);
    k < |list| && list[k].regTime == Seconds(timestamp)
  }

  function RegisterData(st: State, key: Key, r: Registration, timestamp: nat): (st': State)
    ensures st'.services == st.services
    ensures st'.domain == st.domain && st'.processed == st.processed
    ensures st'.ready == (st.ready || r.id == REGISTERED_PUBLISHERS)
    ensures if st'.ready then st'.backlog == st.backlog else st'.updates == st.updates
  {
    if Known(st.Listed(key), r.url, timestamp) then
      var stamped := st.(ready := st.ready || r.id == REGISTERED_PUBLISHERS,
                         instances := st.instances[r.url := timestamp]);
      if key.domain == st.domain then PublishDetails(stamped, r.id, r.url, timestamp, true, Data) else stamped
    else
      var purged := Purge(Announce(PlaceData(st, key, r, timestamp), key), r.id, r.url);
      if key.domain == st.domain && r.id != REGISTERED_PUBLISHERS then
        PublishDetails(purged, r.id, r.url, timestamp, true, Data)
      else purged
  }

  function PlaceService(st: State, key: Key, r: Registration): State {
    st.(services := st.services[key := r.url], components := st.components[r.url := r.componentId.Or("")])
  }

  function RegisterService(st: State, key: Key, r: Registration, timestamp: nat): (st': State)
    ensures st'.services == st.services[key := r.url]
    ensures st'.domain == st.domain && st'.processed == st.processed
    ensures st'.ready == st.ready
    ensures if st'.ready then st'.backlog == st.backlog else st'.updates == st.updates
  {
    var purged := Purge(PlaceService(st, key, r), r.id, r.url);
    var stamped := purged.(instances := purged.instances[r.url := timestamp]);
    if key.domain == st.domain then PublishDetails(stamped, r.id, r.url, timestamp, true, Service) else stamped
  }

  function HandleRegister(st: State, r: Registration): (st': State)
    ensures st'.domain == st.domain && st'.processed == st.processed
    ensures st'.ready == (st.ready || (!Stale(st, r) && r.kind.Data? && r.id == REGISTERED_PUBLISHERS))
    ensures if st'.ready then st'.backlog == st.backlog else st'.updates == st.updates
  {
    var key := Key(r.domain.Or(st.domain), r.id);
    if Stale(st, r) then st
    else if r.kind.Data? then RegisterData(st, key, r, r.timestamp.value)
    else RegisterService(st, key, r, r.timestamp.value)
  }

  /** Takes publisher k out of the list of key, dropping the product with its last publisher. */
  function Withdraw(st: State, key: Key, k: nat): State
    requires k < |st.Listed(key)|
  {
    st.(lists := if |st.Listed(key)| == 1 then st.lists - {key} else st.lists[key := Without(st.Listed(key), k)])
  }

  function UnregisterData(st: State, key: Key, u: Unregistration): (st': State)
    ensures st'.services == st.services
    ensures st'.domain == st.domain && st'.processed == st.processed
    ensures st'.ready == st.ready
    ensures if st'.ready then st'.backlog == st.backlog else st'.updates == st.updates
  {
    var list := st.Listed(key);
    var k := FindInstance(list, u.url, u.regTime);
    if k == |list| then st.(lists := st.lists[key := list])
    else
      var removed := Announce(Withdraw(st, key, k), key);
      var told := if key.domain == st.domain
                  then PublishDetails(removed, u.id, u.url, removed.Instance(u.url), false, Data) else removed;
      told.(instances := told.instances - {u.url})
  }

  predicate ServiceMatches(st: State, key: Key, u: Unregistration) {
    key in st.services && u.url in st.instances && Seconds(st.instances[u.url]) == u.regTime
  }

  function UnregisterService(st: State, key: Key, u: Unregistration): (st': State)
    ensures st'.services == st.services || st'.services == st.services - {key}
    ensures st'.domain == st.domain && st'.processed == st.processed
    ensures st'.ready == st.ready
    ensures if st'.ready then st'.backlog == st.backlog else st'.updates == st.updates
  {
    if !ServiceMatches(st, key, u) then st
    else
      var removed := st.(services := st.services - {key});
      var told := if key.domain == st.domain
                  then PublishDetails(removed, u.id, u.url, removed.instances[u.url], false, Service) else removed;
      told.(instances := told.instances - {u.url})
  }

  predicate Found(st: State, u: Unregistration) {
    var key := Key(u.domain.Or(st.domain), u.id);
    if u.kind.Data? then FindInstance(st.Listed(key), u.url, u.regTime) < |st.Listed(key)|
    else ServiceMatches(st, key, u)
  }

  function HandleUnregister(st: State, u: Unregistration): (st': State)
    ensures st'.domain == st.domain && st'.processed == st.processed
    ensures st'.ready == st.ready
    ensures if st'.ready then st'.backlog == st.backlog else st'.updates == st.updates
  {
    var key := Key(u.domain.Or(st.domain), u.id);
    if u.kind.Data? then UnregisterData(st, key, u) else UnregisterService(st, key, u)
  }

  function LookupKey(st: State, id: string, domain: Option<string>): Key {
    Key(if domain.Or("") == "" then st.domain else domain.value, id)
  }

  /** A service lookup reads the recorded time of the provider, recording zero if there is none. */
  function HandleLookup(st: State, key: Key, kind: Kind): State {
    if kind.Service? && key in st.services && st.services[key] !in st.instances
    then st.(instances := st.instances[st.services[key] := 0])
    else st
  }

  function LookupReply(st: State, key: Key, kind: Kind): Response {
    if kind.Data? then Publishers(key, st.Listed(key))
    else if key in st.services then
      ProviderIs(key, st.services[key], Some(Seconds(st.Instance(st.services[key]))))
    else ProviderIs(key, "", None)
  }

  /** The registration that makes it safe to publish on the RegisteredPublishers product. */
  predicate Starts(st: State, request: Request) {
    request.Register? && !Stale(st, request.reg) && request.reg.kind.Data? && request.reg.id == REGISTERED_PUBLISHERS
  }

  function Handle(st: State, request: Request): (st': State)
    ensures st'.domain == st.domain && st'.processed == st.processed
    ensures st'.ready == (st.ready || Starts(st, request))
    ensures if st'.ready then st'.backlog == st.backlog else st'.updates == st.updates
  {
    match request
    case Register(r) => HandleRegister(st, r)
    case Unregister(u) => HandleUnregister(st, u)
    case Lookup(id, kind, domain) => HandleLookup(st, LookupKey(st, id, domain), kind)
  }

  function Reply(st: State, request: Request): Response {
    match request
    case Register(r) => Accepted
    case Unregister(u) => if Found(st, u) then Accepted else NotRegistered
    case Lookup(id, kind, domain) => LookupReply(st, LookupKey(st, id, domain), kind)
  }

  // ----- the main loop

  function BacklogUpdates(st: State, ids: seq<string>): seq<Update> {
    if ids == [] then []
    else
      var last := |ids| - 1;
      BacklogUpdates(st, ids[..last]) + [Update(st.Own(ids[last]), st.Listed(st.Own(ids[last])))]
  }

  /** Start-up: once the RegisteredPublishers product exists, the backlog goes out under the own domain. */
  function Flush(st: State): (st': State)
    ensures st' == st.(updates := st'.updates, backlog := st'.backlog, processed := st'.processed)
  {
    if st.ready && !st.processed then
      st.(updates := st.updates + BacklogUpdates(st, Ascending(st.backlog)), backlog := {}, processed := true)
    else st
  }

  function Step(st: State, request: Request): (st': State)
    ensures st'.domain == st.domain
  {
    Flush(Handle(st, request))
  }

  function Run(st: State, requests: seq<Request>): State {
    if requests == [] then st
    else Step(Run(st, requests[..|requests| - 1]), requests[|requests| - 1])
  }
}
