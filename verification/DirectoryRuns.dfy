/** What holds of the service directory's tables and streams after every main-loop step of every run. */
module DirectoryRuns {
  import opened Common
  import opened Directory

  // ----- what a request does to the publisher lists

  function Drop(list: seq<Publisher>, url: string): seq<Publisher> {
    var k := Find(list, url);
    if k == |list| then list else Without(list, k)
  }

  /** The publisher list of key after a request: only the addressed product gains or refreshes a publisher,
      and a new one pushes its URL out of the other own products. */
  function ListAfter(st: State, request: Request, key: Key): seq<Publisher> {
    var list := st.Listed(key);
    match request
    case Lookup(_, _, _) => list
    case Unregister(u) =>
      var k := FindInstance(list, u.url, u.regTime);
      if u.kind.Data? && key == Key(u.domain.Or(st.domain), u.id) && k < |list| then Without(list, k) else list
    case Register(r) =>
      var target := Key(r.domain.Or(st.domain), r.id);
      var rival := key.domain == st.domain && key.id != r.id;
      if Stale(st, r) then list
      else if r.kind.Service? then if rival then Drop(list, r.url) else list
      else
        if Known(st.Listed(target), r.url, r.timestamp.value) then list
        else if key == target then Placed(list, r, Seconds(r.timestamp.value))
        else if rival then Drop(list, r.url)
        else list
  }

  lemma PurgeOneRival(st: State, id: string, url: string, other: string)
    requires other != id
    ensures PurgeOne(st, id, url, other).Listed(st.Own(other)) == Drop(st.Listed(st.Own(other)), url)
  {
    hide Evict, Without, Find;
  }

  lemma PurgeOneOthers(st: State, id: string, url: string, other: string, key: Key)
    requires key != st.Own(other) || other == id
    ensures PurgeOne(st, id, url, other).Listed(key) == st.Listed(key)
  {
    hide Evict, Without, Find;
    if other == id {
      assert PurgeOne(st, id, url, other) == Tidy(st, id);
    }
  }

  lemma PurgeOneLists(st: State, id: string, url: string, other: string, key: Key)
    ensures PurgeOne(st, id, url, other).Listed(key) ==
            if key == st.Own(other) && other != id then Drop(st.Listed(key), url) else st.Listed(key)
  {
    if key == st.Own(other) && other != id {
      PurgeOneRival(st, id, url, other);
    } else {
      PurgeOneOthers(st, id, url, other, key);
    }
    hide Drop, Evict;
  }

  lemma {:induction false} PurgeAllLists(st: State, id: string, url: string, others: seq<string>, key: Key)
    requires Distinct(others)
    ensures PurgeAll(st, id, url, others).Listed(key) ==
            if key.domain == st.domain && key.id in others && key.id != id
            then Drop(st.Listed(key), url) else st.Listed(key)
    decreases |others|
  {
    if others != [] {
      PurgeOneLists(st, id, url, others[0], key);
      PurgeAllLists(PurgeOne(st, id, url, others[0]), id, url, others[1..], key);
    }
  }

  lemma PurgeLists(st: State, id: string, url: string, key: Key)
    ensures Purge(st, id, url).Listed(key) ==
            if key.domain == st.domain && key.id != id then Drop(st.Listed(key), url) else st.Listed(key)
  {
    PurgeAllLists(st, id, url, Ascending(ProductIds(st)), key);
    if key.domain == st.domain && key in st.lists {
      assert key.id in ProductIds(st);
    }
  }

  lemma RegisterNewLists(st: State, target: Key, r: Registration, timestamp: nat, key: Key)
    requires !Known(st.Listed(target), r.url, timestamp)
    ensures RegisterData(st, target, r, timestamp).Listed(key) ==
            if key == target then
              if key.domain == st.domain && key.id != r.id then
                Drop(Placed(st.Listed(key), r, Seconds(timestamp)), r.url)
              else Placed(st.Listed(key), r, Seconds(timestamp))
            else if key.domain == st.domain && key.id != r.id then Drop(st.Listed(key), r.url)
            else st.Listed(key)
  {
    hide PublishDetails, Announce, PlaceData, Purge, Placed, Drop, Known;
    var announced := Announce(PlaceData(st, target, r, timestamp), target);
    PurgeLists(announced, r.id, r.url, key);
    PlacedLists(st, target, r, timestamp, key);
    assert RegisterData(st, target, r, timestamp).lists == Purge(announced, r.id, r.url).lists;
  }

  lemma PlacedLists(st: State, target: Key, r: Registration, timestamp: nat, key: Key)
    ensures var announced := Announce(PlaceData(st, target, r, timestamp), target);
            announced.domain == st.domain
            && announced.Listed(key) ==
               if key == target then Placed(st.Listed(key), r, Seconds(timestamp)) else st.Listed(key)
  {
    hide Placed;
  }

  lemma RegisterDataLists(st: State, r: Registration, key: Key)
    requires r.kind.Data? && !Stale(st, r)
    ensures HandleRegister(st, r).Listed(key) == ListAfter(st, Register(r), key)
  {
    var target := Key(r.domain.Or(st.domain), r.id);
    if Known(st.Listed(target), r.url, r.timestamp.value) {
      hide PublishDetails, Stale, Known;
      assert RegisterData(st, target, r, r.timestamp.value).lists == st.lists;
    } else {
      RegisterNewLists(st, target, r, r.timestamp.value, key);
      hide RegisterData, Known, Placed, Drop, Stale;
    }
  }

  lemma RegisterServiceLists(st: State, r: Registration, key: Key)
    requires r.kind.Service? && !Stale(st, r)
    ensures HandleRegister(st, r).Listed(key) == ListAfter(st, Register(r), key)
  {
    PurgeLists(PlaceService(st, Key(r.domain.Or(st.domain), r.id), r), r.id, r.url, key);
    hide PublishDetails, Announce, Find, Without, Purge, Placed, Drop, Stale, Known;
  }

  lemma UnregisterDataLists(st: State, target: Key, u: Unregistration, key: Key)
    ensures var list := st.Listed(target);
            var k := FindInstance(list, u.url, u.regTime);
            UnregisterData(st, target, u).Listed(key) ==
            if key == target && k < |list| then Without(list, k) else st.Listed(key)
  {
    var list := st.Listed(target);
    var k := FindInstance(list, u.url, u.regTime);
    hide PublishDetails, Announce, FindInstance;
    if k < |list| {
      assert |list| == 1 ==> Without(list, k) == [];
      assert UnregisterData(st, target, u).lists == Withdraw(st, target, k).lists;
    }
  }

  lemma UnregisterLists(st: State, u: Unregistration, key: Key)
    ensures HandleUnregister(st, u).Listed(key) == ListAfter(st, Unregister(u), key)
  {
    UnregisterDataLists(st, Key(u.domain.Or(st.domain), u.id), u, key);
    hide PublishDetails, UnregisterData, FindInstance, Without;
  }

  lemma StepLists(st: State, request: Request, key: Key)
    ensures Step(st, request).Listed(key) == ListAfter(st, request, key)
  {
    match request
    case Lookup(_, _, _) =>
    case Unregister(u) =>
      UnregisterLists(st, u, key);
      hide ListAfter, HandleUnregister;
    case Register(r) =>
      if !Stale(st, r) {
        if r.kind.Data? { RegisterDataLists(st, r, key); } else { RegisterServiceLists(st, r, key); }
        hide ListAfter, HandleRegister;
      }
  }

  // ----- every URL has one place

  predicate DistinctUrls(list: seq<Publisher>) {
    forall i, j | 0 <= i < j < |list| :: list[i].Url() != list[j].Url()
  }

  /** No list names a URL twice, and no URL is listed by two products of the own domain. */
  ghost predicate UrlsOnce(st: State) {
    && (forall key :: DistinctUrls(st.Listed(key)))
    && (forall a: Key, b: Key, url | a.domain == b.domain == st.domain
          && Lists(st.Listed(a), url) && Lists(st.Listed(b), url) :: a == b)
  }

  lemma DropForgets(list: seq<Publisher>, url: string)
    requires DistinctUrls(list)
    ensures DistinctUrls(Drop(list, url)) && !Lists(Drop(list, url), url)
    ensures forall other | Lists(Drop(list, url), other) :: Lists(list, other)
  {
    hide Find, Without;
    var k := Find(list, url);
    if k < |list| {
      assert forall i | 0 <= i < |list| && i != k :: list[i].Url() != list[k].Url();
      WithoutIsPart(list, k);
    }
  }

  lemma WithoutIsPart(list: seq<Publisher>, k: nat)
    requires k < |list| && DistinctUrls(list)
    requires forall i | 0 <= i < |list| && i != k :: list[i].Url() != list[k].Url()
    ensures DistinctUrls(Without(list, k)) && !Lists(Without(list, k), list[k].Url())
    ensures forall other | Lists(Without(list, k), other) :: Lists(list, other)
  {
    forall i | 0 <= i < |list| - 1 ensures Without(list, k)[i] == list[if i < k then i else i + 1] {}
    forall other | Lists(Without(list, k), other) ensures Lists(list, other) {
      var i :| 0 <= i < |list| - 1 && Without(list, k)[i].Url() == other;
      assert list[if i < k then i else i + 1].Url() == other;
    }
  }

  lemma PlacedUrls(list: seq<Publisher>, r: Registration, regTime: nat)
    requires DistinctUrls(list)
    ensures DistinctUrls(Placed(list, r, regTime))
    ensures forall other | Lists(Placed(list, r, regTime), other) && other != r.url :: Lists(list, other)
  {
    forall other | Lists(Placed(list, r, regTime), other) && other != r.url ensures Lists(list, other) {
      var i :| 0 <= i < |Placed(list, r, regTime)| && Placed(list, r, regTime)[i].Url() == other;
      assert list[i].Url() == other;
    }
  }

  /** The registration behind this request puts url on the list of key. */
  predicate Registers(st: State, request: Request, key: Key, url: string) {
    request.Register? && request.reg.kind.Data? && url == request.reg.url
    && key == Key(request.reg.domain.Or(st.domain), request.reg.id)
  }

  lemma WithoutUrls(list: seq<Publisher>, k: nat)
    requires k < |list| && DistinctUrls(list)
    ensures DistinctUrls(Without(list, k))
    ensures forall other | Lists(Without(list, k), other) :: Lists(list, other)
  {
    forall other | Lists(Without(list, k), other) ensures Lists(list, other) {
      var i :| 0 <= i < |Without(list, k)| && Without(list, k)[i].Url() == other;
      assert Without(list, k)[i] == list[if i < k then i else i + 1];
    }
  }

  lemma ListAfterUrls(st: State, request: Request, key: Key)
    requires DistinctUrls(st.Listed(key))
    ensures DistinctUrls(ListAfter(st, request, key))
    ensures forall url | Lists(ListAfter(st, request, key), url) ::
              Lists(st.Listed(key), url) || Registers(st, request, key, url)
  {
    var list := st.Listed(key);
    hide Drop, Placed, Without, Known, Find, FindInstance, DistinctUrls, Lists;
    match request
    case Lookup(_, _, _) =>
    case Unregister(u) =>
      if FindInstance(list, u.url, u.regTime) < |list| { WithoutUrls(list, FindInstance(list, u.url, u.regTime)); }
    case Register(r) =>
      DropForgets(list, r.url);
      if r.timestamp.Some? { PlacedUrls(list, r, Seconds(r.timestamp.value)); }
  }

  /** A URL new on an own list has left every other own list. */
  lemma NewUrlLeavesRivals(st: State, request: Request, key: Key, rival: Key, url: string)
    requires Registers(st, request, key, url) && !Lists(st.Listed(key), url)
    requires Lists(ListAfter(st, request, key), url)
    requires key.domain == rival.domain == st.domain && rival != key && DistinctUrls(st.Listed(rival))
    ensures !Lists(ListAfter(st, request, rival), url)
  {
    DropForgets(st.Listed(rival), url);
    hide Drop, Placed;
  }

  lemma StepKeepsUrlsOnce(st: State, request: Request)
    requires UrlsOnce(st)
    ensures UrlsOnce(Step(st, request))
  {
    var st' := Step(st, request);
    forall key ensures st'.Listed(key) == ListAfter(st, request, key) && DistinctUrls(st'.Listed(key)) {
      StepLists(st, request, key);
      ListAfterUrls(st, request, key);
      hide Step, ListAfter, DistinctUrls;
    }
    forall a: Key, b: Key, url | a.domain == b.domain == st.domain
        && Lists(st'.Listed(a), url) && Lists(st'.Listed(b), url)
      ensures a == b
    {
      if a != b {
        ListAfterUrls(st, request, a);
        ListAfterUrls(st, request, b);
        if !Lists(st.Listed(a), url) { NewUrlLeavesRivals(st, request, a, b, url); }
        if !Lists(st.Listed(b), url) { NewUrlLeavesRivals(st, request, b, a, url); }
        hide Step, ListAfter, DistinctUrls, Lists, Registers;
        assert false;
      }
    }
  }

  /** Registrations, unregistrations and purges of products and services, in any order, never leave a URL in two
      places. */
  lemma {:induction false} UrlsListedOnce(domain: string, requests: seq<Request>)
    ensures UrlsOnce(Run(Fresh(domain), requests))
    decreases |requests|
  {
    if requests != [] {
      UrlsListedOnce(domain, requests[..|requests| - 1]);
      StepKeepsUrlsOnce(Run(Fresh(domain), requests[..|requests| - 1]), requests[|requests| - 1]);
    }
  }
}
