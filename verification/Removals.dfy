/** What the Remove command takes out of the own directory. */
module Removals {
  import opened Common
  import opened Directory
  import opened DirectoryRuns
  import opened DirectoryTimes
  import opened DirectoryHoldings
  import opened Leaving
  import opened Replication
  import opened Restarts
  import opened Synchronizing

  /** The publishers of a list other than those at one of the URLs registered in that second. */
  function Spared(list: seq<Publisher>, gone: set<string>, regTime: nat): seq<Publisher> {
    if list == [] then []
    else
      var last := |list| - 1;
      Spared(list[..last], gone, regTime) +
      if list[last].Url() in gone && list[last].regTime == regTime then [] else [list[last]]
  }

  lemma {:induction false} FindInstanceSnoc(list: seq<Publisher>, p: Publisher, url: string, regTime: nat)
    ensures var k := FindInstance(list, url, regTime);
            FindInstance(list + [p], url, regTime) ==
            if k < |list| then k else if p.Url() == url && p.regTime == regTime then |list| else |list| + 1
  {
    if list != [] {
      assert (list + [p])[1..] == list[1..] + [p];
      FindInstanceSnoc(list[1..], p, url, regTime);
    } else {
      assert ([p])[1..] == [];
    }
  }

  lemma {:induction false} SparedWithout(list: seq<Publisher>, gone: set<string>, regTime: nat, url: string)
    requires !Lists(list, url)
    ensures Spared(list, gone + {url}, regTime) == Spared(list, gone, regTime)
  {
    if list != [] {
      var last := |list| - 1;
      assert list[last].Url() != url;
      assert forall i | 0 <= i < last :: list[..last][i].Url() == list[i].Url();
      SparedWithout(list[..last], gone, regTime, url);
    }
  }

  lemma {:induction false} SparedAre(list: seq<Publisher>, gone: set<string>, regTime: nat)
    ensures forall p | p in Spared(list, gone, regTime) :: p in list
  {
    if list != [] { SparedAre(list[..|list| - 1], gone, regTime); }
  }

  /** The list without the publisher at url registered in that second, if there is one. */
  function Removed(list: seq<Publisher>, url: string, regTime: nat): seq<Publisher> {
    var k := FindInstance(list, url, regTime);
    if k < |list| then Without(list, k) else list
  }

  lemma RemovedSnoc(list: seq<Publisher>, p: Publisher, url: string, regTime: nat)
    ensures FindInstance(list, url, regTime) < |list| ==>
              Removed(list + [p], url, regTime) == Removed(list, url, regTime) + [p]
    ensures FindInstance(list, url, regTime) == |list| ==>
              Removed(list + [p], url, regTime) == if p.Url() == url && p.regTime == regTime then list else list + [p]
  {
    FindInstanceSnoc(list, p, url, regTime);
    hide FindInstance;
  }

  lemma SparedLast(list: seq<Publisher>, gone: set<string>, regTime: nat)
    requires list != []
    ensures var p := list[|list| - 1];
            Spared(list, gone, regTime) ==
            Spared(list[..|list| - 1], gone, regTime) + if p.Url() in gone && p.regTime == regTime then [] else [p]
  {}

  /** Unregistering one more URL spares one publisher less. */
  lemma {:induction false} SparedOne(list: seq<Publisher>, gone: set<string>, regTime: nat, url: string)
    requires DistinctUrls(list)
    ensures Spared(list, gone + {url}, regTime) == Removed(Spared(list, gone, regTime), url, regTime)
  {
    if list != [] {
      var last := |list| - 1;
      PrefixDistinct(list);
      SparedOne(list[..last], gone, regTime, url);
      SparedLast(list, gone, regTime);
      SparedLast(list, gone + {url}, regTime);
      if list[last].Url() == url { LastIsOnly(list, gone, regTime); }
      hide Spared, Removed, DistinctUrls, FindInstance;
      RemovedOfLast(Spared(list[..last], gone, regTime), list[last], gone, url, regTime);
    }
  }

  lemma PrefixDistinct(list: seq<Publisher>)
    requires DistinctUrls(list) && list != []
    ensures DistinctUrls(list[..|list| - 1])
  {}

  lemma RemovedOfLast(rest: seq<Publisher>, p: Publisher, gone: set<string>, url: string, regTime: nat)
    requires p.Url() == url ==> FindInstance(rest, url, regTime) == |rest|
    ensures Removed(rest + if p.Url() in gone && p.regTime == regTime then [] else [p], url, regTime) ==
            Removed(rest, url, regTime) + if p.Url() in gone + {url} && p.regTime == regTime then [] else [p]
  {
    RemovedSnoc(rest, p, url, regTime);
    hide FindInstance, Without;
    assert rest + [] == rest;
  }

  /** Nobody before the last publisher is at its URL. */
  lemma LastIsOnly(list: seq<Publisher>, gone: set<string>, regTime: nat)
    requires DistinctUrls(list) && list != []
    ensures var last := |list| - 1;
            var url, rest := list[last].Url(), Spared(list[..last], gone, regTime);
            Spared(list[..last], gone + {url}, regTime) == rest && FindInstance(rest, url, regTime) == |rest|
  {
    var last := |list| - 1;
    assert !Lists(list[..last], list[last].Url());
    SparedWithout(list[..last], gone, regTime, list[last].Url());
    SparedAre(list[..last], gone, regTime);
    NotFound(list[..last], Spared(list[..last], gone, regTime), list[last].Url(), regTime);
    hide Spared, FindInstance, Lists, DistinctUrls;
  }

  lemma NotFound(list: seq<Publisher>, rest: seq<Publisher>, url: string, regTime: nat)
    requires !Lists(list, url) && forall p | p in rest :: p in list
    ensures FindInstance(rest, url, regTime) == |rest|
  {
    forall i | 0 <= i < |rest| ensures rest[i].Url() != url {
      assert rest[i] in list;
      var j :| 0 <= j < |list| && list[j] == rest[i];
      assert list[j].Url() != url;
    }
    hide FindInstance, Lists;
  }

  /** The own directory after serving the unregistrations of some rows. */
  lemma {:induction false} RowsRemoved(st: State, domain: string, rows: seq<Row>, kind: Kind, regTime: nat, id: string)
    requires DistinctUrls(st.Listed(Key(domain, id)))
    ensures Run(st, RemovalRequests(domain, rows, kind, regTime)).Listed(Key(domain, id)) ==
            if kind.Data? then Spared(st.Listed(Key(domain, id)), UrlsOf(rows, id), regTime)
                else st.Listed(Key(domain, id))
  {
    hide Run, DistinctUrls, UrlsOf, Spared, Removed;
    var list := st.Listed(Key(domain, id));
    if rows == [] {
      NoneGone(list, regTime);
      NoUrls(id);
      NoRequests(st);
    } else {
      var last := |rows| - 1;
      RowsRemoved(st, domain, rows[..last], kind, regTime, id);
      RowRemoved(st, domain, rows, kind, regTime, id);
      UrlsOfMore(rows, id);
      SparedOne(list, UrlsOf(rows[..last], id), regTime, rows[last].url);
      assert UrlsOf(rows[..last], id) + {} == UrlsOf(rows[..last], id);
    }
  }

  lemma NoRequests(st: State)
    ensures Run(st, []) == st
  {}

  lemma RowRemoved(st: State, domain: string, rows: seq<Row>, kind: Kind, regTime: nat, id: string)
    requires rows != []
    ensures var last := |rows| - 1;
            var before := Run(st, RemovalRequests(domain, rows[..last], kind, regTime)).Listed(Key(domain, id));
            Run(st, RemovalRequests(domain, rows, kind, regTime)).Listed(Key(domain, id)) ==
            if kind.Data? && rows[last].id == id then Removed(before, rows[last].url, regTime) else before
  {
    hide Step, FindInstance, Without;
    var last := |rows| - 1;
    var requests, earlier :=
      RemovalRequests(domain, rows, kind, regTime), RemovalRequests(domain, rows[..last], kind, regTime);
    assert earlier == requests[..|requests| - 1];
    StepLists(Run(st, earlier), requests[|requests| - 1], Key(domain, id));
  }

  lemma {:induction false} NoneGone(list: seq<Publisher>, regTime: nat)
    ensures Spared(list, {}, regTime) == list
  {
    if list != [] { NoneGone(list[..|list| - 1], regTime); }
  }

  lemma {:induction false} AllGone(list: seq<Publisher>, gone: set<string>, regTime: nat)
    requires forall i | 0 <= i < |list| :: list[i].Url() in gone
    ensures Spared(list, gone, regTime) == [] <==> forall i | 0 <= i < |list| :: list[i].regTime == regTime
  {
    if list != [] {
      var last := |list| - 1;
      assert forall i | 0 <= i < last :: list[..last][i] == list[i];
      AllGone(list[..last], gone, regTime);
    }
  }

  /** Remove is there to clear all data of the domain. When the own directory lists what the last picture shows,
      serving the requests of Remove empties the list of a product exactly when the list was empty already, or the
      last change was to a data product and every publisher registered in the second in which its directory
      registered itself. */
  lemma RemoveClearsExactly(s: Sync, st: State, domain: string, id: string)
    requires domain in s.followed && DistinctUrls(st.Listed(Key(domain, id)))
    requires forall i | 0 <= i < |st.Listed(Key(domain, id))| ::
               st.Listed(Key(domain, id))[i].Url()
                 in UrlsOf(s.followed[domain].services + s.followed[domain].products, id)
    ensures var f, list := s.followed[domain], st.Listed(Key(domain, id));
            var requests := Forgotten(s, domain).waiting[|s.waiting|..];
            Run(st, requests).Listed(Key(domain, id)) == [] <==>
            list == [] || (f.kind.Data? && forall i | 0 <= i < |list| :: list[i].regTime == f.registrationTime)
  {
    hide Run, RemovalRequests, UrlsOf, DistinctUrls, Spared;
    var f, list := s.followed[domain], st.Listed(Key(domain, id));
    var requests := RemovalRequests(domain, f.services + f.products, f.kind, f.registrationTime);
    assert Forgotten(s, domain).waiting[|s.waiting|..] == requests;
    RowsRemoved(st, domain, f.services + f.products, f.kind, f.registrationTime, id);
    AllGone(list, UrlsOf(f.services + f.products, id), f.registrationTime);
  }

  // ----- a publisher that stays

  const ROW := Row("Telemetry", "tcp://a:1", "camera", 2000000)
  const PICTURE := Details("far", [], [ROW], Change("Telemetry", "tcp://a:1", "camera", 2000000, true, Data))

  /** The synchronizer after following a directory that registered in second 1, and after its one request was
      answered. */
  function Following(): Sync {
    SentNext(Heard(Located(Added(Sync(map[], [], false), "far"), "far", 1), PICTURE, 1)).(pending := false)
  }

  lemma FollowingAsks()
    ensures Following().waiting == [] && "far" in Following().followed
    ensures var f := Following().followed["far"];
            f.services + f.products == [ROW] && f.kind.Data? && f.registrationTime == 1
  {
    assert [ROW][..0] == [];
    assert RowRequests("far", [ROW], Data) == [RowRequest("far", ROW, Data)];
  }

  lemma FarIsListed()
    ensures var own := Run(Fresh("near"), [RowRequest("far", ROW, Data)]);
            own.Listed(Key("far", "Telemetry")) == [Publisher(Some("tcp://a:1"), None, Some("camera"), None, 2)]
  {
    var request := RowRequest("far", ROW, Data);
    assert [request][..0] == [];
    assert Run(Fresh("near"), [request][..0]) == Fresh("near");
    StepLists(Fresh("near"), request, Key("far", "Telemetry"));
    hide Step;
  }

  /** A publisher of second 2 stays listed after Remove. */
  lemma RemovedDomainStays()
    ensures var own := Run(Fresh("near"), [RowRequest("far", ROW, Data)]);
            Run(own, Forgotten(Following(), "far").waiting).Listed(Key("far", "Telemetry")) != []
  {
    hide Run, Following, UrlsOf;
    var own := Run(Fresh("near"), [RowRequest("far", ROW, Data)]);
    FollowingAsks();
    FarIsListed();
    UrlsOfMore([ROW], "Telemetry");
    assert own.Listed(Key("far", "Telemetry"))[0].regTime == 2;
    RemoveClearsExactly(Following(), own, "far", "Telemetry");
    assert Forgotten(Following(), "far").waiting[0..] == Forgotten(Following(), "far").waiting;
  }

  // ----- a time that is lost

  lemma ServiceStep(st: State, u: Unregistration, url: string)
    requires u.kind.Service?
    ensures var st' := Step(st, Unregister(u));
            url in st'.instances && Found(st, u) ==> url != u.url
    ensures !Found(st, u) ==> Step(st, Unregister(u)).instances == st.instances
  {
    hide BacklogUpdates, PublishDetails;
  }

  /** Remove unregisters data products as services when the last change was to a service. The publisher stays listed,
      and its time is lost exactly when a service with the ID of the product is registered and the time is of the second
      in which the domain's directory registered itself. */
  lemma ServiceRemovalForgetsExactly(owners: Owners, st: State, u: Unregistration)
    requires u.kind.Service? && u.url in st.instances && 0 < st.instances[u.url]
    requires Timed(owners, st) && owners(u.url) == Owner(Key(u.domain.Or(st.domain), u.id), Data)
    ensures var key, st' := Key(u.domain.Or(st.domain), u.id), Step(st, Unregister(u));
            && st'.Listed(key) == st.Listed(key)
            && (Entries(st', key) != Entries(st, key) <==>
                key in st.services && Seconds(st.instances[u.url]) == u.regTime)
  {
    hide Timed, Step, Entries, Lists, Seconds;
    var key, st' := Key(u.domain.Or(st.domain), u.id), Step(st, Unregister(u));
    IsListed(owners, st, u.url);
    StepLists(st, Unregister(u), key);
    ServiceStep(st, u, u.url);
    EntriesAt(st, key, u.url);
    EntriesAt(st', key, u.url);
    if !Found(st, u) { SameEntries(st, st', key); }
  }

  lemma IsListed(owners: Owners, st: State, url: string)
    requires Timed(owners, st) && url in st.instances && owners(url).kind.Data?
    ensures Lists(st.Listed(owners(url).key), url)
  {
    hide Lists;
  }

  lemma SameEntries(st: State, st': State, key: Key)
    requires st'.Listed(key) == st.Listed(key) && st'.instances == st.instances
    ensures Entries(st', key) == Entries(st, key)
  {
    SameHoldings(st, st', key);
    hide Holdings;
  }
}
