/** What a synchronizer asks of the own directory when a domain is gone: one unregistration for every row of its last
    picture, under one kind and one registration second for all of them. */
module Leaving {
  import opened Common
  import opened Directory
  import opened DirectoryRuns
  import opened DirectoryTimes
  import opened DirectoryHoldings
  import opened Replication
  import opened RemoteTables

  function RemovalRequests(domain: string, rows: seq<Row>, kind: Kind, regTime: nat): seq<Request> {
    if rows == [] then []
    else
      var last := |rows| - 1;
      RemovalRequests(domain, rows[..last], kind, regTime) +
      [Unregister(Unregistration(rows[last].id, rows[last].url, kind, Some(domain), regTime))]
  }

  lemma {:induction false} RemovalOfBoth(domain: string, a: seq<Row>, b: seq<Row>, kind: Kind, regTime: nat)
    ensures RemovalRequests(domain, a + b, kind, regTime) ==
            RemovalRequests(domain, a, kind, regTime) + RemovalRequests(domain, b, kind, regTime)
  {
    if b == [] {
      assert a + b == a;
    } else {
      assert (a + b)[..|a + b| - 1] == a + b[..|b| - 1];
      RemovalOfBoth(domain, a, b[..|b| - 1], kind, regTime);
    }
  }

  /** The URLs a picture shows for one id, as a product or as a service. */
  function UrlsOf(rows: seq<Row>, id: string): set<string> {
    set i | 0 <= i < |rows| && rows[i].id == id :: rows[i].url
  }

  lemma UrlsOfMore(rows: seq<Row>, id: string)
    requires rows != []
    ensures var last := |rows| - 1;
            UrlsOf(rows, id) == UrlsOf(rows[..last], id) + if rows[last].id == id then {rows[last].url} else {}
  {
    var last := |rows| - 1;
    forall url | url in UrlsOf(rows, id)
      ensures url in UrlsOf(rows[..last], id) || (rows[last].id == id && url == rows[last].url)
    {
      var i :| 0 <= i < |rows| && rows[i].id == id && rows[i].url == url;
      if i < last { assert rows[..last][i] == rows[i]; }
    }
    forall url | url in UrlsOf(rows[..last], id) ensures url in UrlsOf(rows, id) {
      var i :| 0 <= i < last && rows[..last][i].id == id && rows[..last][i].url == url;
      assert rows[i].id == id && rows[i].url == url;
    }
  }

  lemma NoUrls(id: string)
    ensures UrlsOf([], id) == {}
  {}

  // ----- their effect

  /** The entries other than those at one of the URLs with a time in that second. */
  function Thinned(table: map<string, nat>, gone: set<string>, regTime: nat): map<string, nat> {
    map url | url in table && !(url in gone && Seconds(table[url]) == regTime) :: table[url]
  }

  /** What serving the unregistrations of some rows leaves. */
  function Remaining(table: map<string, nat>, rows: seq<Row>, kind: Kind, regTime: nat, id: string): map<string, nat> {
    if kind.Data? then Thinned(table, UrlsOf(rows, id), regTime) else table
  }

  lemma {:induction false} RemovalServed(table: map<string, nat>, domain: string, rows: seq<Row>, kind: Kind,
                                         regTime: nat, key: Key)
    requires key.domain == domain
    ensures ServedAll(table, RemovalRequests(domain, rows, kind, regTime), key) ==
            Remaining(table, rows, kind, regTime, key.id)
  {
    hide UrlsOf, Seconds;
    if rows == [] {
      NoUrls(key.id);
      assert ServedAll(table, [], key) == table;
      assert Thinned(table, {}, regTime) == table;
    } else {
      var last := |rows| - 1;
      var requests, earlier :=
        RemovalRequests(domain, rows, kind, regTime), RemovalRequests(domain, rows[..last], kind, regTime);
      assert earlier == requests[..|requests| - 1];
      RemovalServed(table, domain, rows[..last], kind, regTime, key);
      UrlsOfMore(rows, key.id);
    }
  }

  // ----- requests that miss

  /** The unregistration of something that nobody has registered: of a data product at a URL of somebody else, or of a
      service under an ID that is none. */
  ghost predicate Astray(owners: Owners, domain: string, request: Request) {
    request.Unregister?
    && var u := request.unreg;
       var key := Key(u.domain.Or(domain), u.id);
       if u.kind.Data? then owners(u.url) != Owner(key, Data)
       else forall url: string :: owners(url) != Owner(key, Service)
  }

  ghost predicate Safe(owners: Owners, domain: string, request: Request) {
    Obeys(owners, domain, request) || Astray(owners, domain, request)
  }

  ghost predicate SafeQueue(owners: Owners, replica: string, queue: seq<Request>) {
    forall i | 0 <= i < |queue| :: Named(queue[i]) && Safe(owners, replica, queue[i])
  }

  lemma SafeTail(owners: Owners, replica: string, queue: seq<Request>)
    requires SafeQueue(owners, replica, queue) && queue != []
    ensures Named(queue[0]) && Safe(owners, replica, queue[0]) && SafeQueue(owners, replica, queue[1..])
  {
    hide Named, Safe;
  }

  lemma SafeBoth(owners: Owners, replica: string, a: seq<Request>, b: seq<Request>)
    requires SafeQueue(owners, replica, a) && SafeQueue(owners, replica, b)
    ensures SafeQueue(owners, replica, a + b)
  {
    hide Named, Safe;
  }

  lemma GoodIsSafe(owners: Owners, replica: string, queue: seq<Request>)
    requires GoodQueue(owners, replica, queue)
    ensures SafeQueue(owners, replica, queue)
  {
    hide Named, Obeys, Astray;
  }

  lemma ListedHere(owners: Owners, st: State, key: Key, i: nat)
    requires Timed(owners, st) && i < |st.Listed(key)|
    ensures owners(st.Listed(key)[i].Url()) == Owner(key, Data)
  {
    hide Timed;
    TimedList(owners, st, key);
  }

  /** What is not registered is not found. */
  lemma AstrayIsMissed(owners: Owners, st: State, u: Unregistration)
    requires Timed(owners, st) && Astray(owners, st.domain, Unregister(u))
    ensures !Found(st, u)
  {
    hide Timed, FindInstance;
    var key := Key(u.domain.Or(st.domain), u.id);
    if u.kind.Data? {
      var k := FindInstance(st.Listed(key), u.url, u.regTime);
      if k < |st.Listed(key)| { ListedHere(owners, st, key, k); }
    } else {
      ServicesByRight(owners, st);
    }
  }

  lemma MissedChanges(st: State, u: Unregistration)
    requires !Found(st, u)
    ensures var st' := Step(st, Unregister(u));
            st'.services == st.services && st'.instances == st.instances
            && forall key :: st'.Listed(key) == st.Listed(key)
  {
    hide FindInstance, BacklogUpdates, Ascending;
  }

  lemma SameTimed(owners: Owners, st: State, st': State)
    requires Timed(owners, st) && st'.services == st.services && st'.instances == st.instances
    requires forall key :: st'.Listed(key) == st.Listed(key)
    ensures Timed(owners, st')
  {
    hide DistinctUrls, Lists;
    forall key: Key, i | 0 <= i < |st'.Listed(key)| ensures InTime(owners, st', key, st'.Listed(key)[i]) {
      assert InTime(owners, st, key, st.Listed(key)[i]);
    }
  }

  lemma AstrayChangesNothing(owners: Owners, st: State, request: Request, key: Key)
    requires Timed(owners, st) && Astray(owners, st.domain, request)
    ensures Timed(owners, Step(st, request)) && Holdings(Step(st, request), key) == Holdings(st, key)
  {
    hide Timed, Step, Found, Holdings;
    AstrayIsMissed(owners, st, request.unreg);
    MissedChanges(st, request.unreg);
    SameTimed(owners, st, Step(st, request));
    SameHoldings(st, Step(st, request), key);
  }

  /** Nor does it concern the table of key. */
  lemma AstrayIsElsewhere(owners: Owners, st: State, request: Request, key: Key)
    requires Timed(owners, st) && Astray(owners, st.domain, request) && Named(request)
    ensures Served(Table(Holdings(st, key)), request, key) == Table(Holdings(st, key))
  {
    hide Timed, Holdings, Table, Position;
    var held := Holdings(st, key);
    var url := request.unreg.url;
    TableAt(held, url);
    HoldingsAt(st, key);
    if Position(held, url) < |held| { ListedHere(owners, st, key, Position(held, url)); }
  }

  /** Whatever is in a safe queue has its effect on the table. */
  lemma SafeStep(owners: Owners, st: State, request: Request, key: Key)
    requires Timed(owners, st) && Safe(owners, st.domain, request) && Named(request)
    ensures Timed(owners, Step(st, request))
    ensures Table(Holdings(Step(st, request), key)) == Served(Table(Holdings(st, key)), request, key)
  {
    hide Timed, Step, Holdings, Table, Served, Obeys, Astray, Named;
    if Obeys(owners, st.domain, request) {
      StepKeepsTimed(owners, st, request);
      StepTable(owners, st, request, key);
    } else {
      AstrayChangesNothing(owners, st, request, key);
      AstrayIsElsewhere(owners, st, request, key);
    }
  }

  // ----- the unregistrations of a picture

  /** The rows of a picture of the domain. */
  predicate OwnRows(owners: Owners, domain: string, rows: seq<Row>) {
    forall i | 0 <= i < |rows| :: owners(rows[i].url).key == Key(domain, rows[i].id)
  }

  /** When they are unregistered as services, no service has the ID of a data product among them. */
  ghost predicate Distinguished(owners: Owners, domain: string, rows: seq<Row>, kind: Kind) {
    kind.Data?
    || forall i, url: string | 0 <= i < |rows| && owners(rows[i].url).kind.Data? ::
         owners(url) != Owner(Key(domain, rows[i].id), Service)
  }

  lemma RowsOf(domain: string, rows: seq<Row>, kind: Kind, regTime: nat, i: nat)
    ensures |RemovalRequests(domain, rows, kind, regTime)| == |rows|
    ensures i < |rows| ==> RemovalRequests(domain, rows, kind, regTime)[i] ==
                           Unregister(Unregistration(rows[i].id, rows[i].url, kind, Some(domain), regTime))
  {
    if rows != [] { RowsOf(domain, rows[..|rows| - 1], kind, regTime, i); }
  }

  lemma RemovalIsSafe(owners: Owners, replica: string, domain: string, rows: seq<Row>, kind: Kind, regTime: nat)
    requires OwnRows(owners, domain, rows) && Distinguished(owners, domain, rows, kind)
    ensures SafeQueue(owners, replica, RemovalRequests(domain, rows, kind, regTime))
  {
    hide RemovalRequests;
    RowsOf(domain, rows, kind, regTime, 0);
    forall i | 0 <= i < |rows|
      ensures var request := RemovalRequests(domain, rows, kind, regTime)[i];
              Named(request) && Safe(owners, replica, request)
    {
      RowsOf(domain, rows, kind, regTime, i);
      assert owners(rows[i].url).key == Key(domain, rows[i].id);
    }
    hide Named, Safe;
  }
}
