/** A publisher list seen as a map from URLs to times, and what requests, pictures and changes make of it. */
module RemoteTables {
  import opened Common
  import opened Directory
  import opened DirectoryRuns
  import opened DirectoryTimes
  import opened DirectoryHoldings
  import opened DirectoryBroadcast
  import opened Replication

  // ----- holdings as tables from URLs to times

  function Urls(held: seq<Holding>): set<string> {
    set i | 0 <= i < |held| :: held[i].url
  }

  function Table(held: seq<Holding>): map<string, nat> {
    map url | url in Urls(held) :: var k := Position(held, url); if k < |held| then held[k].timestamp else 0
  }

  lemma TableAt(held: seq<Holding>, url: string)
    ensures url in Table(held) <==> Position(held, url) < |held|
    ensures url in Table(held) ==> Table(held)[url] == held[Position(held, url)].timestamp
  {
    if url in Urls(held) {
      var i :| 0 <= i < |held| && held[i].url == url;
      assert !(i < Position(held, url));
    }
    hide Position;
  }

  /** What a directory that knows these times makes of a request about key: a registration older than the recorded
      time is stale, and an unregistration must name the second of the recorded time. */
  function Served(table: map<string, nat>, request: Request, key: Key): map<string, nat> {
    match request
    case Lookup(_, _, _) => table
    case Register(r) =>
      if r.kind.Data? && r.domain == Some(key.domain) && r.id == key.id && r.timestamp.Some?
         && !(r.url in table && r.timestamp.value < table[r.url])
      then table[r.url := r.timestamp.value] else table
    case Unregister(u) =>
      if u.kind.Data? && u.domain == Some(key.domain) && u.id == key.id && u.url in table
          && Seconds(table[u.url]) == u.regTime
      then table - {u.url} else table
  }

  function ServedAll(table: map<string, nat>, queue: seq<Request>, key: Key): map<string, nat> {
    if queue == [] then table
    else Served(ServedAll(table, queue[..|queue| - 1], key), queue[|queue| - 1], key)
  }

  lemma {:induction false} ServedBoth(table: map<string, nat>, a: seq<Request>, b: seq<Request>, key: Key)
    ensures ServedAll(table, a + b, key) == ServedAll(ServedAll(table, a, key), b, key)
  {
    if b == [] {
      assert a + b == a;
    } else {
      assert (a + b)[..|a + b| - 1] == a + b[..|b| - 1];
      ServedBoth(table, a, b[..|b| - 1], key);
    }
  }

  lemma ServedOne(table: map<string, nat>, request: Request, key: Key)
    ensures ServedAll(table, [request], key) == Served(table, request, key)
  {
    assert ServedAll(table, [request][..0], key) == table;
  }

  lemma PositionAfterTake(held: seq<Holding>, url: string, timestamp: nat, other: string)
    ensures var taken := Take(held, url, timestamp);
            var p := Position(taken, other);
            if other == url then p < |taken| && taken[p].timestamp == timestamp
            else if Position(held, other) < |held| then p < |taken| && taken[p] == held[Position(held, other)]
            else p == |taken|
  {
    var taken := Take(held, url, timestamp);
    var k, q, p := Position(held, url), Position(held, other), Position(taken, other);
    assert forall i | 0 <= i < |held| && i != k :: taken[i] == held[i];
    assert taken[k] == Holding(url, timestamp);
    hide Position, Take;
    if other == url {
      assert !(k < p);
      assert forall i | 0 <= i < k :: taken[i].url != url;
    } else if q < |held| {
      assert q != k && !(q < p);
    }
  }

  lemma TableTakeAt(held: seq<Holding>, url: string, timestamp: nat, other: string)
    ensures var table := Table(Take(held, url, timestamp));
            if other == url then other in table && table[other] == timestamp
            else if other in Table(held) then other in table && table[other] == Table(held)[other]
            else other !in table
  {
    hide Table, Take, Position;
    PositionAfterTake(held, url, timestamp, other);
    TableAt(held, other);
    TableAt(Take(held, url, timestamp), other);
  }

  lemma TableTake(held: seq<Holding>, url: string, timestamp: nat)
    ensures Table(Take(held, url, timestamp)) == Table(held)[url := timestamp]
  {
    hide Table, Take, Position;
    var taken, updated := Table(Take(held, url, timestamp)), Table(held)[url := timestamp];
    forall other
      ensures other in taken <==> other in updated
      ensures other in updated ==> taken[other] == updated[other]
    {
      TableTakeAt(held, url, timestamp, other);
    }
  }

  lemma PositionAt(held: seq<Holding>, k: nat, url: string)
    requires k <= |held| && (k < |held| ==> held[k].url == url)
    requires forall j | 0 <= j < k :: held[j].url != url
    ensures Position(held, url) == k
  {}

  lemma PositionAfterRelease(held: seq<Holding>, k: nat, other: string)
    requires DistinctHoldings(held) && k < |held|
    ensures var rest := Without(held, k);
            var p := Position(rest, other);
            if other != held[k].url && Position(held, other) < |held| then
              p < |rest| && rest[p] == held[Position(held, other)]
            else p == |rest|
  {
    hide Position, Without, DistinctHoldings;
    var rest, q := Without(held, k), Position(held, other);
    WithoutAt(held, k);
    if other != held[k].url && q < |held| {
      var at := if q < k then q else q - 1;
      assert rest[at] == held[q];
      PositionAt(rest, at, other);
    } else {
      forall j | 0 <= j < |rest| ensures rest[j].url != other {
        NotTwice(held, k, if j < k then j else j + 1);
      }
      PositionAt(rest, |rest|, other);
    }
  }

  lemma WithoutAt(held: seq<Holding>, k: nat)
    requires k < |held|
    ensures |Without(held, k)| == |held| - 1
    ensures forall i | 0 <= i < |held| - 1 :: Without(held, k)[i] == held[if i < k then i else i + 1]
  {}

  lemma NotTwice(held: seq<Holding>, k: nat, i: nat)
    requires DistinctHoldings(held) && k < |held| && i < |held| && i != k
    ensures held[i].url != held[k].url
  {}

  lemma TableRelease(held: seq<Holding>, url: string, regTime: nat)
    requires DistinctHoldings(held)
    ensures var table := Table(held);
            Table(Release(held, url, regTime)) ==
            if url in table && Seconds(table[url]) == regTime then table - {url} else table
  {
    var k := Position(held, url);
    TableAt(held, url);
    if k < |held| && Seconds(held[k].timestamp) == regTime {
      forall other
        ensures other in Table(Without(held, k)) <==> other in Table(held) - {url}
        ensures other in Table(held) - {url} ==> Table(Without(held, k))[other] == Table(held)[other]
      {
        PositionAfterRelease(held, k, other);
        TableAt(held, other);
        TableAt(Without(held, k), other);
        hide Table, Without, Position, DistinctHoldings;
      }
    }
    hide Table, Without, DistinctHoldings, Position;
  }

  /** A request's effect on the holdings is its effect on the table. */
  lemma EffectTable(held: seq<Holding>, request: Request, domain: string, key: Key)
    requires DistinctHoldings(held) && Named(request) && Timely(held, request, domain, key)
    ensures Table(Effect(held, request, domain, key)) == Served(Table(held), request, key)
  {
    hide Table, DistinctHoldings, Timely, Effect, Served, Position;
    match request
    case Lookup(_, _, _) => LookupTable(held, request, domain, key);
    case Register(r) => RegisterTable(held, request, domain, key);
    case Unregister(u) => UnregisterTable(held, request, domain, key);
  }

  lemma LookupTable(held: seq<Holding>, request: Request, domain: string, key: Key)
    requires request.Lookup?
    ensures Table(Effect(held, request, domain, key)) == Served(Table(held), request, key)
  {
    hide Table;
  }

  lemma RegisterTable(held: seq<Holding>, request: Request, domain: string, key: Key)
    requires request.Register? && Named(request) && Timely(held, request, domain, key)
    ensures Table(Effect(held, request, domain, key)) == Served(Table(held), request, key)
  {
    hide Table, Take, Position;
    var r := request.reg;
    TableAt(held, r.url);
    if r.timestamp.Some? { TableTake(held, r.url, r.timestamp.value); }
  }

  lemma UnregisterTable(held: seq<Holding>, request: Request, domain: string, key: Key)
    requires request.Unregister? && Named(request) && DistinctHoldings(held)
    ensures Table(Effect(held, request, domain, key)) == Served(Table(held), request, key)
  {
    hide Table, Release, DistinctHoldings, Seconds;
    TableRelease(held, request.unreg.url, request.unreg.regTime);
  }

  /** A registration about key is stale exactly when the table has a later time for its URL. */
  lemma StaleInTable(owners: Owners, st: State, r: Registration, key: Key)
    requires Timed(owners, st) && Obeys(owners, st.domain, Register(r))
    requires r.kind.Data? && key == Key(r.domain.Or(st.domain), r.id)
    ensures var table := Table(Holdings(st, key));
            Stale(st, r) <==> r.timestamp.None? || (r.url in table && r.timestamp.value < table[r.url])
  {
    var held := Holdings(st, key);
    var k := Position(held, r.url);
    TableAt(held, r.url);
    HoldingsAt(st, key);
    if r.url in st.instances {
      assert Lists(st.Listed(key), r.url);
      var i :| 0 <= i < |st.Listed(key)| && st.Listed(key)[i].Url() == r.url;
      assert held[i].url == r.url;
      assert k < |held|;
    } else {
      UnrecordedIsUnlisted(owners, st, key, r.url);
      PositionIsFind(st, key, r.url);
    }
    hide Timed, Table, Holdings, Position, Find;
  }

  lemma StepTable(owners: Owners, st: State, request: Request, key: Key)
    requires Timed(owners, st) && Obeys(owners, st.domain, request) && Named(request)
    ensures Table(Holdings(Step(st, request), key)) == Served(Table(Holdings(st, key)), request, key)
  {
    hide Timed, Step, Holdings, Table, Effect, Stale, DistinctHoldings, Position, Obeys, Timely;
    var held := Holdings(st, key);
    HoldingsDistinct(owners, st, key);
    StepHoldings(owners, st, request, key);
    if request.Register? && request.reg.kind.Data? && key == Key(request.reg.domain.value, request.reg.id) {
      StaleInTable(owners, st, request.reg, key);
      TableAt(held, request.reg.url);
    }
    if !(request.Register? && Stale(st, request.reg)) {
      ElsewhereOrTimely(held, request, st.domain, key);
      EffectTable(held, request, st.domain, key);
    }
  }

  lemma ElsewhereOrTimely(held: seq<Holding>, request: Request, domain: string, key: Key)
    requires Named(request)
    requires request.Register? && request.reg.kind.Data? && key == Key(request.reg.domain.value, request.reg.id) ==>
               var table := Table(held);
               var r := request.reg;
               (r.url in table <==> Position(held, r.url) < |held|)
               && (r.url in table ==> table[r.url] == held[Position(held, r.url)].timestamp)
               && r.timestamp.Some? && !(r.url in table && r.timestamp.value < table[r.url])
    ensures Timely(held, request, domain, key)
  {
    hide Table, Position;
  }

  // ----- snapshots

  /** The entries of left that a picture does not renew: its URLs are gone, or shown with an earlier time. */
  function Outdated(left: map<string, nat>, shown: map<string, nat>): map<string, nat> {
    map url | url in left && !(url in shown && left[url] <= shown[url]) :: left[url]
  }

  lemma TableSnoc(held: seq<Holding>, h: Holding)
    requires DistinctHoldings(held + [h])
    ensures Table(held + [h]) == Table(held)[h.url := h.timestamp] && h.url !in Table(held)
  {
    PositionAtEnd(held, h);
    TableAt(held, h.url);
    TableTake(held, h.url, h.timestamp);
    hide Table, Position, DistinctHoldings;
    assert Take(held, h.url, h.timestamp) == held + [h];
  }

  lemma ServedOver(table: map<string, nat>, shown: map<string, nat>, request: Request, key: Key)
    requires request.Register? && request.reg.kind.Data? && request.reg.domain == Some(key.domain)
             && request.reg.id == key.id
    requires request.reg.timestamp.Some? && request.reg.url !in shown
    ensures var next := shown[request.reg.url := request.reg.timestamp.value];
            Served(shown + Outdated(table, shown), request, key) == next + Outdated(table, next)
  {}

  /** Registering the rows of a picture one by one shows the picture over what was there. */
  lemma {:induction false} RowsServed(table: map<string, nat>, domain: string, rows: seq<Row>, key: Key)
    requires key.domain == domain && DistinctHoldings(HeldIn(rows, key.id))
    ensures var shown := Table(HeldIn(rows, key.id));
            ServedAll(table, RowRequests(domain, rows, Data), key) == shown + Outdated(table, shown)
  {
    if rows == [] {
      assert Table([]) + Outdated(table, Table([])) == table;
    } else {
      var last := |rows| - 1;
      var requests := RowRequests(domain, rows[..last], Data);
      var held := HeldIn(rows[..last], key.id);
      assert RowRequests(domain, rows, Data)[..|requests|] == requests;
      if rows[last].id == key.id {
        assert forall i | 0 <= i < |held| :: HeldIn(rows, key.id)[i] == held[i];
        TableSnoc(held, Holding(rows[last].url, rows[last].timestamp));
        ServedOver(table, Table(held), RowRequest(domain, rows[last], Data), key);
      }
      RowsServed(table, domain, rows[..last], key);
      hide Table, DistinctHoldings, Outdated;
    }
  }

  lemma {:induction false} ServiceRowsServed(table: map<string, nat>, domain: string, rows: seq<Row>, key: Key)
    ensures ServedAll(table, RowRequests(domain, rows, Service), key) == table
  {
    if rows != [] {
      var requests := RowRequests(domain, rows[..|rows| - 1], Service);
      assert RowRequests(domain, rows, Service)[..|requests|] == requests;
      ServiceRowsServed(table, domain, rows[..|rows| - 1], key);
    }
  }

  lemma SnapshotServed(table: map<string, nat>, m: Details, key: Key)
    requires m.domain == key.domain && DistinctHoldings(HeldIn(m.products, key.id))
    ensures var shown := Table(HeldIn(m.products, key.id));
            ServedAll(table, MessageRequests(m, false), key) == shown + Outdated(table, shown)
  {
    hide ServedAll, Table, Outdated, DistinctHoldings;
    ServiceRowsServed(table, m.domain, m.services, key);
    RowsServed(table, m.domain, m.products, key);
    ServedBoth(table, RowRequests(m.domain, m.services, Service), RowRequests(m.domain, m.products, Data), key);
  }

  // ----- changes

  /** What a change leaves of the remnant: a registration that is not older takes its entry over, and an unregistration
      in its second removes it. */
  function Answered(left: map<string, nat>, request: Request, key: Key): map<string, nat> {
    match request
    case Lookup(_, _, _) => left
    case Register(r) =>
      if r.kind.Data? && r.domain == Some(key.domain) && r.id == key.id && r.timestamp.Some?
         && r.url in left && left[r.url] <= r.timestamp.value
      then left - {r.url} else left
    case Unregister(_) => Served(left, request, key)
  }

  /** The remnant is later than the picture wherever both know a URL. */
  predicate Beyond(left: map<string, nat>, shown: map<string, nat>) {
    forall url | url in left && url in shown :: shown[url] < left[url]
  }

  /** A registration is not older than the picture's entry for its URL. */
  predicate Renews(shown: map<string, nat>, request: Request, key: Key) {
    (request.Register? && request.reg.kind.Data? && request.reg.domain == Some(key.domain)
     && request.reg.id == key.id) ==>
      request.reg.timestamp.Some?
      && (request.reg.url in shown ==> shown[request.reg.url] <= request.reg.timestamp.value)
  }

  /** After the unregistration its URL is not shown. */
  predicate Clears(shown: map<string, nat>, request: Request, key: Key) {
    (request.Unregister? && request.unreg.kind.Data? && request.unreg.domain == Some(key.domain)
     && request.unreg.id == key.id) ==> request.unreg.url !in shown
  }

  /** A change that is timely for the picture has the same effect on picture and remnant together. */
  lemma ChangeServed(shown: map<string, nat>, left: map<string, nat>, request: Request, key: Key)
    requires Beyond(left, shown) && Renews(shown, request, key) && Clears(Served(shown, request, key), request, key)
    ensures Served(shown + left, request, key) == Served(shown, request, key) + Answered(left, request, key)
    ensures Beyond(Answered(left, request, key), Served(shown, request, key))
  {
    hide Seconds;
    match request
    case Lookup(_, _, _) =>
    case Register(r) => RegistrationServed(shown, left, request, key);
    case Unregister(u) => WithdrawalServed(shown, left, request, key);
  }

  lemma RegistrationServed(shown: map<string, nat>, left: map<string, nat>, request: Request, key: Key)
    requires request.Register? && Beyond(left, shown) && Renews(shown, request, key)
    ensures Served(shown + left, request, key) == Served(shown, request, key) + Answered(left, request, key)
    ensures Beyond(Answered(left, request, key), Served(shown, request, key))
  {}

  lemma WithdrawalServed(shown: map<string, nat>, left: map<string, nat>, request: Request, key: Key)
    requires request.Unregister? && Beyond(left, shown) && Clears(Served(shown, request, key), request, key)
    ensures Served(shown + left, request, key) == Served(shown, request, key) + Answered(left, request, key)
    ensures Beyond(Answered(left, request, key), Served(shown, request, key))
  {
    hide Seconds;
  }

  // ----- the source's stream

  /** No withdrawal shows the URL it withdraws. */
  ghost predicate Withdrawn(details: seq<Details>, key: Key) {
    forall i | 0 <= i < |details| ::
      Clears(Table(HeldIn(details[i].products, key.id)), ChangeRequest(details[i].domain, details[i].change), key)
  }

  /** A broadcast withdrawal has been found and carried out. */
  lemma WithdrawalIsDone(owners: Owners, st: State, u: Unregistration, key: Key)
    requires Timed(owners, st) && Obeys(owners, st.domain, Unregister(u)) && Found(st, u)
    requires u.kind.Data? && key == Key(u.domain.Or(st.domain), u.id)
    ensures u.url !in Table(Holdings(Step(st, Unregister(u)), key))
  {
    var held := Holdings(st, key);
    StepHoldings(owners, st, Unregister(u), key);
    UnregisterKept(owners, st, u, key);
    HoldingsDistinct(owners, st, key);
    TableRelease(held, u.url, u.regTime);
    TableAt(held, u.url);
    PositionIsFind(st, key, u.url);
    HoldingsAt(st, key);
    var k := Find(st.Listed(key), u.url);
    TimedList(owners, st, key);
    assert InTime(owners, st, key, st.Listed(key)[k]);
    hide Timed, Step, Found, Holdings, Table, Release, Find, FindInstance, DistinctHoldings,
        DistinctUrls, Seconds, Position;
  }

  lemma StepStaysWithdrawn(owners: Owners, st: State, request: Request, key: Key)
    requires Timed(owners, st) && Obeys(owners, st.domain, request)
    requires key.domain == st.domain && key.id != REGISTERED_PUBLISHERS && Withdrawn(st.details, key)
    ensures Withdrawn(Step(st, request).details, key)
  {
    hide Timed, Step, Holdings, Table, HeldIn, Broadcasts, Means, Found, Known, Stale;
    var st' := Step(st, request);
    StepFollows(owners, st, request, key.id);
    FollowedDetails(owners, st, st', key.id);
    HoldingsDistinct(owners, st, key);
    if st'.details != st.details {
      NewWithdrawal(owners, st, request, key);
    }
  }

  lemma NewWithdrawal(owners: Owners, st: State, request: Request, key: Key)
    requires Timed(owners, st) && Obeys(owners, st.domain, request)
    requires key.domain == st.domain && key.id != REGISTERED_PUBLISHERS && Step(st, request).details != st.details
    ensures var st' := Step(st, request);
            |st'.details| == |st.details| + 1
            && var m := st'.details[|st.details|];
               Clears(Table(HeldIn(m.products, key.id)), ChangeRequest(m.domain, m.change), key)
  {
    hide Timed, Step, Holdings, Table, HeldIn, Pictures, Found, Known, Stale, Effect, Timely;
    var st' := Step(st, request);
    StepFollows(owners, st, request, key.id);
    HoldingsDistinct(owners, st, key);
    NewMessageIsGood(owners, st, st', key);
    var m := st'.details[|st.details|];
    WhatIsBroadcast(owners, st, request);
    if request.Unregister? && request.unreg.kind.Data? && m.change.id == key.id {
      WithdrawalIsDone(owners, st, request.unreg, key);
    }
  }

  lemma WhatIsBroadcast(owners: Owners, st: State, request: Request)
    requires Timed(owners, st) && Obeys(owners, st.domain, request) && Step(st, request).details != st.details
    ensures var st' := Step(st, request);
            |st'.details| > 0 && Means(st, request, LastChange(st')) && st'.domain == st.domain
            && st'.details[|st'.details| - 1].domain == st.domain
    ensures request.Unregister? ==> request.unreg.domain.Or(st.domain) == st.domain && Found(st, request.unreg)
  {
    hide Timed, Step, Found, Means, Stale, Known, Broadcasts;
    match request
    case Lookup(_, _, _) => LookupIsQuiet(st, request);
    case Unregister(u) =>
      UnregisterBroadcasts(owners, st, u);
      BroadcastShows(owners, st, Step(st, request));
    case Register(r) =>
      if Stale(st, r) {
        StaleIsQuiet(st, r);
      } else {
        RegisterBroadcasts(owners, st, r);
        BroadcastShows(owners, st, Step(st, request));
      }
  }

  lemma LookupIsQuiet(st: State, request: Request)
    requires request.Lookup?
    ensures Step(st, request).details == st.details
  {
    hide BacklogUpdates, Ascending;
  }

  lemma StaleIsQuiet(st: State, r: Registration)
    requires Stale(st, r)
    ensures Step(st, Register(r)).details == st.details
  {
    hide BacklogUpdates, Ascending, Stale, RegisterData, RegisterService;
  }

  lemma BroadcastShows(owners: Owners, st: State, st': State)
    requires Broadcasts(owners, st, st')
    ensures |st'.details| > 0 && st'.details[|st'.details| - 1].domain == st'.domain
  {
    hide Holdings, HeldIn;
  }
}
