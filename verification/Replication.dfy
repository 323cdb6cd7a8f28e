/** A remote directory that replays the broadcast of another one ends up with the same publishers. */
module Replication {
  import opened Common
  import opened Directory
  import opened DirectoryTimes
  import opened DirectoryHoldings
  import opened DirectoryBroadcast

  // ----- what the synchronizer makes of a message

  function RowRequest(domain: string, row: Row, kind: Kind): Request {
    Register(Registration(row.id, row.url, kind, Some(domain), Some(row.timestamp), Some(row.componentId), None, None))
  }

  function RowRequests(domain: string, rows: seq<Row>, kind: Kind): seq<Request> {
    if rows == [] then []
    else RowRequests(domain, rows[..|rows| - 1], kind) + [RowRequest(domain, rows[|rows| - 1], kind)]
  }

  /** The first message of a domain is replayed as a whole, a later one only as its change. */
  function MessageRequests(m: Details, initialized: bool): seq<Request> {
    if initialized then [ChangeRequest(m.domain, m.change)]
    else RowRequests(m.domain, m.services, Service) + RowRequests(m.domain, m.products, Data)
  }

  lemma {:induction false} RowsAreRegistered(domain: string, rows: seq<Row>, kind: Kind, i: nat)
    ensures |RowRequests(domain, rows, kind)| == |rows|
    ensures i < |rows| ==> RowRequests(domain, rows, kind)[i] == RowRequest(domain, rows[i], kind)
  {
    if rows != [] { RowsAreRegistered(domain, rows[..|rows| - 1], kind, i); }
  }

  /** The first message registers every row it shows under the domain, services first, and a later one makes the one
      change it reports, each with the URL, the time and the component it names. */
  lemma MessagesAreReplayed(m: Details, i: nat)
    ensures var requests, rows := MessageRequests(m, false), m.services + m.products;
            |requests| == |rows| &&
            (i < |rows| ==>
               requests[i].Register?
               && var r := requests[i].reg;
                  r.id == rows[i].id && r.url == rows[i].url && r.domain == Some(m.domain)
                  && r.timestamp == Some(rows[i].timestamp) && r.componentId == Some(rows[i].componentId)
                  && r.kind == if i < |m.services| then Service else Data)
    ensures |MessageRequests(m, true)| == 1 && m.change.added == MessageRequests(m, true)[0].Register?
    ensures m.change.added ==>
              var r := MessageRequests(m, true)[0].reg;
              r.id == m.change.id && r.url == m.change.url && r.kind == m.change.kind && r.domain == Some(m.domain)
              && r.timestamp == Some(m.change.timestamp) && r.componentId == Some(m.change.componentId)
    ensures !m.change.added ==>
              MessageRequests(m, true)[0].Unregister?
              && var u := MessageRequests(m, true)[0].unreg;
                 u.id == m.change.id && u.url == m.change.url && u.kind == m.change.kind && u.domain == Some(m.domain)
                 && u.regTime == m.change.timestamp / 1000000
  {
    hide RowRequests;
    RowsAreRegistered(m.domain, m.services, Service, i);
    RowsAreRegistered(m.domain, m.products, Data, if i < |m.services| then 0 else i - |m.services|);
  }

  // ----- two directories and the synchronizer between them

  datatype Link = Link(source: State, replica: State, initialized: bool, cursor: nat, queue: seq<Request>)

  datatype Action =
    | SourceServes(request: Request)
    | ReplicaServes(request: Request)
    | Miss       // a message sent before the synchronizer subscribed
    | Deliver    // the next message arrives
    | Redeliver  // the publisher sends its cached last message again because somebody has subscribed
    | Apply      // the replica serves the next queued request

  function Start(source: string, replica: string): Link {
    Link(Fresh(source), Fresh(replica), false, 0, [])
  }

  function Next(link: Link, action: Action): Link {
    match action
    case SourceServes(request) => link.(source := Step(link.source, request))
    case ReplicaServes(request) => link.(replica := Step(link.replica, request))
    case Miss =>
      if !link.initialized && link.cursor < |link.source.details| then link.(cursor := link.cursor + 1) else link
    case Deliver =>
      if link.cursor < |link.source.details| then
        link.(initialized := true, cursor := link.cursor + 1,
              queue := link.queue + MessageRequests(link.source.details[link.cursor], link.initialized))
      else link
    case Redeliver =>
      if 0 < link.cursor <= |link.source.details| then
        link.(initialized := true,
              queue := link.queue + MessageRequests(link.source.details[link.cursor - 1], link.initialized))
      else link
    case Apply =>
      if link.queue == [] then link
      else link.(replica := Step(link.replica, link.queue[0]), queue := link.queue[1..])
  }

  function Play(link: Link, actions: seq<Action>): Link {
    if actions == [] then link
    else Next(Play(link, actions[..|actions| - 1]), actions[|actions| - 1])
  }

  /** No URL is shared, and nobody but the synchronizer speaks to the replica about products of the source domain. */
  predicate Proper(owners: Owners, source: string, replica: string, action: Action) {
    match action
    case SourceServes(request) => Obeys(owners, source, request)
    case ReplicaServes(request) =>
      Obeys(owners, replica, request) &&
      (match request
       case Register(r) => r.kind.Data? ==> r.domain.Or(replica) != source
       case Unregister(u) => u.kind.Data? ==> u.domain.Or(replica) != source
       case Lookup(_, _, _) => true)
    case Miss => true
    case Deliver => true
    case Redeliver => true
    case Apply => true
  }

  // ----- the effect of a queue

  predicate Named(request: Request) {
    match request
    case Register(r) => r.domain.Some?
    case Unregister(u) => u.domain.Some?
    case Lookup(_, _, _) => true
  }

  function Replayed(held: seq<Holding>, queue: seq<Request>, key: Key): seq<Holding> {
    if queue == [] then held
    else Effect(Replayed(held, queue[..|queue| - 1], key), queue[|queue| - 1], key.domain, key)
  }

  predicate AllTimely(held: seq<Holding>, queue: seq<Request>, key: Key) {
    queue == [] ||
    (AllTimely(held, queue[..|queue| - 1], key)
     && Timely(Replayed(held, queue[..|queue| - 1], key), queue[|queue| - 1], key.domain, key))
  }

  lemma {:induction false} ReplayedBoth(held: seq<Holding>, a: seq<Request>, b: seq<Request>, key: Key)
    ensures Replayed(held, a + b, key) == Replayed(Replayed(held, a, key), b, key)
    ensures AllTimely(held, a + b, key) <==> AllTimely(held, a, key) && AllTimely(Replayed(held, a, key), b, key)
  {
    if b == [] {
      assert a + b == a;
    } else {
      assert (a + b)[..|a + b| - 1] == a + b[..|b| - 1];
      ReplayedBoth(held, a, b[..|b| - 1], key);
    }
  }

  lemma ReplayedOne(held: seq<Holding>, request: Request, key: Key)
    ensures Replayed(held, [request], key) == Effect(held, request, key.domain, key)
    ensures AllTimely(held, [request], key) <==> Timely(held, request, key.domain, key)
  {
    assert Replayed(held, [request][..0], key) == held;
  }

  lemma PositionAtEnd(held: seq<Holding>, h: Holding)
    requires DistinctHoldings(held + [h])
    ensures Position(held, h.url) == |held|
  {
    assert (held + [h])[|held|] == h;
    assert forall i | 0 <= i < |held| :: (held + [h])[i] == held[i];
  }

  lemma {:induction false} RowsReplayed(domain: string, rows: seq<Row>, kind: Kind, key: Key)
    requires kind.Data? && key.domain == domain && DistinctHoldings(HeldIn(rows, key.id))
    ensures Replayed([], RowRequests(domain, rows, kind), key) == HeldIn(rows, key.id)
    ensures AllTimely([], RowRequests(domain, rows, kind), key)
  {
    if rows != [] {
      var last := |rows| - 1;
      var requests := RowRequests(domain, rows[..last], kind);
      var held := HeldIn(rows[..last], key.id);
      assert RowRequests(domain, rows, kind)[..|requests|] == requests;
      if rows[last].id == key.id {
        assert forall i | 0 <= i < |held| :: HeldIn(rows, key.id)[i] == held[i];
        PositionAtEnd(held, Holding(rows[last].url, rows[last].timestamp));
      }
      RowsReplayed(domain, rows[..last], kind, key);
    }
  }

  lemma {:induction false} ServiceRowsReplayed(domain: string, rows: seq<Row>, key: Key)
    ensures Replayed([], RowRequests(domain, rows, Service), key) == []
    ensures AllTimely([], RowRequests(domain, rows, Service), key)
  {
    if rows != [] {
      var requests := RowRequests(domain, rows[..|rows| - 1], Service);
      assert RowRequests(domain, rows, Service)[..|requests|] == requests;
      ServiceRowsReplayed(domain, rows[..|rows| - 1], key);
    }
  }

  lemma SnapshotReplayed(m: Details, key: Key)
    requires m.domain == key.domain && DistinctHoldings(HeldIn(m.products, key.id))
    ensures Replayed([], MessageRequests(m, false), key) == HeldIn(m.products, key.id)
    ensures AllTimely([], MessageRequests(m, false), key)
  {
    ServiceRowsReplayed(m.domain, m.services, key);
    RowsReplayed(m.domain, m.products, Data, key);
    ReplayedBoth([], RowRequests(m.domain, m.services, Service), RowRequests(m.domain, m.products, Data), key);
  }

  lemma PositionIs(held: seq<Holding>, k: nat)
    requires DistinctHoldings(held) && k < |held|
    ensures Position(held, held[k].url) == k
  {
    var p := Position(held, held[k].url);
    assert !(k < p) && held[p].url == held[k].url;
  }

  lemma TakeSettles(held: seq<Holding>, url: string, timestamp: nat)
    requires DistinctHoldings(held)
    ensures var held' := Take(held, url, timestamp);
            DistinctHoldings(held') && Take(held', url, timestamp) == held'
            && Position(held', url) < |held'| && held'[Position(held', url)].timestamp == timestamp
  {
    var held' := Take(held, url, timestamp);
    var k := Position(held, url);
    assert DistinctHoldings(held');
    assert held'[k] == Holding(url, timestamp);
    PositionIs(held', k);
    hide Position;
  }

  lemma ReleaseSettles(held: seq<Holding>, url: string, regTime: nat)
    requires DistinctHoldings(held)
    ensures var held' := Release(held, url, regTime);
            DistinctHoldings(held') && Release(held', url, regTime) == held'
  {
    var held' := Release(held, url, regTime);
    if held' != held {
      assert forall i | 0 <= i < |held'| :: held'[i].url != url;
      assert Position(held', url) == |held'|;
    }
  }

  /** Having an effect twice changes nothing more. */
  lemma EffectSettles(held: seq<Holding>, request: Request, domain: string, key: Key)
    requires DistinctHoldings(held) && Timely(held, request, domain, key)
    ensures var held' := Effect(held, request, domain, key);
            DistinctHoldings(held') && Effect(held', request, domain, key) == held'
                && Timely(held', request, domain, key)
  {
    match request
    case Lookup(_, _, _) =>
    case Register(r) =>
      if r.timestamp.Some? { TakeSettles(held, r.url, r.timestamp.value); }
      hide Take, DistinctHoldings, Position;
    case Unregister(u) =>
      ReleaseSettles(held, u.url, u.regTime);
      hide Release, DistinctHoldings;
  }

  // ----- the source's stream

  predicate GoodMessage(owners: Owners, m: Details, key: Key) {
    var request := ChangeRequest(m.domain, m.change);
    var held := HeldIn(m.products, key.id);
    && m.domain == key.domain
    && (forall i | 0 <= i < |m.products| :: owners(m.products[i].url) == Owner(Key(m.domain, m.products[i].id), Data))
    && (forall i | 0 <= i < |m.services| ::
          owners(m.services[i].url) == Owner(Key(m.domain, m.services[i].id), Service))
    && Obeys(owners, m.domain, request)
    && DistinctHoldings(held)
    && Timely(held, request, key.domain, key)
    && Effect(held, request, key.domain, key) == held
  }

  /** The change of message m leads from the picture in message l to its own. */
  predicate Linked(l: Details, m: Details, key: Key) {
    var request := ChangeRequest(m.domain, m.change);
    && Timely(HeldIn(l.products, key.id), request, key.domain, key)
    && HeldIn(m.products, key.id) == Effect(HeldIn(l.products, key.id), request, key.domain, key)
  }

  ghost predicate GoodDetails(owners: Owners, details: seq<Details>, key: Key) {
    && (forall i | 0 <= i < |details| :: GoodMessage(owners, details[i], key))
    && (forall i | 1 <= i < |details| :: Linked(details[i - 1], details[i], key))
  }

  ghost predicate GoodStream(owners: Owners, st: State, key: Key) {
    && GoodDetails(owners, st.details, key)
    && (st.details != [] ==> HeldIn(st.details[|st.details| - 1].products, key.id) == Holdings(st, key))
  }

  lemma ExtendGood(owners: Owners, details: seq<Details>, m: Details, key: Key)
    requires GoodDetails(owners, details, key) && GoodMessage(owners, m, key)
    requires details != [] ==> Linked(details[|details| - 1], m, key)
    ensures GoodDetails(owners, details + [m], key)
  {
    hide GoodMessage, Linked;
  }

  lemma HoldingsDistinct(owners: Owners, st: State, key: Key)
    requires Timed(owners, st)
    ensures DistinctHoldings(Holdings(st, key))
  {
    hide Timed, Holdings;
    HoldingsAt(st, key);
    TimedList(owners, st, key);
  }

  lemma NewMessageIsGood(owners: Owners, st: State, st': State, key: Key)
    requires Follows(owners, st, st', key.id) && st'.details != st.details
    requires key == st.Own(key.id) && st'.domain == st.domain && DistinctHoldings(Holdings(st, key))
    ensures var m := st'.details[|st'.details| - 1];
            st'.details == st.details + [m] && GoodMessage(owners, m, key)
            && HeldIn(m.products, key.id) == Holdings(st', key)
            && Timely(Holdings(st, key), ChangeRequest(m.domain, m.change), key.domain, key)
            && Holdings(st', key) == Effect(Holdings(st, key), ChangeRequest(m.domain, m.change), key.domain, key)
  {
    var m := st'.details[|st.details|];
    var request := ChangeRequest(st.domain, m.change);
    assert m.domain == st.domain && LastChange(st') == m.change;
    assert HeldIn(m.products, key.id) == Holdings(st', st'.Own(key.id));
    EffectSettles(Holdings(st, key), request, key.domain, key);
    hide Holdings, HeldIn, Effect, Timely, DistinctHoldings;
    assert Timely(Holdings(st, key), request, key.domain, key);
    assert st'.details == st.details + [m];
  }

  lemma StreamStaysGood(owners: Owners, st: State, request: Request, key: Key)
    requires Timed(owners, st) && Obeys(owners, st.domain, request)
    requires key.domain == st.domain && key.id != REGISTERED_PUBLISHERS && GoodStream(owners, st, key)
    ensures GoodStream(owners, Step(st, request), key)
  {
    hide Step, Timed, Holdings, HeldIn, GoodDetails, GoodMessage, Linked, Effect, Timely, Follows, Obeys;
    var st' := Step(st, request);
    StepFollows(owners, st, request, key.id);
    FollowedDetails(owners, st, st', key.id);
    HoldingsDistinct(owners, st, key);
    assert key == st.Own(key.id);
    if st'.details != st.details {
      NewMessageIsGood(owners, st, st', key);
      var m := st'.details[|st'.details| - 1];
      if st.details != [] { NowLinked(st.details[|st.details| - 1], m, Holdings(st, key), Holdings(st', key), key); }
      ExtendGood(owners, st.details, m, key);
    }
  }

  lemma FollowedDetails(owners: Owners, st: State, st': State, id: string)
    requires Follows(owners, st, st', id) && st'.domain == st.domain
    ensures st.details <= st'.details
    ensures st'.details == st.details ==> Holdings(st', st.Own(id)) == Holdings(st, st.Own(id))
  {
    hide Holdings, Effect, Timely, Pictures;
  }

  lemma NowLinked(l: Details, m: Details, before: seq<Holding>, after: seq<Holding>, key: Key)
    requires HeldIn(l.products, key.id) == before && HeldIn(m.products, key.id) == after
    requires Timely(before, ChangeRequest(m.domain, m.change), key.domain, key)
    requires after == Effect(before, ChangeRequest(m.domain, m.change), key.domain, key)
    ensures Linked(l, m, key)
  {
    hide HeldIn, Effect, Timely;
  }

  // ----- keeping in step

  ghost predicate GoodQueue(owners: Owners, replica: string, queue: seq<Request>) {
    forall i | 0 <= i < |queue| :: Named(queue[i]) && Obeys(owners, replica, queue[i])
  }

  ghost predicate Grounded(owners: Owners, link: Link, key: Key) {
    && Timed(owners, link.source) && Timed(owners, link.replica)
    && link.source.domain == key.domain != link.replica.domain
    && GoodStream(owners, link.source, key)
    && GoodQueue(owners, link.replica.domain, link.queue)
    && link.cursor <= |link.source.details|
  }

  /** Serving the queue turns the replica's holdings into those shown by the last message delivered. */
  predicate Pending(link: Link, key: Key)
    requires link.cursor <= |link.source.details|
  {
    var held := Holdings(link.replica, key);
    if link.initialized then
      && 0 < link.cursor
      && AllTimely(held, link.queue, key)
      && Replayed(held, link.queue, key) == HeldIn(link.source.details[link.cursor - 1].products, key.id)
    else link.queue == [] && held == []
  }

  ghost predicate InStep(owners: Owners, link: Link, key: Key) {
    Grounded(owners, link, key) && Pending(link, key)
  }

  lemma NamedEffect(held: seq<Holding>, request: Request, a: string, b: string, key: Key)
    requires Named(request)
    ensures Effect(held, request, a, key) == Effect(held, request, b, key)
  {}

  lemma TimelyIsFresh(owners: Owners, st: State, r: Registration, key: Key)
    requires Timed(owners, st) && Obeys(owners, st.domain, Register(r))
    requires r.kind.Data? && key == Key(r.domain.Or(st.domain), r.id)
    requires Timely(Holdings(st, key), Register(r), st.domain, key)
    ensures !Stale(st, r)
  {
    var held := Holdings(st, key);
    HoldingsAt(st, key);
    if r.url in st.instances {
      assert Lists(st.Listed(key), r.url);
      var i :| 0 <= i < |st.Listed(key)| && st.Listed(key)[i].Url() == r.url;
      assert held[i].url == r.url;
      assert Position(held, r.url) < |held|;
      hide Timed, Holdings, Position;
    }
  }

  lemma ApplyHasEffect(owners: Owners, st: State, request: Request, key: Key)
    requires Timed(owners, st) && Obeys(owners, st.domain, request) && Named(request)
    requires Timely(Holdings(st, key), request, key.domain, key)
    ensures Holdings(Step(st, request), key) == Effect(Holdings(st, key), request, key.domain, key)
  {
    StepHoldings(owners, st, request, key);
    NamedEffect(Holdings(st, key), request, st.domain, key.domain, key);
    if request.Register? && request.reg.kind.Data? && key == Key(request.reg.domain.value, request.reg.id) {
      TimelyIsFresh(owners, st, request.reg, key);
    }
    hide Timed, Step, Stale, Holdings, Take, Release;
  }

  lemma ReplayedFirst(held: seq<Holding>, queue: seq<Request>, key: Key)
    requires queue != [] && AllTimely(held, queue, key)
    ensures Timely(held, queue[0], key.domain, key)
    ensures AllTimely(Effect(held, queue[0], key.domain, key), queue[1..], key)
    ensures Replayed(Effect(held, queue[0], key.domain, key), queue[1..], key) == Replayed(held, queue, key)
  {
    assert queue == [queue[0]] + queue[1..];
    ReplayedBoth(held, [queue[0]], queue[1..], key);
    ReplayedOne(held, queue[0], key);
    hide Replayed, AllTimely, Effect, Timely;
  }

  lemma QueueParts(owners: Owners, replica: string, a: seq<Request>, b: seq<Request>)
    ensures GoodQueue(owners, replica, a + b) <==> GoodQueue(owners, replica, a) && GoodQueue(owners, replica, b)
  {
    hide Named, Obeys;
    if GoodQueue(owners, replica, a + b) {
      assert forall i | 0 <= i < |a| :: a[i] == (a + b)[i];
      assert forall i | 0 <= i < |b| :: b[i] == (a + b)[|a| + i];
    }
  }

  lemma Parts(owners: Owners, link: Link, key: Key)
    requires InStep(owners, link, key)
    ensures Timed(owners, link.source) && Timed(owners, link.replica)
    ensures link.source.domain == key.domain != link.replica.domain
    ensures GoodStream(owners, link.source, key) && GoodQueue(owners, link.replica.domain, link.queue)
    ensures link.cursor <= |link.source.details| && Pending(link, key)
  {
    hide Timed, GoodStream, GoodQueue, Pending;
  }

  lemma MessageAt(owners: Owners, st: State, key: Key, i: nat)
    requires GoodStream(owners, st, key) && i < |st.details|
    ensures GoodMessage(owners, st.details[i], key)
    ensures i > 0 ==> Linked(st.details[i - 1], st.details[i], key)
  {
    hide GoodMessage, Linked, Holdings, HeldIn;
  }

  lemma QueueTail(owners: Owners, replica: string, queue: seq<Request>)
    requires GoodQueue(owners, replica, queue) && queue != []
    ensures Named(queue[0]) && Obeys(owners, replica, queue[0]) && GoodQueue(owners, replica, queue[1..])
  {
    hide Named, Obeys;
  }

  lemma ApplyKeepsStep(owners: Owners, link: Link, key: Key)
    requires InStep(owners, link, key) && link.queue != []
    ensures InStep(owners, Next(link, Apply), key)
  {
    hide InStep, Timed, Step, Holdings, GoodStream, GoodQueue, HeldIn, AllTimely,
        Replayed, Effect, Timely, Named, Obeys;
    var first, rest := link.queue[0], link.queue[1..];
    Parts(owners, link, key);
    QueueTail(owners, link.replica.domain, link.queue);
    assert link.initialized;
    ReplayedFirst(Holdings(link.replica, key), link.queue, key);
    ApplyHasEffect(owners, link.replica, first, key);
    StepKeepsTimed(owners, link.replica, first);
    Applied(owners, link, Step(link.replica, first), key);
  }

  lemma Applied(owners: Owners, link: Link, replica: State, key: Key)
    requires InStep(owners, link, key) && link.queue != [] && link.initialized
    requires Timed(owners, replica) && replica.domain == link.replica.domain
    requires GoodQueue(owners, replica.domain, link.queue[1..])
    requires AllTimely(Holdings(replica, key), link.queue[1..], key)
    requires Replayed(Holdings(replica, key), link.queue[1..], key) ==
             Replayed(Holdings(link.replica, key), link.queue, key)
    ensures InStep(owners, link.(replica := replica, queue := link.queue[1..]), key)
  {
    hide Timed, Holdings, GoodStream, GoodQueue, HeldIn, AllTimely, Replayed;
  }

  lemma {:induction false} RowRequestsObey(owners: Owners, domain: string, rows: seq<Row>, kind: Kind, replica: string)
    requires forall i | 0 <= i < |rows| :: owners(rows[i].url) == Owner(Key(domain, rows[i].id), kind)
    ensures GoodQueue(owners, replica, RowRequests(domain, rows, kind))
  {
    if rows != [] {
      RowRequestsObey(owners, domain, rows[..|rows| - 1], kind, replica);
    }
  }

  lemma MessageObeys(owners: Owners, m: Details, initialized: bool, replica: string, key: Key)
    requires GoodMessage(owners, m, key)
    ensures GoodQueue(owners, replica, MessageRequests(m, initialized))
  {
    hide Effect, Timely, HeldIn, DistinctHoldings;
    if !initialized {
      RowRequestsObey(owners, m.domain, m.services, Service, replica);
      RowRequestsObey(owners, m.domain, m.products, Data, replica);
    }
  }

  /** A longer queue keeps the link in step when it leads to the last message delivered. */
  lemma QueuedInStep(owners: Owners, link: Link, cursor: nat, queue: seq<Request>, key: Key)
    requires InStep(owners, link, key) && GoodQueue(owners, link.replica.domain, queue)
    requires 0 < cursor <= |link.source.details|
    requires AllTimely(Holdings(link.replica, key), queue, key)
    requires Replayed(Holdings(link.replica, key), queue, key) ==
             HeldIn(link.source.details[cursor - 1].products, key.id)
    ensures InStep(owners, link.(initialized := true, cursor := cursor, queue := queue), key)
  {
    hide Timed, Holdings, HeldIn, Replayed, AllTimely, GoodStream, GoodQueue;
  }

  lemma SnapshotIsGood(owners: Owners, link: Link, m: Details, key: Key)
    requires InStep(owners, link, key) && !link.initialized && GoodMessage(owners, m, key)
    ensures var queue := link.queue + MessageRequests(m, false);
            GoodQueue(owners, link.replica.domain, queue)
            && AllTimely(Holdings(link.replica, key), queue, key)
            && Replayed(Holdings(link.replica, key), queue, key) == HeldIn(m.products, key.id)
  {
    hide InStep, Timed, GoodStream, Holdings, HeldIn, Replayed, AllTimely, GoodQueue, MessageRequests, GoodMessage;
    Parts(owners, link, key);
    MessageObeys(owners, m, false, link.replica.domain, key);
    GoodHeld(owners, m, key);
    SnapshotReplayed(m, key);
    assert link.queue == [] && Holdings(link.replica, key) == [];
    assert link.queue + MessageRequests(m, false) == MessageRequests(m, false);
  }

  lemma GoodHeld(owners: Owners, m: Details, key: Key)
    requires GoodMessage(owners, m, key)
    ensures m.domain == key.domain && DistinctHoldings(HeldIn(m.products, key.id))
  {
    hide HeldIn, DistinctHoldings;
  }

  lemma SnapshotKeepsStep(owners: Owners, link: Link, key: Key)
    requires InStep(owners, link, key) && link.cursor < |link.source.details| && !link.initialized
    ensures InStep(owners, Next(link, Deliver), key)
  {
    hide InStep, Timed, Holdings, HeldIn, Replayed, AllTimely, GoodStream, GoodQueue,
        GoodMessage, MessageRequests, Grounded;
    var m := link.source.details[link.cursor];
    Parts(owners, link, key);
    MessageAt(owners, link.source, key, link.cursor);
    SnapshotIsGood(owners, link, m, key);
    QueuedInStep(owners, link, link.cursor + 1, link.queue + MessageRequests(m, false), key);
  }

  /** The queue may always be followed by a request that is timely when its turn comes. */
  lemma QueueOneMore(owners: Owners, link: Link, m: Details, key: Key)
    requires InStep(owners, link, key) && link.initialized && GoodMessage(owners, m, key)
    requires var held := HeldIn(link.source.details[link.cursor - 1].products, key.id);
             Timely(held, ChangeRequest(m.domain, m.change), key.domain, key)
             && Effect(held, ChangeRequest(m.domain, m.change), key.domain, key) == HeldIn(m.products, key.id)
    ensures var queue := link.queue + MessageRequests(m, true);
            GoodQueue(owners, link.replica.domain, queue)
            && AllTimely(Holdings(link.replica, key), queue, key)
            && Replayed(Holdings(link.replica, key), queue, key) == HeldIn(m.products, key.id)
  {
    var held := Holdings(link.replica, key);
    MessageObeys(owners, m, true, link.replica.domain, key);
    QueueParts(owners, link.replica.domain, link.queue, MessageRequests(m, true));
    ReplayedOne(Replayed(held, link.queue, key), ChangeRequest(m.domain, m.change), key);
    ReplayedBoth(held, link.queue, MessageRequests(m, true), key);
    hide Timed, Holdings, HeldIn, Effect, Timely, GoodQueue, GoodStream, GoodMessage,
        Replayed, AllTimely, ChangeRequest;
  }

  lemma ChangeKeepsStep(owners: Owners, link: Link, key: Key)
    requires InStep(owners, link, key) && link.cursor < |link.source.details| && link.initialized
    ensures InStep(owners, Next(link, Deliver), key)
  {
    hide InStep, Timed, Holdings, HeldIn, Replayed, AllTimely, GoodStream, GoodQueue,
        GoodMessage, MessageRequests, Grounded, Timely,
      Effect;
    var m := link.source.details[link.cursor];
    Parts(owners, link, key);
    MessageAt(owners, link.source, key, link.cursor);
    QueueOneMore(owners, link, m, key);
    QueuedInStep(owners, link, link.cursor + 1, link.queue + MessageRequests(m, true), key);
  }

  lemma RedeliverKeepsStep(owners: Owners, link: Link, key: Key)
    requires InStep(owners, link, key) && link.initialized
    ensures InStep(owners, Next(link, Redeliver), key)
  {
    hide InStep, Timed, Holdings, HeldIn, Replayed, AllTimely, GoodStream, GoodQueue,
        MessageRequests, Grounded, Timely, Effect,
      Obeys, DistinctHoldings;
    Parts(owners, link, key);
    assert 0 < link.cursor;
    var m := link.source.details[link.cursor - 1];
    MessageAt(owners, link.source, key, link.cursor - 1);
    QueueOneMore(owners, link, m, key);
    QueuedInStep(owners, link, link.cursor, link.queue + MessageRequests(m, true), key);
    assert link.(initialized := true, cursor := link.cursor) == link;
  }

  /** The cached message may also be the first one to arrive. */
  lemma CachedKeepsStep(owners: Owners, link: Link, key: Key)
    requires InStep(owners, link, key) && !link.initialized && 0 < link.cursor
    ensures InStep(owners, Next(link, Redeliver), key)
  {
    hide InStep, Timed, Holdings, HeldIn, Replayed, AllTimely, GoodStream, GoodQueue, GoodMessage, MessageRequests,
      Grounded;
    Parts(owners, link, key);
    var m := link.source.details[link.cursor - 1];
    MessageAt(owners, link.source, key, link.cursor - 1);
    SnapshotIsGood(owners, link, m, key);
    QueuedInStep(owners, link, link.cursor, link.queue + MessageRequests(m, false), key);
  }

  lemma SourceKeepsStep(owners: Owners, link: Link, request: Request, key: Key)
    requires InStep(owners, link, key) && Obeys(owners, link.source.domain, request) && key.id != REGISTERED_PUBLISHERS
    ensures InStep(owners, Next(link, SourceServes(request)), key)
  {
    hide Timed, Step, Holdings, HeldIn, GoodStream, Replayed, AllTimely, Effect,
        Timely, Pictures, GoodQueue, Follows, Obeys;
    StepKeepsTimed(owners, link.source, request);
    StreamStaysGood(owners, link.source, request, key);
    StepFollows(owners, link.source, request, key.id);
    FollowedDetails(owners, link.source, Step(link.source, request), key.id);
    assert link.source.details <= Step(link.source, request).details;
  }

  lemma ReplicaKeepsStep(owners: Owners, link: Link, request: Request, key: Key)
    requires InStep(owners, link, key)
    requires Proper(owners, link.source.domain, link.replica.domain, ReplicaServes(request))
    ensures InStep(owners, Next(link, ReplicaServes(request)), key)
  {
    hide Timed, Step, Holdings, HeldIn, GoodStream, Replayed, AllTimely, Take, Release, Stale, GoodQueue;
    StepKeepsTimed(owners, link.replica, request);
    StepHoldings(owners, link.replica, request, key);
  }

  lemma NextKeepsStep(owners: Owners, link: Link, action: Action, key: Key)
    requires InStep(owners, link, key) && key.id != REGISTERED_PUBLISHERS
    requires Proper(owners, link.source.domain, link.replica.domain, action)
    ensures InStep(owners, Next(link, action), key) && Next(link, action).replica.domain == link.replica.domain
  {
    hide Timed, Step, Holdings, HeldIn, GoodStream, Replayed, AllTimely, Effect, MessageRequests;
    match action
    case SourceServes(request) => SourceKeepsStep(owners, link, request, key);
    case ReplicaServes(request) => ReplicaKeepsStep(owners, link, request, key);
    case Miss =>
    case Deliver =>
      if link.cursor < |link.source.details| {
        if link.initialized { ChangeKeepsStep(owners, link, key); } else { SnapshotKeepsStep(owners, link, key); }
      }
    case Redeliver =>
      if link.initialized {
        RedeliverKeepsStep(owners, link, key);
      } else if 0 < link.cursor {
        CachedKeepsStep(owners, link, key);
      }
    case Apply => if link.queue != [] { ApplyKeepsStep(owners, link, key); }
  }

  ghost predicate AllProper(owners: Owners, source: string, replica: string, actions: seq<Action>) {
    forall i | 0 <= i < |actions| :: Proper(owners, source, replica, actions[i])
  }

  lemma StartsInStep(owners: Owners, source: string, replica: string, key: Key)
    requires source != replica && key.domain == source
    ensures InStep(owners, Start(source, replica), key)
  {}

  lemma {:induction false} PlayKeepsStep(owners: Owners, source: string, replica: string, actions: seq<Action>,
                                         key: Key)
    requires source != replica && key.domain == source && key.id != REGISTERED_PUBLISHERS
    requires AllProper(owners, source, replica, actions)
    ensures var link := Play(Start(source, replica), actions);
            InStep(owners, link, key) && link.replica.domain == replica && link.source.domain == source
  {
    if actions == [] {
      StartsInStep(owners, source, replica, key);
    } else {
      var last := |actions| - 1;
      PlayKeepsStep(owners, source, replica, actions[..last], key);
      hide Next, Timed, GoodStream, GoodQueue, AllTimely, Replayed, Holdings, HeldIn;
      NextKeepsStep(owners, Play(Start(source, replica), actions[..last]), actions[last], key);
    }
  }

  /** Where and when the publishers of a list registered. */
  function Placements(list: seq<Publisher>): seq<(string, nat)> {
    seq(|list|, i requires 0 <= i < |list| => (list[i].Url(), list[i].regTime))
  }

  /** However registrations at the source, other requests at the replica, deliveries and re-sent messages interleave:
      when the replica has served every change it was sent, it lists for each product of the source's domain the same
      URLs, registered in the same seconds and in the same order, as the source itself. */
  lemma ReplicaCatchesUp(owners: Owners, source: string, replica: string, actions: seq<Action>, id: string)
    requires source != replica && id != REGISTERED_PUBLISHERS
    requires AllProper(owners, source, replica, actions)
    requires var link := Play(Start(source, replica), actions);
             link.initialized && link.cursor == |link.source.details| && link.queue == []
    ensures var link := Play(Start(source, replica), actions);
            Placements(link.replica.Listed(Key(source, id))) == Placements(link.source.Listed(Key(source, id)))
  {
    var key := Key(source, id);
    var link := Play(Start(source, replica), actions);
    PlayKeepsStep(owners, source, replica, actions, key);
    assert Holdings(link.replica, key) == Holdings(link.source, key);
    HoldingsAt(link.replica, key);
    HoldingsAt(link.source, key);
    var there, here := link.replica.Listed(key), link.source.Listed(key);
    assert |there| == |here|;
    forall i | 0 <= i < |here| ensures there[i].Url() == here[i].Url() && there[i].regTime == here[i].regTime {
      assert InTime(owners, link.replica, key, there[i]) && InTime(owners, link.source, key, here[i]);
      assert Holdings(link.replica, key)[i] == Holdings(link.source, key)[i];
      hide Play, InStep, Timed, Holdings;
    }
    hide Play, InStep, Timed, Holdings;
  }
}
