/** A remote directory that replays the broadcast of another one ends up with the same services, too, when every service
    keeps to one URL. */
module ServiceReplication {
  import opened Common
  import opened Directory
  import opened DirectoryTimes
  import opened DirectoryBroadcast
  import opened Replication
  import opened ServiceLookups
  import opened ServiceTimes
  import opened ServicePictures

  // ----- the link

  function PostAfter(post: Post, queue: seq<Request>, key: Key): Post {
    if queue == [] then post
    else Posted(PostAfter(post, queue[..|queue| - 1], key), queue[|queue| - 1], key.domain, key)
  }

  lemma {:induction false} PostedBoth(post: Post, a: seq<Request>, b: seq<Request>, key: Key)
    ensures PostAfter(post, a + b, key) == PostAfter(PostAfter(post, a, key), b, key)
  {
    hide Posted;
    if b == [] {
      assert a + b == a;
    } else {
      assert (a + b)[..|a + b| - 1] == a + b[..|b| - 1];
      PostedBoth(post, a, b[..|b| - 1], key);
    }
  }

  lemma PostedOne(post: Post, request: Request, key: Key)
    ensures PostAfter(post, [request], key) == Posted(post, request, key.domain, key)
  {
    hide Posted;
    assert PostAfter(post, [request][..0], key) == post;
  }

  lemma {:induction false} RowsPosted(domain: string, rows: seq<Row>, key: Key)
    requires key.domain == domain
    ensures PostAfter(Vacant, RowRequests(domain, rows, Service), key) == PostIn(rows, key.id)
  {
    if rows != [] {
      var requests := RowRequests(domain, rows[..|rows| - 1], Service);
      assert RowRequests(domain, rows, Service)[..|requests|] == requests;
      RowsPosted(domain, rows[..|rows| - 1], key);
    }
  }

  lemma {:induction false} DataRowsPosted(post: Post, domain: string, rows: seq<Row>, key: Key)
    ensures PostAfter(post, RowRequests(domain, rows, Data), key) == post
  {
    if rows != [] {
      var requests := RowRequests(domain, rows[..|rows| - 1], Data);
      assert RowRequests(domain, rows, Data)[..|requests|] == requests;
      DataRowsPosted(post, domain, rows[..|rows| - 1], key);
    }
  }

  lemma SnapshotPosted(m: Details, key: Key)
    requires m.domain == key.domain
    ensures PostAfter(Vacant, MessageRequests(m, false), key) == PostIn(m.services, key.id)
  {
    hide RowRequests, PostIn, PostAfter;
    RowsPosted(m.domain, m.services, key);
    DataRowsPosted(PostIn(m.services, key.id), m.domain, m.products, key);
    PostedBoth(Vacant, RowRequests(m.domain, m.services, Service), RowRequests(m.domain, m.products, Data), key);
  }

  /** Nobody but the synchronizer speaks to the replica about services of the source's domain. */
  predicate Reserved(source: string, replica: string, action: Action) {
    action.ReplicaServes? ==>
      match action.request
      case Register(r) => r.kind.Service? ==> r.domain.Or(replica) != source
      case Unregister(u) => u.kind.Service? ==> u.domain.Or(replica) != source
      case Lookup(_, _, _) => true
  }

  /** Serving the queue gives the service the post that the last message delivered shows. */
  ghost predicate PostPending(link: Link, key: Key) {
    var post := PostOf(link.replica, key);
    if link.initialized then
      0 < link.cursor <= |link.source.details|
      && PostAfter(post, link.queue, key) == PostIn(link.source.details[link.cursor - 1].services, key.id)
    else link.queue == [] && post == Vacant
  }

  ghost predicate Paired(owners: Owners, link: Link, key: Key) {
    && InStep(owners, link, Key(key.domain, ""))
    && Manned(owners, link.source) && Manned(owners, link.replica)
    && ShownPosts(link.source, key) && PostPending(link, key)
  }

  lemma Facts(owners: Owners, link: Link, key: Key)
    requires Paired(owners, link, key)
    ensures link.source.domain == key.domain != link.replica.domain && link.cursor <= |link.source.details|
    ensures GoodQueue(owners, link.replica.domain, link.queue)
  {
    hide PostPending, Manned, ShownPosts, Timed, GoodStream, GoodQueue, Pending;
  }

  lemma ApplyPairs(owners: Owners, link: Link, key: Key)
    requires Settled(owners) && Paired(owners, link, key) && link.queue != []
    ensures Manned(owners, Next(link, Apply).replica) && PostPending(Next(link, Apply), key)
  {
    hide InStep, Settled, Manned, ShownPosts, Step, Posted, PostIn, PostOf, PostAfter, GoodQueue, Obeys, Named;
    var first, rest := link.queue[0], link.queue[1..];
    Facts(owners, link, key);
    QueueTail(owners, link.replica.domain, link.queue);
    PostStep(owners, link.replica, first, key);
    NamedPosts(PostOf(link.replica, key), first, link.replica.domain, key);
    assert link.queue == [first] + rest;
    PostedBoth(PostOf(link.replica, key), [first], rest, key);
    PostedOne(PostOf(link.replica, key), first, key);
  }

  lemma NamedPosts(post: Post, request: Request, domain: string, key: Key)
    requires Named(request)
    ensures Posted(post, request, domain, key) == Posted(post, request, key.domain, key)
  {}

  /** Message i arrives, as the first one or as the next change. */
  lemma MessagePairs(owners: Owners, link: Link, i: nat, key: Key)
    requires Paired(owners, link, key) && i < |link.source.details|
    requires link.initialized ==> i == link.cursor || i == link.cursor - 1
    ensures var m := link.source.details[i];
            PostPending(link.(initialized := true, cursor := i + 1,
                              queue := link.queue + MessageRequests(m, link.initialized)), key)
  {
    hide InStep, Settled, Manned, Posted, PostIn, PostOf, PostAfter, ChangeRequest;
    var m := link.source.details[i];
    var post, request := PostOf(link.replica, key), ChangeRequest(m.domain, m.change);
    MessageFacts(link.source, i, key);
    if link.initialized {
      PostedBoth(post, link.queue, [request], key);
      PostedOne(PostAfter(post, link.queue, key), request, key);
    } else {
      SnapshotPosted(m, key);
      assert link.queue + MessageRequests(m, false) == MessageRequests(m, false) by { hide RowRequests; }
      hide RowRequests;
    }
  }

  lemma MessageFacts(st: State, i: nat, key: Key)
    requires ShownPosts(st, key) && i < |st.details|
    ensures st.details[i].domain == key.domain && Leads(PostIn(st.details[i].services, key.id), st.details[i], key)
    ensures i > 0 ==> Leads(PostIn(st.details[i - 1].services, key.id), st.details[i], key)
  {
    hide PostIn, Leads, PostOf;
  }

  lemma SourcePairs(owners: Owners, link: Link, request: Request, key: Key)
    requires Settled(owners) && Paired(owners, link, key) && Obeys(owners, link.source.domain, request)
    ensures var link' := Next(link, Action.SourceServes(request));
            Manned(owners, link'.source) && ShownPosts(link'.source, key) && PostPending(link', key)
  {
    hide InStep, Settled, Manned, ShownPosts, Step, PostIn, PostOf, PostAfter, Obeys;
    Facts(owners, link, key);
    PostStep(owners, link.source, request, key);
    StreamShowsPosts(owners, link.source, request, key);
  }

  lemma ReplicaPairs(owners: Owners, link: Link, request: Request, key: Key)
    requires Settled(owners) && Paired(owners, link, key) && Obeys(owners, link.replica.domain, request)
    requires Reserved(key.domain, link.replica.domain, Action.ReplicaServes(request))
    ensures var link' := Next(link, Action.ReplicaServes(request));
            Manned(owners, link'.replica) && PostPending(link', key)
  {
    hide InStep, Settled, Manned, ShownPosts, Step, PostIn, PostOf, PostAfter, Obeys;
    PostStep(owners, link.replica, request, key);
  }

  lemma NextPairs(owners: Owners, link: Link, action: Action, key: Key)
    requires Settled(owners) && Paired(owners, link, key)
    requires Proper(owners, link.source.domain, link.replica.domain, action)
    requires Reserved(link.source.domain, link.replica.domain, action)
    ensures Paired(owners, Next(link, action), key)
    ensures Next(link, action).replica.domain == link.replica.domain
            && Next(link, action).source.domain == link.source.domain
  {
    hide InStep, Settled, Manned, ShownPosts, Step, PostPending, Obeys, MessageRequests;
    Facts(owners, link, key);
    NextKeepsStep(owners, link, action, Key(key.domain, ""));
    match action
    case SourceServes(request) => SourcePairs(owners, link, request, key);
    case ReplicaServes(request) => ReplicaPairs(owners, link, request, key);
    case Miss => MissPairs(link, key);
    case Deliver => if link.cursor < |link.source.details| { MessagePairs(owners, link, link.cursor, key); }
    case Redeliver => if 0 < link.cursor { MessagePairs(owners, link, link.cursor - 1, key); }
    case Apply => if link.queue != [] { ApplyPairs(owners, link, key); }
  }

  lemma MissPairs(link: Link, key: Key)
    requires PostPending(link, key)
    ensures PostPending(Next(link, Miss), key)
  {
    hide PostIn, PostOf, PostAfter;
  }

  lemma StartsPaired(owners: Owners, source: string, replica: string, key: Key)
    requires source != replica && key.domain == source
    ensures Paired(owners, Start(source, replica), key)
  {
    StartsInStep(owners, source, replica, Key(source, ""));
    hide InStep;
  }

  lemma {:induction false} PlayPairs(owners: Owners, source: string, replica: string, actions: seq<Action>, key: Key)
    requires Settled(owners) && source != replica && key.domain == source
    requires AllProper(owners, source, replica, actions)
    requires forall i | 0 <= i < |actions| :: Reserved(source, replica, actions[i])
    ensures var link := Play(Start(source, replica), actions);
            Paired(owners, link, key) && link.replica.domain == replica && link.source.domain == source
  {
    hide Settled, Paired, Next, Proper, Reserved;
    if actions == [] {
      StartsPaired(owners, source, replica, key);
    } else {
      var last := |actions| - 1;
      PlayPairs(owners, source, replica, actions[..last], key);
      NextPairs(owners, Play(Start(source, replica), actions[..last]), actions[last], key);
    }
  }

  /** When every service keeps to one URL, and however registrations at the source, other requests at the replica,
      deliveries and re-sent messages interleave: with every change delivered and served, a lookup of a service of the
      source's domain is answered by the replica with the URL and the second that the source answers, or by both with
      none. */
  lemma ServicesCatchUp(owners: Owners, source: string, replica: string, actions: seq<Action>, id: string)
    requires Settled(owners) && source != replica && source != ""
    requires AllProper(owners, source, replica, actions)
    requires forall i | 0 <= i < |actions| :: Reserved(source, replica, actions[i])
    requires var link := Play(Start(source, replica), actions);
             link.initialized && link.cursor == |link.source.details| && link.queue == []
    ensures var link := Play(Start(source, replica), actions);
            Reply(link.replica, Lookup(id, Service, Some(source))) == Reply(link.source, Lookup(id, Service, None))
  {
    hide Settled, InStep, Manned, Play, Proper, Reserved, PostIn, Leads;
    var key := Key(source, id);
    PlayPairs(owners, source, replica, actions, key);
    var link := Play(Start(source, replica), actions);
    NothingReplayed(PostOf(link.replica, key), key);
    assert PostOf(link.replica, key) == PostOf(link.source, key);
    hide Paired;
  }

  lemma NothingReplayed(post: Post, key: Key)
    ensures PostAfter(post, [], key) == post
  {}

  // ----- a service that moves

  /** The withdrawal of a service takes it from the other directory exactly when that one has a time of the second that
      is named for the URL that is named, which need not be the URL of the provider. */
  lemma WithdrawalReachesExactly(st: State, replica: State, u: Unregistration, c: Change)
    requires u.kind.Service? && Found(st, u) && Means(st, Unregister(u), c)
    requires Key(st.domain, u.id) in replica.services
    ensures Key(st.domain, u.id) in Step(replica, ChangeRequest(st.domain, c)).services <==>
            !(u.url in replica.instances && replica.instances[u.url] / 1000000 == u.regTime)
  {
    hide Step;
    StepServices(replica, ChangeRequest(st.domain, c));
  }

  function Moving(id: string, url: string, timestamp: nat, domain: Option<string>): Request {
    Register(Registration(id, url, Service, domain, Some(timestamp), None, None, None))
  }

  function Everyone(url: string): Owner { Owner(Key("far", "Position"), Service) }

  /** A service is registered at one URL and then at another, and the first one is unregistered: its own directory has
      no such service any more, and one that has followed since it moved still answers it. */
  lemma MovedServiceStays()
    ensures var here := Run(Fresh("far"), [Moving("Position", "tcp://a:1", 1000000, None),
                                           Moving("Position", "tcp://b:1", 2000000, None),
                                           Unregister(Unregistration("Position", "tcp://a:1", Service, None, 1))]);
            var there := Run(Fresh("near"), [Moving("Position", "tcp://b:1", 2000000, Some("far")),
                                             Unregister(Unregistration("Position", "tcp://a:1", Service, Some("far"),
                                                                       1))]);
            && Reply(here, Lookup("Position", Service, None)) == ProviderIs(Key("far", "Position"), "", None)
            && Reply(there, Lookup("Position", Service, Some("far"))) ==
               ProviderIs(Key("far", "Position"), "tcp://b:1", Some(2))
  {
    hide Run;
    var key := Key("far", "Position");
    var a, b := Moving("Position", "tcp://a:1", 1000000, None), Moving("Position", "tcp://b:1", 2000000, None);
    var here := [a, b, Unregister(Unregistration("Position", "tcp://a:1", Service, None, 1))];
    var there := [Moving("Position", "tcp://b:1", 2000000, Some("far")),
                  Unregister(Unregistration("Position", "tcp://a:1", Service, Some("far"), 1))];
    assert here[..2] == [a, b] && [a, b][..1] == [a] && [a][..0] == [];
    assert there[..1] == [there[0]] && [there[0]][..0] == [];
    assert "tcp://a:1"[6] != "tcp://b:1"[6];
    assert Offered("far", [a], key) == Offer(Some("tcp://a:1"), map["tcp://a:1" := 1000000]);
    assert Offered("near", [there[0]], key) == Offer(Some("tcp://b:1"), map["tcp://b:1" := 2000000]);
    ServiceLookupsFollowTheRequests(Everyone, "far", here, "Position", None);
    ServiceLookupsFollowTheRequests(Everyone, "near", there, "Position", Some("far"));
  }
}
