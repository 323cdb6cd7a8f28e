/** The subscriber side's tables and what makes them fit together. */
module Subscriptions {
  import opened Common
  import opened Directory

  /** An opaque zmq socket; the null pointer is zero and the two fixed sockets are one and two. */
  type Socket = nat
  const NULL: Socket := 0
  const NODE: Socket := 1
  const METRICS: Socket := 2

  /** GravityDataProduct, as far as it decides about delivery. */
  datatype Product = Product(
    id: string, data: seq<bv8>, timestamp: nat, componentId: string, regTime: nat, cached: bool, relayed: bool)

  /** A subscription: a product of a domain and a filter. */
  datatype Sub = Sub(product: Key, filter: string)

  /** SubscriptionDetails, known by its place in subscriptionMap. */
  datatype Subscription = Subscription(
    receiveCached: bool,
    pollItemMap: map<string, Socket>,
    socketToUrlMap: map<Socket, string>,
    subscribers: set<nat>,
    updateSocket: Socket)

  datatype Tables = Tables(
    subscriptions: map<Sub, Subscription>,
    sockets: map<Socket, Sub>,
    verification: map<Socket, nat>,
    lastCached: map<Socket, Product>,
    poll: seq<Socket>,
    next: Socket)

  /** A socket to be closed at the end of the pass, with the subscription it was queued for. */
  type Deletion = (Sub, Socket)

  function UpdateSockets(subscriptions: map<Sub, Subscription>): set<Socket> {
    set sub | sub in subscriptions :: subscriptions[sub].updateSocket
  }

  // ----- the parts of the invariant

  predicate Attached(st: Tables, s: Socket) {
    s in st.sockets && st.sockets[s] in st.subscriptions && s in st.subscriptions[st.sockets[s]].socketToUrlMap
  }

  /** Every socket is one of the sockets of its subscription, and of no other. */
  predicate Owned(st: Tables) {
    && (forall s | s in st.sockets :: Attached(st, s))
    && (forall sub, s | sub in st.subscriptions && s in st.subscriptions[sub].socketToUrlMap ::
          s in st.sockets && st.sockets[s] == sub)
  }

  /** The URL maps of a subscription are inverse to each other, apart from sockets about to be closed: those may have
      been replaced already, and if they have, their replacement stays. */
  predicate Inverse(d: Subscription, doomed: set<Socket>) {
    && (forall url | url in d.pollItemMap ::
          d.pollItemMap[url] in d.socketToUrlMap && d.socketToUrlMap[d.pollItemMap[url]] == url)
    && (forall s | s in d.socketToUrlMap :: d.socketToUrlMap[s] in d.pollItemMap)
    && (forall s | s in d.socketToUrlMap && d.pollItemMap[d.socketToUrlMap[s]] != s ::
          s in doomed && d.pollItemMap[d.socketToUrlMap[s]] !in doomed)
  }

  /** Every socket has a registration time to verify against; the null pointer may have picked up a zero. */
  ghost predicate Verified(st: Tables) {
    && (forall s :: s in st.sockets <==> s in st.verification && s != NULL)
    && (NULL in st.verification ==> st.verification[NULL] == 0)
    && (forall s | s in st.lastCached :: s in st.sockets)
  }

  /** The poll vector: the two fixed sockets, then every data socket and every update socket once. */
  ghost predicate Polled(st: Tables) {
    && 2 <= |st.poll| && st.poll[0] == NODE && st.poll[1] == METRICS
    && Distinct(st.poll)
    && (forall s :: s in st.poll <==>
        s == NODE || s == METRICS || s in st.sockets || s in UpdateSockets(st.subscriptions))
  }

  /** Sockets are used for one purpose each and come from the fresh ones. */
  predicate Separate(st: Tables) {
    && METRICS < st.next
    && (forall s | s in st.sockets :: METRICS < s < st.next)
    && (forall sub | sub in st.subscriptions ::
          METRICS < st.subscriptions[sub].updateSocket < st.next && st.subscriptions[sub].updateSocket !in st.sockets)
    && (forall a, b | a in st.subscriptions && b in st.subscriptions && a != b ::
          st.subscriptions[a].updateSocket != st.subscriptions[b].updateSocket)
  }

  function Doomed(deletions: seq<Deletion>): set<Socket> {
    if deletions == [] then {} else Doomed(deletions[1..]) + {deletions[0].1}
  }

  /** What is queued for deletion is a live socket of its subscription, queued once, or the null pointer. */
  predicate Queued(st: Tables, deletions: seq<Deletion>) {
    deletions == [] ||
    (Queued(st, deletions[1..])
     && deletions[0].0 in st.subscriptions
     && (deletions[0].1 != NULL ==>
           deletions[0].1 in st.sockets && st.sockets[deletions[0].1] == deletions[0].0
           && deletions[0].1 !in Doomed(deletions[1..])))
  }

  ghost predicate Sound(st: Tables, doomed: set<Socket>) {
    && Owned(st)
    && (forall sub | sub in st.subscriptions :: Inverse(st.subscriptions[sub], doomed))
    && Verified(st) && Polled(st) && Separate(st)
  }

  ghost predicate Draining(st: Tables, deletions: seq<Deletion>) {
    Sound(st, Doomed(deletions)) && Queued(st, deletions)
  }

  /** Between two passes. */
  ghost predicate Consistent(st: Tables) {
    Sound(st, {})
  }

  // ----- what the tables amount to

  /** The publishers a subscription is connected to, with the registration times it expects of them. */
  function Connections(st: Tables, sub: Sub): map<string, nat>
    requires sub in st.subscriptions
    requires forall url | url in st.subscriptions[sub].pollItemMap ::
               st.subscriptions[sub].pollItemMap[url] in st.verification
  {
    map url | url in st.subscriptions[sub].pollItemMap :: st.verification[st.subscriptions[sub].pollItemMap[url]]
  }

  /** The connections a publisher list asks for. */
  function Wanted(list: seq<Publisher>): map<string, nat> {
    if list == [] then map[]
    else Wanted(list[..|list| - 1])[list[|list| - 1].Url() := list[|list| - 1].regTime]
  }

  /** Joining a subscription connects to publishers it does not have yet. */
  function Joined(connections: map<string, nat>, list: seq<Publisher>): map<string, nat> {
    if list == [] then connections
    else
      var earlier := Joined(connections, list[..|list| - 1]);
      var p := list[|list| - 1];
      if p.Url() in earlier then earlier else earlier[p.Url() := p.regTime]
  }

  // ----- connecting

  /** A fresh socket to url, known to every table. */
  function Connect(st: Tables, sub: Sub, url: string, regTime: nat): Tables
    requires sub in st.subscriptions
  {
    var s := st.next;
    var d := st.subscriptions[sub];
    st.(subscriptions := st.subscriptions[sub := d.(pollItemMap := d.pollItemMap[url := s],
                                                    socketToUrlMap := d.socketToUrlMap[s := url])],
        sockets := st.sockets[s := sub],
        verification := st.verification[s := regTime],
        poll := st.poll + [s],
        next := s + 1)
  }

  lemma SameUpdateSockets(a: map<Sub, Subscription>, b: map<Sub, Subscription>)
    requires a.Keys == b.Keys && forall sub | sub in a :: a[sub].updateSocket == b[sub].updateSocket
    ensures UpdateSockets(a) == UpdateSockets(b)
  {
    forall s ensures s in UpdateSockets(a) <==> s in UpdateSockets(b) {
      if s in UpdateSockets(a) { var sub :| sub in a && a[sub].updateSocket == s; assert sub in b; }
      if s in UpdateSockets(b) { var sub :| sub in b && b[sub].updateSocket == s; assert sub in a; }
    }
  }

  lemma FreshIsUnused(st: Tables)
    requires Polled(st) && Separate(st)
    ensures st.next !in st.poll && st.next !in st.sockets && st.next !in UpdateSockets(st.subscriptions)
  {}

  lemma ConnectOwns(st: Tables, sub: Sub, url: string, regTime: nat)
    requires Owned(st) && Polled(st) && Separate(st) && sub in st.subscriptions
    ensures Owned(Connect(st, sub, url, regTime))
  {
    hide Polled, Separate, UpdateSockets;
    FreshIsUnused(st);
    var st' := Connect(st, sub, url, regTime);
    forall s | s in st'.sockets ensures Attached(st', s) {
      assert s != st.next ==> Attached(st, s);
    }
    forall other, s | other in st'.subscriptions && s in st'.subscriptions[other].socketToUrlMap
      ensures s in st'.sockets && st'.sockets[s] == other
    {
      assert s != st.next ==> s in st.subscriptions[other].socketToUrlMap;
    }
  }

  /** The socket that a new connection to url replaces. */
  function Replaced(d: Subscription, url: string): set<Socket> {
    if url in d.pollItemMap then {d.pollItemMap[url]} else {}
  }

  lemma ConnectInverts(d: Subscription, doomed: set<Socket>, url: string, s: Socket)
    requires Inverse(d, doomed) && s !in d.socketToUrlMap && s !in doomed
    ensures Inverse(d.(pollItemMap := d.pollItemMap[url := s], socketToUrlMap := d.socketToUrlMap[s := url]),
                    doomed + Replaced(d, url))
  {}

  lemma ConnectPolls(st: Tables, sub: Sub, url: string, regTime: nat)
    requires Polled(st) && Separate(st) && sub in st.subscriptions
    ensures Polled(Connect(st, sub, url, regTime))
  {
    var st' := Connect(st, sub, url, regTime);
    FreshIsUnused(st);
    SameUpdateSockets(st.subscriptions, st'.subscriptions);
    DistinctMore(st.poll, st.next);
    hide UpdateSockets, Separate, Distinct;
  }

  lemma ConnectSeparates(st: Tables, sub: Sub, url: string, regTime: nat)
    requires Separate(st) && sub in st.subscriptions
    ensures Separate(Connect(st, sub, url, regTime))
  {
    var st' := Connect(st, sub, url, regTime);
    forall other | other in st'.subscriptions
      ensures st'.subscriptions[other].updateSocket == st.subscriptions[other].updateSocket
    {}
  }

  lemma ConnectVerifies(st: Tables, sub: Sub, url: string, regTime: nat)
    requires Verified(st) && Separate(st) && sub in st.subscriptions
    ensures Verified(Connect(st, sub, url, regTime))
  {
    assert st.next > METRICS;
    hide Separate;
  }

  lemma MoreDoomed(d: Subscription, doomed: set<Socket>, more: set<Socket>)
    requires Inverse(d, doomed) && forall s | s in more :: s !in d.socketToUrlMap
    ensures Inverse(d, doomed + more)
  {}

  lemma OthersUntouched(st: Tables, doomed: set<Socket>, sub: Sub, other: Sub, url: string)
    requires Owned(st) && sub in st.subscriptions && other in st.subscriptions && other != sub
    requires Inverse(st.subscriptions[sub], doomed)
    ensures forall s | s in Replaced(st.subscriptions[sub], url) :: s !in st.subscriptions[other].socketToUrlMap
  {
    if url in st.subscriptions[sub].pollItemMap {
      var s := st.subscriptions[sub].pollItemMap[url];
      assert s in st.subscriptions[sub].socketToUrlMap;
      assert st.sockets[s] == sub;
    }
  }

  lemma ConnectInvertsAll(st: Tables, doomed: set<Socket>, sub: Sub, url: string, regTime: nat, other: Sub)
    requires Owned(st) && st.next !in st.sockets && st.next !in doomed
    requires sub in st.subscriptions && other in st.subscriptions
    requires Inverse(st.subscriptions[sub], doomed) && Inverse(st.subscriptions[other], doomed)
    ensures Inverse(Connect(st, sub, url, regTime).subscriptions[other], doomed + Replaced(st.subscriptions[sub], url))
  {
    if other == sub {
      assert st.next !in st.subscriptions[sub].socketToUrlMap;
      hide Owned, Inverse, Replaced;
      ConnectInverts(st.subscriptions[sub], doomed, url, st.next);
    } else {
      OthersUntouched(st, doomed, sub, other, url);
      hide Owned, Inverse, Replaced;
      MoreDoomed(st.subscriptions[other], doomed, Replaced(st.subscriptions[sub], url));
    }
  }

  lemma ConnectKeeps(st: Tables, doomed: set<Socket>, sub: Sub, url: string, regTime: nat)
    requires Sound(st, doomed) && sub in st.subscriptions && st.next !in doomed
    ensures Sound(Connect(st, sub, url, regTime), doomed + Replaced(st.subscriptions[sub], url))
  {
    hide Owned, Polled, Separate, Inverse, UpdateSockets, Verified, Replaced;
    FreshIsUnused(st);
    ConnectOwns(st, sub, url, regTime);
    ConnectPolls(st, sub, url, regTime);
    ConnectSeparates(st, sub, url, regTime);
    ConnectVerifies(st, sub, url, regTime);
    forall other | other in st.subscriptions
      ensures Inverse(Connect(st, sub, url, regTime).subscriptions[other],
                      doomed + Replaced(st.subscriptions[sub], url))
    {
      ConnectInvertsAll(st, doomed, sub, url, regTime, other);
    }
  }

  lemma ConnectNewKeeps(st: Tables, doomed: set<Socket>, sub: Sub, url: string, regTime: nat)
    requires Sound(st, doomed) && sub in st.subscriptions && st.next !in doomed
    requires url !in st.subscriptions[sub].pollItemMap
    ensures Sound(Connect(st, sub, url, regTime), doomed)
  {
    hide Sound, Connect;
    ConnectKeeps(st, doomed, sub, url, regTime);
    assert doomed + Replaced(st.subscriptions[sub], url) == doomed;
  }

  // ----- closing

  /** The poll vector without the first occurrence of a socket. */
  function Erased(poll: seq<Socket>, s: Socket): (r: seq<Socket>) {
    if poll == [] then [] else if poll[0] == s then poll[1..] else [poll[0]] + Erased(poll[1..], s)
  }

  /** One entry of the deletion list. Looking up a URL that is gone leaves an entry with a null socket behind. */
  function Delete(st: Tables, sub: Sub, s: Socket): Tables
    requires sub in st.subscriptions
  {
    var d := st.subscriptions[sub];
    var url := if s in d.socketToUrlMap then d.socketToUrlMap[s] else "";
    var current := if url in d.pollItemMap then d.pollItemMap[url] else NULL;
    var pollItemMap := if current == s then d.pollItemMap - {url} else d.pollItemMap[url := current];
    st.(subscriptions := st.subscriptions[sub := d.(pollItemMap := pollItemMap,
                                                    socketToUrlMap := d.socketToUrlMap - {s})],
        sockets := st.sockets - {s},
        verification := st.verification - {s},
        lastCached := st.lastCached - {s},
        poll := Erased(st.poll, s))
  }

  lemma DistinctTail(poll: seq<Socket>)
    requires poll != []
    ensures Distinct(poll) <==> Distinct(poll[1..]) && poll[0] !in poll[1..]
  {
    assert forall i | 0 <= i < |poll| - 1 :: poll[1..][i] == poll[i + 1];
    if Distinct(poll[1..]) && poll[0] !in poll[1..] {
      forall i, j | 0 <= i < j < |poll| ensures poll[i] != poll[j] {
        if i > 0 { assert poll[1..][i - 1] != poll[1..][j - 1]; } else { assert poll[1..][j - 1] == poll[j]; }
      }
    }
  }

  lemma {:induction false} ErasedHas(poll: seq<Socket>, s: Socket)
    requires Distinct(poll)
    ensures Distinct(Erased(poll, s)) && forall t :: t in Erased(poll, s) <==> t in poll && t != s
    ensures s !in poll ==> Erased(poll, s) == poll
  {
    if poll != [] {
      assert poll == [poll[0]] + poll[1..];
      DistinctTail(poll);
      if poll[0] != s {
        ErasedHas(poll[1..], s);
        assert Erased(poll, s)[1..] == Erased(poll[1..], s);
        DistinctTail(Erased(poll, s));
      }
      hide Distinct;
    }
  }

  lemma DeleteInverts(d: Subscription, doomed: set<Socket>, s: Socket)
    requires Inverse(d, doomed + {s}) && s in d.socketToUrlMap && s !in doomed
    ensures var url := d.socketToUrlMap[s];
            url in d.pollItemMap
            && Inverse(d.(pollItemMap := if d.pollItemMap[url] == s then d.pollItemMap - {url} else d.pollItemMap,
                          socketToUrlMap := d.socketToUrlMap - {s}), doomed)
  {}

  lemma FewerDoomed(d: Subscription, doomed: set<Socket>, s: Socket)
    requires Inverse(d, doomed + {s}) && s !in d.socketToUrlMap
    ensures Inverse(d, doomed)
  {}

  lemma DeleteOwns(st: Tables, sub: Sub, s: Socket)
    requires Owned(st) && sub in st.subscriptions && s in st.sockets && st.sockets[s] == sub
    ensures Owned(Delete(st, sub, s))
  {
    var st' := Delete(st, sub, s);
    forall t | t in st'.sockets ensures Attached(st', t) {
      assert Attached(st, t);
    }
    forall other, t | other in st'.subscriptions && t in st'.subscriptions[other].socketToUrlMap
      ensures t in st'.sockets && st'.sockets[t] == other
    {
      assert t in st.subscriptions[other].socketToUrlMap;
    }
  }

  lemma ErasedPrefix(poll: seq<Socket>, s: Socket)
    requires 2 <= |poll| && s != poll[0] && s != poll[1]
    ensures 2 <= |Erased(poll, s)| && Erased(poll, s)[0] == poll[0] && Erased(poll, s)[1] == poll[1]
  {
    assert Erased(poll, s) == [poll[0]] + Erased(poll[1..], s);
    assert Erased(poll[1..], s) == [poll[1]] + Erased(poll[1..][1..], s);
  }

  lemma DeletePolls(st: Tables, sub: Sub, s: Socket)
    requires Polled(st) && Separate(st) && sub in st.subscriptions && s in st.sockets
    ensures Polled(Delete(st, sub, s))
  {
    var st' := Delete(st, sub, s);
    SocketIsData(st, s);
    SameUpdateSockets(st.subscriptions, st'.subscriptions);
    ErasedHas(st.poll, s);
    ErasedPrefix(st.poll, s);
    hide UpdateSockets, Distinct, Erased, Separate;
  }

  lemma SocketIsData(st: Tables, s: Socket)
    requires Separate(st) && s in st.sockets
    ensures s > METRICS && s !in UpdateSockets(st.subscriptions)
  {}

  lemma DeleteSeparates(st: Tables, sub: Sub, s: Socket)
    requires Separate(st) && sub in st.subscriptions
    ensures Separate(Delete(st, sub, s))
  {
    var st' := Delete(st, sub, s);
    hide Erased;
    forall other | other in st'.subscriptions
      ensures st'.subscriptions[other].updateSocket == st.subscriptions[other].updateSocket
    {}
  }

  lemma DeleteInvertsAll(st: Tables, doomed: set<Socket>, sub: Sub, s: Socket, other: Sub)
    requires Owned(st) && s in st.sockets && st.sockets[s] == sub && s !in doomed
    requires sub in st.subscriptions && other in st.subscriptions
    requires Inverse(st.subscriptions[sub], doomed + {s}) && Inverse(st.subscriptions[other], doomed + {s})
    ensures Inverse(Delete(st, sub, s).subscriptions[other], doomed)
  {
    assert Attached(st, s);
    if other == sub {
      var d := st.subscriptions[sub];
      DeleteInverts(d, doomed, s);
      var url := d.socketToUrlMap[s];
      assert d.pollItemMap[url := d.pollItemMap[url]] == d.pollItemMap;
      hide Inverse, Owned;
    } else {
      assert s !in st.subscriptions[other].socketToUrlMap;
      hide Inverse, Owned;
      FewerDoomed(st.subscriptions[other], doomed, s);
    }
  }

  lemma DeleteKeeps(st: Tables, doomed: set<Socket>, sub: Sub, s: Socket)
    requires Sound(st, doomed + {s}) && s !in doomed
    requires sub in st.subscriptions && s in st.sockets && st.sockets[s] == sub
    ensures Sound(Delete(st, sub, s), doomed)
  {
    hide Owned, Polled, Separate, Inverse, UpdateSockets;
    DeleteOwns(st, sub, s);
    DeletePolls(st, sub, s);
    DeleteSeparates(st, sub, s);
    forall other | other in st.subscriptions ensures Inverse(Delete(st, sub, s).subscriptions[other], doomed) {
      DeleteInvertsAll(st, doomed, sub, s, other);
    }
  }

  lemma NullIsNowhere(st: Tables, doomed: set<Socket>, sub: Sub)
    requires Sound(st, doomed) && sub in st.subscriptions
    ensures NULL !in st.sockets && NULL !in st.subscriptions[sub].socketToUrlMap && NULL !in st.poll
    ensures forall url | url in st.subscriptions[sub].pollItemMap :: st.subscriptions[sub].pollItemMap[url] != NULL
  {
    UpdatesAreReal(st);
    assert Inverse(st.subscriptions[sub], doomed);
    hide UpdateSockets, Distinct, Verified;
  }

  lemma UpdatesAreReal(st: Tables)
    requires Separate(st)
    ensures NULL !in UpdateSockets(st.subscriptions)
  {}

  lemma NothingToRemove<K, V>(m: map<K, V>, k: K)
    requires k !in m
    ensures m - {k} == m
  {}

  lemma NothingToReplace<K, V>(m: map<K, V>, k: K)
    requires k in m
    ensures m[k := m[k]] == m
  {}

  /** The verification map matters to Verified alone. */
  lemma NewVerification(st: Tables, doomed: set<Socket>, verification: map<Socket, nat>)
    requires Sound(st, doomed) && Verified(st.(verification := verification))
    ensures Sound(st.(verification := verification), doomed)
  {
    var st' := st.(verification := verification);
    hide Inverse, UpdateSockets, Distinct, Verified;
    SameSeparate(st, st');
    SameOwned(st, st');
    hide Owned, Separate;
    assert Polled(st');
  }

  lemma SameOwned(st: Tables, st': Tables)
    requires Owned(st) && st'.sockets == st.sockets && st'.subscriptions == st.subscriptions
    ensures Owned(st')
  {
    assert forall s | s in st.sockets :: Attached(st, s);
  }

  lemma VerifiedOf(st: Tables, doomed: set<Socket>)
    requires Sound(st, doomed)
    ensures Verified(st) && NULL !in st.sockets
  {
    hide Owned, Polled, Inverse, Separate;
  }

  lemma ForgetNull(st: Tables, doomed: set<Socket>)
    requires Sound(st, doomed)
    ensures Sound(st.(verification := st.verification - {NULL}), doomed)
  {
    hide Sound;
    VerifiedOf(st, doomed);
    NewVerification(st, doomed, st.verification - {NULL});
  }

  lemma SameSeparate(st: Tables, st': Tables)
    requires Separate(st) && st'.sockets == st.sockets && st'.subscriptions == st.subscriptions && st'.next == st.next
    ensures Separate(st')
  {}

  /** Reconciling queues the null pointer whenever a publisher is new. Deleting it changes nothing but the zero it had
      left in the verification map. */
  lemma NullIsHarmless(st: Tables, doomed: set<Socket>, sub: Sub)
    requires Sound(st, doomed) && sub in st.subscriptions
    ensures Delete(st, sub, NULL) == st.(verification := st.verification - {NULL})
    ensures Sound(Delete(st, sub, NULL), doomed)
  {
    var d := st.subscriptions[sub];
    NullIsNowhere(st, doomed, sub);
    ForgetNull(st, doomed);
    ErasedHas(st.poll, NULL) by { assert Polled(st); }
    assert NULL !in st.lastCached by { assert Verified(st); }
    hide Sound, Erased;
    NothingToRemove(d.socketToUrlMap, NULL);
    NothingToRemove(st.sockets, NULL);
    NothingToRemove(st.lastCached, NULL);
    NothingToReplace(st.subscriptions, sub);
    if "" in d.pollItemMap { NothingToReplace(d.pollItemMap, ""); } else { NothingToRemove(d.pollItemMap, ""); }
  }
}
