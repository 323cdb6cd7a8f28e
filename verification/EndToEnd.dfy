/** From registrations at the directory to the connections of a subscription, with everything that may lie between. */
module EndToEnd {
  import opened Common
  import opened Directory
  import opened DirectoryStreams
  import opened Relays
  import opened Subscriptions
  import opened Subscribing
  import opened Watching

  /** The directory, how many of its updates its publisher thread has sent, the update sockets of a subscription manager
      that are connected, with what is under way to them, all that has reached the manager, and a lookup reply that the
      manager's node is holding. */
  datatype System = System(
    dir: State,
    sent: nat,
    channels: map<Sub, seq<Update>>,
    events: seq<Event>,
    answer: Option<seq<Publisher>>)

  datatype Action =
    | Serve(request: Request)
    | Send                                       // the publisher thread takes the next update
    | LookUp                                     // the directory answers a lookup of the product
    | SubscribeWith(receiveCached: bool, subscriber: nat)   // the answer goes to the manager
    | Replay(joining: Option<Sub>, order: seq<Update>)       // somebody's update socket connects, maybe one of ours
    | Consume(from: Sub)                         // the manager reads an update socket
    | Manage(event: Event)                       // any other event at the manager

  /** What the publisher thread would replay for a filter text. */
  function CachedFor(sent: seq<Update>, id: string): Option<Update> {
    if sent == [] then None
    else if sent[|sent| - 1].key.id == id then Some(sent[|sent| - 1])
    else CachedFor(sent[..|sent| - 1], id)
  }

  /** The replay is the cache, in whatever order. */
  ghost predicate IsReplay(sent: seq<Update>, order: seq<Update>) {
    forall u :: u in order <==> CachedFor(sent, u.key.id) == Some(u)
  }

  /** An update socket filters by a prefix of the ID. */
  function Passing(sub: Sub, updates: seq<Update>): seq<Update> {
    if updates == [] then []
    else
      var last := updates[|updates| - 1];
      Passing(sub, updates[..|updates| - 1]) + if sub.product.id <= last.key.id then [last] else []
  }

  function Deliver(channels: map<Sub, seq<Update>>, updates: seq<Update>): map<Sub, seq<Update>> {
    map c | c in channels :: channels[c] + Passing(c, updates)
  }

  function Sent(sys: System): seq<Update> {
    if sys.sent <= |sys.dir.updates| then sys.dir.updates[..sys.sent] else sys.dir.updates
  }

  function Next(place: Place, sub: Sub, sys: System, action: Action): System {
    match action
    case Serve(request) => sys.(dir := Step(sys.dir, request))
    case Send =>
      if sys.sent < |sys.dir.updates| then
        sys.(sent := sys.sent + 1, channels := Deliver(sys.channels, [sys.dir.updates[sys.sent]]))
      else sys
    case LookUp => sys.(answer := Some(sys.dir.Listed(sub.product)))
    case SubscribeWith(receiveCached, subscriber) =>
      if sys.answer.Some?
          then sys.(events := sys.events + [Subscribe(sub, receiveCached, subscriber, sys.answer.value)])
      else sys
    case Replay(joining, order) =>
      var channels :=
        if joining.Some? && joining.value !in sys.channels then sys.channels[joining.value := []] else sys.channels;
      sys.(channels := Deliver(channels, order))
    case Consume(from) =>
      if from in sys.channels && sys.channels[from] != [] then
        var u := sys.channels[from][0];
        sys.(channels := sys.channels[from := sys.channels[from][1..]],
             events := sys.events + [Event.Update(u.key, u.publishers)])
      else sys
    case Manage(event) =>
      sys.(channels := if event.Unsubscribe? && event.sub !in FollowAll(place, sys.events + [event]) then
                         sys.channels - {event.sub} else sys.channels,
           events := sys.events + [event])
  }

  function Play(place: Place, sub: Sub, domain: string, actions: seq<Action>): System {
    if actions == [] then System(Fresh(domain), 0, map[], [], None)
    else Next(place, sub, Play(place, sub, domain, actions[..|actions| - 1]), actions[|actions| - 1])
  }

  // ----- what is assumed of a run

  predicate OneDomain(domain: string, request: Request) {
    match request
    case Register(r) => r.domain.Or(domain) == domain
    case Unregister(u) => u.domain.Or(domain) == domain
    case Lookup(_, _, _) => true
  }

  /** The registration times in the data are the expected ones. */
  predicate Matching(place: Place, sub: Sub, events: seq<Event>, url: string, products: seq<Product>) {
    var watches := FollowAll(place, events);
    sub in watches && url in watches[sub].connections ==>
      forall p | p in products :: p.regTime == watches[sub].connections[url]
  }

  /** An update of the product is still to be read, on some channel; or none has been sent yet, or the
      subscription's own update socket is not connected, so that one will come. */
  ghost predicate Undecided(sub: Sub, sent: Option<seq<Publisher>>, channels: map<Sub, seq<Update>>) {
    sub in channels && sent.Some? ==> UnderWay(channels, sub.product)
  }

  function LastSent(sys: System, key: Key): Option<seq<Publisher>> { LastUpdate(Sent(sys), key) }

  /** A subscriber may come with this answer: whatever it brings will be put right, or it brings no new publisher. */
  ghost predicate GoodAnswer(place: Place, sub: Sub, sys: System, answer: seq<Publisher>) {
    var watches, trimmed := FollowAll(place, sys.events), Trimmed(answer, place.componentId, place.ip);
    Undecided(sub, LastSent(sys, sub.product), sys.channels)
    || (sub in watches && forall k | 0 <= k < |trimmed| :: trimmed[k].Url() in watches[sub].connections)
  }

  /** The update socket of another subscription may be closed: an update is to be read elsewhere, or the last one
      sent has been the last one read. */
  ghost predicate SafeToClose(place: Place, sub: Sub, sys: System, c: Sub) {
    var watches, sent := FollowAll(place, sys.events), LastSent(sys, sub.product);
    Undecided(sub, sent, sys.channels - {c})
    || (sub in watches && sent.Some? && watches[sub].connections == Target(place, sent.value))
  }

  /** What other events may do: anything to other subscriptions but close one that is not safe to close, and anything to
      our own but bring it mismatched data when nothing would put it right. Its subscribers come with SubscribeWith. */
  ghost predicate Harmless(place: Place, sub: Sub, sys: System, event: Event) {
    match event
    case Subscribe(s, _, _, _) => s != sub
    case Unsubscribe(s, _) =>
      s != sub && s in sys.channels && s !in FollowAll(place, sys.events + [event]) ==> SafeToClose(place, sub, sys, s)
    case Update(_, _) => false
    case Data(s, url, products) =>
      s != sub || Matching(place, sub, sys.events, url, products)
      || Undecided(sub, LastSent(sys, sub.product), sys.channels)
  }

  ghost predicate Allowed(place: Place, sub: Sub, sys: System, action: Action) {
    match action
    case Serve(request) => OneDomain(sys.dir.domain, request)
    case Send => true
    case LookUp => true
    case SubscribeWith(_, _) => sys.answer.Some? && GoodAnswer(place, sub, sys, sys.answer.value)
    case Replay(joining, order) =>
      IsReplay(Sent(sys), order)
      && (joining.Some? ==> joining.value in FollowAll(place, sys.events) && joining.value !in sys.channels)
    case Consume(_) => true
    case Manage(event) => Harmless(place, sub, sys, event)
  }

  ghost predicate AllAllowed(place: Place, sub: Sub, domain: string, actions: seq<Action>) {
    actions == [] ||
    (AllAllowed(place, sub, domain, actions[..|actions| - 1])
     && Allowed(place, sub, Play(place, sub, domain, actions[..|actions| - 1]), actions[|actions| - 1]))
  }

  // ----- the invariant

  /** Nothing about the product has been announced, nor will be until it changes. */
  predicate Quiet(dir: State, key: Key) {
    LastUpdate(dir.updates, key).None? && key.id !in dir.backlog
  }

  ghost predicate OwnUpdates(dir: State) {
    forall k | 0 <= k < |dir.updates| :: dir.updates[k].key.domain == dir.domain
  }

  function Target(place: Place, list: seq<Publisher>): map<string, nat> {
    Wanted(Trimmed(list, place.componentId, place.ip))
  }

  /** An update of the product on a channel is the last one sent, or has it behind it. */
  ghost predicate Fed(sent: Option<seq<Publisher>>, channels: map<Sub, seq<Update>>, key: Key) {
    forall c | c in channels ::
      var last := LastUpdate(channels[c], key);
      last == None || (c.product.id <= key.id && last == sent)
  }

  ghost predicate UnderWay(channels: map<Sub, seq<Update>>, key: Key) {
    exists c | c in channels :: LastUpdate(channels[c], key).Some?
  }

  /** The subscription's connections are on the way to those the last sent update asks for. */
  ghost predicate OnTheWay(place: Place, sub: Sub, sent: Option<seq<Publisher>>, channels: map<Sub, seq<Update>>,
                           watches: map<Sub, Watch>) {
    && (sub in channels ==> sub in watches)
    && (sub in channels && sent.Some? ==>
          UnderWay(channels, sub.product) || watches[sub].connections == Target(place, sent.value))
  }

  ghost predicate Inv(place: Place, sub: Sub, sys: System) {
    var last := LastUpdate(Sent(sys), sub.product);
    var watches := FollowAll(place, sys.events);
    && sys.dir.domain == sub.product.domain && sub.product.id != ""
    && Idle(sys.dir) && OwnUpdates(sys.dir) && sys.sent <= |sys.dir.updates|
    && Fed(last, sys.channels, sub.product)
    && OnTheWay(place, sub, last, sys.channels, watches)
    && (Quiet(sys.dir, sub.product) ==>
          (sys.answer.Some? ==> sys.answer.value == []) && (sub in watches ==> watches[sub].connections == map[]))
  }

  // ----- last updates

  lemma LastUpdateMore(updates: seq<Update>, u: Update, key: Key)
    ensures LastUpdate(updates + [u], key) == if u.key == key then Some(u.publishers) else LastUpdate(updates, key)
  {
    assert (updates + [u])[..|updates|] == updates;
  }

  lemma {:induction false} LastUpdateHas(updates: seq<Update>, k: nat)
    requires k < |updates|
    ensures LastUpdate(updates, updates[k].key).Some?
  {
    if k < |updates| - 1 {
      assert updates[..|updates| - 1][k] == updates[k];
      LastUpdateHas(updates[..|updates| - 1], k);
    }
  }

  lemma {:induction false} LastUpdateFrom(updates: seq<Update>, key: Key)
    requires LastUpdate(updates, key).Some?
    ensures exists k ::
              0 <= k < |updates| && updates[k].key == key && LastUpdate(updates, key) == Some(updates[k].publishers)
  {
    if updates[|updates| - 1].key != key {
      var init := updates[..|updates| - 1];
      LastUpdateFrom(init, key);
      var k :| 0 <= k < |init| && init[k].key == key && LastUpdate(init, key) == Some(init[k].publishers);
      assert updates[k] == init[k];
    }
  }

  lemma {:induction false} LastUpdateTail(updates: seq<Update>, key: Key)
    requires updates != []
    ensures LastUpdate(updates, key)
         == if LastUpdate(updates[1..], key).Some? || updates[0].key != key then LastUpdate(updates[1..], key)
            else Some(updates[0].publishers)
  {
    assert updates == [updates[0]] + updates[1..];
    LastUpdateOfBoth([updates[0]], updates[1..], key);
    LastUpdateMore([], updates[0], key);
    assert [] + [updates[0]] == [updates[0]];
  }

  lemma {:induction false} PassingLast(c: Sub, updates: seq<Update>, key: Key)
    ensures LastUpdate(Passing(c, updates), key) == if c.product.id <= key.id then LastUpdate(updates, key) else None
  {
    if updates != [] {
      var init, u := updates[..|updates| - 1], updates[|updates| - 1];
      PassingLast(c, init, key);
      LastUpdateMore(Passing(c, init), u, key);
      if !(c.product.id <= u.key.id) { assert Passing(c, updates) == Passing(c, init); }
    }
  }

  lemma {:induction false} CachedIsLast(sent: seq<Update>, key: Key)
    requires forall k | 0 <= k < |sent| :: sent[k].key.domain == key.domain
    ensures match CachedFor(sent, key.id)
            case None => LastUpdate(sent, key) == None
            case Some(u) => u.key == key && LastUpdate(sent, key) == Some(u.publishers)
  {
    if sent != [] {
      var init := sent[..|sent| - 1];
      assert forall k | 0 <= k < |init| :: init[k] == sent[k];
      CachedIsLast(init, key);
    }
  }

  /** A replay brings the last update. */
  lemma ReplayLast(sent: seq<Update>, order: seq<Update>, key: Key)
    requires forall k | 0 <= k < |sent| :: sent[k].key.domain == key.domain
    requires IsReplay(sent, order)
    ensures LastUpdate(order, key) == LastUpdate(sent, key)
  {
    CachedIsLast(sent, key);
    if LastUpdate(order, key).Some? {
      LastUpdateFrom(order, key);
      var k :| 0 <= k < |order| && order[k].key == key && LastUpdate(order, key) == Some(order[k].publishers);
      assert order[k] in order;
    } else if CachedFor(sent, key.id).Some? {
      var u := CachedFor(sent, key.id).value;
      assert u in order;
      var k :| 0 <= k < |order| && order[k] == u;
      LastUpdateHas(order, k);
    }
  }

  // ----- each action keeps the invariant

  lemma FlushGrows(st: State)
    ensures st.updates <= Flush(st).updates
  {
    hide BacklogUpdates, Ascending;
  }

  lemma ServeGrows(dir: State, request: Request)
    ensures dir.updates <= Step(dir, request).updates
    ensures forall id | id in dir.backlog && id !in Step(dir, request).backlog ::
              LastUpdate(Step(dir, request).updates, dir.Own(id)).Some?
  {
    hide LastUpdate, BacklogUpdates, Handle;
    var handled := Handle(dir, request);
    HandleTells(dir, request, dir.Own(""));
    FlushGrows(handled);
    forall id | id in dir.backlog && id !in Step(dir, request).backlog
      ensures LastUpdate(Step(dir, request).updates, dir.Own(id)).Some?
    {
      FlushSends(handled, dir.Own(id));
    }
  }

  lemma {:induction false} LastUpdateStays(updates: seq<Update>, more: seq<Update>, key: Key)
    requires updates <= more && LastUpdate(updates, key).Some?
    ensures LastUpdate(more, key).Some?
  {
    LastUpdateFrom(updates, key);
    var k :| 0 <= k < |updates| && updates[k].key == key && LastUpdate(updates, key) == Some(updates[k].publishers);
    assert more[k] == updates[k];
    LastUpdateHas(more, k);
  }

  lemma ServeKeepsOwn(dir: State, request: Request)
    requires Idle(dir) && OwnUpdates(dir) && OneDomain(dir.domain, request)
    ensures OwnUpdates(Step(dir, request))
  {
    hide LastUpdate, Handle, Idle;
    var dir' := Step(dir, request);
    var handled := Handle(dir, request);
    forall k | 0 <= k < |dir'.updates| ensures dir'.updates[k].key.domain == dir.domain {
      var key := dir'.updates[k].key;
      LastUpdateHas(dir'.updates, k);
      if key.domain != dir.domain {
        NoForeign(dir, key);
        HandleTells(dir, request, key);
        FlushSends(handled, key);
        assert false;
      }
    }
  }

  lemma NoForeign(dir: State, key: Key)
    requires OwnUpdates(dir) && key.domain != dir.domain
    ensures LastUpdate(dir.updates, key) == None
  {
    if LastUpdate(dir.updates, key).Some? { LastUpdateFrom(dir.updates, key); }
  }

  lemma QuietBefore(dir: State, request: Request, key: Key)
    requires key.domain == dir.domain && Quiet(Step(dir, request), key)
    ensures Quiet(dir, key)
  {
    hide LastUpdate;
    ServeGrows(dir, request);
    assert dir.Own(key.id) == key;
    if LastUpdate(dir.updates, key).Some? { LastUpdateStays(dir.updates, Step(dir, request).updates, key); }
  }

  lemma ServeKeeps(place: Place, sub: Sub, sys: System, request: Request)
    requires Inv(place, sub, sys) && OneDomain(sys.dir.domain, request)
    ensures Inv(place, sub, Next(place, sub, sys, Serve(request)))
  {
    hide LastUpdate, FollowAll, Fed, OnTheWay, Quiet, OwnUpdates, Step, Idle;
    var sys' := Next(place, sub, sys, Serve(request));
    StepKeepsIdle(sys.dir, request);
    ServeKeepsOwn(sys.dir, request);
    ServeGrows(sys.dir, request);
    assert Sent(sys') == Sent(sys);
    if Quiet(sys'.dir, sub.product) { QuietBefore(sys.dir, request, sub.product); }
  }

  /** What is sent to all channels becomes the last update on those that let it pass. */
  lemma DeliverLast(channels: map<Sub, seq<Update>>, updates: seq<Update>, key: Key, c: Sub)
    requires c in channels
    ensures LastUpdate(Deliver(channels, updates)[c], key)
         == if c.product.id <= key.id && LastUpdate(updates, key).Some? then LastUpdate(updates, key)
            else LastUpdate(channels[c], key)
  {
    PassingLast(c, updates, key);
    LastUpdateOfBoth(channels[c], Passing(c, updates), key);
  }

  lemma DeliverFeeds(sub: Sub, before: Option<seq<Publisher>>, after: Option<seq<Publisher>>,
                     channels: map<Sub, seq<Update>>, updates: seq<Update>)
    requires Fed(before, channels, sub.product)
    requires var last := LastUpdate(updates, sub.product); after == if last.Some? then last else before
    ensures Fed(after, Deliver(channels, updates), sub.product)
  {
    hide LastUpdate, Deliver;
    DeliverKeys(channels, updates);
    forall c | c in Deliver(channels, updates)
      ensures var last := LastUpdate(Deliver(channels, updates)[c], sub.product);
              last == None || (c.product.id <= sub.product.id && last == after)
    {
      DeliverLast(channels, updates, sub.product, c);
    }
  }

  lemma DeliverKeys(channels: map<Sub, seq<Update>>, updates: seq<Update>)
    ensures Deliver(channels, updates).Keys == channels.Keys
  {
    hide Passing;
  }

  /** What was under way still is, and what reaches the subscription's own channel is, too. */
  lemma DeliverUnderWay(sub: Sub, channels: map<Sub, seq<Update>>, updates: seq<Update>)
    requires UnderWay(channels, sub.product) || (sub in channels && LastUpdate(updates, sub.product).Some?)
    ensures UnderWay(Deliver(channels, updates), sub.product)
  {
    hide LastUpdate, Deliver;
    DeliverKeys(channels, updates);
    if UnderWay(channels, sub.product) {
      var c :| c in channels && LastUpdate(channels[c], sub.product).Some?;
      DeliverLast(channels, updates, sub.product, c);
      assert LastUpdate(Deliver(channels, updates)[c], sub.product).Some?;
    } else {
      DeliverLast(channels, updates, sub.product, sub);
      assert LastUpdate(Deliver(channels, updates)[sub], sub.product).Some?;
    }
  }

  /** Sending the latest update to everyone, again or for the first time. */
  lemma DeliverKeeps(place: Place, sub: Sub, before: Option<seq<Publisher>>, after: Option<seq<Publisher>>,
                     channels: map<Sub, seq<Update>>, updates: seq<Update>, watches: map<Sub, Watch>)
    requires Fed(before, channels, sub.product)
    requires OnTheWay(place, sub, before, channels, watches)
    requires var last := LastUpdate(updates, sub.product); after == if last.Some? then last else before
    ensures Fed(after, Deliver(channels, updates), sub.product)
    ensures OnTheWay(place, sub, after, Deliver(channels, updates), watches)
  {
    hide LastUpdate, Target, Deliver, UnderWay, Fed;
    DeliverFeeds(sub, before, after, channels, updates);
    DeliverKeys(channels, updates);
    if UnderWay(channels, sub.product) || (sub in channels && LastUpdate(updates, sub.product).Some?) {
      DeliverUnderWay(sub, channels, updates);
    }
    assert sub in Deliver(channels, updates) <==> sub in channels.Keys;
  }

  lemma SendKeeps(place: Place, sub: Sub, sys: System)
    requires Inv(place, sub, sys)
    ensures Inv(place, sub, Next(place, sub, sys, Send))
  {
    hide LastUpdate, FollowAll, Fed, OnTheWay, Quiet, OwnUpdates, Idle, Deliver;
    if sys.sent < |sys.dir.updates| {
      var sys' := Next(place, sub, sys, Send);
      var u := sys.dir.updates[sys.sent];
      assert Sent(sys') == Sent(sys) + [u];
      LastUpdateMore(Sent(sys), u, sub.product);
      LastUpdateMore([], u, sub.product);
      assert [] + [u] == [u];
      NothingSent(sub.product);
      DeliverKeeps(place, sub, LastUpdate(Sent(sys), sub.product),
                   LastUpdate(Sent(sys'), sub.product), sys.channels, [u],
                   FollowAll(place, sys.events));
    }
  }

  lemma SentIsOwn(sys: System, key: Key)
    requires OwnUpdates(sys.dir) && key.domain == sys.dir.domain
    ensures forall k | 0 <= k < |Sent(sys)| :: Sent(sys)[k].key.domain == key.domain
  {}

  lemma OpenKeeps(place: Place, sub: Sub, sent: Option<seq<Publisher>>, channels: map<Sub, seq<Update>>,
                  watches: map<Sub, Watch>, c: Sub)
    requires Fed(sent, channels, sub.product) && OnTheWay(place, sub, sent, channels, watches)
    requires c !in channels && c in watches
    ensures Fed(sent, channels[c := []], sub.product)
    ensures c != sub ==> OnTheWay(place, sub, sent, channels[c := []], watches)
  {
    hide Target;
    NothingSent(sub.product);
    hide LastUpdate;
    if UnderWay(channels, sub.product) {
      var d :| d in channels && LastUpdate(channels[d], sub.product).Some?;
      assert LastUpdate(channels[c := []][d], sub.product).Some?;
    }
  }

  /** The subscription's own update socket connects: the replay brings what was sent before. */
  lemma JoinKeeps(place: Place, sub: Sub, sent: Option<seq<Publisher>>, channels: map<Sub, seq<Update>>,
                  order: seq<Update>, watches: map<Sub, Watch>)
    requires Fed(sent, channels, sub.product) && sub !in channels && sub in watches
    requires LastUpdate(order, sub.product) == sent
    ensures Fed(sent, Deliver(channels[sub := []], order), sub.product)
    ensures OnTheWay(place, sub, sent, Deliver(channels[sub := []], order), watches)
  {
    hide Target, Passing;
    NothingSent(sub.product);
    hide LastUpdate;
    var channels' := Deliver(channels[sub := []], order);
    assert channels'.Keys == channels.Keys + {sub};
    hide Deliver;
    forall c | c in channels'
      ensures LastUpdate(channels'[c], sub.product)
           == if c.product.id <= sub.product.id && sent.Some? then sent
              else LastUpdate(channels[sub := []][c], sub.product)
    {
      DeliverLast(channels[sub := []], order, sub.product, c);
    }
    if sent.Some? { assert LastUpdate(channels'[sub], sub.product).Some?; }
  }

  lemma ReplayKeeps(place: Place, sub: Sub, sys: System, joining: Option<Sub>, order: seq<Update>)
    requires Inv(place, sub, sys) && Allowed(place, sub, sys, Replay(joining, order))
    ensures Inv(place, sub, Next(place, sub, sys, Replay(joining, order)))
  {
    hide LastUpdate, FollowAll, Fed, OnTheWay, Quiet, OwnUpdates, Idle, Deliver, IsReplay, Sent;
    var watches, sent := FollowAll(place, sys.events), LastUpdate(Sent(sys), sub.product);
    assert Sent(Next(place, sub, sys, Replay(joining, order))) == Sent(sys) by {
      SameSent(sys, Next(place, sub, sys, Replay(joining, order)));
    }
    SentIsOwn(sys, sub.product);
    ReplayLast(Sent(sys), order, sub.product);
    if joining == Some(sub) {
      JoinKeeps(place, sub, sent, sys.channels, order, watches);
    } else {
      if joining.Some? { OpenKeeps(place, sub, sent, sys.channels, watches, joining.value); }
      var channels := if joining.Some? then sys.channels[joining.value := []] else sys.channels;
      DeliverKeeps(place, sub, sent, sent, channels, order, watches);
    }
  }

  lemma SameSent(a: System, b: System)
    requires a.dir == b.dir && a.sent == b.sent
    ensures Sent(a) == Sent(b)
  {}

  lemma QuietIsEmpty(dir: State, key: Key)
    requires Idle(dir) && key.domain == dir.domain && Quiet(dir, key)
    ensures dir.Listed(key) == []
  {
    hide LastUpdate;
    assert Covered(dir, dir.Own(key.id)) && dir.Own(key.id) == key;
  }

  lemma LookUpKeeps(place: Place, sub: Sub, sys: System)
    requires Inv(place, sub, sys)
    ensures Inv(place, sub, Next(place, sub, sys, LookUp))
  {
    hide LastUpdate, FollowAll, Fed, OnTheWay, Quiet, OwnUpdates, Idle, Sent;
    SameSent(sys, Next(place, sub, sys, LookUp));
    if Quiet(sys.dir, sub.product) { QuietIsEmpty(sys.dir, sub.product); }
  }

  lemma FollowMore(place: Place, events: seq<Event>, e: Event)
    ensures FollowAll(place, events + [e]) == Follow(FollowAll(place, events), place, e)
  {
    assert (events + [e])[..|events|] == events;
  }

  lemma JoinedNothing(place: Place)
    ensures Joined(map[], Trimmed([], place.componentId, place.ip)) == map[]
    ensures Target(place, []) == map[]
  {}

  lemma {:induction false} JoinedSame(connections: map<string, nat>, list: seq<Publisher>)
    ensures Joined(connections, list) == connections <==> forall k | 0 <= k < |list| :: list[k].Url() in connections
    ensures forall url | url in connections :: url in Joined(connections, list)
    ensures forall k | 0 <= k < |list| :: list[k].Url() in Joined(connections, list)
  {
    if list != [] {
      var init, p := list[..|list| - 1], list[|list| - 1];
      JoinedSame(connections, init);
      assert forall k | 0 <= k < |init| :: init[k] == list[k];
    }
  }

  /** What a subscriber's answer does to the connections. */
  lemma SubscribeJoins(place: Place, events: seq<Event>, sub: Sub, receiveCached: bool, subscriber: nat,
                       answer: seq<Publisher>)
    ensures var watches := FollowAll(place, events);
            var watches' := FollowAll(place, events + [Subscribe(sub, receiveCached, subscriber, answer)]);
            var connections := if sub in watches then watches[sub].connections else map[];
            sub in watches'
                && watches'[sub].connections == Joined(connections, Trimmed(answer, place.componentId, place.ip))
  {
    hide FollowAll, Trimmed, Joined;
    FollowMore(place, events, Subscribe(sub, receiveCached, subscriber, answer));
  }

  lemma SubscribeKeeps(place: Place, sub: Sub, sys: System, receiveCached: bool, subscriber: nat)
    requires Inv(place, sub, sys) && Allowed(place, sub, sys, SubscribeWith(receiveCached, subscriber))
    ensures Inv(place, sub, Next(place, sub, sys, SubscribeWith(receiveCached, subscriber)))
  {
    hide LastUpdate, FollowAll, Fed, Quiet, OwnUpdates, Idle, Sent, Trimmed, Joined, UnderWay, Target;
    var answer := sys.answer.value;
    SameSent(sys, Next(place, sub, sys, SubscribeWith(receiveCached, subscriber)));
    SubscribeJoins(place, sys.events, sub, receiveCached, subscriber, answer);
    JoinedNothing(place);
    var watches := FollowAll(place, sys.events);
    if sub in watches { JoinedSame(watches[sub].connections, Trimmed(answer, place.componentId, place.ip)); }
  }

  /** Reading the first update of a channel. */
  lemma ConsumeFeeds(place: Place, sub: Sub, sent: Option<seq<Publisher>>, channels: map<Sub, seq<Update>>, from: Sub,
                     watches: map<Sub, Watch>)
    requires sub.product.id != "" && from in channels && channels[from] != []
    requires Fed(sent, channels, sub.product) && OnTheWay(place, sub, sent, channels, watches)
    ensures var u, channels' := channels[from][0], channels[from := channels[from][1..]];
            && Fed(sent, channels', sub.product)
            && OnTheWay(place, sub, sent, channels', Follow(watches, place, Event.Update(u.key, u.publishers)))
  {
    var u, key := channels[from][0], sub.product;
    var channels' := channels[from := channels[from][1..]];
    LastUpdateTail(channels[from], key);
    hide LastUpdate, Wanted, Trimmed;
    var watches' := Follow(watches, place, Event.Update(u.key, u.publishers));
    assert sub in watches ==>
        (sub in watches'
         && watches'[sub].connections ==
            if u.key == key then Target(place, u.publishers) else watches[sub].connections);
    hide Follow, Target;
    if sub in channels && sent.Some? && UnderWay(channels, key) {
      if u.key != key || LastUpdate(channels'[from], key).Some? {
        StillUnderWay(channels, channels', key);
      } else {
        assert LastUpdate(channels[from], key) == Some(u.publishers);
      }
    }
  }

  lemma StillUnderWay(channels: map<Sub, seq<Update>>, channels': map<Sub, seq<Update>>, key: Key)
    requires UnderWay(channels, key)
    requires forall c | c in channels && LastUpdate(channels[c], key).Some? ::
               c in channels' && LastUpdate(channels'[c], key).Some?
    ensures UnderWay(channels', key)
  {
    var c :| c in channels && LastUpdate(channels[c], key).Some?;
  }

  lemma ConsumeQuiet(place: Place, sub: Sub, sys: System, from: Sub)
    requires Inv(place, sub, sys) && from in sys.channels && sys.channels[from] != [] && Quiet(sys.dir, sub.product)
    ensures sys.channels[from][0].key != sub.product
  {
    hide FollowAll, OnTheWay, OwnUpdates, Idle, Follow;
    LastUpdateTail(sys.channels[from], sub.product);
    if LastUpdate(Sent(sys), sub.product).Some? { LastUpdateStays(Sent(sys), sys.dir.updates, sub.product); }
    hide LastUpdate;
  }

  lemma ConsumeKeeps(place: Place, sub: Sub, sys: System, from: Sub)
    requires Inv(place, sub, sys)
    ensures Inv(place, sub, Next(place, sub, sys, Consume(from)))
  {
    hide LastUpdate, FollowAll, Fed, OnTheWay, Quiet, OwnUpdates, Idle, Sent, Trimmed, Wanted;
    if from in sys.channels && sys.channels[from] != [] {
      var u := sys.channels[from][0];
      SameSent(sys, Next(place, sub, sys, Consume(from)));
      FollowMore(place, sys.events, Event.Update(u.key, u.publishers));
      ConsumeFeeds(place, sub, LastUpdate(Sent(sys), sub.product), sys.channels, from, FollowAll(place, sys.events));
      if Quiet(sys.dir, sub.product) { ConsumeQuiet(place, sub, sys, from); }
    }
  }

  predicate Ignorable(place: Place, sub: Sub, sys: System, event: Event) {
    match event
    case Subscribe(s, _, _, _) => s != sub
    case Unsubscribe(s, _) => true
    case Update(_, _) => false
    case Data(s, url, products) => s != sub || Matching(place, sub, sys.events, url, products)
  }

  /** Most other events leave the subscription's connections alone. */
  lemma OthersAreIgnored(place: Place, sub: Sub, sys: System, event: Event)
    requires Ignorable(place, sub, sys, event)
    ensures var watches, watches' := FollowAll(place, sys.events), FollowAll(place, sys.events + [event]);
            && (sub in watches' ==> sub in watches && watches'[sub].connections == watches[sub].connections)
            && (sub in watches && sub !in watches' ==> event.Unsubscribe? && event.sub == sub)
  {
    hide FollowAll, Trimmed, Wanted, Joined, LastUpdate;
    FollowMore(place, sys.events, event);
  }

  lemma FedFewer(sent: Option<seq<Publisher>>, channels: map<Sub, seq<Update>>, key: Key, c: Sub)
    requires Fed(sent, channels, key)
    ensures Fed(sent, channels - {c}, key)
  {
    hide LastUpdate;
  }

  /** Closing an update socket. */
  lemma CloseKeeps(place: Place, sub: Sub, sys: System, event: Event)
    requires Inv(place, sub, sys) && Harmless(place, sub, sys, event)
    requires event.Unsubscribe? && event.sub !in FollowAll(place, sys.events + [event])
    ensures OnTheWay(place, sub, LastSent(sys, sub.product), sys.channels - {event.sub},
                     FollowAll(place, sys.events + [event]))
  {
    hide LastUpdate, FollowAll, Fed, Quiet, OwnUpdates, Idle, Sent, UnderWay, Target;
    OthersAreIgnored(place, sub, sys, event);
    if event.sub !in sys.channels { assert sys.channels - {event.sub} == sys.channels; }
  }

  lemma ManageKeeps(place: Place, sub: Sub, sys: System, event: Event)
    requires Inv(place, sub, sys) && Harmless(place, sub, sys, event)
    ensures Inv(place, sub, Next(place, sub, sys, Manage(event)))
  {
    hide LastUpdate, FollowAll, Fed, OnTheWay, Quiet, OwnUpdates, Idle, Sent, Undecided, SafeToClose, Matching;
    SameSent(sys, Next(place, sub, sys, Manage(event)));
    var sent := LastSent(sys, sub.product);
    var watches, watches' := FollowAll(place, sys.events), FollowAll(place, sys.events + [event]);
    if event.Unsubscribe? && event.sub !in watches' {
      OthersAreIgnored(place, sub, sys, event);
      CloseKeeps(place, sub, sys, event);
      FedFewer(sent, sys.channels, sub.product, event.sub);
    } else if event.Data? && event.from == sub && !Matching(place, sub, sys.events, event.url, event.products) {
      MismatchKeeps(place, sub, sys, event);
    } else {
      OthersAreIgnored(place, sub, sys, event);
      SameWay(place, sub, sent, sys.channels, watches, watches');
    }
  }

  /** Mismatched data, when an update will put it right. */
  lemma MismatchKeeps(place: Place, sub: Sub, sys: System, event: Event)
    requires Inv(place, sub, sys) && event.Data? && event.from == sub
    requires !Matching(place, sub, sys.events, event.url, event.products)
    requires Undecided(sub, LastSent(sys, sub.product), sys.channels)
    ensures var watches' := FollowAll(place, sys.events + [event]);
            OnTheWay(place, sub, LastSent(sys, sub.product), sys.channels, watches')
            && (sub in watches' && Quiet(sys.dir, sub.product) ==> watches'[sub].connections == map[])
  {
    hide LastUpdate, FollowAll, Fed, Quiet, OwnUpdates, Idle, Sent, UnderWay, Target;
    FollowMore(place, sys.events, event);
  }

  lemma SameWay(place: Place, sub: Sub, sent: Option<seq<Publisher>>, channels: map<Sub, seq<Update>>,
                watches: map<Sub, Watch>, watches': map<Sub, Watch>)
    requires OnTheWay(place, sub, sent, channels, watches)
    requires sub in watches ==> sub in watches' && watches'[sub].connections == watches[sub].connections
    ensures OnTheWay(place, sub, sent, channels, watches')
  {
    hide UnderWay, Target;
  }

  lemma {:induction false} RunsKeep(place: Place, sub: Sub, domain: string, actions: seq<Action>)
    requires sub.product.domain == domain && sub.product.id != "" && AllAllowed(place, sub, domain, actions)
    ensures Inv(place, sub, Play(place, sub, domain, actions))
  {
    hide Inv, Allowed, Next;
    if actions == [] {
      StartKeeps(place, sub, domain);
    } else {
      var init, action := actions[..|actions| - 1], actions[|actions| - 1];
      RunsKeep(place, sub, domain, init);
      NextKeeps(place, sub, Play(place, sub, domain, init), action);
    }
  }

  lemma StartKeeps(place: Place, sub: Sub, domain: string)
    requires sub.product.domain == domain && sub.product.id != ""
    ensures Inv(place, sub, System(Fresh(domain), 0, map[], [], None))
  {
    assert Idle(Fresh(domain)) by { RunsAreIdle(domain, []); }
  }

  lemma NextKeeps(place: Place, sub: Sub, sys: System, action: Action)
    requires Inv(place, sub, sys) && Allowed(place, sub, sys, action)
    ensures Inv(place, sub, Next(place, sub, sys, action))
  {
    hide Inv, Next, Harmless, IsReplay, FollowAll;
    match action
    case Serve(request) =>
      assert OneDomain(sys.dir.domain, request);
      ServeKeeps(place, sub, sys, request);
    case Send => SendKeeps(place, sub, sys);
    case LookUp => LookUpKeeps(place, sub, sys);
    case SubscribeWith(receiveCached, subscriber) => SubscribeKeeps(place, sub, sys, receiveCached, subscriber);
    case Replay(joining, order) => ReplayKeeps(place, sub, sys, joining, order);
    case Consume(from) => ConsumeKeeps(place, sub, sys, from);
    case Manage(event) => ManageKeeps(place, sub, sys, event);
  }

  /** Everything sent has been consumed. */
  predicate Settled(sys: System) {
    sys.sent == |sys.dir.updates| && forall c | c in sys.channels :: sys.channels[c] == []
  }

  lemma SettledIsRight(place: Place, sub: Sub, sys: System)
    requires Inv(place, sub, sys) && Settled(sys) && sys.dir.processed && sub in sys.channels
    ensures sub in FollowAll(place, sys.events)
    ensures FollowAll(place, sys.events)[sub].connections == Target(place, sys.dir.Listed(sub.product))
    ensures Publishers(sys.dir, sub.product) == sys.dir.Listed(sub.product)
  {
    hide FollowAll, Target, OwnUpdates;
    assert Sent(sys) == sys.dir.updates;
    NothingSent(sub.product);
    assert !UnderWay(sys.channels, sub.product);
    assert Covered(sys.dir, sys.dir.Own(sub.product.id)) && sys.dir.Own(sub.product.id) == sub.product;
    hide LastUpdate;
    if LastUpdate(Sent(sys), sub.product).None? {
      QuietIsEmpty(sys.dir, sub.product);
      JoinedNothing(place);
    }
  }

  /** End to end: whatever registrations, unregistrations, lookups, subscriptions and replays come in whatever
      order, and however far the streams lag behind, once everything sent has been consumed the subscription is
      connected to exactly the publishers that trimming the directory's list leaves, at their registration times. */
  lemma SubscriptionsReachTheirPublishers(place: Place, sub: Sub, domain: string, actions: seq<Action>)
    requires sub.product.domain == domain && sub.product.id != "" && AllAllowed(place, sub, domain, actions)
    ensures var sys := Play(place, sub, domain, actions);
            Settled(sys) && sys.dir.processed && sub in sys.channels ==>
              (sub in FollowAll(place, sys.events)
               && FollowAll(place, sys.events)[sub].connections
                  == Wanted(Trimmed(Publishers(sys.dir, sub.product), place.componentId, place.ip)))
  {
    hide Inv, FollowAll, Play, AllAllowed, Settled;
    RunsKeep(place, sub, domain, actions);
    var sys := Play(place, sub, domain, actions);
    if Settled(sys) && sys.dir.processed && sub in sys.channels { SettledIsRight(place, sub, sys); }
  }

  /** What a lookup answers. */
  function Publishers(dir: State, key: Key): seq<Publisher> {
    match Reply(dir, Lookup(key.id, Kind.Data, Some(key.domain)))
    case Publishers(_, list) => list
    case _ => []
  }

  /** And so are the sockets of the subscription manager that has seen these events. */
  lemma SocketsReachTheirPublishers(place: Place, sub: Sub, domain: string, actions: seq<Action>, st: Tables)
    requires sub.product.domain == domain && sub.product.id != "" && AllAllowed(place, sub, domain, actions)
    requires var sys := Play(place, sub, domain, actions);
             Settled(sys) && sys.dir.processed && sub in sys.channels && Reaches(place, sys.events, st)
    ensures Consistent(st) && sub in st.subscriptions
    ensures WatchOf(st, sub).connections
         == Wanted(Trimmed(Publishers(Play(place, sub, domain, actions).dir, sub.product), place.componentId, place.ip))
  {
    hide Consistent, FollowAll, Play, AllAllowed, Settled, WatchOf, Reaches;
    var sys := Play(place, sub, domain, actions);
    SubscriptionsReachTheirPublishers(place, sub, domain, actions);
    RunsFollow(place, sys.events, st);
    assert sub in Watches(st);
  }
}
