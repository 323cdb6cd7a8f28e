/** Runs that end with the wrong connections. */
module EndToEndExamples {
  import opened Common
  import opened Directory
  import opened DirectoryStreams
  import opened DirectoryTimes
  import opened DirectoryExamples
  import opened Relays
  import opened Subscriptions
  import opened Watching
  import opened EndToEnd

  const DOMAIN := "Home"
  const PRODUCT := Key(DOMAIN, "P")
  const REGISTRAR := Key(DOMAIN, REGISTERED_PUBLISHERS)
  const HERE := Subscribing.Place("C", "10.0.0.1")
  const OURS := Sub(PRODUCT, "")
  const THEIRS := Sub(PRODUCT, "x")

  const A := Listing("tcp://a:1", 2)
  const B := Listing("tcp://b:1", 3)

  const StartUp := Publication(REGISTERED_PUBLISHERS, "tcp://sd:1", 1000000, None)
  const JoinA := Publication("P", "tcp://a:1", 2000000, None)
  const JoinB := Publication("P", "tcp://b:1", 3000000, None)
  const LeaveA := Unregister(Unregistration("P", "tcp://a:1", Data, None, 2))

  function Owned(url: string): Owner {
    Owner(if url == "tcp://sd:1" then REGISTRAR else PRODUCT, Data)
  }

  const U0 := Update(REGISTRAR, [Listing("tcp://sd:1", 1)])
  const U1 := Update(PRODUCT, [A])
  const U2 := Update(PRODUCT, [A, B])

  // ----- the directory

  lemma Started()
    ensures var st := Step(Fresh(DOMAIN), StartUp);
            Up(Owned, st) && st.domain == DOMAIN && st.updates == [U0] && st.Listed(PRODUCT) == []
  {
    hide Up, Step;
    DirectoryStarts(Owned, DOMAIN, "tcp://sd:1", 1000000);
  }

  lemma AJoined(st: State)
    requires Up(Owned, st) && st.domain == DOMAIN && st.updates == [U0] && st.Listed(PRODUCT) == []
    ensures var st' := Step(st, JoinA);
            Up(Owned, st') && st'.domain == DOMAIN && st'.updates == [U0, U1] && st'.Listed(PRODUCT) == [A]
  {
    hide Up, Step;
    PublisherJoins(Owned, st, "P", "tcp://a:1", 2000000);
    assert [] + [A] == [A] && [U0] + [U1] == [U0, U1];
  }

  lemma BJoined(st: State)
    requires Up(Owned, st) && st.domain == DOMAIN && st.updates == [U0, U1] && st.Listed(PRODUCT) == [A]
    ensures var st' := Step(st, JoinB);
            Up(Owned, st') && st'.domain == DOMAIN && st'.updates == [U0, U1, U2] && st'.Listed(PRODUCT) == [A, B]
  {
    hide Up, Step;
    assert A.Url() == "tcp://a:1";
    assert "tcp://a:1"[6] != "tcp://b:1"[6];
    PublisherJoins(Owned, st, "P", "tcp://b:1", 3000000);
    assert [A] + [B] == [A, B] && [U0, U1] + [U2] == [U0, U1, U2];
  }

  lemma ALeft(st: State)
    requires Up(Owned, st) && st.domain == DOMAIN && st.updates == [U0, U1] && st.Listed(PRODUCT) == [A]
    ensures var st' := Step(st, LeaveA);
            Up(Owned, st') && st'.domain == DOMAIN && st'.updates == [U0, U1, Update(PRODUCT, [])]
                && st'.Listed(PRODUCT) == []
  {
    hide Up, Step;
    PublisherLeaves(Owned, st, "P", "tcp://a:1", 2);
    assert [U0, U1] + [Update(PRODUCT, [])] == [U0, U1, Update(PRODUCT, [])];
  }

  // ----- what the lists ask for

  lemma {:induction false} OnlySources(list: seq<Publisher>, ip: string)
    requires forall k | 0 <= k < |list| :: IsSource(list[k])
    ensures Sources(list) == list && Locals(list, ip) == [] && Globals(list) == []
  {
    hide IsSource, IsLocal, IsGlobal;
    if list != [] {
      var init, p := list[..|list| - 1], list[|list| - 1];
      assert forall k | 0 <= k < |init| :: init[k] == list[k];
      OnlySources(init, ip);
      SourceIsNoRelay(p, ip);
      assert list == init + [p];
    }
  }

  lemma SourceIsNoRelay(p: Publisher, ip: string)
    requires IsSource(p)
    ensures !IsLocal(p, ip) && !IsGlobal(p)
  {}

  lemma NoRelays(list: seq<Publisher>, componentId: string, ip: string)
    requires forall k | 0 <= k < |list| :: IsSource(list[k])
    ensures Trimmed(list, componentId, ip) == list
  {
    hide Sources, Locals, Globals;
    OnlySources(list, ip);
  }

  lemma Targets()
    ensures Target(HERE, []) == map[] && Target(HERE, [A]) == map["tcp://a:1" := 2]
    ensures Target(HERE, [A, B]) == map["tcp://a:1" := 2, "tcp://b:1" := 3] != Target(HERE, [A])
    ensures Trimmed([A], HERE.componentId, HERE.ip) == [A]
  {
    NoRelays([], HERE.componentId, HERE.ip);
    NoRelays([A], HERE.componentId, HERE.ip);
    NoRelays([A, B], HERE.componentId, HERE.ip);
    hide Trimmed;
    assert [A][..0] == [] && [A, B][..1] == [A];
    assert Wanted([A]) == map["tcp://a:1" := 2];
    assert "tcp://a:1"[6] != "tcp://b:1"[6];
    assert "tcp://b:1" !in map["tcp://a:1" := 2];
  }

  // ----- the run

  lemma PlayMore(actions: seq<Action>, a: Action)
    ensures Play(HERE, OURS, DOMAIN, actions + [a]) == EndToEnd.Next(HERE, OURS, Play(HERE, OURS, DOMAIN, actions), a)
  {
    hide EndToEnd.Next;
    assert (actions + [a])[..|actions|] == actions;
  }

  const OurSubscription := Subscribing.Subscribe(OURS, true, 1, [])
  const TheirSubscription := Subscribing.Subscribe(THEIRS, true, 2, [])

  /** The directory starts, and two filters of a product without publishers are subscribed to. */
  function Opening(): seq<Action> {
    []
    + [Serve(StartUp)] + [Send] + [LookUp] + [SubscribeWith(true, 1)] + [Manage(TheirSubscription)]
    + [Replay(Some(OURS), [U0])] + [Replay(Some(THEIRS), [U0])]
  }

  lemma PassingOne(c: Sub, u: Update)
    ensures Passing(c, [u]) == if c.product.id <= u.key.id then [u] else []
  {
    assert [u][..0] == [];
  }

  lemma DeliverToBoth(ours: seq<Update>, theirs: seq<Update>, u: Update)
    ensures Deliver(map[OURS := ours, THEIRS := theirs], [u])
         == if u.key == PRODUCT then map[OURS := ours + [u], THEIRS := theirs + [u]]
            else if !("P" <= u.key.id) then map[OURS := ours, THEIRS := theirs]
            else Deliver(map[OURS := ours, THEIRS := theirs], [u])
  {
    PassingOne(OURS, u);
    PassingOne(THEIRS, u);
    hide Passing;
    assert ours + [] == ours && theirs + [] == theirs;
  }

  /** An allowed run that ends in this state. */
  ghost predicate Ends(actions: seq<Action>, sys: System) {
    AllAllowed(HERE, OURS, DOMAIN, actions) && Play(HERE, OURS, DOMAIN, actions) == sys
  }

  lemma EndsMore(actions: seq<Action>, sys: System, a: Action)
    requires Ends(actions, sys) && Allowed(HERE, OURS, sys, a)
    ensures Ends(actions + [a], EndToEnd.Next(HERE, OURS, sys, a))
  {
    hide EndToEnd.Next, Allowed;
    assert (actions + [a])[..|actions|] == actions;
  }

  /** With both update sockets connected. */
  function Both(dir: State, sent: nat, ours: seq<Update>, theirs: seq<Update>, events: seq<Subscribing.Event>,
                answer: seq<Publisher>): System
  {
    System(dir, sent, map[OURS := ours, THEIRS := theirs], events, Some(answer))
  }

  lemma Served(actions: seq<Action>, sys: System, request: Request)
    requires Ends(actions, sys) && OneDomain(sys.dir.domain, request)
    ensures Ends(actions + [Serve(request)], sys.(dir := Step(sys.dir, request)))
  {
    hide Ends, Step;
    EndsMore(actions, sys, Serve(request));
  }

  lemma SentToBoth(actions: seq<Action>, dir: State, sent: nat, ours: seq<Update>, theirs: seq<Update>,
                   events: seq<Subscribing.Event>, answer: seq<Publisher>)
    requires Ends(actions, Both(dir, sent, ours, theirs, events, answer))
    requires sent < |dir.updates| && dir.updates[sent].key == PRODUCT
    ensures var u := dir.updates[sent];
            Ends(actions + [Send], Both(dir, sent + 1, ours + [u], theirs + [u], events, answer))
  {
    hide Ends, Deliver;
    EndsMore(actions, Both(dir, sent, ours, theirs, events, answer), Send);
    DeliverToBoth(ours, theirs, dir.updates[sent]);
  }

  lemma ReadOurs(actions: seq<Action>, dir: State, sent: nat, u: Update, ours: seq<Update>, theirs: seq<Update>,
                 events: seq<Subscribing.Event>, answer: seq<Publisher>)
    requires Ends(actions, Both(dir, sent, [u] + ours, theirs, events, answer))
    ensures Ends(actions + [Consume(OURS)],
                 Both(dir, sent, ours, theirs, events + [Subscribing.Event.Update(u.key, u.publishers)], answer))
  {
    hide Ends;
    EndsMore(actions, Both(dir, sent, [u] + ours, theirs, events, answer), Consume(OURS));
    assert ([u] + ours)[1..] == ours;
    assert map[OURS := [u] + ours, THEIRS := theirs][OURS := ours] == map[OURS := ours, THEIRS := theirs];
  }

  lemma ReadTheirs(actions: seq<Action>, dir: State, sent: nat, u: Update, ours: seq<Update>, theirs: seq<Update>,
                   events: seq<Subscribing.Event>, answer: seq<Publisher>)
    requires Ends(actions, Both(dir, sent, ours, [u] + theirs, events, answer))
    ensures Ends(actions + [Consume(THEIRS)],
                 Both(dir, sent, ours, theirs, events + [Subscribing.Event.Update(u.key, u.publishers)], answer))
  {
    hide Ends;
    EndsMore(actions, Both(dir, sent, ours, [u] + theirs, events, answer), Consume(THEIRS));
    assert ([u] + theirs)[1..] == theirs;
    assert OURS.filter != THEIRS.filter;
    assert map[OURS := ours, THEIRS := [u] + theirs][THEIRS := theirs] == map[OURS := ours, THEIRS := theirs];
  }

  // ----- subscribing

  /** Both subscriptions exist, with these connections and one subscriber each. */
  predicate Watched(events: seq<Subscribing.Event>, connections: map<string, nat>) {
    var watches := FollowAll(HERE, events);
    && OURS in watches && watches[OURS] == Watch(connections, {1})
    && THEIRS in watches && watches[THEIRS] == Watch(connections, {2})
  }

  lemma WatchedUpdate(events: seq<Subscribing.Event>, connections: map<string, nat>, list: seq<Publisher>)
    requires Watched(events, connections)
    ensures Watched(events + [Subscribing.Event.Update(PRODUCT, list)], Target(HERE, list))
  {
    hide FollowAll, Trimmed, Wanted;
    FollowMore(HERE, events, Subscribing.Event.Update(PRODUCT, list));
  }

  lemma WatchedAtFirst()
    ensures OURS in FollowAll(HERE, [OurSubscription]) && Watched([OurSubscription] + [TheirSubscription], map[])
  {
    FollowMore(HERE, [], OurSubscription);
    FollowMore(HERE, [OurSubscription], TheirSubscription);
    assert [] + [OurSubscription] == [OurSubscription];
    JoinedNothing(HERE);
    hide FollowAll, Trimmed, Joined;
    assert OURS.filter != THEIRS.filter;
  }

  lemma U0IsCached()
    ensures IsReplay([U0], [U0])
    ensures LastUpdate([U0], PRODUCT) == None
  {
    assert [U0][..0] == [];
  }

  lemma NothingYet()
    ensures Ends([], System(Fresh(DOMAIN), 0, map[], [], None))
  {}

  lemma DeliverNothing(channels: map<Sub, seq<Update>>)
    requires forall c | c in channels :: c.product == PRODUCT
    ensures Deliver(channels, [U0]) == channels
  {
    hide Passing;
    assert REGISTERED_PUBLISHERS[0] != "P"[0];
    forall c | c in channels ensures channels[c] + Passing(c, [U0]) == channels[c] { PassingOne(c, U0); }
  }

  /** Everything up to the first subscription. */
  lemma OpenedDirectory(dir: State)
    requires dir == Step(Fresh(DOMAIN), StartUp)
    ensures Ends([] + [Serve(StartUp)] + [Send] + [LookUp], System(dir, 1, map[], [], Some([])))
  {
    hide Ends, Step, Up, Deliver;
    Started();
    NothingYet();
    var s0 := System(Fresh(DOMAIN), 0, map[], [], None);
    Served([], s0, StartUp);
    var s1 := s0.(dir := dir);
    DeliverNothing(map[]);
    EndsMore([] + [Serve(StartUp)], s1, Send);
    EndsMore([] + [Serve(StartUp)] + [Send], s1.(sent := 1), LookUp);
  }

  /** The opening leads to two connected update sockets with nothing under way. */
  lemma Opened(dir: State)
    requires dir == Step(Fresh(DOMAIN), StartUp)
    ensures Ends(Opening(), Both(dir, 1, [], [], [OurSubscription] + [TheirSubscription], []))
  {
    hide Ends, Step, Up, FollowAll, IsReplay, Deliver, GoodAnswer, Harmless;
    Started();
    OpenedDirectory(dir);
    WatchedAtFirst();
    U0IsCached();
    var a3, s3 := [] + [Serve(StartUp)] + [Send] + [LookUp], System(dir, 1, map[], [], Some([]));
    AllowedAtFirst(s3);
    EndsMore(a3, s3, SubscribeWith(true, 1));
    var a4, s4 := a3 + [SubscribeWith(true, 1)], s3.(events := [OurSubscription]);
    assert [] + [OurSubscription] == [OurSubscription];
    EndsMore(a4, s4, Manage(TheirSubscription));
    var a5, s5 := a4 + [Manage(TheirSubscription)], s4.(events := [OurSubscription] + [TheirSubscription]);
    assert Sent(s5) == [U0];
    DeliverNothing(map[OURS := []]);
    EndsMore(a5, s5, Replay(Some(OURS), [U0]));
    var a6, s6 := a5 + [Replay(Some(OURS), [U0])], s5.(channels := map[OURS := []]);
    assert THEIRS !in s6.channels && Sent(s6) == [U0];
    DeliverNothing(map[OURS := [], THEIRS := []]);
    assert s6.channels[THEIRS := []] == map[OURS := [], THEIRS := []];
    EndsMore(a6, s6, Replay(Some(THEIRS), [U0]));
  }

  lemma AllowedAtFirst(sys: System)
    requires sys.channels == map[] && sys.answer == Some([])
    ensures GoodAnswer(HERE, OURS, sys, []) && Harmless(HERE, OURS, sys, TheirSubscription)
    ensures Harmless(HERE, OURS, sys.(events := [OurSubscription]), TheirSubscription)
  {
    assert OURS.filter != THEIRS.filter;
  }

  // ----- closing

  /** Two publishers join. Our socket is read to its end; theirs is closed when only the first update has been read. */
  function ClosingRun(): seq<Action> {
    Opening()
    + [Serve(JoinA)] + [Send] + [Serve(JoinB)] + [Send]
    + [Consume(OURS)] + [Consume(OURS)] + [Consume(THEIRS)]
  }

  const Close := Manage(Subscribing.Unsubscribe(THEIRS, 2))

  /** Everything up to the closing is allowed. */
  lemma ReadyToClose() returns (dir: State, events: seq<Subscribing.Event>)
    ensures Ends(ClosingRun(), Both(dir, 3, [], [U2], events, []))
    ensures Up(Owned, dir) && dir.updates == [U0, U1, U2] && dir.Listed(PRODUCT) == [A, B] && dir.domain == DOMAIN
    ensures Watched(events, Target(HERE, [A]))
  {
    hide Ends, Step, Up, Watched, Target;
    var d1 := Step(Fresh(DOMAIN), StartUp);
    Started();
    Opened(d1);
    WatchedAtFirst();
    var e0 := [OurSubscription] + [TheirSubscription];
    AJoined(d1);
    var d2 := Step(d1, JoinA);
    var a := Opening();
    Served(a, Both(d1, 1, [], [], e0, []), JoinA);
    a := a + [Serve(JoinA)];
    SentToBoth(a, d2, 1, [], [], e0, []);
    a := a + [Send];
    assert [] + [U1] == [U1];
    BJoined(d2);
    dir := Step(d2, JoinB);
    Served(a, Both(d2, 2, [U1], [U1], e0, []), JoinB);
    a := a + [Serve(JoinB)];
    SentToBoth(a, dir, 2, [U1], [U1], e0, []);
    a := a + [Send];
    assert [U2] + [] == [U2];
    ReadOurs(a, dir, 3, U1, [U2], [U1] + [U2], e0, []);
    WatchedUpdate(e0, map[], [A]);
    var e1 := e0 + [Subscribing.Event.Update(PRODUCT, [A])];
    a := a + [Consume(OURS)];
    ReadOurs(a, dir, 3, U2, [], [U1] + [U2], e1, []);
    WatchedUpdate(e1, Target(HERE, [A]), [A, B]);
    var e2 := e1 + [Subscribing.Event.Update(PRODUCT, [A, B])];
    a := a + [Consume(OURS)];
    ReadTheirs(a, dir, 3, U1, [], [U2], e2, []);
    WatchedUpdate(e2, Target(HERE, [A, B]), [A]);
    events := e2 + [Subscribing.Event.Update(PRODUCT, [A])];
  }

  /** Closing then leaves the subscription without the second publisher, and nothing is under way. */
  lemma ClosingLosesAnUpdate()
    ensures AllAllowed(HERE, OURS, DOMAIN, ClosingRun())
    ensures var sys := Play(HERE, OURS, DOMAIN, ClosingRun() + [Close]);
            && Settled(sys) && sys.dir.processed && OURS in sys.channels && OURS in FollowAll(HERE, sys.events)
            && FollowAll(HERE, sys.events)[OURS].connections == map["tcp://a:1" := 2]
            && Target(HERE, sys.dir.Listed(PRODUCT)) == map["tcp://a:1" := 2, "tcp://b:1" := 3]
  {
    hide Target, FollowAll, ClosingRun, Step, AllAllowed, Trimmed;
    var dir, events := ReadyToClose();
    Targets();
    var sys := Both(dir, 3, [], [U2], events, []);
    PlayMore(ClosingRun(), Close);
    FollowMore(HERE, events, Subscribing.Unsubscribe(THEIRS, 2));
    assert OURS.filter != THEIRS.filter;
    assert {2} - {2} == {};
    assert sys.channels - {THEIRS} == map[OURS := []];
  }

  // ----- subscribing a second time

  lemma LookedUp(actions: seq<Action>, sys: System)
    requires Ends(actions, sys)
    ensures Ends(actions + [LookUp], sys.(answer := Some(sys.dir.Listed(PRODUCT))))
  {
    hide Ends;
    EndsMore(actions, sys, LookUp);
  }

  /** A publisher joins, the directory is asked, and the publisher leaves again. Everything sent is read. */
  function StaleRun(): seq<Action> {
    Opening()
    + [Serve(JoinA)] + [Send] + [LookUp] + [Consume(OURS)] + [Consume(THEIRS)]
    + [Serve(LeaveA)] + [Send] + [Consume(OURS)] + [Consume(THEIRS)]
  }

  /** A publisher has joined, and the answer names it. */
  lemma JoinedAndAsked() returns (a: seq<Action>, dir: State, events: seq<Subscribing.Event>)
    ensures a == Opening() + [Serve(JoinA)] + [Send] + [LookUp] + [Consume(OURS)] + [Consume(THEIRS)]
    ensures Ends(a, Both(dir, 2, [], [], events, [A]))
    ensures Up(Owned, dir) && dir.domain == DOMAIN && dir.updates == [U0, U1] && dir.Listed(PRODUCT) == [A]
    ensures Watched(events, Target(HERE, [A]))
  {
    hide Ends, Step, Up, Watched, Target;
    var d1 := Step(Fresh(DOMAIN), StartUp);
    Started();
    Opened(d1);
    WatchedAtFirst();
    var e0 := [OurSubscription] + [TheirSubscription];
    AJoined(d1);
    dir := Step(d1, JoinA);
    a := Opening();
    Served(a, Both(d1, 1, [], [], e0, []), JoinA);
    a := a + [Serve(JoinA)];
    SentToBoth(a, dir, 1, [], [], e0, []);
    a := a + [Send];
    assert [] + [U1] == [U1] && [U1] + [] == [U1];
    LookedUp(a, Both(dir, 2, [U1], [U1], e0, []));
    a := a + [LookUp];
    ReadOurs(a, dir, 2, U1, [], [U1] + [], e0, [A]);
    WatchedUpdate(e0, map[], [A]);
    var e1 := e0 + [Subscribing.Event.Update(PRODUCT, [A])];
    a := a + [Consume(OURS)];
    ReadTheirs(a, dir, 2, U1, [], [], e1, [A]);
    WatchedUpdate(e1, Target(HERE, [A]), [A]);
    a := a + [Consume(THEIRS)];
    events := e1 + [Subscribing.Event.Update(PRODUCT, [A])];
  }

  /** Everything up to the second subscriber is allowed. */
  lemma ReadyToSubscribe() returns (dir: State, events: seq<Subscribing.Event>)
    ensures Ends(StaleRun(), Both(dir, 3, [], [], events, [A]))
    ensures Up(Owned, dir) && dir.updates == [U0, U1, Update(PRODUCT, [])] && dir.Listed(PRODUCT) == []
    ensures Watched(events, Target(HERE, []))
  {
    hide Ends, Step, Up, Watched, Target, Opening;
    var a, d, e0 := JoinedAndAsked();
    var gone := Update(PRODUCT, []);
    ALeft(d);
    dir := Step(d, LeaveA);
    Served(a, Both(d, 2, [], [], e0, [A]), LeaveA);
    a := a + [Serve(LeaveA)];
    SentToBoth(a, dir, 2, [], [], e0, [A]);
    a := a + [Send];
    assert [] + [gone] == [gone] + [];
    ReadOurs(a, dir, 3, gone, [], [gone] + [], e0, [A]);
    WatchedUpdate(e0, Target(HERE, [A]), []);
    var e1 := e0 + [Subscribing.Event.Update(PRODUCT, [])];
    a := a + [Consume(OURS)];
    ReadTheirs(a, dir, 3, gone, [], [], e1, [A]);
    WatchedUpdate(e1, Target(HERE, []), []);
    events := e1 + [Subscribing.Event.Update(PRODUCT, [])];
  }

  /** A second subscriber who comes with the old answer connects to the publisher that is gone, and nothing is under way
      to put it right. */
  lemma SecondSubscriberConnectsToNobody()
    ensures AllAllowed(HERE, OURS, DOMAIN, StaleRun())
    ensures var sys := Play(HERE, OURS, DOMAIN, StaleRun() + [SubscribeWith(true, 3)]);
            && Settled(sys) && sys.dir.processed && OURS in sys.channels && OURS in FollowAll(HERE, sys.events)
            && FollowAll(HERE, sys.events)[OURS].connections == map["tcp://a:1" := 2]
            && sys.dir.Listed(PRODUCT) == []
  {
    hide Target, FollowAll, StaleRun, Step, AllAllowed, Trimmed;
    var dir, events := ReadyToSubscribe();
    Targets();
    var sys := Both(dir, 3, [], [], events, [A]);
    PlayMore(StaleRun(), SubscribeWith(true, 3));
    FollowMore(HERE, events, Subscribing.Subscribe(OURS, true, 3, [A]));
    JoinsA();
  }

  lemma JoinsA()
    ensures Joined(map[], [A]) == map["tcp://a:1" := 2]
  {
    assert [A][..0] == [];
    assert Joined(map[], [A][..0]) == map[];
  }
}
