/** Exactly when a second subscriber, a closed subscription or mismatched data break the end-to-end result. */
module EndToEndLimits {
  import opened Common
  import opened Directory
  import opened DirectoryStreams
  import opened Relays
  import opened Subscriptions
  import opened Subscribing
  import opened Watching
  import opened EndToEnd

  /** The manager reads its update sockets, in this order, while nothing is sent. */
  function Drain(place: Place, sub: Sub, sys: System, order: seq<Sub>): System {
    if order == [] then sys
    else EndToEnd.Next(place, sub, Drain(place, sub, sys, order[..|order| - 1]), Consume(order[|order| - 1]))
  }

  /** The connections of the subscription. */
  function ConnectionsOf(place: Place, sub: Sub, sys: System): map<string, nat> {
    var watches := FollowAll(place, sys.events);
    if sub in watches then watches[sub].connections else map[]
  }

  /** The last list sent has reached the subscription, or is on its way to it. */
  ghost predicate Approaches(place: Place, sub: Sub, sys: System, list: seq<Publisher>) {
    UnderWay(sys.channels, sub.product) || ConnectionsOf(place, sub, sys) == Target(place, list)
  }

  /** A state in which the subscription's update socket is connected and list is the last one sent. */
  ghost predicate Listening(place: Place, sub: Sub, sys: System, list: seq<Publisher>) {
    && sub.product.id != "" && sub in sys.channels && sub in FollowAll(place, sys.events)
    && LastSent(sys, sub.product) == Some(list) && Fed(Some(list), sys.channels, sub.product)
  }

  lemma ConsumeListens(place: Place, sub: Sub, sys: System, list: seq<Publisher>, from: Sub)
    requires Listening(place, sub, sys, list)
    ensures var next := EndToEnd.Next(place, sub, sys, Consume(from));
            && Listening(place, sub, next, list)
            && (Approaches(place, sub, sys, list) ==> Approaches(place, sub, next, list))
            && (!UnderWay(sys.channels, sub.product) ==>
                  !UnderWay(next.channels, sub.product)
                  && ConnectionsOf(place, sub, next) == ConnectionsOf(place, sub, sys))
  {
    hide LastUpdate, FollowAll, Fed, Sent, Target, UnderWay, Trimmed, Wanted;
    if from in sys.channels && sys.channels[from] != [] {
      var u := sys.channels[from][0];
      SameSent(sys, EndToEnd.Next(place, sub, sys, Consume(from)));
      FollowMore(place, sys.events, Event.Update(u.key, u.publishers));
      ConsumeKeepsFeeding(place, sub, list, sys.channels, from, FollowAll(place, sys.events));
      if !UnderWay(sys.channels, sub.product) { ConsumeIsIdle(sys.channels, from, sub.product); }
    }
  }

  lemma ConsumeKeepsFeeding(place: Place, sub: Sub, list: seq<Publisher>, channels: map<Sub, seq<Update>>, from: Sub,
                            watches: map<Sub, Watch>)
    requires sub.product.id != "" && from in channels && channels[from] != [] && sub in watches
    requires Fed(Some(list), channels, sub.product)
    ensures var channels', u := channels[from := channels[from][1..]], channels[from][0];
            var watches' := Follow(watches, place, Event.Update(u.key, u.publishers));
            && Fed(Some(list), channels', sub.product) && sub in watches'
            && (UnderWay(channels, sub.product) || watches[sub].connections == Target(place, list) ==>
                  UnderWay(channels', sub.product) || watches'[sub].connections == Target(place, list))
            && (u.key != sub.product ==> watches'[sub].connections == watches[sub].connections)
  {
    var u, key := channels[from][0], sub.product;
    var channels' := channels[from := channels[from][1..]];
    LastUpdateTail(channels[from], key);
    hide LastUpdate, Wanted, Trimmed;
    if UnderWay(channels, key) && (u.key != key || LastUpdate(channels'[from], key).Some?) {
      StillUnderWay(channels, channels', key);
    }
  }

  lemma ConsumeIsIdle(channels: map<Sub, seq<Update>>, from: Sub, key: Key)
    requires from in channels && channels[from] != [] && !UnderWay(channels, key)
    ensures channels[from][0].key != key && !UnderWay(channels[from := channels[from][1..]], key)
  {
    LastUpdateTail(channels[from], key);
    hide LastUpdate;
  }

  /** Reading on does not make up for what is not under way. */
  lemma {:induction false} DrainsExactly(place: Place, sub: Sub, sys: System, list: seq<Publisher>, order: seq<Sub>)
    requires Listening(place, sub, sys, list)
    ensures var after := Drain(place, sub, sys, order);
            && Listening(place, sub, after, list)
            && (Approaches(place, sub, sys, list) ==> Approaches(place, sub, after, list))
            && (!UnderWay(sys.channels, sub.product) ==>
                  !UnderWay(after.channels, sub.product)
                  && ConnectionsOf(place, sub, after) == ConnectionsOf(place, sub, sys))
  {
    hide Listening, Approaches, UnderWay, ConnectionsOf, EndToEnd.Next;
    if order != [] {
      var init := order[..|order| - 1];
      DrainsExactly(place, sub, sys, list, init);
      ConsumeListens(place, sub, Drain(place, sub, sys, init), list, order[|order| - 1]);
    }
  }

  /** With nothing sent meanwhile, everything read leaves the subscription with the last list sent exactly if that
      list has reached it already or is under way. */
  lemma DrainedExactly(place: Place, sub: Sub, sys: System, list: seq<Publisher>, order: seq<Sub>)
    requires Listening(place, sub, sys, list)
    requires !UnderWay(Drain(place, sub, sys, order).channels, sub.product)
    ensures ConnectionsOf(place, sub, Drain(place, sub, sys, order)) == Target(place, list) <==>
            Approaches(place, sub, sys, list)
  {
    hide Listening, UnderWay, ConnectionsOf, Target, Drain;
    DrainsExactly(place, sub, sys, list, order);
  }

  lemma InvListens(place: Place, sub: Sub, sys: System, list: seq<Publisher>)
    requires Inv(place, sub, sys) && sub in sys.channels && LastSent(sys, sub.product) == Some(list)
    ensures Listening(place, sub, sys, list) && Approaches(place, sub, sys, list)
  {
    hide LastUpdate, FollowAll, Fed, Sent, Target, UnderWay, Quiet, OwnUpdates, Idle;
  }

  /** A state that a run has reached. */
  ghost predicate Reachable(place: Place, sub: Sub, sys: System) {
    exists actions :: AllAllowed(place, sub, sub.product.domain, actions)
                      && sys == Play(place, sub, sub.product.domain, actions)
  }

  lemma ReachableInv(place: Place, sub: Sub, sys: System)
    requires sub.product.id != "" && Reachable(place, sub, sys)
    ensures Inv(place, sub, sys)
  {
    hide Inv, AllAllowed, Play;
    var actions :| AllAllowed(place, sub, sub.product.domain, actions)
        && sys == Play(place, sub, sub.product.domain, actions);
    RunsKeep(place, sub, sub.product.domain, actions);
  }

  /** Another subscription is closed in the course of a run: once everything is read, and nothing sent meanwhile, the
      subscription has the last list sent if and only if it was safe to close. */
  lemma ClosingExactly(place: Place, sub: Sub, sys: System, c: Sub, subscriber: nat, order: seq<Sub>)
    requires sub.product.id != "" && Reachable(place, sub, sys) && sub in sys.channels
             && LastSent(sys, sub.product).Some? && c != sub
    requires c !in FollowAll(place, sys.events + [Unsubscribe(c, subscriber)])
    requires var closed := EndToEnd.Next(place, sub, sys, Manage(Unsubscribe(c, subscriber)));
             !UnderWay(Drain(place, sub, closed, order).channels, sub.product)
    ensures var closed := EndToEnd.Next(place, sub, sys, Manage(Unsubscribe(c, subscriber)));
            ConnectionsOf(place, sub, Drain(place, sub, closed, order)) ==
                Target(place, LastSent(sys, sub.product).value)
            <==> SafeToClose(place, sub, sys, c)
  {
    hide Inv, Reachable, LastUpdate, FollowAll, Fed, Sent, Target, UnderWay, Drain;
    ReachableInv(place, sub, sys);
    var list := LastSent(sys, sub.product).value;
    var event := Unsubscribe(c, subscriber);
    var closed := EndToEnd.Next(place, sub, sys, Manage(event));
    InvListens(place, sub, sys, list);
    SameSent(sys, closed);
    OthersAreIgnored(place, sub, sys, event);
    FedFewer(Some(list), sys.channels, sub.product, c);
    DrainedExactly(place, sub, closed, list, order);
  }

  /** Another subscriber comes with a lookup answer: the same if and only if the answer is good. */
  lemma SecondSubscriberExactly(place: Place, sub: Sub, sys: System, receiveCached: bool, subscriber: nat,
                                order: seq<Sub>)
    requires sub.product.id != "" && Reachable(place, sub, sys) && sub in sys.channels
    requires LastSent(sys, sub.product).Some? && sys.answer.Some?
    requires var joined := EndToEnd.Next(place, sub, sys, SubscribeWith(receiveCached, subscriber));
             !UnderWay(Drain(place, sub, joined, order).channels, sub.product)
    ensures var joined := EndToEnd.Next(place, sub, sys, SubscribeWith(receiveCached, subscriber));
            ConnectionsOf(place, sub, Drain(place, sub, joined, order)) ==
                Target(place, LastSent(sys, sub.product).value)
            <==> GoodAnswer(place, sub, sys, sys.answer.value)
  {
    hide Inv, Reachable, LastUpdate, FollowAll, Fed, Sent, Target, UnderWay, Drain, Trimmed, Joined;
    ReachableInv(place, sub, sys);
    var list, answer := LastSent(sys, sub.product).value, sys.answer.value;
    var joined := EndToEnd.Next(place, sub, sys, SubscribeWith(receiveCached, subscriber));
    InvListens(place, sub, sys, list);
    SameSent(sys, joined);
    SubscribeJoins(place, sys.events, sub, receiveCached, subscriber, answer);
    JoinedSame(ConnectionsOf(place, sub, sys), Trimmed(answer, place.componentId, place.ip));
    DrainedExactly(place, sub, joined, list, order);
  }

  /** The subscription's own data carry a registration time: the same if and only if it is the expected one, or an
      update will put right what the mismatch disconnects. */
  lemma MismatchExactly(place: Place, sub: Sub, sys: System, url: string, products: seq<Product>, order: seq<Sub>)
    requires sub.product.id != "" && Reachable(place, sub, sys) && sub in sys.channels
    requires LastSent(sys, sub.product).Some?
    requires var heard := EndToEnd.Next(place, sub, sys, Manage(Event.Data(sub, url, products)));
             !UnderWay(Drain(place, sub, heard, order).channels, sub.product)
    ensures var heard := EndToEnd.Next(place, sub, sys, Manage(Event.Data(sub, url, products)));
            ConnectionsOf(place, sub, Drain(place, sub, heard, order)) ==
                Target(place, LastSent(sys, sub.product).value)
            <==> Harmless(place, sub, sys, Event.Data(sub, url, products))
  {
    hide Inv, Reachable, LastUpdate, FollowAll, Fed, Sent, Target, UnderWay, Drain;
    ReachableInv(place, sub, sys);
    var list, event := LastSent(sys, sub.product).value, Event.Data(sub, url, products);
    var heard := EndToEnd.Next(place, sub, sys, Manage(event));
    InvListens(place, sub, sys, list);
    SameSent(sys, heard);
    MismatchDisconnects(place, sub, sys.events, url, products);
    DrainedExactly(place, sub, heard, list, order);
  }

  lemma MismatchDisconnects(place: Place, sub: Sub, events: seq<Event>, url: string, products: seq<Product>)
    requires sub in FollowAll(place, events)
    ensures var watches := FollowAll(place, events);
            var watches' := FollowAll(place, events + [Event.Data(sub, url, products)]);
            sub in watches'
            && (Matching(place, sub, events, url, products) ==> watches'[sub].connections == watches[sub].connections)
            && (!Matching(place, sub, events, url, products) ==>
                  watches'[sub].connections == watches[sub].connections - {url} != watches[sub].connections)
  {
    hide FollowAll;
    FollowMore(place, events, Event.Data(sub, url, products));
    if !Matching(place, sub, events, url, products) {
      assert url in FollowAll(place, events)[sub].connections;
    }
  }
}
