/** What the publish manager's calls do to its two maps. */
module PublishCalls {
  import opened Common
  import opened Subscriptions
  import opened Publishing

  // ----- the two maps and what they amount to

  /** PublishDetails, seen from outside. */
  datatype Outlet = Outlet(id: string, caching: bool, hasSubscribers: bool, cache: Cache)

  /** An ID that was looked up without being registered maps to nothing. */
  datatype Outlets = Outlets(
    byId: map<string, Option<Socket>>, bySocket: map<Socket, Outlet>, poll: seq<Socket>, next: Socket)

  /** Response, subscribe, metrics request and metrics data. */
  const FIXED: seq<Socket> := [1, 2, 3, 4]
  const FIRST: Socket := 5

  const Empty: Outlets := Outlets(map[], map[], FIXED, FIRST)

  /** Following a pointer that is not there ends the program. */
  datatype Thread =
    | Running(st: Outlets)
    | Crashed

  function Registered(st: Outlets, id: string, caching: bool): Outlets {
    Outlets(st.byId[id := Some(st.next)], st.bySocket[st.next := Outlet(id, caching, false, map[])],
            st.poll + [st.next], st.next + 1)
  }

  /** The socket of an ID leaves all tables. */
  function Unbound(st: Outlets, id: string, s: Socket): Outlets {
    st.(byId := st.byId - {id}, bySocket := st.bySocket - {s}, poll := Dropped(st.poll, {s}))
  }

  function Unregistered(st: Outlets, id: string): Thread {
    if id !in st.byId then Running(st)
    else if st.byId[id].None? then Crashed
    else Running(Unbound(st, id, st.byId[id].value))
  }

  /** A publication reaches an outlet. */
  function Fed(outlet: Outlet, e: Event): Outlet {
    Outlet(outlet.id, outlet.caching, outlet.hasSubscribers, NextCache(outlet.caching, outlet.cache, e))
  }

  /** operator[] of a std::map: looking an unknown ID up leaves an entry without details. */
  function LookedUp(st: Outlets, id: string): Outlets {
    if id in st.byId then st else st.(byId := st.byId[id := None])
  }

  datatype Call =
    | Register(id: string, caching: bool, bound: bool)
    | Unregister(id: string)
    | Send(id: string, message: Message)
    | SubscribersExist(id: string)
    | Subscribed(s: Socket, newsub: bool)

  function Called(st: Outlets, c: Call): Thread {
    match c
    case Register(id, caching, bound) => Running(if bound then Registered(st, id, caching) else st)
    case Unregister(id) => Unregistered(st, id)
    case Send(id, m) =>
      if id in st.byId && st.byId[id].Some? && st.byId[id].value in st.bySocket then
        var s := st.byId[id].value;
        Running(st.(bySocket := st.bySocket[s := Fed(st.bySocket[s], Event.Publish(m))]))
      else Running(LookedUp(st, id))
    case SubscribersExist(id) => Running(LookedUp(st, id))
    case Subscribed(s, newsub) =>
      if s in st.bySocket then
        Running(st.(bySocket := st.bySocket[s := st.bySocket[s].(hasSubscribers := newsub)]))
      else Crashed
  }

  /** A socket that is not polled is never ready, so the last case above does not occur; see RunsFit. */
  function RunFrom(st: Outlets, calls: seq<Call>): Thread {
    if calls == [] then Running(st)
    else
      match RunFrom(st, calls[..|calls| - 1])
      case Crashed => Crashed
      case Running(before) => Called(before, calls[|calls| - 1])
  }

  function Run(calls: seq<Call>): Thread { RunFrom(Empty, calls) }

  // ----- the maps and the poll vector agree in every run

  ghost predicate Fits(st: Outlets) {
    && (forall id | id in st.byId && st.byId[id].Some? ::
          st.byId[id].value in st.bySocket && st.bySocket[st.byId[id].value].id == id)
    && (forall s | s in st.bySocket :: FIRST <= s < st.next)
    && FIRST <= st.next
    && PollFits(st.poll, st.bySocket.Keys)
    && (forall s | s in st.bySocket && !st.bySocket[s].caching :: st.bySocket[s].cache == map[])
  }

  /** The fixed sockets first, then each publish socket once. */
  ghost predicate PollFits(poll: seq<Socket>, sockets: set<Socket>) {
    && |FIXED| <= |poll| && poll[..|FIXED|] == FIXED
    && Distinct(poll[|FIXED|..])
    && forall s :: s in poll[|FIXED|..] <==> s in sockets
  }

  lemma RegisteredFits(st: Outlets, id: string, caching: bool)
    requires Fits(st)
    ensures Fits(Registered(st, id, caching))
  {
    hide PollFits;
    RegisteredPoll(st.poll, st.bySocket.Keys, st.next);
    assert Registered(st, id, caching).bySocket.Keys == st.bySocket.Keys + {st.next};
  }

  lemma RegisteredPoll(poll: seq<Socket>, sockets: set<Socket>, s: Socket)
    requires PollFits(poll, sockets) && s !in sockets
    ensures PollFits(poll + [s], sockets + {s})
  {
    hide Distinct;
    assert (poll + [s])[|FIXED|..] == poll[|FIXED|..] + [s];
    assert (poll + [s])[..|FIXED|] == poll[..|FIXED|];
    DistinctMore(poll[|FIXED|..], s);
  }

  lemma UnregisteredPoll(poll: seq<Socket>, sockets: set<Socket>, s: Socket)
    requires PollFits(poll, sockets) && FIRST <= s
    ensures PollFits(Dropped(poll, {s}), sockets - {s})
  {
    hide Dropped, Distinct;
    var rest := poll[|FIXED|..];
    assert poll == FIXED + rest;
    DroppedOver(FIXED, rest, {s});
    DropUnused(FIXED, {s});
    DroppedHas(rest, {s});
    assert Dropped(poll, {s})[|FIXED|..] == Dropped(rest, {s});
  }

  lemma UnboundFits(st: Outlets, id: string)
    requires Fits(st) && id in st.byId && st.byId[id].Some?
    ensures Fits(Unbound(st, id, st.byId[id].value))
  {
    hide Dropped, PollFits;
    var s := st.byId[id].value;
    UnregisteredPoll(st.poll, st.bySocket.Keys, s);
    assert Unbound(st, id, s).bySocket.Keys == st.bySocket.Keys - {s};
  }

  lemma FedFits(st: Outlets, s: Socket, outlet: Outlet)
    requires Fits(st) && s in st.bySocket && outlet.id == st.bySocket[s].id && outlet.caching == st.bySocket[s].caching
    requires !outlet.caching ==> outlet.cache == map[]
    ensures Fits(st.(bySocket := st.bySocket[s := outlet]))
  {
    hide PollFits;
    assert st.bySocket[s := outlet].Keys == st.bySocket.Keys;
  }

  lemma LookedUpFits(st: Outlets, id: string)
    requires Fits(st)
    ensures Fits(LookedUp(st, id))
  {
    hide PollFits;
  }

  lemma CalledFits(st: Outlets, c: Call)
    requires Fits(st)
    ensures Called(st, c).Running? ==> Fits(Called(st, c).st)
  {
    hide Registered, Unbound, LookedUp, PollFits;
    match c
    case Register(id, caching, bound) => RegisteredFits(st, id, caching);
    case Unregister(id) => if id in st.byId && st.byId[id].Some? { UnboundFits(st, id); }
    case Send(id, m) =>
      LookedUpFits(st, id);
      if id in st.byId && st.byId[id].Some? {
        var s := st.byId[id].value;
        FedFits(st, s, Fed(st.bySocket[s], Event.Publish(m)));
      }
    case SubscribersExist(id) => LookedUpFits(st, id);
    case Subscribed(s, newsub) =>
      if s in st.bySocket { FedFits(st, s, st.bySocket[s].(hasSubscribers := newsub)); }
  }

  lemma {:induction false} RunFromFits(st: Outlets, calls: seq<Call>)
    requires Fits(st)
    ensures RunFrom(st, calls).Running? ==> Fits(RunFrom(st, calls).st)
  {
    hide Fits, Called;
    if calls != [] {
      var init := calls[..|calls| - 1];
      RunFromFits(st, init);
      if RunFrom(st, init).Running? { CalledFits(RunFrom(st, init).st, calls[|calls| - 1]); }
    }
  }

  lemma EmptyFits()
    ensures Fits(Empty)
  {}

  /** In every run from the empty manager an ID with details leads to a socket of that ID, and the poll vector holds the
      fixed sockets and then every publish socket once. */
  lemma RunsFit(calls: seq<Call>)
    ensures Run(calls).Running? ==> Fits(Run(calls).st)
  {
    hide Fits, RunFrom;
    EmptyFits();
    RunFromFits(Empty, calls);
  }

  // ----- entries without details

  predicate Binds(id: string, c: Call) { c.Register? && c.bound && c.id == id }

  predicate Unbinds(id: string, c: Call) { c.Unregister? && c.id == id }

  predicate LooksUp(id: string, c: Call) { (c.Send? || c.SubscribersExist?) && c.id == id }

  /** Every registration of the ID has been undone. */
  predicate Free(id: string, calls: seq<Call>) {
    forall i | 0 <= i < |calls| && Binds(id, calls[i]) :: exists j :: i < j < |calls| && Unbinds(id, calls[j])
  }

  /** The ID was looked up while it was not registered, and nothing has registered it since. */
  predicate LookedUpAt(id: string, calls: seq<Call>, k: nat) {
    && k < |calls| && LooksUp(id, calls[k]) && Free(id, calls[..k])
    && forall j | k < j < |calls| :: !Binds(id, calls[j]) && !Unbinds(id, calls[j])
  }

  predicate Haunted(id: string, calls: seq<Call>) {
    exists k: nat | k < |calls| :: LookedUpAt(id, calls, k)
  }

  lemma FreeMore(id: string, calls: seq<Call>, c: Call)
    ensures Free(id, calls + [c]) <==> Unbinds(id, c) || (Free(id, calls) && !Binds(id, c))
  {
    var more := calls + [c];
    assert more[|calls|] == c && forall i | 0 <= i < |calls| :: more[i] == calls[i];
    if Free(id, more) && !Unbinds(id, c) {
      forall i | 0 <= i < |calls| && Binds(id, calls[i]) ensures exists j :: i < j < |calls| && Unbinds(id, calls[j]) {
        assert Binds(id, more[i]);
        var j :| i < j < |more| && Unbinds(id, more[j]);
        assert calls[j] == more[j];
      }
    }
    if Binds(id, c) { assert Binds(id, more[|calls|]); }
    if Free(id, calls) && !Binds(id, c) && !Unbinds(id, c) {
      forall i | 0 <= i < |more| && Binds(id, more[i]) ensures exists j :: i < j < |more| && Unbinds(id, more[j]) {
        assert Binds(id, calls[i]);
        var j :| i < j < |calls| && Unbinds(id, calls[j]);
        assert Unbinds(id, more[j]);
      }
    }
    if Unbinds(id, c) { assert Unbinds(id, more[|calls|]); }
  }

  lemma HauntedMore(id: string, calls: seq<Call>, c: Call)
    ensures Haunted(id, calls + [c]) <==>
            (LooksUp(id, c) && Free(id, calls)) || (Haunted(id, calls) && !Binds(id, c) && !Unbinds(id, c))
  {
    hide Free;
    var more := calls + [c];
    assert more[..|calls|] == calls;
    forall k: nat | k < |calls| ensures more[..k] == calls[..k] && more[k] == calls[k] {}
    if k: nat :| k < |calls| && LookedUpAt(id, calls, k) && !Binds(id, c) && !Unbinds(id, c) {
      assert LookedUpAt(id, more, k);
    }
    if LooksUp(id, c) && Free(id, calls) { assert LookedUpAt(id, more, |calls|); }
    if k: nat :| k < |more| && LookedUpAt(id, more, k) && k < |calls| {
      assert more[|calls|] == c;
      assert forall j | k < j < |calls| :: more[j] == calls[j];
      assert LookedUpAt(id, calls, k);
    }
  }

  /** What a run leaves under an ID. */
  predicate Entry(st: Outlets, id: string, calls: seq<Call>) {
    && (id in st.byId && st.byId[id].Some? <==> !Free(id, calls))
    && (id in st.byId && st.byId[id].None? <==> Haunted(id, calls))
  }

  lemma CalledEntry(st: Outlets, c: Call, id: string, calls: seq<Call>)
    requires Fits(st) && Entry(st, id, calls) && Called(st, c).Running?
    ensures Entry(Called(st, c).st, id, calls + [c])
  {
    hide Free, Haunted, PollFits;
    FreeMore(id, calls, c);
    HauntedMore(id, calls, c);
  }

  lemma {:induction false} RunsLeaveEntries(calls: seq<Call>, id: string)
    ensures Run(calls).Running? ==> Entry(Run(calls).st, id, calls)
  {
    if calls == [] {
      assert Free(id, calls) && !Haunted(id, calls);
    } else {
      hide Entry, Called, Fits;
      var init, c := calls[..|calls| - 1], calls[|calls| - 1];
      assert calls == init + [c];
      RunsLeaveEntries(init, id);
      RunsFit(init);
      if Run(calls).Running? { CalledEntry(Run(init).st, c, id, init); }
    }
  }

  /** Unregistering an ID ends the program exactly when the ID was looked up, by a publication or a question about its
      subscribers, while it was not registered, and has been neither registered nor unregistered since. */
  lemma UnregisterCrashesExactly(calls: seq<Call>, id: string)
    requires Run(calls).Running?
    ensures Run(calls + [Unregister(id)]).Crashed? <==> Haunted(id, calls)
  {
    hide Haunted, Free;
    RunsLeaveEntries(calls, id);
    assert (calls + [Unregister(id)])[..|calls|] == calls;
  }

  /** Nothing else does. */
  lemma NothingElseCrashes(calls: seq<Call>, c: Call)
    requires Run(calls).Running? && !c.Unregister?
    requires c.Subscribed? ==> c.s in Run(calls).st.poll && c.s !in FIXED
    ensures Run(calls + [c]).Running?
  {
    RunsFit(calls);
    var poll := Run(calls).st.poll;
    assert poll == poll[..|FIXED|] + poll[|FIXED|..];
    assert (calls + [c])[..|calls|] == calls;
  }

  /** A publication, a failed registration and the clean-up after it are enough. */
  lemma FailedRegistrationCrashes(id: string, m: Message, caching: bool)
    ensures Run([Send(id, m), Register(id, caching, false), Unregister(id)]).Crashed?
  {
    var send, fail := Send(id, m), Register(id, caching, false);
    RunMore(Empty, [], send);
    RunMore(Empty, [send], fail);
    RunMore(Empty, [send, fail], Unregister(id));
    assert [] + [send] == [send] && [send] + [fail] == [send, fail];
    assert [send, fail] + [Unregister(id)] == [send, fail, Unregister(id)];
  }

  // ----- from one registration to the next

  /** Registering an ID once and unregistering it leaves everything as it was, except that a socket is spent. */
  lemma UnregisterUndoesRegister(calls: seq<Call>, id: string, caching: bool)
    requires Run(calls).Running? && id !in Run(calls).st.byId
    ensures Run(calls + [Register(id, caching, true)] + [Unregister(id)])
         == Running(Run(calls).st.(next := Run(calls).st.next + 1))
  {
    hide RunFrom, Dropped, Distinct;
    RunsFit(calls);
    RunMore(Empty, calls, Register(id, caching, true));
    RunMore(Empty, calls + [Register(id, caching, true)], Unregister(id));
    UnboundUndoes(Run(calls).st, id, caching);
  }

  lemma UnboundUndoes(st: Outlets, id: string, caching: bool)
    requires Fits(st) && id !in st.byId
    ensures Unbound(Registered(st, id, caching), id, st.next) == st.(next := st.next + 1)
  {
    hide Dropped, Distinct;
    assert st.next !in FIXED && st.poll == FIXED + st.poll[|FIXED|..];
    DroppedOver(st.poll, [st.next], {st.next});
    DropUnused(st.poll, {st.next});
    DropAll(st.next);
    assert st.byId[id := Some(st.next)] - {id} == st.byId;
    assert st.bySocket[st.next := Outlet(id, caching, false, map[])] - {st.next} == st.bySocket;
  }

  lemma DropAll(s: Socket)
    ensures Dropped([s], {s}) == []
  {}

  lemma RunMore(st: Outlets, calls: seq<Call>, c: Call)
    requires RunFrom(st, calls).Running?
    ensures RunFrom(st, calls + [c]) == Called(RunFrom(st, calls).st, c)
  {
    hide Called;
    assert (calls + [c])[..|calls|] == calls;
  }

  /** What a call means to one socket. */
  function EventOf(id: string, s: Socket, c: Call): seq<Event> {
    match c
    case Send(other, m) => if other == id then [Event.Publish(m)] else []
    case Subscribed(t, newsub) => if t == s && newsub then [NewSubscriber] else []
    case _ => []
  }

  function EventsOf(id: string, s: Socket, calls: seq<Call>): seq<Event> {
    if calls == [] then [] else EventsOf(id, s, calls[..|calls| - 1]) + EventOf(id, s, calls[|calls| - 1])
  }

  /** The ID is neither registered again nor unregistered. */
  predicate Stays(id: string, calls: seq<Call>) {
    forall c | c in calls :: Spares(id, c)
  }

  predicate Spares(id: string, c: Call) { !Binds(id, c) && !Unbinds(id, c) }

  /** The ID is served by the socket, whose cache is what these events make of it. */
  predicate Serves(st: Outlets, id: string, s: Socket, caching: bool, events: seq<Event>) {
    && id in st.byId && st.byId[id] == Some(s) && s in st.bySocket
    && st.bySocket[s].caching == caching && st.bySocket[s].cache == CacheAfter(caching, events)
  }

  lemma {:induction false} StaysServed(st: Outlets, id: string, s: Socket, caching: bool, calls: seq<Call>)
    requires Fits(st) && Serves(st, id, s, caching, []) && Stays(id, calls)
    ensures RunFrom(st, calls).Running? ==> Serves(RunFrom(st, calls).st, id, s, caching, EventsOf(id, s, calls))
  {
    hide Fits, Called, Serves, Spares;
    if calls != [] {
      var init, c := calls[..|calls| - 1], calls[|calls| - 1];
      assert calls == init + [c] && c in calls;
      StaysServed(st, id, s, caching, init);
      RunFromFits(st, init);
      if RunFrom(st, calls).Running? {
        StepIsSeparate(RunFrom(st, init).st, id, s, caching, c, EventsOf(id, s, init));
      }
    }
  }

  lemma CacheMore(caching: bool, events: seq<Event>, e: Event)
    ensures CacheAfter(caching, events + [e]) == NextCache(caching, CacheAfter(caching, events), e)
  {
    assert (events + [e])[..|events|] == events;
  }

  lemma StepIsSeparate(st: Outlets, id: string, s: Socket, caching: bool, c: Call, events: seq<Event>)
    requires Fits(st) && Serves(st, id, s, caching, events) && Spares(id, c) && Called(st, c).Running?
    ensures Serves(Called(st, c).st, id, s, caching, events + EventOf(id, s, c))
  {
    hide CacheAfter, PollFits;
    var more := EventOf(id, s, c);
    if more == [] {
      assert events + more == events;
    } else {
      CacheMore(caching, events, more[0]);
      assert events + more == events + [more[0]];
    }
  }

  lemma {:induction false} RunBoth(st: Outlets, a: seq<Call>, b: seq<Call>)
    ensures RunFrom(st, a + b) == match RunFrom(st, a) case Crashed => Crashed case Running(mid) => RunFrom(mid, b)
  {
    hide Called;
    if b == [] {
      assert a + b == a;
    } else {
      assert (a + b)[..|a + b| - 1] == a + b[..|b| - 1];
      RunBoth(st, a, b[..|b| - 1]);
    }
  }

  lemma RegisteredServes(st: Outlets, id: string, caching: bool)
    ensures Serves(Registered(st, id, caching), id, st.next, caching, [])
  {}

  /** While an ID stays registered, its cache is what its own publications have made of it, whatever happened before its
      registration and whatever happens to other IDs. */
  lemma CachesAreSeparate(before: seq<Call>, id: string, caching: bool, calls: seq<Call>)
    requires Run(before).Running? && Stays(id, calls)
    ensures var thread := Run(before + [Register(id, caching, true)] + calls);
            var s := Run(before).st.next;
            thread.Running? ==> Serves(thread.st, id, s, caching, EventsOf(id, s, calls))
  {
    hide Fits, Serves, RunFrom, Stays, Registered;
    var st := Run(before).st;
    RunsFit(before);
    RunMore(Empty, before, Register(id, caching, true));
    RegisteredFits(st, id, caching);
    RegisteredServes(st, id, caching);
    RunBoth(Empty, before + [Register(id, caching, true)], calls);
    StaysServed(Registered(st, id, caching), id, st.next, caching, calls);
  }
}
