/** Requests that wait for an answer, and what becomes of them. */
module Requests {
  import opened Common

  type Socket = nat
  /** The node's two sockets. */
  const NODE: Socket := 0
  const RESPONSE: Socket := 1

  /** RequestDetails; the ticket is the request's number in the order of arrival. A timeout that is not positive is
      none. */
  datatype Details = Details(ticket: nat, service: string, requestId: string, requestor: nat, url: string,
                             timeout: int, regTime: nat)

  datatype Response =
    | Future(url: string)
    | Answer(regTime: nat, data: seq<bv8>)

  datatype Outcome =
    | Filled(ticket: nat, response: Response)
    | TimedOut(ticket: nat, when: int)
    | Aborted(ticket: nat, response: Response)

  datatype State = State(
    requests: map<Socket, Details>,
    poll: seq<Socket>,
    next: Socket,
    accepted: seq<Details>,
    outcomes: seq<Outcome>)

  const Start: State := State(map[], [NODE, RESPONSE], RESPONSE + 1, [], [])

  // ----- the operations

  function Asked(st: State, service: string, requestId: string, requestor: nat, url: string, milliseconds: int,
                 regTime: nat, now: int): State {
    var timeout := if milliseconds > 0 then now + milliseconds else -1;
    var d := Details(|st.accepted|, service, requestId, requestor, url, timeout, regTime);
    State(st.requests[st.next := d], st.poll + [st.next], st.next + 1, st.accepted + [d], st.outcomes)
  }

  predicate Expired(d: Details, now: int) {
    0 < d.timeout <= now
  }

  /** A request that has waited too long. */
  function Expire(st: State, s: Socket, now: int): State
    requires s in st.requests
  {
    st.(requests := st.requests - {s}, poll := Dropped(st.poll, {s}),
        outcomes := st.outcomes + [TimedOut(st.requests[s].ticket, now)])
  }

  function Late(st: State, order: seq<Socket>, now: int): seq<Socket> {
    if order == [] then []
    else
      var s := order[|order| - 1];
      Late(st, order[..|order| - 1], now) + if s in st.requests && Expired(st.requests[s], now) then [s] else []
  }

  function ExpireAll(st: State, late: seq<Socket>, now: int): State {
    if late == [] then st
    else
      var before := ExpireAll(st, late[..|late| - 1], now);
      var s := late[|late| - 1];
      if s in before.requests then Expire(before, s, now) else before
  }

  /** In the middle of a pass over the responses: sockets that future responses have handed are polled after it. */
  datatype Pass = Pass(st: State, handed: seq<Socket>)

  /** A future response hands the request over to a new socket; any other response ends it. */
  function Respond(pass: Pass, s: Socket, response: Response): Pass
    requires s in pass.st.requests
  {
    var d := pass.st.requests[s];
    var rest := pass.st.requests - {s};
    match response
    case Future(_) =>
      var to := pass.st.next;
      Pass(pass.st.(requests := rest[to := d], next := to + 1), pass.handed + [to])
    case Answer(regTime, _) =>
      var outcome := if regTime != d.regTime then Aborted(d.ticket, response) else Filled(d.ticket, response);
      Pass(pass.st.(requests := rest, outcomes := pass.st.outcomes + [outcome]), pass.handed)
  }

  function RespondAll(pass: Pass, sockets: seq<Socket>, ready: map<Socket, Response>): Pass {
    if sockets == [] then pass
    else
      var before := RespondAll(pass, sockets[..|sockets| - 1], ready);
      var s := sockets[|sockets| - 1];
      if s in ready && s in before.st.requests then Respond(before, s, ready[s]) else before
  }

  function Responses(st: State, ready: map<Socket, Response>): State
    requires 2 <= |st.poll|
  {
    var pass := RespondAll(Pass(st, []), st.poll[2..], ready);
    pass.st.(poll := st.poll[..2] + Dropped(st.poll[2..], ready.Keys) + pass.handed)
  }

  // ----- what always holds

  ghost predicate Pending(requests: map<Socket, Details>, t: nat) {
    exists s :: s in requests && requests[s].ticket == t
  }

  ghost predicate Done(outcomes: seq<Outcome>, t: nat) {
    exists i :: 0 <= i < |outcomes| && outcomes[i].ticket == t
  }

  /** Each request accepted so far is pending on one socket, or has had one outcome, and never both. */
  ghost predicate Conserved(requests: map<Socket, Details>, accepted: seq<Details>, outcomes: seq<Outcome>) {
    && (forall s | s in requests :: requests[s].ticket < |accepted| && requests[s] == accepted[requests[s].ticket])
    && (forall a, b | a in requests && b in requests && a != b :: requests[a].ticket != requests[b].ticket)
    && (forall i | 0 <= i < |outcomes| :: outcomes[i].ticket < |accepted|)
    && (forall i, j | 0 <= i < j < |outcomes| :: outcomes[i].ticket != outcomes[j].ticket)
    && (forall s, i | s in requests && 0 <= i < |outcomes| :: requests[s].ticket != outcomes[i].ticket)
    && (forall t | 0 <= t < |accepted| :: Pending(requests, t) || Done(outcomes, t))
  }

  /** And every outcome is deserved. */
  ghost predicate Deserved(accepted: seq<Details>, outcomes: seq<Outcome>) {
    forall i | 0 <= i < |outcomes| ::
      var o := outcomes[i];
      o.ticket < |accepted| &&
      match o
      case Filled(t, r) => r.Answer? && r.regTime == accepted[t].regTime
      case TimedOut(t, when) => Expired(accepted[t], when)
      case Aborted(t, r) => r.Answer? && r.regTime != accepted[t].regTime
  }

  ghost predicate Polled(poll: seq<Socket>, requests: map<Socket, Details>, next: Socket) {
    && 2 <= |poll| && poll[0] == NODE && poll[1] == RESPONSE
    && Distinct(poll[2..]) && (forall s :: s in poll[2..] <==> s in requests)
    && RESPONSE < next && forall s | s in requests :: RESPONSE < s < next
  }

  ghost predicate Good(st: State) {
    && Conserved(st.requests, st.accepted, st.outcomes) && Deserved(st.accepted, st.outcomes)
    && Polled(st.poll, st.requests, st.next)
  }

  // ----- moving requests

  lemma ConservedNew(requests: map<Socket, Details>, accepted: seq<Details>, outcomes: seq<Outcome>, s: Socket,
                     d: Details)
    requires Conserved(requests, accepted, outcomes) && s !in requests && d.ticket == |accepted|
    ensures Conserved(requests[s := d], accepted + [d], outcomes)
  {
    var requests', accepted' := requests[s := d], accepted + [d];
    assert requests'[s].ticket == |accepted|;
    forall t | 0 <= t < |accepted'| ensures Pending(requests', t) || Done(outcomes, t) {
      if t < |accepted| && Pending(requests, t) {
        var r :| r in requests && requests[r].ticket == t;
        assert requests'[r].ticket == t;
      }
    }
  }

  lemma ConservedDone(requests: map<Socket, Details>, accepted: seq<Details>, outcomes: seq<Outcome>, s: Socket,
                      o: Outcome)
    requires Conserved(requests, accepted, outcomes) && s in requests && o.ticket == requests[s].ticket
    ensures Conserved(requests - {s}, accepted, outcomes + [o])
  {
    var requests', outcomes' := requests - {s}, outcomes + [o];
    assert outcomes'[|outcomes|].ticket == o.ticket;
    forall t | 0 <= t < |accepted| ensures Pending(requests', t) || Done(outcomes', t) {
      if Done(outcomes, t) {
        var i :| 0 <= i < |outcomes| && outcomes[i].ticket == t;
        assert outcomes'[i].ticket == t;
      } else if t != o.ticket {
        assert Pending(requests, t);
        var r :| r in requests && requests[r].ticket == t;
        assert r in requests' && requests'[r].ticket == t;
      }
    }
  }

  lemma ConservedMoved(requests: map<Socket, Details>, accepted: seq<Details>, outcomes: seq<Outcome>, s: Socket,
                       to: Socket)
    requires Conserved(requests, accepted, outcomes) && s in requests && to !in requests
    ensures Conserved((requests - {s})[to := requests[s]], accepted, outcomes)
  {
    var requests' := (requests - {s})[to := requests[s]];
    forall t | 0 <= t < |accepted| ensures Pending(requests', t) || Done(outcomes, t) {
      if Pending(requests, t) {
        var r :| r in requests && requests[r].ticket == t;
        var q := if r == s then to else r;
        assert q in requests' && requests'[q].ticket == t;
      }
    }
  }

  lemma DeservedMore(accepted: seq<Details>, outcomes: seq<Outcome>, o: Outcome)
    requires Deserved(accepted, outcomes) && Deserved(accepted, [o])
    ensures Deserved(accepted, outcomes + [o])
  {
    assert [o][0] == o;
  }

  lemma DeservedLater(accepted: seq<Details>, outcomes: seq<Outcome>, d: Details)
    requires Deserved(accepted, outcomes)
    ensures Deserved(accepted + [d], outcomes)
  {
    forall i | 0 <= i < |outcomes| ensures (accepted + [d])[outcomes[i].ticket] == accepted[outcomes[i].ticket] {}
  }

  // ----- accepting and expiring

  lemma AskedIsGood(st: State, service: string, requestId: string, requestor: nat, url: string, milliseconds: int,
                    regTime: nat, now: int)
    requires Good(st)
    ensures Good(Asked(st, service, requestId, requestor, url, milliseconds, regTime, now))
  {
    hide Conserved, Deserved, Distinct;
    var st' := Asked(st, service, requestId, requestor, url, milliseconds, regTime, now);
    var d := st'.requests[st.next];
    ConservedNew(st.requests, st.accepted, st.outcomes, st.next, d);
    DeservedLater(st.accepted, st.outcomes, d);
    DistinctMore(st.poll[2..], st.next);
    assert st'.poll[2..] == st.poll[2..] + [st.next];
  }

  lemma DroppedPoll(poll: seq<Socket>, requests: map<Socket, Details>, next: Socket, s: Socket)
    requires Polled(poll, requests, next) && s in requests
    ensures Polled(Dropped(poll, {s}), requests - {s}, next)
  {
    hide Distinct, Dropped;
    var rest := poll[2..];
    assert poll == poll[..2] + rest && poll[..2] == [NODE, RESPONSE];
    DroppedOver(poll[..2], rest, {s});
    DropUnused(poll[..2], {s});
    DroppedHas(rest, {s});
    assert Dropped(poll, {s})[2..] == Dropped(rest, {s});
  }

  lemma PendingIsAccepted(st: State, s: Socket)
    requires Good(st) && s in st.requests
    ensures st.requests[s].ticket < |st.accepted| && st.requests[s] == st.accepted[st.requests[s].ticket]
  {}

  lemma ExpireIsGood(st: State, s: Socket, now: int)
    requires Good(st) && s in st.requests && Expired(st.requests[s], now)
    ensures Good(Expire(st, s, now))
  {
    hide Conserved, Polled, Deserved, Dropped;
    var o := TimedOut(st.requests[s].ticket, now);
    PendingIsAccepted(st, s);
    assert Deserved(st.accepted, [o]) by { TimedOutDeserved(st.accepted, o); }
    ConservedDone(st.requests, st.accepted, st.outcomes, s, o);
    DeservedMore(st.accepted, st.outcomes, o);
    DroppedPoll(st.poll, st.requests, st.next, s);
  }

  lemma TimedOutDeserved(accepted: seq<Details>, o: Outcome)
    requires o.TimedOut? && o.ticket < |accepted| && Expired(accepted[o.ticket], o.when)
    ensures Deserved(accepted, [o])
  {}

  lemma {:induction false} LateHas(st: State, order: seq<Socket>, now: int, s: Socket)
    ensures s in Late(st, order, now) <==> s in order && s in st.requests && Expired(st.requests[s], now)
  {
    if order != [] {
      assert order == order[..|order| - 1] + [order[|order| - 1]];
      LateHas(st, order[..|order| - 1], now, s);
    }
  }

  lemma {:induction false} ExpireAllIsGood(st: State, late: seq<Socket>, now: int)
    requires Good(st) && forall s | s in late :: s in st.requests && Expired(st.requests[s], now)
    ensures Good(ExpireAll(st, late, now))
    ensures forall s :: s in ExpireAll(st, late, now).requests <==> s in st.requests && s !in late
    ensures forall s | s in ExpireAll(st, late, now).requests :: ExpireAll(st, late, now).requests[s] == st.requests[s]
  {
    if late != [] {
      hide Good;
      var init, s := late[..|late| - 1], late[|late| - 1];
      assert late == init + [s];
      ExpireAllIsGood(st, init, now);
      if s in ExpireAll(st, init, now).requests { ExpireIsGood(ExpireAll(st, init, now), s, now); }
    }
  }

  // ----- responses

  /** A pass over the responses, after the sockets in done. */
  ghost predicate Passing(st: State, done: seq<Socket>, ready: map<Socket, Response>, pass: Pass) {
    && Conserved(pass.st.requests, pass.st.accepted, pass.st.outcomes) && Deserved(pass.st.accepted, pass.st.outcomes)
    && (forall s :: s in pass.st.requests <==> (s in st.requests && !(s in done && s in ready)) || s in pass.handed)
    && Distinct(pass.handed) && (forall s | s in pass.handed :: st.next <= s < pass.st.next)
    && st.next <= pass.st.next
  }

  lemma RespondPasses(st: State, done: seq<Socket>, ready: map<Socket, Response>, pass: Pass, s: Socket)
    requires Passing(st, done, ready, pass) && s in st.requests && s !in done && s in ready
    requires forall r | r in st.requests :: r < st.next
    ensures s in pass.st.requests && Passing(st, done + [s], ready, Respond(pass, s, ready[s]))
  {
    hide Conserved, Deserved, Distinct;
    var d, to := pass.st.requests[s], pass.st.next;
    TicketOf(pass.st.requests, pass.st.accepted, pass.st.outcomes, s);
    match ready[s]
    case Future(_) =>
      ConservedMoved(pass.st.requests, pass.st.accepted, pass.st.outcomes, s, to);
      DistinctMore(pass.handed, to);
    case Answer(regTime, _) =>
      var o := if regTime != d.regTime then Aborted(d.ticket, ready[s]) else Filled(d.ticket, ready[s]);
      AnsweredDeserved(pass.st.accepted, o);
      ConservedDone(pass.st.requests, pass.st.accepted, pass.st.outcomes, s, o);
      DeservedMore(pass.st.accepted, pass.st.outcomes, o);
  }

  lemma TicketOf(requests: map<Socket, Details>, accepted: seq<Details>, outcomes: seq<Outcome>, s: Socket)
    requires Conserved(requests, accepted, outcomes) && s in requests
    ensures requests[s].ticket < |accepted| && requests[s] == accepted[requests[s].ticket]
  {}

  lemma AnsweredDeserved(accepted: seq<Details>, o: Outcome)
    requires o.ticket < |accepted| && !o.TimedOut? && o.response.Answer?
    requires o.Filled? <==> o.response.regTime == accepted[o.ticket].regTime
    ensures Deserved(accepted, [o])
  {}

  lemma PassOver(st: State, done: seq<Socket>, ready: map<Socket, Response>, pass: Pass, s: Socket)
    requires Passing(st, done, ready, pass) && s !in ready
    ensures Passing(st, done + [s], ready, pass)
  {
    hide Conserved, Deserved, Distinct;
  }

  lemma {:induction false} RespondAllPasses(st: State, sockets: seq<Socket>, ready: map<Socket, Response>)
    requires Good(st) && Distinct(sockets) && forall s | s in sockets :: s in st.requests
    ensures Passing(st, sockets, ready, RespondAll(Pass(st, []), sockets, ready))
  {
    if sockets == [] {
      hide Conserved, Deserved;
    } else {
      var init, s := sockets[..|sockets| - 1], sockets[|sockets| - 1];
      assert sockets == init + [s] && s !in init;
      assert forall r | r in st.requests :: r < st.next;
      hide Passing, Respond, Good, Distinct;
      assert Distinct(init) by { DistinctInit(sockets); }
      RespondAllPasses(st, init, ready);
      var pass := RespondAll(Pass(st, []), init, ready);
      if s in ready { RespondPasses(st, init, ready, pass, s); } else { PassOver(st, init, ready, pass, s); }
    }
  }

  lemma DistinctInit(sockets: seq<Socket>)
    requires Distinct(sockets) && sockets != []
    ensures Distinct(sockets[..|sockets| - 1])
  {}

  lemma ResponsesAreGood(st: State, ready: map<Socket, Response>)
    requires Good(st)
    ensures Good(Responses(st, ready))
  {
    hide Conserved, Deserved, Distinct, Dropped, RespondAll;
    var rest := st.poll[2..];
    var pass := RespondAll(Pass(st, []), rest, ready);
    RespondAllPasses(st, rest, ready);
    DroppedHas(rest, ready.Keys);
    var kept := Dropped(rest, ready.Keys);
    DistinctBoth(kept, pass.handed);
    var st' := Responses(st, ready);
    assert st'.poll[2..] == kept + pass.handed;
  }

  // ----- every run

  datatype Event =
    | Ask(service: string, requestId: string, requestor: nat, url: string, milliseconds: int, regTime: nat, now: int)
    | Expiry(order: seq<Socket>, when: int)
    | Answers(ready: map<Socket, Response>)

  ghost function Step(st: State, e: Event): State
    requires Good(st)
  {
    match e
    case Ask(service, requestId, requestor, url, milliseconds, regTime, now) =>
      Asked(st, service, requestId, requestor, url, milliseconds, regTime, now)
    case Expiry(order, now) => ExpireAll(st, Late(st, order, now), now)
    case Answers(ready) => Responses(st, ready)
  }

  lemma StepIsGood(st: State, e: Event)
    requires Good(st)
    ensures Good(Step(st, e))
  {
    hide Good;
    match e
    case Ask(service, requestId, requestor, url, milliseconds, regTime, now) =>
      AskedIsGood(st, service, requestId, requestor, url, milliseconds, regTime, now);
    case Expiry(order, now) =>
      forall s ensures s in Late(st, order, now) <==> s in order && s in st.requests && Expired(st.requests[s], now) {
        LateHas(st, order, now, s);
      }
      ExpireAllIsGood(st, Late(st, order, now), now);
    case Answers(ready) => ResponsesAreGood(st, ready);
  }

  lemma StartIsGood()
    ensures Good(Start)
  {}

  ghost function Run(events: seq<Event>): (st: State)
    ensures Good(st)
  {
    if events == [] then
      StartIsGood();
      Start
    else
      var before := Run(events[..|events| - 1]);
      StepIsGood(before, events[|events| - 1]);
      Step(before, events[|events| - 1])
  }

  /** Conservation: in every run each accepted request is pending on exactly one polled socket, or has been filled,
      timed out or aborted exactly once, for the reason that calls for it, whatever chain of future responses it
      went through. */
  lemma EveryRequestHasOneFate(events: seq<Event>, t: nat)
    requires t < |Run(events).accepted|
    ensures var st := Run(events);
            && (Pending(st.requests, t) <==> !Done(st.outcomes, t))
            && (forall a, b
                  | a in st.requests && b in st.requests && st.requests[a].ticket == t == st.requests[b].ticket ::
                  a == b)
            && (forall s | s in st.requests && st.requests[s].ticket == t ::
                  st.requests[s] == st.accepted[t] && s in st.poll[2..])
            && (forall i, j | 0 <= i < |st.outcomes| && 0 <= j < |st.outcomes|
                              && st.outcomes[i].ticket == t == st.outcomes[j].ticket ::
                  i == j)
            && (forall i | 0 <= i < |st.outcomes| && st.outcomes[i].ticket == t ::
                  match st.outcomes[i]
                  case Filled(_, r) => r.Answer? && r.regTime == st.accepted[t].regTime
                  case TimedOut(_, when) => Expired(st.accepted[t], when)
                  case Aborted(_, r) => r.Answer? && r.regTime != st.accepted[t].regTime)
  {
    hide Run;
    var st := Run(events);
    assert Good(st);
    assert Pending(st.requests, t) || Done(st.outcomes, t);
  }

  lemma {:induction false} RespondAllOutcomes(pass: Pass, sockets: seq<Socket>, ready: map<Socket, Response>)
    ensures pass.st.outcomes <= RespondAll(pass, sockets, ready).st.outcomes
    ensures RespondAll(pass, sockets, ready).st.accepted == pass.st.accepted
  {
    if sockets != [] { RespondAllOutcomes(pass, sockets[..|sockets| - 1], ready); }
  }

  lemma {:induction false} ExpireAllOutcomes(st: State, late: seq<Socket>, now: int)
    ensures st.outcomes <= ExpireAll(st, late, now).outcomes && ExpireAll(st, late, now).accepted == st.accepted
  {
    if late != [] { ExpireAllOutcomes(st, late[..|late| - 1], now); }
  }

  /** And a fate is final. */
  lemma FatesAreFinal(events: seq<Event>, e: Event)
    ensures Run(events).outcomes <= Run(events + [e]).outcomes && Run(events).accepted <= Run(events + [e]).accepted
  {
    hide Good, RespondAll, ExpireAll;
    assert (events + [e])[..|events|] == events;
    var st := Run(events);
    PolledFrom(st);
    match e
    case Ask(service, requestId, requestor, url, milliseconds, regTime, now) =>
    case Expiry(order, now) => ExpireAllOutcomes(st, Late(st, order, now), now);
    case Answers(ready) => RespondAllOutcomes(Pass(st, []), st.poll[2..], ready);
  }

  // ----- when the expiry scan ends

  /** The scan for the poll item starts behind the two fixed ones and does not move on from one that does not match. */
  predicate Stuck(poll: seq<Socket>, s: Socket) {
    2 < |poll| && poll[2] != s
  }

  predicate Hangs(st: State, late: seq<Socket>, now: int) {
    late != []
    && (Hangs(st, late[..|late| - 1], now) || Stuck(ExpireAll(st, late[..|late| - 1], now).poll, late[|late| - 1]))
  }

  lemma DropHead(poll: seq<Socket>)
    requires Distinct(poll) && poll != []
    ensures Dropped(poll, {poll[0]}) == poll[1..]
  {
    assert poll == [poll[0]] + poll[1..];
    DroppedOver([poll[0]], poll[1..], {poll[0]});
    assert poll[0] !in poll[1..];
    DropUnused(poll[1..], {poll[0]});
    assert [poll[0]][..0] == [];
  }

  lemma DropThird(poll: seq<Socket>)
    requires 2 < |poll| && Distinct(poll[2..]) && poll[2] != poll[0] && poll[2] != poll[1]
    ensures Dropped(poll, {poll[2]}) == poll[..2] + poll[3..]
  {
    hide Distinct, Dropped;
    assert poll == poll[..2] + poll[2..] && poll[2..][0] == poll[2] && poll[2..][1..] == poll[3..];
    DroppedOver(poll[..2], poll[2..], {poll[2]});
    DropUnused(poll[..2], {poll[2]});
    DropHead(poll[2..]);
  }

  lemma ExpireFront(poll: seq<Socket>, before: seq<Socket>, k: nat)
    requires 2 <= |before| && 2 + k < |poll| && before == poll[..2] + poll[2..][k..]
    requires Distinct(before[2..]) && poll[2..][k] != poll[0] && poll[2..][k] != poll[1]
    ensures Dropped(before, {poll[2..][k]}) == poll[..2] + poll[2..][k + 1..]
  {
    hide Distinct, Dropped;
    assert before[2] == poll[2..][k] && before[..2] == poll[..2] && before[3..] == poll[2..][k + 1..];
    DropThird(before);
  }

  /** Expired requests that are first in the poll vector leave it from the front. */
  lemma {:induction false} ExpireFromFront(st: State, late: seq<Socket>, now: int)
    requires Good(st) && late <= st.poll[2..]
    requires forall s | s in late :: s in st.requests && Expired(st.requests[s], now)
    ensures ExpireAll(st, late, now).poll == st.poll[..2] + st.poll[2..][|late|..]
  {
    hide Good, Dropped, Distinct;
    PolledFrom(st);
    if late != [] {
      var k := |late| - 1;
      var init, s := late[..k], late[k];
      assert late == init + [s] && s == st.poll[2..][k];
      ExpireFromFront(st, init, now);
      ExpireAllIsGood(st, init, now);
      var before := ExpireAll(st, init, now);
      hide ExpireAll;
      PolledFrom(before);
      assert s in late;
      ExpireFront(st.poll, before.poll, k);
      assert before.poll[2..][0] == s;
      assert s in before.requests;
      ExpireAllLast(st, late, now);
    }
  }

  lemma ExpireAllLast(st: State, late: seq<Socket>, now: int)
    requires late != []
    ensures var before, s := ExpireAll(st, late[..|late| - 1], now), late[|late| - 1];
            s in before.requests ==> ExpireAll(st, late, now).poll == Dropped(before.poll, {s})
  {}

  lemma PolledFrom(st: State)
    requires Good(st)
    ensures 2 <= |st.poll| && st.poll[0] == NODE && st.poll[1] == RESPONSE && Distinct(st.poll[2..])
    ensures forall s :: s in st.poll[2..] <==> s in st.requests
    ensures forall s | s in st.requests :: RESPONSE < s
  {}

  /** Handling expired requests comes to an end exactly when they are, in the order of the map, the first that are
      polled. */
  lemma {:induction false} HangsExactly(st: State, late: seq<Socket>, now: int)
    requires Good(st) && Distinct(late) && forall s | s in late :: s in st.requests && Expired(st.requests[s], now)
    ensures Hangs(st, late, now) <==> !(late <= st.poll[2..])
  {
    hide Good, ExpireAll, Distinct;
    PolledFrom(st);
    if late != [] {
      var k := |late| - 1;
      var init, s := late[..k], late[k];
      assert late == init + [s];
      DistinctInit(late);
      NotBefore(late);
      HangsExactly(st, init, now);
      if init <= st.poll[2..] { StuckExactly(st, init, s, now); }
    }
  }

  lemma NotBefore(late: seq<Socket>)
    requires Distinct(late) && late != []
    ensures late[|late| - 1] !in late[..|late| - 1]
  {}

  lemma StuckAt(poll: seq<Socket>, before: seq<Socket>, init: seq<Socket>, s: Socket)
    requires 2 <= |poll| && init <= poll[2..] && before == poll[..2] + poll[2..][|init|..] && s in before[2..]
    ensures Stuck(before, s) <==> !(init + [s] <= poll[2..])
  {
    assert before[2..] == poll[2..][|init|..];
    assert before[2] == poll[2..][|init|];
  }

  lemma StuckExactly(st: State, init: seq<Socket>, s: Socket, now: int)
    requires Good(st) && s !in init && s in st.requests
    requires forall r | r in init :: r in st.requests && Expired(st.requests[r], now)
    requires 2 <= |st.poll| && init <= st.poll[2..]
    ensures Stuck(ExpireAll(st, init, now).poll, s) <==> !(init + [s] <= st.poll[2..])
  {
    hide Good, ExpireAll, Distinct, Stuck;
    ExpireFromFront(st, init, now);
    var before := ExpireAll(st, init, now);
    ExpireAllIsGood(st, init, now);
    PolledFrom(before);
    assert s in before.requests;
    StuckAt(st.poll, before.poll, init, s);
  }

  // ----- when the loop wakes up

  predicate Timed(st: State, s: Socket, now: int) {
    s in st.requests && 0 < st.requests[s].timeout && !Expired(st.requests[s], now)
  }

  /** The timeout for the poll: an absolute time is compared with a relative one. */
  function NextTimeout(st: State, order: seq<Socket>, now: int): int {
    if order == [] then -1
    else
      var before := NextTimeout(st, order[..|order| - 1], now);
      var s := order[|order| - 1];
      if Timed(st, s, now) && (before < 0 || st.requests[s].timeout < before) then st.requests[s].timeout - now
      else before
  }

  /** The first request in the order of the map that can time out. */
  function FirstTimed(st: State, order: seq<Socket>, now: int): Option<Socket> {
    if order == [] then None
    else
      var before := FirstTimed(st, order[..|order| - 1], now);
      if before.Some? then before else if Timed(st, order[|order| - 1], now) then Some(order[|order| - 1]) else None
  }

  /** As long as nobody waits for longer than the clock has run, that is the one the loop wakes up for. */
  lemma {:induction false} WakesForTheFirst(st: State, order: seq<Socket>, now: int)
    requires forall s | s in order && s in st.requests :: st.requests[s].timeout - now <= now
    ensures match FirstTimed(st, order, now)
            case None => NextTimeout(st, order, now) == -1
            case Some(s) =>
              s in order && Timed(st, s, now) && NextTimeout(st, order, now) == st.requests[s].timeout - now > 0
  {
    if order != [] {
      var init := order[..|order| - 1];
      assert order == init + [order[|order| - 1]];
      WakesForTheFirst(st, init, now);
    }
  }

  /** So it wakes up in time for all of them exactly when the first has the earliest deadline. */
  lemma WakesInTimeExactly(st: State, order: seq<Socket>, now: int)
    requires forall s | s in order && s in st.requests :: st.requests[s].timeout - now <= now
    requires FirstTimed(st, order, now).Some?
    ensures var first := FirstTimed(st, order, now).value;
            && first in st.requests
            && ((forall s | s in order && Timed(st, s, now) ::
                   now + NextTimeout(st, order, now) <= st.requests[s].timeout) <==>
                (forall s | s in order && Timed(st, s, now) :: st.requests[first].timeout <= st.requests[s].timeout))
  {
    WakesForTheFirst(st, order, now);
  }
}
