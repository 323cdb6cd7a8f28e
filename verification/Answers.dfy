/** What each response does to the request it answers, whatever else arrives in the same pass. */
module Answers {
  import opened Common
  import opened Requests

  /** The outcome a requestor is owed: the response itself, if it comes from the provider that was asked. */
  predicate Owed(d: Details, response: Response, o: Outcome) {
    if response.Answer? && response.regTime == d.regTime then o == Filled(d.ticket, response)
    else response.Answer? && o == Aborted(d.ticket, response)
  }

  /** The request has moved to a fresh socket. */
  ghost predicate HandedOver(st: State, requests: map<Socket, Details>, handed: seq<Socket>, s: Socket)
    requires s in st.requests
  {
    exists to :: to in handed && st.next <= to && to in requests && requests[to] == st.requests[s]
  }

  /** One of the responses in done calls for this outcome. */
  ghost predicate CalledFor(st: State, done: seq<Socket>, ready: map<Socket, Response>, o: Outcome) {
    exists s :: s in done && s in ready && s in st.requests && Owed(st.requests[s], ready[s], o)
  }

  ghost predicate NewOutcomes(st: State, done: seq<Socket>, ready: map<Socket, Response>, outcomes: seq<Outcome>) {
    && st.outcomes <= outcomes
    && forall o :: o in outcomes[|st.outcomes|..] <==> CalledFor(st, done, ready, o)
  }

  /** What is pending after the sockets in done: what has no response, and what has been handed over, once. */
  ghost predicate StillPending(st: State, done: seq<Socket>, ready: map<Socket, Response>, pass: Pass) {
    && (forall s | s in st.requests && !(s in done && s in ready) ::
          s in pass.st.requests && pass.st.requests[s] == st.requests[s])
    && (forall s | s in done && s in st.requests && s in ready && ready[s].Future? ::
          HandedOver(st, pass.st.requests, pass.handed, s))
    && (forall to | to in pass.handed ::
          to in pass.st.requests && exists s :: s in done && s in st.requests && s in ready && ready[s].Future?
                                                && pass.st.requests[to] == st.requests[s])
  }

  ghost predicate Progress(st: State, done: seq<Socket>, ready: map<Socket, Response>, pass: Pass) {
    && Passing(st, done, ready, pass)
    && NewOutcomes(st, done, ready, pass.st.outcomes)
    && StillPending(st, done, ready, pass)
  }

  // ----- one response

  lemma CalledForMore(st: State, done: seq<Socket>, ready: map<Socket, Response>, s: Socket, o: Outcome)
    ensures CalledFor(st, done + [s], ready, o) <==>
            CalledFor(st, done, ready, o) || (s in ready && s in st.requests && Owed(st.requests[s], ready[s], o))
  {
    hide Owed;
    if CalledFor(st, done, ready, o) {
      var r :| r in done && r in ready && r in st.requests && Owed(st.requests[r], ready[r], o);
      assert r in done + [s];
    }
    assert s in done + [s];
  }

  lemma NothingNew(st: State, done: seq<Socket>, ready: map<Socket, Response>, outcomes: seq<Outcome>, s: Socket)
    requires NewOutcomes(st, done, ready, outcomes) && !(s in ready && s in st.requests && ready[s].Answer?)
    ensures NewOutcomes(st, done + [s], ready, outcomes)
  {
    hide CalledFor;
    forall o ensures CalledFor(st, done + [s], ready, o) <==> CalledFor(st, done, ready, o) {
      CalledForMore(st, done, ready, s, o);
    }
  }

  lemma OneNew(st: State, done: seq<Socket>, ready: map<Socket, Response>, outcomes: seq<Outcome>, s: Socket,
               o: Outcome)
    requires NewOutcomes(st, done, ready, outcomes) && s in ready && s in st.requests
    requires forall x :: Owed(st.requests[s], ready[s], x) <==> x == o
    ensures NewOutcomes(st, done + [s], ready, outcomes + [o])
  {
    hide CalledFor, Owed;
    var more := (outcomes + [o])[|st.outcomes|..];
    assert more == outcomes[|st.outcomes|..] + [o];
    forall x ensures x in more <==> CalledFor(st, done + [s], ready, x) {
      CalledForMore(st, done, ready, s, x);
    }
  }

  lemma NotYet(st: State, done: seq<Socket>, ready: map<Socket, Response>, pass: Pass, s: Socket)
    requires StillPending(st, done, ready, pass) && s in st.requests && s !in done
    ensures s in pass.st.requests && pass.st.requests[s] == st.requests[s]
  {
    hide HandedOver;
  }

  lemma StillHandedOver(st: State, requests: map<Socket, Details>, handed: seq<Socket>, s: Socket,
                        requests': map<Socket, Details>, handed': seq<Socket>)
    requires s in st.requests && HandedOver(st, requests, handed, s)
    requires forall to | to in handed :: to in handed' && to in requests' && to in requests
                                         && requests'[to] == requests[to]
    ensures HandedOver(st, requests', handed', s)
  {}

  lemma AnswerPends(st: State, done: seq<Socket>, ready: map<Socket, Response>, pass: Pass, s: Socket)
    requires StillPending(st, done, ready, pass) && s in st.requests && s !in done && s in ready && ready[s].Answer?
    requires s in pass.st.requests && s !in pass.handed
    ensures StillPending(st, done + [s], ready, Respond(pass, s, ready[s]))
  {
    hide HandedOver;
    var pass' := Respond(pass, s, ready[s]);
    forall r | r in done + [s] && r in st.requests && r in ready && ready[r].Future?
      ensures HandedOver(st, pass'.st.requests, pass'.handed, r)
    {
      StillHandedOver(st, pass.st.requests, pass.handed, r, pass'.st.requests, pass'.handed);
    }
    StillFromFuture(st, done, ready, pass.st.requests, pass.handed, s, pass'.st.requests);
  }

  lemma StillFromFuture(st: State, done: seq<Socket>, ready: map<Socket, Response>, requests: map<Socket, Details>,
                        handed: seq<Socket>, s: Socket, requests': map<Socket, Details>)
    requires forall to | to in handed ::
               to in requests && exists s :: s in done && s in st.requests && s in ready && ready[s].Future?
                                             && requests[to] == st.requests[s]
    requires forall to | to in handed :: to in requests' && (to in requests ==> requests'[to] == requests[to])
    ensures forall to | to in handed ::
              to in requests' && exists r :: r in done + [s] && r in st.requests && r in ready && ready[r].Future?
                                             && requests'[to] == st.requests[r]
  {
    forall to | to in handed
      ensures exists r :: r in done + [s] && r in st.requests && r in ready && ready[r].Future?
                          && requests'[to] == st.requests[r]
    {
      var r :| r in done && r in st.requests && r in ready && ready[r].Future? && requests[to] == st.requests[r];
      assert r in done + [s];
    }
  }

  lemma FuturePends(st: State, done: seq<Socket>, ready: map<Socket, Response>, pass: Pass, s: Socket)
    requires StillPending(st, done, ready, pass) && s in st.requests && s !in done && s in ready && ready[s].Future?
    requires s in pass.st.requests && s !in pass.handed && st.next <= pass.st.next
    requires pass.st.next !in pass.st.requests
    ensures StillPending(st, done + [s], ready, Respond(pass, s, ready[s]))
  {
    hide HandedOver;
    var to, pass' := pass.st.next, Respond(pass, s, ready[s]);
    NotYet(st, done, ready, pass, s);
    assert s in done + [s];
    assert to in pass'.handed;
    forall r | r in done + [s] && r in st.requests && r in ready && ready[r].Future?
      ensures HandedOver(st, pass'.st.requests, pass'.handed, r)
    {
      if r == s {
        JustHandedOver(st, pass'.st.requests, pass'.handed, s, to);
      } else {
        StillHandedOver(st, pass.st.requests, pass.handed, r, pass'.st.requests, pass'.handed);
      }
    }
    StillFromFuture(st, done, ready, pass.st.requests, pass.handed, s, pass'.st.requests);
  }

  lemma JustHandedOver(st: State, requests: map<Socket, Details>, handed: seq<Socket>, s: Socket, to: Socket)
    requires s in st.requests && to in handed && st.next <= to && to in requests && requests[to] == st.requests[s]
    ensures HandedOver(st, requests, handed, s)
  {}

  lemma PassedOverPends(st: State, done: seq<Socket>, ready: map<Socket, Response>, pass: Pass, s: Socket)
    requires StillPending(st, done, ready, pass) && s !in ready
    ensures StillPending(st, done + [s], ready, pass)
  {
    hide HandedOver;
    StillFromFuture(st, done, ready, pass.st.requests, pass.handed, s, pass.st.requests);
  }

  /** What the pass so far says of the next socket. */
  lemma NextSocket(st: State, done: seq<Socket>, ready: map<Socket, Response>, pass: Pass, s: Socket)
    requires Passing(st, done, ready, pass) && s in st.requests && forall r | r in st.requests :: r < st.next
    ensures s !in pass.handed && st.next <= pass.st.next && pass.st.next !in pass.st.requests
  {
    hide Conserved, Deserved, Distinct;
  }

  lemma Answered(st: State, done: seq<Socket>, ready: map<Socket, Response>, pass: Pass, s: Socket)
    requires Progress(st, done, ready, pass) && s in st.requests && s !in done && s in ready
    requires forall r | r in st.requests :: r < st.next
    ensures Progress(st, done + [s], ready, Respond(pass, s, ready[s]))
  {
    hide Passing, StillPending, NewOutcomes, HandedOver, CalledFor;
    RespondPasses(st, done, ready, pass, s);
    NotYet(st, done, ready, pass, s);
    NextSocket(st, done, ready, pass, s);
    var d := st.requests[s];
    match ready[s]
    case Future(_) =>
      FuturePends(st, done, ready, pass, s);
      NothingNew(st, done, ready, pass.st.outcomes, s);
    case Answer(regTime, _) =>
      AnswerPends(st, done, ready, pass, s);
      OneNew(st, done, ready, pass.st.outcomes, s,
             if regTime != d.regTime then Aborted(d.ticket, ready[s]) else Filled(d.ticket, ready[s]));
  }

  lemma PassedOver(st: State, done: seq<Socket>, ready: map<Socket, Response>, pass: Pass, s: Socket)
    requires Progress(st, done, ready, pass) && s !in ready
    ensures Progress(st, done + [s], ready, pass)
  {
    hide Passing, StillPending, NewOutcomes;
    PassOver(st, done, ready, pass, s);
    PassedOverPends(st, done, ready, pass, s);
    NothingNew(st, done, ready, pass.st.outcomes, s);
  }

  // ----- the whole pass

  lemma {:induction false} PassProgresses(st: State, sockets: seq<Socket>, ready: map<Socket, Response>)
    requires Good(st) && Distinct(sockets) && forall s | s in sockets :: s in st.requests
    ensures Progress(st, sockets, ready, RespondAll(Pass(st, []), sockets, ready))
  {
    hide Progress, Good, Passing, Distinct, Respond;
    if sockets == [] {
      NothingDone(st, ready);
    } else {
      var init, s := sockets[..|sockets| - 1], sockets[|sockets| - 1];
      assert sockets == init + [s];
      LastIsNew(sockets);
      PassProgresses(st, init, ready);
      SocketsAreOld(st);
      var pass := RespondAll(Pass(st, []), init, ready);
      if s in ready {
        Pended(st, init, ready, pass, s);
        Answered(st, init, ready, pass, s);
      } else {
        PassedOver(st, init, ready, pass, s);
      }
    }
  }

  lemma Pended(st: State, done: seq<Socket>, ready: map<Socket, Response>, pass: Pass, s: Socket)
    requires Progress(st, done, ready, pass) && s in st.requests && s !in done
    ensures s in pass.st.requests
  {
    hide Passing, NewOutcomes, StillPending;
    NotYet(st, done, ready, pass, s);
  }

  lemma NothingDone(st: State, ready: map<Socket, Response>)
    requires Good(st)
    ensures Progress(st, [], ready, RespondAll(Pass(st, []), [], ready))
  {
    RespondAllPasses(st, [], ready);
    hide Good, Passing, Owed;
  }

  lemma LastIsNew(sockets: seq<Socket>)
    requires Distinct(sockets) && sockets != []
    ensures Distinct(sockets[..|sockets| - 1]) && sockets[|sockets| - 1] !in sockets[..|sockets| - 1]
  {}

  lemma SocketsAreOld(st: State)
    requires Good(st)
    ensures forall r | r in st.requests :: r < st.next
    ensures 2 <= |st.poll| && Distinct(st.poll[2..]) && forall s :: s in st.poll[2..] <==> s in st.requests
  {
    hide Conserved, Deserved, Distinct;
  }

  /** The pass, and what it makes of the poll vector. */
  lemma PassFacts(st: State, ready: map<Socket, Response>, pass: Pass)
    requires Good(st) && 2 <= |st.poll| && pass == RespondAll(Pass(st, []), st.poll[2..], ready)
    ensures Passing(st, st.poll[2..], ready, pass) && NewOutcomes(st, st.poll[2..], ready, pass.st.outcomes)
            && StillPending(st, st.poll[2..], ready, pass)
    ensures var st' := Responses(st, ready);
            st' == pass.st.(poll := st'.poll) && st'.accepted == st.accepted && 2 <= |st'.poll|
            && (forall s | s in st'.poll[2..] :: s in st'.poll)
            && forall s :: s in st'.poll[2..] <==> (s in st.poll[2..] && s !in ready) || s in pass.handed
  {
    hide Passing, NewOutcomes, StillPending, Good, Distinct, Dropped, RespondAll;
    SocketsAreOld(st);
    PassProgresses(st, st.poll[2..], ready);
    RespondAllOutcomes(Pass(st, []), st.poll[2..], ready);
    DroppedHas(st.poll[2..], ready.Keys);
    assert Responses(st, ready).poll[2..] == Dropped(st.poll[2..], ready.Keys) + pass.handed;
  }

  lemma OutcomesReach(st: State, ready: map<Socket, Response>)
    requires Good(st) && 2 <= |st.poll|
    ensures var st' := Responses(st, ready);
            && st'.accepted == st.accepted && st.outcomes <= st'.outcomes
            && (forall o :: o in st'.outcomes[|st.outcomes|..] <==>
                  exists s :: s in st.requests && s in ready && ready[s].Answer?
                              && o == if ready[s].regTime == st.requests[s].regTime
                                      then Filled(st.requests[s].ticket, ready[s])
                                      else Aborted(st.requests[s].ticket, ready[s]))
  {
    hide Good, Passing, StillPending, RespondAll, Responses;
    var pass := RespondAll(Pass(st, []), st.poll[2..], ready);
    PassFacts(st, ready, pass);
    SocketsAreOld(st);
  }

  lemma PendingReach(st: State, ready: map<Socket, Response>)
    requires Good(st) && 2 <= |st.poll|
    ensures var st' := Responses(st, ready);
            && (forall s | s in st.requests && s !in ready ::
                  s in st'.requests && st'.requests[s] == st.requests[s] && s in st'.poll)
            && (forall s | s in st.requests && s in ready && ready[s].Future? ::
                  s !in st'.requests && s !in st'.poll[2..]
                  && exists to :: st.next <= to && to in st'.requests && to in st'.poll
                                  && st'.requests[to] == st.requests[s])
            && (forall s | s in st.requests && s in ready && ready[s].Answer? ::
                  s !in st'.requests && s !in st'.poll[2..])
            && (forall to | to in st'.requests && !(to in st.requests && to !in ready) ::
                  exists s :: s in st.requests && s in ready && ready[s].Future? && st'.requests[to] == st.requests[s])
  {
    hide Good, NewOutcomes, RespondAll, Responses, Conserved, Deserved, Distinct;
    var pass, st' := RespondAll(Pass(st, []), st.poll[2..], ready), Responses(st, ready);
    PassFacts(st, ready, pass);
    SocketsAreOld(st);
  }

  /** In a pass over the responses: a request whose socket has none stays as it is; an answer of the provider that was
      asked fills the request with that very answer, and one of any other provider aborts it; a future response leaves
      the request pending, as it was, on a fresh socket that is polled. Nobody else hears anything, and no other request
      appears. */
  lemma ResponsesReachTheirRequests(st: State, ready: map<Socket, Response>)
    requires Good(st)
    ensures var st' := Responses(st, ready);
            && st'.accepted == st.accepted && st.outcomes <= st'.outcomes
            && (forall s | s in st.requests && s !in ready ::
                  s in st'.requests && st'.requests[s] == st.requests[s] && s in st'.poll)
            && (forall s | s in st.requests && s in ready && ready[s].Future? ::
                  s !in st'.requests && s !in st'.poll[2..]
                  && exists to :: st.next <= to && to in st'.requests && to in st'.poll
                                  && st'.requests[to] == st.requests[s])
            && (forall s | s in st.requests && s in ready && ready[s].Answer? ::
                  s !in st'.requests && s !in st'.poll[2..])
            && (forall to | to in st'.requests && !(to in st.requests && to !in ready) ::
                  exists s :: s in st.requests && s in ready && ready[s].Future? && st'.requests[to] == st.requests[s])
            && (forall o :: o in st'.outcomes[|st.outcomes|..] <==>
                  exists s :: s in st.requests && s in ready && ready[s].Answer?
                              && o == if ready[s].regTime == st.requests[s].regTime
                                      then Filled(st.requests[s].ticket, ready[s])
                                      else Aborted(st.requests[s].ticket, ready[s]))
  {
    hide Responses, Good;
    SocketsAreOld(st);
    OutcomesReach(st, ready);
    PendingReach(st, ready);
  }

  // ----- every run

  /** The response arrived in that event, on the socket the request was waiting on. */
  ghost predicate ArrivedAt(events: seq<Event>, k: nat, t: nat, response: Response) {
    && k < |events| && events[k].Answers?
    && var before := Run(events[..k]);
       exists s :: s in before.requests && before.requests[s].ticket == t
                   && s in events[k].ready && events[k].ready[s] == response
  }

  lemma {:induction false} ExpireAllTimesOut(st: State, late: seq<Socket>, now: int, i: nat)
    requires i < |ExpireAll(st, late, now).outcomes| && |st.outcomes| <= i
    ensures ExpireAll(st, late, now).outcomes[i].TimedOut?
  {
    if late != [] {
      var init := late[..|late| - 1];
      if i < |ExpireAll(st, init, now).outcomes| { ExpireAllTimesOut(st, init, now, i); }
    }
  }

  lemma ArrivedEarlier(events: seq<Event>, k: nat, t: nat, response: Response)
    requires events != [] && ArrivedAt(events[..|events| - 1], k, t, response)
    ensures ArrivedAt(events, k, t, response)
  {
    hide Run;
    assert events[..|events| - 1][..k] == events[..k];
  }

  lemma JustArrived(events: seq<Event>, t: nat, response: Response, i: nat)
    requires events != []
    requires var k := |events| - 1;
             |Run(events[..k]).outcomes| <= i < |Run(events).outcomes| && !Run(events).outcomes[i].TimedOut?
             && Run(events).outcomes[i].ticket == t && Run(events).outcomes[i].response == response
    ensures ArrivedAt(events, |events| - 1, t, response)
  {
    var k := |events| - 1;
    var st, o := Run(events[..k]), Run(events).outcomes[i];
    assert Run(events) == Step(st, events[k]);
    hide Run, Good, Responses, ExpireAll, Late;
    SocketsAreOld(st);
    match events[k]
    case Ask(_, _, _, _, _, _, _) =>
    case Expiry(order, when) => ExpireAllTimesOut(st, Late(st, order, when), when, i);
    case Answers(ready) => AnswerArrived(st, ready, t, response, i);
  }

  lemma AnswerArrived(st: State, ready: map<Socket, Response>, t: nat, response: Response, i: nat)
    requires Good(st) && 2 <= |st.poll|
    requires var outcomes := Responses(st, ready).outcomes;
             |st.outcomes| <= i < |outcomes| && !outcomes[i].TimedOut? && outcomes[i].ticket == t
             && outcomes[i].response == response
    ensures exists s :: s in st.requests && st.requests[s].ticket == t && s in ready && ready[s] == response
  {
    hide Good, Responses;
    OutcomesReach(st, ready);
    var outcomes := Responses(st, ready).outcomes;
    assert outcomes[i] == outcomes[|st.outcomes|..][i - |st.outcomes|];
    assert outcomes[i] in outcomes[|st.outcomes|..];
  }

  /** Whatever a requestor is given has arrived for that very request. */
  lemma {:induction false} EveryAnswerHasArrived(events: seq<Event>, i: nat)
    requires i < |Run(events).outcomes| && !Run(events).outcomes[i].TimedOut?
    ensures var o := Run(events).outcomes[i]; exists k :: ArrivedAt(events, k, o.ticket, o.response)
  {
    hide ArrivedAt, Step, Good;
    if events != [] {
      var init, o := events[..|events| - 1], Run(events).outcomes[i];
      assert events == init + [events[|events| - 1]];
      FatesAreFinal(init, events[|events| - 1]);
      if i < |Run(init).outcomes| {
        EveryAnswerHasArrived(init, i);
        var k :| ArrivedAt(init, k, o.ticket, o.response);
        ArrivedEarlier(events, k, o.ticket, o.response);
      } else {
        JustArrived(events, o.ticket, o.response, i);
      }
    }
  }

  // ----- deadlines

  function Asks(events: seq<Event>): seq<Event> {
    if events == [] then []
    else
      var last := events[|events| - 1];
      Asks(events[..|events| - 1]) + if last.Ask? then [last] else []
  }

  /** The request is for what was asked, and may wait as long as was asked. */
  predicate AsAsked(d: Details, e: Event) {
    && e.Ask? && d.service == e.service && d.requestId == e.requestId && d.requestor == e.requestor && d.url == e.url
    && d.regTime == e.regTime
    && (e.milliseconds > 0 ==> d.timeout - e.now == e.milliseconds) && (e.milliseconds <= 0 ==> d.timeout < 0)
  }

  lemma StepAccepts(st: State, e: Event)
    requires Good(st)
    ensures !e.Ask? ==> Step(st, e).accepted == st.accepted
    ensures e.Ask? ==> |Step(st, e).accepted| == |st.accepted| + 1 && st.accepted <= Step(st, e).accepted
                       && AsAsked(Step(st, e).accepted[|st.accepted|], e)
  {
    hide Good, ExpireAll, RespondAll;
    match e
    case Ask(_, _, _, _, _, _, _) =>
    case Expiry(order, when) => ExpireAllOutcomes(st, Late(st, order, when), when);
    case Answers(ready) =>
      SocketsAreOld(st);
      RespondAllOutcomes(Pass(st, []), st.poll[2..], ready);
  }

  lemma {:induction false} AcceptedAsAsked(events: seq<Event>, t: nat)
    ensures |Run(events).accepted| == |Asks(events)|
    ensures t < |Asks(events)| ==> AsAsked(Run(events).accepted[t], Asks(events)[t])
  {
    hide Step, Good, AsAsked;
    if events != [] {
      var init := events[..|events| - 1];
      AcceptedAsAsked(init, t);
      StepAccepts(Run(init), events[|events| - 1]);
    } else {
      assert Run(events) == Start;
    }
  }

  /** No request times out before its time, and one that may wait for ever never does. */
  lemma TimesOutInTime(events: seq<Event>, i: nat)
    requires i < |Run(events).outcomes| && Run(events).outcomes[i].TimedOut?
    ensures var o := Run(events).outcomes[i];
            o.ticket < |Asks(events)| &&
            var e := Asks(events)[o.ticket];
            e.Ask? && e.milliseconds > 0 && e.now + e.milliseconds <= o.when
  {
    hide Run;
    var o := Run(events).outcomes[i];
    assert Good(Run(events));
    AcceptedAsAsked(events, o.ticket);
    hide Conserved, Polled;
  }

  /** And whoever is still pending after a scan at that time may wait longer. */
  lemma NobodyWaitsTooLong(events: seq<Event>, order: seq<Socket>, when: int, s: Socket)
    requires var st := Run(events + [Expiry(order, when)]); s in order && s in st.requests
    ensures var st := Run(events + [Expiry(order, when)]);
            st.requests[s].ticket < |Asks(events)| &&
            var e := Asks(events)[st.requests[s].ticket];
            e.Ask? && (e.milliseconds > 0 && 0 < e.now + e.milliseconds ==> when < e.now + e.milliseconds)
  {
    var all := events + [Expiry(order, when)];
    assert all[..|events|] == events;
    var st := Run(events);
    hide Run, Good, ExpireAll;
    forall r ensures r in Late(st, order, when) <==> r in order && r in st.requests && Expired(st.requests[r], when) {
      LateHas(st, order, when, r);
    }
    ExpireAllIsGood(st, Late(st, order, when), when);
    PendingIsAccepted(st, s);
    AcceptedAsAsked(events, st.requests[s].ticket);
  }
}
