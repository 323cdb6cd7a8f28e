/** The thread that keeps track of requests, with its map and its poll vector. */
module RequestManagers {
  import opened Common
  import opened Requests

  class RequestManager {
    var requestMap: map<Socket, Details>
    var pollItems: seq<Socket>
    var next: Socket
    /** Requests seen, and calls made to requestors or requests aborted. */
    var accepted: seq<Details>
    var calls: seq<Outcome>

    ghost function View(): State
      reads this
    {
      State(requestMap, pollItems, next, accepted, calls)
    }

    constructor ()
      ensures View() == Start
    {
      requestMap, pollItems, next := map[], [NODE, RESPONSE], RESPONSE + 1;
      accepted, calls := [], [];
    }

    method ProcessRequest(service: string, requestId: string, requestor: nat, url: string, milliseconds: int,
                          regTime: nat, now: int)
      modifies this
      ensures View() == Asked(old(View()), service, requestId, requestor, url, milliseconds, regTime, now)
    {
      var timeout := if milliseconds > 0 then now + milliseconds else -1;
      var s := next;
      next := next + 1;
      pollItems := pollItems + [s];
      var d := Details(|accepted|, service, requestId, requestor, url, timeout, regTime);
      requestMap := requestMap[s := d];
      accepted := accepted + [d];
    }

    /** Looks for the poll item of an expired request; the search does not move on, so it may never end. */
    method ErasePollItem(s: Socket) returns (hangs: bool)
      requires Polled(pollItems, requestMap, next) && s in requestMap
      modifies this`pollItems
      ensures hangs == Stuck(old(pollItems), s)
      ensures pollItems == if hangs then old(pollItems) else Dropped(old(pollItems), {s})
    {
      hide Distinct, Dropped;
      assert s in pollItems[2..];
      if 2 < |pollItems| && pollItems[2] != s { return true; }
      hangs := false;
      if 2 < |pollItems| {
        DropThird(pollItems);
        pollItems := pollItems[..2] + pollItems[3..];
      }
    }

    method ExpireOne(s: Socket, now: int) returns (hangs: bool)
      requires Polled(pollItems, requestMap, next) && s in requestMap
      modifies this
      ensures hangs == Stuck(old(pollItems), s)
      ensures !hangs ==> View() == Expire(old(View()), s, now)
    {
      hide Polled, Dropped, Stuck;
      calls := calls + [TimedOut(requestMap[s].ticket, now)];
      hangs := ErasePollItem(s);
      if !hangs { requestMap := requestMap - {s}; }
    }

    /** One request in the map: it has expired, or may determine when to wake up next. */
    method HandleOne(s: Socket, now: int, nextTimeout0: int) returns (nextTimeout: int, hangs: bool)
      requires Polled(pollItems, requestMap, next) && s in requestMap
      modifies this
      ensures hangs == (Expired(old(requestMap)[s], now) && Stuck(old(pollItems), s))
      ensures !hangs ==> View() == if Expired(old(requestMap)[s], now) then Expire(old(View()), s, now) else old(View())
      ensures nextTimeout == Sooner(old(requestMap)[s], now, nextTimeout0)
    {
      hide Polled, Stuck, Expire;
      nextTimeout, hangs := nextTimeout0, false;
      var t := requestMap[s].timeout;
      if t > 0 {
        if t <= now {
          hangs := ExpireOne(s, now);
        } else if nextTimeout < 0 || t < nextTimeout {
          nextTimeout := t - now;
        }
      }
    }

    /** Handles the requests that have expired, in the order of the map, and finds out when to wake up next. */
    method HandleExpired(order: seq<Socket>, now: int) returns (nextTimeout: int, hangs: bool)
      requires Good(View()) && Distinct(order) && forall s :: s in order <==> s in requestMap
      modifies this
      ensures hangs == Hangs(old(View()), Late(old(View()), order, now), now)
      ensures !hangs ==> View() == ExpireAll(old(View()), Late(old(View()), order, now), now)
      ensures !hangs ==> nextTimeout == NextTimeout(old(View()), order, now)
    {
      hide Good, Distinct, Polled, ExpireAll, Stuck, Expire, Hangs, Late, NextTimeout, Sooner, Expired;
      ghost var st0 := View();
      nextTimeout, hangs := -1, false;
      assert order[..0] == [];
      NothingHandled(st0, now);
      for i := 0 to |order|
        invariant !Hangs(st0, Late(st0, order[..i], now), now)
        invariant View() == ExpireAll(st0, Late(st0, order[..i], now), now)
        invariant nextTimeout == NextTimeout(st0, order[..i], now)
      {
        OneMoreHandled(st0, order, i, now);
        nextTimeout, hangs := HandleOne(order[i], now, nextTimeout);
        if hangs {
          HangsStay(st0, order, i + 1, now);
          return;
        }
      }
      assert order[..|order|] == order;
    }

    /** A response on a socket: a future response moves the request to a new socket, any other one ends it. The poll
        vector plays no part in it. */
    method HandleResponse(s: Socket, response: Response, newPollItems0: seq<Socket>, ghost poll0: seq<Socket>)
      returns (newPollItems: seq<Socket>)
      requires s in requestMap
      modifies this`requestMap, this`next, this`calls
      ensures Pass(View().(poll := poll0), newPollItems) ==
              Respond(Pass(old(View()).(poll := poll0), newPollItems0), s, response)
    {
      newPollItems := newPollItems0;
      var d := requestMap[s];
      if response.Future? {
        var socket := next;
        next := next + 1;
        requestMap := (requestMap - {s})[socket := d];
        newPollItems := newPollItems + [socket];
      } else {
        calls := calls +
            [if response.regTime != d.regTime then Aborted(d.ticket, response) else Filled(d.ticket, response)];
        requestMap := requestMap - {s};
      }
    }

    /** Goes through the poll vector and takes out what has been answered. */
    method ProcessResponses(ready: map<Socket, Response>)
      requires Good(View())
      modifies this
      ensures View() == Responses(old(View()), ready) && Good(View())
    {
      hide Good, Distinct, Dropped, Respond, RespondAll;
      ghost var st0 := View();
      PolledFrom(st0);
      ResponsesAreGood(st0, ready);
      ghost var rest := pollItems[2..];
      ghost var k, head := 0, pollItems[..2];
      var newPollItems: seq<Socket> := [];
      var i := 2;
      NothingAnswered(st0, ready);
      assert rest[..0] == [];
      while i < |pollItems|
        invariant k <= |rest| && i == |head| && pollItems == head + rest[k..]
        invariant head == st0.poll[..2] + Dropped(rest[..k], ready.Keys)
        invariant Pass(View().(poll := st0.poll), newPollItems) == RespondAll(Pass(st0, []), rest[..k], ready)
        decreases |rest| - k
      {
        AtHead(head, rest, k);
        OneMoreAnswered(st0, rest, k, ready);
        var s := pollItems[i];
        if s in ready {
          newPollItems := HandleResponse(s, ready[s], newPollItems, st0.poll);
          pollItems := pollItems[..i] + pollItems[i + 1..];
        } else {
          i := i + 1;
          head := head + [s];
        }
        k := k + 1;
      }
      assert rest[..k] == rest;
      pollItems := pollItems + newPollItems;
    }
  }

  lemma AtHead(head: seq<Socket>, rest: seq<Socket>, k: nat)
    requires k < |rest|
    ensures var poll := head + rest[k..];
            && poll[|head|] == rest[k] && poll == head + [rest[k]] + rest[k + 1..]
            && poll[..|head|] + poll[|head| + 1..] == head + rest[k + 1..]
  {}

  lemma NothingAnswered(st: State, ready: map<Socket, Response>)
    ensures Dropped<Socket>([], ready.Keys) == [] && RespondAll(Pass(st, []), [], ready) == Pass(st, [])
  {}

  lemma OneMoreAnswered(st: State, rest: seq<Socket>, k: nat, ready: map<Socket, Response>)
    requires Good(st) && 2 <= |st.poll| && rest == st.poll[2..] && k < |rest|
    ensures var before := RespondAll(Pass(st, []), rest[..k], ready);
            && rest[k] in before.st.requests
            && RespondAll(Pass(st, []), rest[..k + 1], ready)
                 == (if rest[k] in ready then Respond(before, rest[k], ready[rest[k]]) else before)
            && st.poll[..2] + Dropped(rest[..k + 1], ready.Keys)
                 == st.poll[..2] + Dropped(rest[..k], ready.Keys) + if rest[k] in ready then [] else [rest[k]]
  {
    hide Good, Respond;
    assert rest[..k + 1][..k] == rest[..k];
    StillAsked(st, rest, k, ready);
  }

  lemma StillAsked(st: State, rest: seq<Socket>, k: nat, ready: map<Socket, Response>)
    requires Good(st) && 2 <= |st.poll| && rest == st.poll[2..] && k < |rest|
    ensures rest[k] in RespondAll(Pass(st, []), rest[..k], ready).st.requests
  {
    hide Good, RespondAll, Distinct, Conserved, Deserved;
    PolledFrom(st);
    DistinctPrefix(rest, k);
    assert forall s | s in rest[..k] :: s in rest;
    RespondAllPasses(st, rest[..k], ready);
    assert rest[k] in rest;
  }

  lemma DistinctPrefix(rest: seq<Socket>, k: nat)
    requires Distinct(rest) && k < |rest|
    ensures Distinct(rest[..k]) && rest[k] !in rest[..k]
  {}

  /** The next timeout after one more request. */
  function Sooner(d: Details, now: int, before: int): int {
    if 0 < d.timeout && !Expired(d, now) && (before < 0 || d.timeout < before) then d.timeout - now else before
  }

  lemma NothingHandled(st: State, now: int)
    ensures Late(st, [], now) == [] && ExpireAll(st, [], now) == st && !Hangs(st, [], now)
            && NextTimeout(st, [], now) == -1
  {}

  lemma OneMoreHandled(st: State, order: seq<Socket>, i: nat, now: int)
    requires Good(st) && Distinct(order) && i < |order| && order[i] in st.requests
    ensures var s := order[i];
            var late, late' := Late(st, order[..i], now), Late(st, order[..i + 1], now);
            var mid := ExpireAll(st, late, now);
            && Polled(mid.poll, mid.requests, mid.next) && s in mid.requests && mid.requests[s] == st.requests[s]
            && ExpireAll(st, late', now) == (if Expired(mid.requests[s], now) then Expire(mid, s, now) else mid)
            && Hangs(st, late', now) == (Hangs(st, late, now) || (Expired(mid.requests[s], now) && Stuck(mid.poll, s)))
            && NextTimeout(st, order[..i + 1], now) == Sooner(mid.requests[s], now, NextTimeout(st, order[..i], now))
  {
    hide Good, Distinct, Polled, ExpireAll, Stuck, Expire, Hangs;
    var s := order[i];
    assert order[..i + 1][..i] == order[..i];
    var late := Late(st, order[..i], now);
    StillPending(st, order, i, now);
    GoodIsPolled(ExpireAll(st, late, now));
    if Expired(st.requests[s], now) {
      assert Late(st, order[..i + 1], now) == late + [s];
      OneMoreExpired(st, late, s, now);
      MayHang(st, late, s, now);
    } else {
      assert Late(st, order[..i + 1], now) == late;
    }
  }

  lemma MayHang(st: State, late: seq<Socket>, s: Socket, now: int)
    ensures Hangs(st, late + [s], now) == (Hangs(st, late, now) || Stuck(ExpireAll(st, late, now).poll, s))
  {
    assert (late + [s])[..|late|] == late;
  }

  lemma GoodIsPolled(st: State)
    requires Good(st)
    ensures Polled(st.poll, st.requests, st.next)
  {}

  lemma StillPending(st: State, order: seq<Socket>, i: nat, now: int)
    requires Good(st) && Distinct(order) && i < |order| && order[i] in st.requests
    ensures var mid := ExpireAll(st, Late(st, order[..i], now), now);
            Good(mid) && order[i] in mid.requests && mid.requests[order[i]] == st.requests[order[i]]
  {
    hide Good, ExpireAll;
    assert order[i] !in order[..i];
    forall s
      ensures s in Late(st, order[..i], now) <==> s in order[..i] && s in st.requests && Expired(st.requests[s], now)
    {
      LateHas(st, order[..i], now, s);
    }
    ExpireAllIsGood(st, Late(st, order[..i], now), now);
  }

  lemma OneMoreExpired(st: State, late: seq<Socket>, s: Socket, now: int)
    requires s in ExpireAll(st, late, now).requests
    ensures ExpireAll(st, late + [s], now) == Expire(ExpireAll(st, late, now), s, now)
  {
    assert (late + [s])[..|late|] == late;
  }

  lemma {:induction false} HangsStay(st: State, order: seq<Socket>, i: nat, now: int)
    requires i <= |order| && Hangs(st, Late(st, order[..i], now), now)
    ensures Hangs(st, Late(st, order, now), now)
  {
    if i == |order| {
      assert order[..i] == order;
    } else {
      var init := order[..|order| - 1];
      assert init[..i] == order[..i];
      HangsStay(st, init, i, now);
      var late := Late(st, init, now);
      hide ExpireAll;
      if Late(st, order, now) != late { assert Late(st, order, now)[..|late|] == late; }
    }
  }
}
