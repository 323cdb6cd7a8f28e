/** What the publish manager answers when it is asked whether anybody has subscribed to a product. */
module SubscriberFlags {
  import opened Common
  import opened Subscriptions
  import opened PublishCalls

  /** Nothing for an ID that is not registered. */
  function Answer(st: Outlets, id: string): Option<bool> {
    if id in st.byId && st.byId[id].Some? && st.byId[id].value in st.bySocket
    then Some(st.bySocket[st.byId[id].value].hasSubscribers) else None
  }

  predicate Notifies(c: Call, s: Socket) { c.Subscribed? && c.s == s }

  /** Call k has registered the ID on socket s, and the ID has been neither registered nor unregistered since. */
  predicate BoundAt(id: string, calls: seq<Call>, k: nat, s: Socket) {
    && k < |calls| && Binds(id, calls[k]) && Run(calls[..k]).Running? && Run(calls[..k]).st.next == s
    && forall j | k < j < |calls| :: !Binds(id, calls[j]) && !Unbinds(id, calls[j])
  }

  /** The last notice on the socket since call k was of a subscription. */
  predicate Attended(calls: seq<Call>, k: nat, s: Socket) {
    exists i | k < i < |calls| ::
      calls[i] == Subscribed(s, true) && forall j | i < j < |calls| :: !Notifies(calls[j], s)
  }

  lemma AttendedMore(calls: seq<Call>, c: Call, k: nat, s: Socket)
    requires k < |calls|
    ensures Attended(calls + [c], k, s) <==> if Notifies(c, s) then c == Subscribed(s, true) else Attended(calls, k, s)
  {
    var more := calls + [c];
    assert more[|calls|] == c && forall i | 0 <= i < |calls| :: more[i] == calls[i];
    if Notifies(c, s) {
      if c == Subscribed(s, true) { assert more[|calls|] == Subscribed(s, true); }
    } else if Attended(calls, k, s) {
      var i :| k < i < |calls| && calls[i] == Subscribed(s, true)
               && forall j | i < j < |calls| :: !Notifies(calls[j], s);
      assert more[i] == Subscribed(s, true);
    }
  }

  lemma StillBound(id: string, calls: seq<Call>, c: Call, k: nat, s: Socket)
    requires BoundAt(id, calls, k, s) && !Binds(id, c) && !Unbinds(id, c)
    ensures BoundAt(id, calls + [c], k, s)
  {
    hide Run;
    assert (calls + [c])[..k] == calls[..k];
  }

  lemma JustBound(id: string, calls: seq<Call>, c: Call)
    requires Run(calls).Running? && Binds(id, c)
    ensures BoundAt(id, calls + [c], |calls|, Run(calls).st.next)
    ensures !Attended(calls + [c], |calls|, Run(calls).st.next)
  {
    hide Run;
    assert (calls + [c])[..|calls|] == calls;
  }

  /** A registered ID knows its socket and what has become of it. */
  ghost predicate Tells(st: Outlets, id: string, calls: seq<Call>) {
    id in st.byId && st.byId[id].Some? ==>
      exists k: nat :: BoundAt(id, calls, k, st.byId[id].value)
                       && Answer(st, id) == Some(Attended(calls, k, st.byId[id].value))
  }

  /** What a call leaves of an ID that it does not register. */
  lemma CalledAnswers(st: Outlets, c: Call, id: string)
    requires Fits(st) && Called(st, c).Running? && !Binds(id, c)
    ensures var st' := Called(st, c).st;
            id in st'.byId && st'.byId[id].Some? ==>
              id in st.byId && st.byId[id] == st'.byId[id] && !Unbinds(id, c)
              && Answer(st', id) ==
                 if Notifies(c, st.byId[id].value) then Some(c.newsub) else Answer(st, id)
  {
    hide PollFits, Dropped;
  }

  lemma CalledTells(st: Outlets, c: Call, id: string, calls: seq<Call>)
    requires Run(calls) == Running(st) && Fits(st) && Called(st, c).Running? && Tells(st, id, calls)
    ensures Tells(Called(st, c).st, id, calls + [c])
  {
    hide Run, Fits, BoundAt, Attended;
    var st' := Called(st, c).st;
    if Binds(id, c) {
      JustBound(id, calls, c);
    } else if id in st'.byId && st'.byId[id].Some? {
      CalledAnswers(st, c, id);
      var s := st.byId[id].value;
      var k: nat :| BoundAt(id, calls, k, s) && Answer(st, id) == Some(Attended(calls, k, s));
      StillBound(id, calls, c, k, s);
      BoundInside(id, calls, k, s);
      AttendedMore(calls, c, k, s);
      hide Called, Answer;
      assert BoundAt(id, calls + [c], k, st'.byId[id].value);
    }
  }

  lemma BoundInside(id: string, calls: seq<Call>, k: nat, s: Socket)
    requires BoundAt(id, calls, k, s)
    ensures k < |calls|
  {
    hide Run;
  }

  lemma {:induction false} RunsTell(calls: seq<Call>, id: string)
    ensures Run(calls).Running? ==> Tells(Run(calls).st, id, calls)
  {
    if calls != [] {
      hide Tells, Called, Fits;
      var init, c := calls[..|calls| - 1], calls[|calls| - 1];
      assert calls == init + [c];
      RunsTell(init, id);
      RunsFit(init);
      if Run(calls).Running? { CalledTells(Run(init).st, c, id, init); }
    }
  }

  /** In every run the answer is that of the last notice on the socket of the ID since it was registered, no for a
      socket without one; and it is that the ID is unknown exactly when every registration of it has been undone. */
  lemma AnswersTheLastNotice(calls: seq<Call>, id: string)
    requires Run(calls).Running?
    ensures var answer := Answer(Run(calls).st, id);
            (answer == None <==> Free(id, calls))
            && (answer.Some? ==> exists k: nat, s :: BoundAt(id, calls, k, s) && answer.value == Attended(calls, k, s))
  {
    hide Run, BoundAt, Attended, Free, Haunted;
    RunsTell(calls, id);
    RunsFit(calls);
    RunsLeaveEntries(calls, id);
    hide PollFits;
  }
}
