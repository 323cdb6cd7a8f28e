/** How a new publisher list changes the tables of the subscriptions it is about. */
module Reconciliation {
  import opened Subscriptions

  // ----- the deletion list at the end of a pass

  function DeleteAll(st: Tables, deletions: seq<Deletion>): (st': Tables)
    requires forall i | 0 <= i < |deletions| :: deletions[i].0 in st.subscriptions
    ensures st'.subscriptions.Keys == st.subscriptions.Keys
    decreases |deletions|
  {
    if deletions == [] then st
    else DeleteAll(Delete(st, deletions[0].0, deletions[0].1), deletions[1..])
  }

  /** The connections of a subscription that will survive the deletions. */
  function Live(d: Subscription, doomed: set<Socket>): map<string, Socket> {
    map url | url in d.pollItemMap && d.pollItemMap[url] !in doomed :: d.pollItemMap[url]
  }

  /** The other fields of a subscription. */
  function Rest(d: Subscription): Subscription {
    d.(pollItemMap := map[], socketToUrlMap := map[])
  }

  ghost predicate SameBut<V(!new)>(m: map<Socket, V>, m': map<Socket, V>, doomed: set<Socket>) {
    forall s | s !in doomed :: (s in m' <==> s in m) && (s in m ==> m'[s] == m[s])
  }

  /** What the deletions must leave as it was. */
  ghost predicate Spared(st: Tables, st': Tables, doomed: set<Socket>) {
    && st'.subscriptions.Keys == st.subscriptions.Keys
    && st'.next == st.next
    && (forall sub | sub in st.subscriptions ::
          Rest(st'.subscriptions[sub]) == Rest(st.subscriptions[sub])
          && st'.subscriptions[sub].pollItemMap == Live(st.subscriptions[sub], doomed))
    && SameBut(st.sockets, st'.sockets, doomed)
    && SameBut(st.verification, st'.verification, doomed)
    && SameBut(st.lastCached, st'.lastCached, doomed)
  }

  lemma {:induction false} QueuedSubs(st: Tables, deletions: seq<Deletion>, i: nat)
    requires Queued(st, deletions) && i < |deletions|
    ensures deletions[i].0 in st.subscriptions
  {
    if i > 0 { QueuedSubs(st, deletions[1..], i - 1); }
  }

  lemma {:induction false} StillQueued(st: Tables, st': Tables, s: Socket, deletions: seq<Deletion>)
    requires Queued(st, deletions) && s !in Doomed(deletions) && st'.subscriptions.Keys == st.subscriptions.Keys
    requires forall t | t in st.sockets && t != s :: t in st'.sockets && st'.sockets[t] == st.sockets[t]
    ensures Queued(st', deletions)
  {
    if deletions != [] { StillQueued(st, st', s, deletions[1..]); }
  }

  /** The entry of a subscription after one of its sockets has been closed. */
  function Closed(d: Subscription, s: Socket): Subscription
    requires s in d.socketToUrlMap && d.socketToUrlMap[s] in d.pollItemMap
  {
    var url := d.socketToUrlMap[s];
    d.(pollItemMap := if d.pollItemMap[url] == s then d.pollItemMap - {url} else d.pollItemMap,
       socketToUrlMap := d.socketToUrlMap - {s})
  }

  lemma DeletedIsClosed(st: Tables, doomed: set<Socket>, sub: Sub, s: Socket)
    requires sub in st.subscriptions && Inverse(st.subscriptions[sub], doomed)
             && s in st.subscriptions[sub].socketToUrlMap
    ensures Delete(st, sub, s).subscriptions == st.subscriptions[sub := Closed(st.subscriptions[sub], s)]
  {
    var d := st.subscriptions[sub];
    NothingToReplace(d.pollItemMap, d.socketToUrlMap[s]);
    hide Erased;
  }

  lemma ClosedLive(d: Subscription, doomed: set<Socket>, s: Socket)
    requires Inverse(d, doomed + {s}) && s in d.socketToUrlMap && s !in doomed
    ensures Live(Closed(d, s), doomed) == Live(d, doomed + {s})
  {
    var url := d.socketToUrlMap[s];
    forall other | other in d.pollItemMap && d.pollItemMap[other] == s ensures other == url {
      assert d.socketToUrlMap[d.pollItemMap[other]] == other;
    }
  }

  lemma LiveWithout(d: Subscription, doomed: set<Socket>, s: Socket)
    requires forall url | url in d.pollItemMap :: d.pollItemMap[url] != s
    ensures Live(d, doomed) == Live(d, doomed + {s})
  {}

  lemma LiveElsewhere(d: Subscription, doomed: set<Socket>, s: Socket)
    requires Inverse(d, doomed + {s}) && s !in d.socketToUrlMap
    ensures Live(d, doomed) == Live(d, doomed + {s})
  {
    assert forall url | url in d.pollItemMap :: d.pollItemMap[url] in d.socketToUrlMap;
    LiveWithout(d, doomed, s);
  }

  lemma InverseOf(st: Tables, doomed: set<Socket>, sub: Sub)
    requires Sound(st, doomed) && sub in st.subscriptions
    ensures Inverse(st.subscriptions[sub], doomed)
  {}

  lemma PlaceOf(st: Tables, doomed: set<Socket>, s: Socket, other: Sub)
    requires Sound(st, doomed) && s in st.sockets && other in st.subscriptions
    ensures st.sockets[s] in st.subscriptions && s in st.subscriptions[st.sockets[s]].socketToUrlMap
    ensures other != st.sockets[s] ==> s !in st.subscriptions[other].socketToUrlMap
  {
    assert Owned(st);
    assert Attached(st, s);
    hide Sound;
  }

  lemma DeleteLive(st: Tables, doomed: set<Socket>, sub: Sub, s: Socket, other: Sub)
    requires Sound(st, doomed + {s}) && s !in doomed
    requires sub in st.subscriptions && s in st.sockets && st.sockets[s] == sub && other in st.subscriptions
    ensures Live(Delete(st, sub, s).subscriptions[other], doomed) == Live(st.subscriptions[other], doomed + {s})
  {
    hide Sound, Inverse, Live;
    InverseOf(st, doomed + {s}, sub);
    InverseOf(st, doomed + {s}, other);
    PlaceOf(st, doomed + {s}, s, other);
    DeletedIsClosed(st, doomed + {s}, sub, s);
    hide Delete;
    if other == sub {
      ClosedLive(st.subscriptions[sub], doomed, s);
    } else {
      LiveElsewhere(st.subscriptions[other], doomed, s);
    }
  }

  /** One deletion, seen from the survivors of all of them. */
  ghost predicate Step(st: Tables, st': Tables, s: Socket, doomed: set<Socket>) {
    && st'.subscriptions.Keys == st.subscriptions.Keys
    && st'.next == st.next
    && (forall sub | sub in st.subscriptions ::
          Rest(st'.subscriptions[sub]) == Rest(st.subscriptions[sub])
          && Live(st'.subscriptions[sub], doomed) == Live(st.subscriptions[sub], doomed + {s}))
    && SameBut(st.sockets, st'.sockets, {s})
    && SameBut(st.verification, st'.verification, {s})
    && SameBut(st.lastCached, st'.lastCached, {s})
  }

  lemma DeleteSteps(st: Tables, doomed: set<Socket>, sub: Sub, s: Socket)
    requires Sound(st, doomed + {s}) && sub in st.subscriptions
    requires if s == NULL then true else s in st.sockets && st.sockets[s] == sub && s !in doomed
    ensures Sound(Delete(st, sub, s), doomed) && Step(st, Delete(st, sub, s), s, doomed)
  {
    hide Sound, Live;
    if s == NULL {
      NullDoomed(st, doomed);
      NullIsHarmless(st, doomed, sub);
      forall other | other in st.subscriptions
        ensures Live(st.subscriptions[other], doomed) == Live(st.subscriptions[other], doomed + {NULL})
      {
        NullLive(st, doomed, other);
      }
      hide Delete;
    } else {
      DeleteKeeps(st, doomed, sub, s);
      forall other | other in st.subscriptions
        ensures Live(Delete(st, sub, s).subscriptions[other], doomed) == Live(st.subscriptions[other], doomed + {s})
      {
        DeleteLive(st, doomed, sub, s, other);
        hide Delete;
      }
      hide Erased;
    }
  }

  lemma NullDoomed(st: Tables, doomed: set<Socket>)
    requires Sound(st, doomed + {NULL})
    ensures Sound(st, doomed)
  {
    forall sub | sub in st.subscriptions ensures Inverse(st.subscriptions[sub], doomed) {
      NullIsNowhere(st, doomed + {NULL}, sub);
      InverseOf(st, doomed + {NULL}, sub);
      hide Sound;
    }
    hide Inverse, Owned, Polled, Verified, Separate;
  }

  lemma NullLive(st: Tables, doomed: set<Socket>, sub: Sub)
    requires Sound(st, doomed) && sub in st.subscriptions
    ensures Live(st.subscriptions[sub], doomed) == Live(st.subscriptions[sub], doomed + {NULL})
  {
    hide Sound, Live;
    NullIsNowhere(st, doomed, sub);
    LiveWithout(st.subscriptions[sub], doomed, NULL);
  }

  lemma StepSpares(st: Tables, mid: Tables, st': Tables, s: Socket, doomed: set<Socket>)
    requires Step(st, mid, s, doomed) && Spared(mid, st', doomed)
    ensures Spared(st, st', doomed + {s})
  {
    hide Live;
  }

  lemma NothingDoomed(st: Tables)
    ensures Spared(st, st, {})
  {}

  lemma FirstQueued(st: Tables, deletions: seq<Deletion>)
    requires Draining(st, deletions) && deletions != []
    ensures var (sub, s) := deletions[0];
            && sub in st.subscriptions && NULL !in st.sockets
            && Doomed(deletions) == Doomed(deletions[1..]) + {s}
            && (s != NULL ==> s in st.sockets && st.sockets[s] == sub && s !in Doomed(deletions[1..]))
            && Queued(st, deletions[1..])
  {
    hide Sound;
    NullIsNowhere(st, Doomed(deletions), deletions[0].0);
  }

  /** The end of a pass: every doomed socket disappears from every table, and everything else stays. */
  lemma {:induction false} DeleteAllSpares(st: Tables, deletions: seq<Deletion>)
    requires Draining(st, deletions)
    ensures forall i | 0 <= i < |deletions| :: deletions[i].0 in st.subscriptions
    ensures Consistent(DeleteAll(st, deletions)) && Spared(st, DeleteAll(st, deletions), Doomed(deletions))
    decreases |deletions|
  {
    forall i | 0 <= i < |deletions| ensures deletions[i].0 in st.subscriptions { QueuedSubs(st, deletions, i); }
    hide Sound, Step, Spared, Queued;
    if deletions == [] {
      NothingDoomed(st);
    } else {
      var (sub, s) := deletions[0];
      var rest := deletions[1..];
      FirstQueued(st, deletions);
      DeleteSteps(st, Doomed(rest), sub, s);
      var mid := Delete(st, sub, s);
      StepQueued(st, mid, s, rest, Doomed(rest));
      hide Delete, Doomed;
      DeleteAllSpares(mid, rest);
      StepSpares(st, mid, DeleteAll(mid, rest), s, Doomed(rest));
    }
  }

  lemma StepQueued(st: Tables, mid: Tables, s: Socket, deletions: seq<Deletion>, doomed: set<Socket>)
    requires Queued(st, deletions) && Step(st, mid, s, doomed) && (s != NULL ==> s !in Doomed(deletions))
    requires NULL !in st.sockets
    ensures Queued(mid, deletions)
  {
    if s == NULL { QueuedWithoutNull(st, mid, deletions); } else { StillQueued(st, mid, s, deletions); }
  }

  lemma {:induction false} QueuedWithoutNull(st: Tables, st': Tables, deletions: seq<Deletion>)
    requires Queued(st, deletions) && st'.subscriptions.Keys == st.subscriptions.Keys
    requires forall t | t in st.sockets :: t in st'.sockets && st'.sockets[t] == st.sockets[t]
    ensures Queued(st', deletions)
  {
    if deletions != [] { QueuedWithoutNull(st, st', deletions[1..]); }
  }
}
