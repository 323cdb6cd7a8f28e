/** One subscription to one publisher is enough for a socket queued twice to spoil the tables. */
module SubscriptionExamples {
  import opened Relays
  import opened Subscriptions
  import opened Watching
  import opened SubscriptionLaws
  import opened EndToEndExamples

  const First := Subscribing.Subscribe(OURS, true, 1, [A])

  lemma FirstIsWatched()
    ensures FollowAll(HERE, [First]) == map[OURS := Watch(map["tcp://a:1" := 2], {1})]
  {
    hide Trimmed, Joined;
    EndToEnd.FollowMore(HERE, [], First);
    assert [] + [First] == [First];
    Targets();
    JoinsA();
    assert FollowAll(HERE, []) == map[];
    assert {} + {1} == {1};
  }

  lemma OnlyConnection(st: Tables)
    requires Consistent(st) && Watches(st) == map[OURS := Watch(map["tcp://a:1" := 2], {1})]
    ensures OURS in st.subscriptions && st.subscriptions[OURS].pollItemMap.Keys == {"tcp://a:1"}
  {
    hide Consistent;
    assert OURS in Watches(st);
    assert Watches(st)[OURS].connections.Keys == {"tcp://a:1"};
  }

  /** Closed a second time, the only connection of a subscription leaves one without a socket behind. */
  predicate SpoiltBy(st: Tables, s: Socket) {
    OURS in st.subscriptions && s in st.sockets
    && var twice := Delete(Delete(st, OURS, s), OURS, s);
       "" in twice.subscriptions[OURS].pollItemMap && twice.subscriptions[OURS].pollItemMap[""] == NULL
  }

  /** That is so in the run that subscribes to a product with one publisher and does nothing else. */
  lemma ClosedTwice()
    ensures exists st, s :: Reaches(HERE, [First], st) && SpoiltBy(st, s)
  {
    hide Consistent, Reaches, FollowAll, Watches, Delete;
    FirstIsWatched();
    EveryRunExists(HERE, [First]);
    var st :| Reaches(HERE, [First], st);
    RunsFollow(HERE, [First], st);
    OnlyConnection(st);
    var connected := st.subscriptions[OURS].pollItemMap;
    assert "tcp://a:1" in connected && "" !in connected;
    var s := connected["tcp://a:1"];
    Subscribing.CurrentSocketConsistent(st, OURS, "tcp://a:1");
    QueuedTwice(st, OURS, s);
    assert SpoiltBy(st, s);
  }
}
