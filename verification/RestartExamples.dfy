/** A run in which a publisher leaves while its directory restarts, and stays listed in the directory that follows
    it. */
module RestartExamples {
  import opened Common
  import opened Directory
  import opened DirectoryTimes
  import opened DirectoryHoldings
  import opened DirectoryBroadcast
  import opened Replication
  import opened RemoteTables
  import opened Restarts

  const KEY := Key("far", "Telemetry")

  function Publishing(url: string, timestamp: nat): Request {
    Register(Registration("Telemetry", url, Data, None, Some(timestamp), Some("camera"), None, None))
  }

  function Everyone(url: string): Owner { Owner(KEY, Data) }

  /** A directory with one registration shows it in its one picture. */
  lemma FirstPicture(url: string, timestamp: nat)
    ensures var st := Step(Fresh("far"), Publishing(url, timestamp));
            |st.details| == 1 && Table(HeldIn(st.details[0].products, "Telemetry")) == map[url := timestamp]
            && Entries(st, KEY) == map[url := timestamp]
  {
    hide Step, Timed, Table, HeldIn, Means;
    var st, request := Fresh("far"), Publishing(url, timestamp);
    FreshIsTimed(Everyone, "far");
    FreshHasNone();
    RegisterBroadcasts(Everyone, st, request.reg);
    var st' := Step(st, request);
    assert Pictures(Everyone, st', st'.details[0]);
    RegisteredEntry(url, timestamp);
  }

  lemma FreshHasNone()
    ensures !Stale(Fresh("far"), Publishing("", 0).reg)
    ensures Fresh("far").details == [] && Holdings(Fresh("far"), KEY) == []
  {}

  lemma RegisteredEntry(url: string, timestamp: nat)
    ensures Table(Holdings(Step(Fresh("far"), Publishing(url, timestamp)), KEY)) == map[url := timestamp]
  {
    hide Step, Timed, Holdings;
    FreshIsTimed(Everyone, "far");
    var held := Holdings(Fresh("far"), KEY);
    FreshHasNone();
    RegisterHoldings(Everyone, Fresh("far"), Publishing(url, timestamp).reg, KEY);
    TableTake(held, url, timestamp);
    assert Table([]) == map[];
  }

  function Serving(n: nat): seq<Move> {
    if n == 0 then [] else Serving(n - 1) + [Act(Apply)]
  }

  lemma {:induction false} ServingEmpties(link: Link, n: nat)
    requires n <= |link.queue|
    ensures var link' := Travel(link, Serving(n));
            link' == link.(replica := link'.replica, queue := link.queue[n..])
    ensures |Serving(n)| == n && forall i | 0 <= i < n :: Serving(n)[i] == Act(Apply)
  {
    hide Step;
    if n > 0 {
      ServingEmpties(link, n - 1);
      assert Serving(n)[..n - 1] == Serving(n - 1);
      var earlier := Travel(link, Serving(n - 1));
      assert Travel(link, Serving(n)) == Moved(earlier, Act(Apply));
      assert earlier.queue[1..] == link.queue[n..];
    }
  }

  /** A registers and is shown; the directory restarts, and B registers and is shown. */
  function Before(): seq<Move> { [Act(Action.SourceServes(Publishing("tcp://a:1", 2000000))), Act(Deliver)] }

  function Between(): seq<Move> { [Act(Action.SourceServes(Publishing("tcp://b:1", 9000000)))] }

  lemma TravelBefore()
    ensures var link := Travel(Start("far", "near"), Before());
            && link.source == Step(Fresh("far"), Publishing("tcp://a:1", 2000000))
            && link.replica == Fresh("near") && link.initialized && link.cursor == 1
            && Shown(link, KEY) == map["tcp://a:1" := 2000000]
  {
    hide Step, Table, HeldIn, MessageRequests, Travel, Remnant, Entries;
    FirstPicture("tcp://a:1", 2000000);
    var start, request := Start("far", "near"), Publishing("tcp://a:1", 2000000);
    var first, second := Act(Action.SourceServes(request)), Act(Deliver);
    assert Before() == [first] + [second];
    ThroughOne(map[], start, first, KEY);
    ThroughOne(map[], Moved(start, first), second, KEY);
    TravelBoth(start, [first], [second]);
  }

  lemma TravelBetween()
    ensures var link := Travel(Start("far", "near"), Before() + [Restart] + Between());
            && link.source == Step(Fresh("far"), Publishing("tcp://b:1", 9000000))
            && !link.initialized && link.cursor == 0 && |link.source.details| == 1
            && Table(HeldIn(link.source.details[0].products, "Telemetry")) == map["tcp://b:1" := 9000000]
            && Entries(link.source, KEY) == map["tcp://b:1" := 9000000]
  {
    hide Step, Table, HeldIn, Travel, Before, Entries, Remnant;
    FirstPicture("tcp://b:1", 9000000);
    TravelBefore();
    var start := Start("far", "near");
    var here, request := Travel(start, Before()), Publishing("tcp://b:1", 9000000);
    ThroughOne(map[], here, Restart, KEY);
    TravelBoth(start, Before(), [Restart]);
    ThroughOne(map[], Moved(here, Restart), Act(Action.SourceServes(request)), KEY);
    TravelBoth(start, Before() + [Restart], Between());
    assert here.source.domain == "far";
  }

  /** The whole run, with every queued request served. */
  function Restarted(): seq<Move> {
    var there := Travel(Start("far", "near"), Before() + [Restart] + Between());
    Before() + [Restart] + Between() + [Act(Deliver)] + Serving(|Moved(there, Act(Deliver)).queue|)
  }

  lemma RestartedCatchesUp()
    ensures var link := Travel(Start("far", "near"), Restarted());
            CaughtUp(link) && Entries(link.source, KEY) == map["tcp://b:1" := 9000000]
  {
    hide Step, Table, HeldIn, Travel, Before, Between, Entries, MessageRequests, Serving;
    TravelBetween();
    var start := Start("far", "near");
    var there := Travel(start, Before() + [Restart] + Between());
    var delivered := Moved(there, Act(Deliver));
    ThroughOne(map[], there, Act(Deliver), KEY);
    TravelBoth(start, Before() + [Restart] + Between(), [Act(Deliver)]);
    ServingEmpties(delivered, |delivered.queue|);
    TravelBoth(start, Before() + [Restart] + Between() + [Act(Deliver)], Serving(|delivered.queue|));
    assert delivered.queue[|delivered.queue|..] == [];
  }

  lemma RestartedIsProper()
    ensures AllProperMoves(Everyone, "far", "near", Restarted())
  {
    hide Travel;
    var there := Travel(Start("far", "near"), Before() + [Restart] + Between());
    var n := |Moved(there, Act(Deliver)).queue|;
    ServingIsServing(n);
    hide Moved, Serving;
  }

  lemma {:induction false} ServingIsServing(n: nat)
    ensures forall i | 0 <= i < |Serving(n)| :: Serving(n)[i] == Act(Apply)
  {
    if n > 0 { ServingIsServing(n - 1); }
  }

  /** With everything delivered and served, the directory that follows still lists A, which the source does not. */
  lemma WithdrawnPublisherStays()
    ensures AllProperMoves(Everyone, "far", "near", Restarted())
    ensures var link := Travel(Start("far", "near"), Restarted());
            CaughtUp(link)
            && Lists(link.replica.Listed(KEY), "tcp://a:1") && !Lists(link.source.Listed(KEY), "tcp://a:1")
  {
    hide Travel, Restarted, Before, Between, Entries, Table, HeldIn, Shown, Remnant, AllProperMoves, Lists, Serving;
    RestartedIsProper();
    RestartedCatchesUp();
    RestartedRemnant();
    RemnantStays(Everyone, "far", "near", Restarted(), "Telemetry");
    var link := Travel(Start("far", "near"), Restarted());
    EntriesAt(link.replica, KEY, "tcp://a:1");
    EntriesAt(link.source, KEY, "tcp://a:1");
  }

  lemma RestartedRemnant()
    ensures Remnant(map[], Start("far", "near"), Restarted(), KEY) == map["tcp://a:1" := 2000000]
  {
    hide Travel, Table, HeldIn, Shown, Remnant, Entries, Moved, Serving, Before, Between, Outdated, Silent;
    TravelBefore();
    TravelBetween();
    TheirMoves();
    var there := Travel(Start("far", "near"), Before() + [Restart] + Between());
    var n := |Moved(there, Act(Deliver)).queue|;
    ServingIsSilent(n);
    RemnantOfOne(Start("far", "near"), Before(), Between(), Serving(n), KEY);
    OnlyAIsOutdated();
  }

  lemma ServingIsSilent(n: nat)
    ensures forall i | 0 <= i < |Serving(n)| :: Silent(Serving(n)[i])
  {
    hide Serving;
    ServingIsServing(n);
  }

  lemma TheirMoves()
    ensures forall i | 0 <= i < |Before()| :: Before()[i].Act?
    ensures forall i | 0 <= i < |Between()| :: Silent(Between()[i])
  {}

  lemma OnlyAIsOutdated()
    ensures Outdated(map["tcp://a:1" := 2000000], map["tcp://b:1" := 9000000]) == map["tcp://a:1" := 2000000]
  {
    assert "tcp://a:1"[6] != "tcp://b:1"[6];
  }
}
