/** Two domains are enough for the receiver to block although a broadcast is due. */
module LivenessExamples {
  import opened Common
  import opened Times
  import opened Liveness
  import opened LivenessCommands

  /** Domain "a" broadcasts every ten seconds, domain "b" every second; "b" has been heard twice. */
  const BeaconA := Beacon("a", "tcp://a:1", 1, 10)
  const BeaconB := Beacon("b", "tcp://b:1", 1, 1)

  function Beacons(): seq<(Event, Time)> {
    [(Received(BeaconA), ZERO), (Received(BeaconB), ZERO), (Received(BeaconB), ZERO)]
  }

  /** The three beacons have been heard, and nothing is late yet. */
  const HeardAll := State(
    map["a" := 1, "b" := 2], map["a" := 10, "b" := 1], map["a" := Time(10, 0), "b" := Time(1, 0)], map[], [],
    [Entry("a", Hit(BeaconA, ZERO)), Entry("b", Hit(BeaconB, ZERO)), Entry("b", Hit(BeaconB, ZERO))])

  lemma {:induction false} NothingLate(st: State, domains: seq<string>, now: Time)
    requires forall d | d in domains :: d in st.counts && !Late(st, d, now)
    ensures var sw := CheckAll(Sweep(st, {}, ZERO), domains, now); sw.st == st && sw.gone == {}
  {
    if domains != [] {
      var last := domains[|domains| - 1];
      assert domains == domains[..|domains| - 1] + [last] && last in domains;
      NothingLate(st, domains[..|domains| - 1], now);
      hide CompareTime, SubtractTime, Shorter;
    }
  }

  /** A round in which nothing is late only hears. */
  lemma OnlyHeard(own: string, st: State, e: Event, now: Time)
    requires var heard := Heard(own, ["*"], st, e, now);
             heard.expected.Keys <= heard.counts.Keys && forall d | d in heard.expected :: !Late(heard, d, now)
    ensures Round(own, ["*"], st, e, now).0 == Heard(own, ["*"], st, e, now)
  {
    hide Ascending, CheckAll, Late, Hear;
    var heard := Heard(own, ["*"], st, e, now);
    NothingLate(heard, Ascending(heard.expected.Keys), now);
    assert heard.expected - {} == heard.expected;
  }

  const HeardA := State(
    map["a" := 1], map["a" := 10], map["a" := Time(10, 0)], map[], [], [Entry("a", Hit(BeaconA, ZERO))])

  const HeardAB := State(
    map["a" := 1, "b" := 1], map["a" := 10, "b" := 1], map["a" := Time(10, 0), "b" := Time(1, 0)], map[], [],
    [Entry("a", Hit(BeaconA, ZERO)), Entry("b", Hit(BeaconB, ZERO))])

  lemma HeardOneByOne()
    ensures Hear(Start, BeaconA, ZERO) == HeardA
    ensures Hear(HeardA, BeaconB, ZERO) == HeardAB
    ensures Hear(HeardAB, BeaconB, ZERO) == HeardAll
  {}

  lemma OnlyHeardEarly(own: string, st: State, b: Beacon, heard: State)
    requires b.domain != own && Hear(st, b, ZERO) == heard
    requires heard.expected.Keys <= heard.counts.Keys && forall d | d in heard.expected :: 0 < heard.expected[d].sec
    ensures Round(own, ["*"], st, Received(b), ZERO).0 == heard
  {
    hide Round, Hear;
    OnlyHeard(own, st, Received(b), ZERO);
  }

  lemma RunMore(own: string, rounds: seq<(Event, Time)>, b: Beacon)
    ensures Run(own, ["*"], rounds + [(Received(b), ZERO)]) ==
            Round(own, ["*"], Run(own, ["*"], rounds), Received(b), ZERO).0
  {
    hide Round;
    assert (rounds + [(Received(b), ZERO)])[..|rounds|] == rounds;
  }

  lemma BeaconsHeard(own: string)
    requires own != "a" && own != "b"
    ensures Run(own, ["*"], Beacons()) == HeardAll
  {
    hide Round, Hear, Run;
    var a, b := (Received(BeaconA), ZERO), (Received(BeaconB), ZERO);
    assert Beacons() == [] + [a] + [b] + [b];
    NoRounds(own);
    HeardOneByOne();
    RunMore(own, [], BeaconA);
    OnlyHeardEarly(own, Start, BeaconA, HeardA);
    RunMore(own, [] + [a], BeaconB);
    OnlyHeardEarly(own, HeardA, BeaconB, HeardAB);
    RunMore(own, [] + [a] + [b], BeaconB);
    OnlyHeardEarly(own, HeardAB, BeaconB, HeardAll);
  }

  lemma NoRounds(own: string)
    ensures Run(own, ["*"], []) == Start
  {}

  /** Five seconds later "b" has been silent for longer than one more broadcast takes: the receiver blocks for good,
      though "a" is due in five seconds. */
  lemma BlocksThoughABroadcastIsDue(own: string)
    requires own != "a" && own != "b"
    ensures var st := Run(own, ["*"], Beacons());
            Round(own, ["*"], st, TimedOut, Time(5, 0)).1 == ZERO && Due(st, "a") == Time(10, 0)
  {
    hide Run, Round, Ascending;
    BeaconsHeard(own);
    forall d | LastSurvivor(HeardAll, d, Time(5, 0)) ensures Behindhand(HeardAll, d, Time(5, 0)) {
      assert Survives(HeardAll, "b", Time(5, 0));
      assert !Before("b", "a");
    }
    BlocksForGoodExactly(own, ["*"], Beacons(), TimedOut, Time(5, 0));
  }
}
