/** What the directory is told of a domain that restarts, and when a broadcast counts as missed, both from the
    broadcasts alone. */
module LivenessUpdates {
  import opened Common
  import opened Times
  import opened Liveness
  import opened LivenessCommands

  // ----- restarts, as the broadcasts show them

  /** The broadcasts that were heard with the counter full, since and including the one that connected the domain. A
      counter of two is full with the broadcast itself, so those that follow a worse lead of misses do not count. */
  ghost function FullHits(log: seq<Entry>, d: string): seq<Beacon> {
    if log == [] then []
    else
      var before, last := FullHits(log[..|log| - 1], d), log[|log| - 1];
      if last.domain == d then FullAfter(before, PhaseOf(log[..|log| - 1], d), last.mark) else before
  }

  ghost function FullAfter(before: seq<Beacon>, phase: Phase, mark: Mark): seq<Beacon> {
    if mark.Miss? then if Turn(phase, mark).Up? then before else []
    else if phase.Up? then if Behind(phase.since, 2) then before else before + [mark.beacon]
    else if phase.Counting? && phase.n + 1 >= MAX_RECEIVE_COUNT then [mark.beacon]
    else []
  }

  /** The first broadcast and each one with another start time than the one before it. */
  function Restarts(beacons: seq<Beacon>): seq<Beacon> {
    if beacons == [] then []
    else
      var init, last := beacons[..|beacons| - 1], beacons[|beacons| - 1];
      Restarts(init) + if init == [] || init[|init| - 1].startTime != last.startTime then [last] else []
  }

  /** The first one is an addition, the others are updates. */
  function Announced(d: string, beacons: seq<Beacon>): seq<Command> {
    if beacons == [] then []
    else
      var init, last := beacons[..|beacons| - 1], beacons[|beacons| - 1];
      Announced(d, init) + [if init == [] then Add(d, last.url) else Update(d, last.url)]
  }

  /** The commands since the last removal. */
  function Sentence(commands: seq<Command>): seq<Command> {
    if commands == [] || commands[|commands| - 1].Remove? then []
    else Sentence(commands[..|commands| - 1]) + [commands[|commands| - 1]]
  }

  ghost predicate Tells(st: State, d: string) {
    var full := FullHits(st.log, d);
    && Agrees(st, d)
    && (d in st.connected <==> full != [])
    && (d in st.connected ==> st.connected[d] == full[|full| - 1].startTime)
    && Sentence(Told(st.commands, d)) == Announced(d, Restarts(full))
  }

  lemma FullMore(log: seq<Entry>, entry: Entry, d: string)
    ensures FullHits(log + [entry], d) ==
            if entry.domain == d then FullAfter(FullHits(log, d), PhaseOf(log, d), entry.mark) else FullHits(log, d)
  {
    hide FullAfter;
    assert (log + [entry])[..|log|] == log;
  }

  lemma SentenceMore(commands: seq<Command>, c: Command)
    ensures Sentence(commands + [c]) == if c.Remove? then [] else Sentence(commands) + [c]
  {
    assert (commands + [c])[..|commands|] == commands;
  }

  lemma RestartsMore(beacons: seq<Beacon>, b: Beacon)
    ensures Restarts(beacons + [b]) ==
            Restarts(beacons)
              + if beacons == [] || beacons[|beacons| - 1].startTime != b.startTime then [b] else []
    ensures beacons != [] ==> Restarts(beacons) != []
  {
    assert (beacons + [b])[..|beacons|] == beacons;
    if beacons != [] { RestartsBegin(beacons); }
  }

  lemma {:induction false} RestartsBegin(beacons: seq<Beacon>)
    requires beacons != []
    ensures Restarts(beacons) != []
  {
    if |beacons| > 1 { RestartsBegin(beacons[..|beacons| - 1]); }
  }

  lemma AnnouncedMore(d: string, beacons: seq<Beacon>, b: Beacon)
    ensures Announced(d, beacons + [b]) ==
            Announced(d, beacons) + [if beacons == [] then Add(d, b.url) else Update(d, b.url)]
  {
    assert (beacons + [b])[..|beacons|] == beacons;
  }

  lemma NothingAnnounced(d: string)
    ensures Announced(d, Restarts([])) == [] && Restarts([]) == []
  {}

  // ----- one step

  /** A domain that is connected by this broadcast. */
  lemma Connects(st: State, st': State, b: Beacon, d: string)
    requires Tells(st, d) && Agrees(st', d) && d !in st.connected && b.domain == d
    requires FullHits(st'.log, d) == [b] && st'.connected == st.connected[d := b.startTime]
    requires st'.commands == st.commands + [Add(d, b.url)]
    ensures Tells(st', d)
  {
    hide Agrees, FullHits, Told, Sentence, Announced, Restarts;
    ToldMore(st.commands, Add(d, b.url), d);
    SentenceMore(Told(st.commands, d), Add(d, b.url));
    NothingAnnounced(d);
    assert [] + [b] == [b];
    RestartsMore([], b);
    AnnouncedMore(d, [], b);
  }

  /** A connected domain that is heard with its counter full. */
  lemma Continues(st: State, st': State, b: Beacon, d: string)
    requires Tells(st, d) && Agrees(st', d) && d in st.connected && b.domain == d
    requires FullHits(st'.log, d) == FullHits(st.log, d) + [b]
    requires st'.connected == st.connected[d := b.startTime]
    requires st'.commands == if st.connected[d] != b.startTime then st.commands + [Update(d, b.url)] else st.commands
    ensures Tells(st', d)
  {
    hide Agrees, FullHits, Told, Sentence, Announced, Restarts;
    var full := FullHits(st.log, d);
    ToldMore(st.commands, Update(d, b.url), d);
    SentenceMore(Told(st.commands, d), Update(d, b.url));
    RestartsMore(full, b);
    AnnouncedMore(d, Restarts(full), b);
    assert Restarts(full) + [] == Restarts(full);
  }

  lemma Unchanged(st: State, st': State, d: string)
    requires Tells(st, d) && Agrees(st', d) && FullHits(st'.log, d) == FullHits(st.log, d)
    requires (d in st'.connected <==> d in st.connected)
             && (d in st.connected ==> st'.connected[d] == st.connected[d])
    requires Told(st'.commands, d) == Told(st.commands, d)
    ensures Tells(st', d)
  {
    hide Agrees, FullHits, Told, Sentence, Announced, Restarts;
  }

  /** The counter is full with the next broadcast unless misses lead by two. */
  lemma FullCount(st: State, d: string)
    requires Agrees(st, d) && d in st.connected
    ensures PhaseOf(st.log, d).Up? && d in st.counts
    ensures st.counts[d] + 1 >= MAX_RECEIVE_COUNT <==> !Behind(PhaseOf(st.log, d).since, 2)
  {
    hide PhaseOf, Behind, Excess;
    if PhaseOf(st.log, d).Up? { BehindIsExcess(PhaseOf(st.log, d).since, 2); }
  }

  lemma HearConnected(st: State, b: Beacon, now: Time)
    requires Fits(st, {}) && Tells(st, b.domain) && b.domain in st.connected
    ensures Tells(Hear(st, b, now), b.domain)
  {
    hide Tells, Agrees, FullHits, Told, AddTime, PhaseOf, Behind, Fits;
    var st', d := Hear(st, b, now), b.domain;
    ToldAgrees(st, d);
    HearAgrees(st, b, now, d);
    FullCount(st, d);
    FullMore(st.log, Entry(d, Hit(b, now)), d);
    if Behind(PhaseOf(st.log, d).since, 2) {
      Unchanged(st, st', d);
    } else {
      SameTime(st, d);
      Continues(st, st', b, d);
    }
  }

  lemma ToldAgrees(st: State, d: string)
    requires Tells(st, d)
    ensures Agrees(st, d)
  {
    hide Agrees, FullHits, Told, Sentence, Announced, Restarts;
  }

  lemma SameTime(st: State, d: string)
    requires d in st.connected
    ensures st.connected[d := st.connected[d]] == st.connected
  {}

  lemma HearUnconnected(st: State, b: Beacon, now: Time)
    requires Fits(st, {}) && Tells(st, b.domain) && b.domain !in st.connected
    ensures Tells(Hear(st, b, now), b.domain)
  {
    hide Tells, FullHits, Told, AddTime, PhaseOf, Behind, Fits, Excess;
    var st', d := Hear(st, b, now), b.domain;
    ToldAgrees(st, d);
    HearAgrees(st, b, now, d);
    FullMore(st.log, Entry(d, Hit(b, now)), d);
    assert d in st.counts ==> PhaseOf(st.log, d) == Counting(st.counts[d]);
    hide Agrees;
    NoFullHits(st, d);
    if d in st.counts && st.counts[d] + 1 >= MAX_RECEIVE_COUNT {
      Connects(st, st', b, d);
    } else {
      Unchanged(st, st', d);
    }
  }

  lemma NoFullHits(st: State, d: string)
    requires Tells(st, d) && d !in st.connected
    ensures FullHits(st.log, d) == []
  {
    hide Agrees, FullHits, Told, Sentence, Announced, Restarts;
  }

  lemma HearOther(st: State, b: Beacon, now: Time, d: string)
    requires Fits(st, {}) && Tells(st, d) && d != b.domain
    ensures Tells(Hear(st, b, now), d)
  {
    hide Tells, Agrees, FullHits, Told, AddTime, PhaseOf, Behind, Fits;
    var st' := Hear(st, b, now);
    ToldAgrees(st, d);
    HearAgrees(st, b, now, d);
    FullMore(st.log, Entry(b.domain, Hit(b, now)), d);
    ToldMore(st.commands, Add(b.domain, b.url), d);
    ToldMore(st.commands, Update(b.domain, b.url), d);
    Unchanged(st, st', d);
  }

  lemma HearTells(st: State, b: Beacon, now: Time, d: string)
    requires Fits(st, {}) && Tells(st, d)
    ensures Tells(Hear(st, b, now), d)
  {
    hide Tells, Hear, Fits;
    if d != b.domain {
      HearOther(st, b, now, d);
    } else if d in st.connected {
      HearConnected(st, b, now);
    } else {
      HearUnconnected(st, b, now);
    }
  }

  lemma LoseOwn(st: State, d: string)
    requires d in st.counts && 1 <= st.counts[d] && Tells(st, d)
    ensures Tells(Lose(st, d), d)
  {
    hide Tells, FullHits, Told, AddTime, PhaseOf, Behind, Excess, Turn, Due, Rate, Sentence;
    var st' := Lose(st, d);
    ToldAgrees(st, d);
    LoseAgrees(st, d, d);
    FullMore(st.log, Entry(d, Miss), d);
    PhaseMore(st.log, Entry(d, Miss), d);
    assert PhaseOf(st'.log, d).Up? <==> d in st'.connected;
    hide Agrees;
    if d !in st.connected { NoFullHits(st, d); }
    if d in st.connected && d !in st'.connected {
      ToldMore(st.commands, Remove(d), d);
      SentenceMore(Told(st.commands, d), Remove(d));
      Removed(st', d);
    } else {
      Unchanged(st, st', d);
    }
  }

  lemma Removed(st: State, d: string)
    requires Agrees(st, d) && d !in st.connected && FullHits(st.log, d) == []
    requires Sentence(Told(st.commands, d)) == []
    ensures Tells(st, d)
  {
    hide Agrees, FullHits, Told, Sentence;
    NothingAnnounced(d);
  }

  lemma LoseTells(st: State, c: string, d: string)
    requires c in st.counts && 1 <= st.counts[c] && Tells(st, d)
    ensures Tells(Lose(st, c), d)
  {
    hide Tells, Agrees, FullHits, Told, AddTime, PhaseOf, Behind, Due, Rate;
    if c == d {
      LoseOwn(st, d);
    } else {
      ToldAgrees(st, d);
      LoseAgrees(st, c, d);
      FullMore(st.log, Entry(c, Miss), d);
      ToldMore(st.commands, Remove(c), d);
      Unchanged(st, Lose(st, c), d);
    }
  }

  lemma {:induction false} CheckAllTells(st: State, domains: seq<string>, now: Time, timeout: Time, d: string)
    requires Fits(st, {}) && Distinct(domains) && (forall c | c in domains :: c in st.counts) && Tells(st, d)
    ensures Tells(CheckAll(Sweep(st, {}, timeout), domains, now).st, d)
  {
    if domains != [] {
      hide Fits, Tells, Lose, SubtractTime, Shorter, CompareTime;
      var init, c := domains[..|domains| - 1], domains[|domains| - 1];
      assert domains == init + [c];
      CheckAllTells(st, init, now, timeout, d);
      CheckAllFits(st, init, now, timeout);
      var sw := CheckAll(Sweep(st, {}, timeout), init, now);
      CountsArePositive(sw.st, sw.gone, c);
      LoseTells(sw.st, c, d);
    }
  }

  // ----- every run

  lemma StartTells(d: string)
    ensures Tells(Start, d)
  {}

  lemma {:induction false} RunsTell(own: string, valid: seq<string>, rounds: seq<(Event, Time)>, d: string)
    ensures Tells(Run(own, valid, rounds), d)
  {
    if rounds != [] {
      hide Tells, Fits, Hear, CheckAll, Ascending;
      var init := rounds[..|rounds| - 1];
      var (e, now) := rounds[|rounds| - 1];
      RunsTell(own, valid, init, d);
      RunsFit(own, valid, init);
      var st := Run(own, valid, init);
      if e.Received? {
        HearTells(st, e.beacon, now, d);
        HearFits(st, e.beacon, now);
      }
      var heard := Heard(own, valid, st, e, now);
      SweptDomains(heard);
      CheckAllTells(heard, Ascending(heard.expected.Keys), now, ZERO, d);
      var swept := CheckAll(Sweep(heard, {}, ZERO), Ascending(heard.expected.Keys), now).st;
      if !e.Empty? { SameOutside(swept, Run(own, valid, rounds), d); }
    } else {
      StartTells(d);
    }
  }

  /** In every run: the commands told about a domain since it was connected are one addition, and then one update for
      each change of start time among the broadcasts heard at full count, each with the URL of that broadcast. */
  lemma EveryRestartIsTold(own: string, valid: seq<string>, rounds: seq<(Event, Time)>, d: string)
    ensures var st := Run(own, valid, rounds);
            var full := FullHits(st.log, d);
            && (d in st.connected <==> full != [])
            && (d in st.connected ==> st.connected[d] == full[|full| - 1].startTime)
            && Sentence(Told(st.commands, d)) == Announced(d, Restarts(full))
  {
    hide Run, Agrees, FullHits, Told, Sentence, Announced, Restarts;
    RunsTell(own, valid, rounds, d);
  }

  /** Deadlines say nothing about commands. */
  lemma SameOutside(st: State, st': State, d: string)
    requires st' == st.(expected := st'.expected) && Tells(st, d)
    ensures Tells(st', d)
  {
    hide PhaseOf, Excess, FullHits, Told, Sentence, Announced, Restarts;
  }

  /** Hence the directory knows a connected domain under the URL of the broadcast that brought the start time it is
      connected with: that time has been heard ever since, and another one, or none, before. */
  lemma DirectoryKnowsTheNewest(own: string, valid: seq<string>, rounds: seq<(Event, Time)>, d: string)
    requires d in Run(own, valid, rounds).connected
    ensures var st := Run(own, valid, rounds);
            var full := FullHits(st.log, d);
            d in DomainMap(st.commands) &&
            exists k, b :: Brings(full, k, b) && b.url == DomainMap(st.commands)[d]
                           && b.startTime == st.connected[d]
  {
    hide Run, FullHits, Told, Sentence, Announced, Restarts, DomainMap, Agrees, Closed;
    var st := Run(own, valid, rounds);
    var full := FullHits(st.log, d);
    EveryRestartIsTold(own, valid, rounds, d);
    CommandsAreSentences(own, valid, rounds, d);
    SentencesDecide(st.commands, d);
    var told := Told(st.commands, d);
    LastOfSentence(told);
    var restarts := Restarts(full);
    RestartsBegin(full);
    LastAnnounced(d, restarts);
    LastRestart(full);
  }

  lemma LastOfSentence(commands: seq<Command>)
    requires commands != [] && !commands[|commands| - 1].Remove?
    ensures var said := Sentence(commands); said != [] && said[|said| - 1] == commands[|commands| - 1]
  {}

  lemma LastAnnounced(d: string, beacons: seq<Beacon>)
    requires beacons != []
    ensures var said := Announced(d, beacons);
            said != [] && !said[|said| - 1].Remove? && said[|said| - 1].url == beacons[|beacons| - 1].url
  {}

  /** A start time heard from broadcast k on, which is b, and not before. */
  predicate Brings(beacons: seq<Beacon>, k: int, b: Beacon) {
    && 0 <= k < |beacons| && beacons[k] == b
    && (forall j | k <= j < |beacons| :: beacons[j].startTime == b.startTime)
    && (k > 0 ==> beacons[k - 1].startTime != b.startTime)
  }

  lemma StillBrings(beacons: seq<Beacon>, k: int, b: Beacon, last: Beacon)
    requires Brings(beacons, k, b) && beacons[|beacons| - 1].startTime == last.startTime
    ensures Brings(beacons + [last], k, b)
  {}

  lemma JustBrought(beacons: seq<Beacon>, b: Beacon)
    requires beacons == [] || beacons[|beacons| - 1].startTime != b.startTime
    ensures Brings(beacons + [b], |beacons|, b)
  {}

  /** The last restart among some broadcasts. */
  lemma {:induction false} LastRestart(beacons: seq<Beacon>)
    requires beacons != []
    ensures var restarts := Restarts(beacons);
            restarts != [] && exists k, b :: Brings(beacons, k, b) && b == restarts[|restarts| - 1]
  {
    hide Brings;
    var init, last := beacons[..|beacons| - 1], beacons[|beacons| - 1];
    assert beacons == init + [last];
    if init == [] || init[|init| - 1].startTime != last.startTime {
      JustBrought(init, last);
    } else {
      LastRestart(init);
      var k, b :| Brings(init, k, b) && b == Restarts(init)[|Restarts(init)| - 1];
      StillBrings(init, k, b, last);
      assert Restarts(init) + [] == Restarts(init);
    }
  }
}
