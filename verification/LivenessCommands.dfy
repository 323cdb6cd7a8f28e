/** What the receiver tells the directory, and how long it waits for the next broadcast. */
module LivenessCommands {
  import opened Common
  import opened Times
  import opened Liveness

  // ----- the commands of a domain

  function Told(commands: seq<Command>, d: string): seq<Command> {
    if commands == [] then []
    else
      var last := commands[|commands| - 1];
      Told(commands[..|commands| - 1], d) + if last.domain == d then [last] else []
  }

  /** (Add Update* Remove)* */
  predicate Closed(commands: seq<Command>) {
    commands == [] || (commands[|commands| - 1].Remove? && Open(commands[..|commands| - 1]))
  }

  /** (Add Update* Remove)* Add Update* */
  predicate Open(commands: seq<Command>) {
    commands != [] &&
    match commands[|commands| - 1]
    case Add(_, _) => Closed(commands[..|commands| - 1])
    case Update(_, _) => Open(commands[..|commands| - 1])
    case Remove(_) => false
  }

  lemma {:induction false} PrefixTalks(commands: seq<Command>, k: nat)
    requires Open(commands) || Closed(commands)
    requires k <= |commands|
    ensures Open(commands[..k]) || Closed(commands[..k])
  {
    if k == |commands| {
      assert commands[..k] == commands;
    } else {
      var init := commands[..|commands| - 1];
      assert init[..k] == commands[..k];
      PrefixTalks(init, k);
    }
  }

  predicate Speaks(st: State, d: string) {
    if d in st.connected then Open(Told(st.commands, d)) else Closed(Told(st.commands, d))
  }

  lemma ToldMore(commands: seq<Command>, c: Command, d: string)
    ensures c.domain == d ==> Told(commands + [c], d) == Told(commands, d) + [c]
    ensures c.domain != d ==> Told(commands + [c], d) == Told(commands, d)
  {
    assert (commands + [c])[..|commands|] == commands;
  }

  lemma TalkMore(commands: seq<Command>, c: Command)
    ensures Open(commands + [c]) <==> (c.Add? && Closed(commands)) || (c.Update? && Open(commands))
    ensures Closed(commands + [c]) <==> c.Remove? && Open(commands)
  {
    assert (commands + [c])[..|commands|] == commands;
  }

  lemma MeetSpeaks(st: State, b: Beacon, d: string)
    requires Speaks(st, d)
    ensures Speaks(Meet(st, b), d)
  {
    hide Open, Closed, Told;
    ToldMore(st.commands, Add(b.domain, b.url), d);
    ToldMore(st.commands, Update(b.domain, b.url), d);
    TalkMore(Told(st.commands, d), Add(b.domain, b.url));
    TalkMore(Told(st.commands, d), Update(b.domain, b.url));
  }

  lemma HearSpeaks(st: State, b: Beacon, now: Time, d: string)
    requires Speaks(st, d)
    ensures Speaks(Hear(st, b, now), d)
  {
    hide Open, Closed, Told, Meet;
    MeetSpeaks(st.(counts := st.counts[b.domain := MAX_RECEIVE_COUNT]), b, d);
  }

  lemma LoseSpeaks(st: State, c: string, d: string)
    requires Speaks(st, d)
    ensures Speaks(Lose(st, c), d)
  {
    hide Open, Closed, Told;
    ToldMore(st.commands, Remove(c), d);
    TalkMore(Told(st.commands, d), Remove(c));
  }

  lemma {:induction false} CheckAllSpeaks(sw: Sweep, domains: seq<string>, now: Time, d: string)
    requires Speaks(sw.st, d)
    ensures Speaks(CheckAll(sw, domains, now).st, d)
  {
    if domains != [] {
      hide Speaks, Lose, SubtractTime, Shorter, CompareTime;
      var init, c := domains[..|domains| - 1], domains[|domains| - 1];
      CheckAllSpeaks(sw, init, now, d);
      LoseSpeaks(CheckAll(sw, init, now).st, c, d);
    }
  }

  /** For each domain the commands form a prefix of (Add Update* Remove)*, open exactly while it is connected. */
  lemma {:induction false} CommandsAreSentences(own: string, valid: seq<string>, rounds: seq<(Event, Time)>, d: string)
    ensures Speaks(Run(own, valid, rounds), d)
  {
    if rounds != [] {
      hide Open, Closed, Hear, CheckAll, Ascending;
      var init := rounds[..|rounds| - 1];
      var (e, now) := rounds[|rounds| - 1];
      CommandsAreSentences(own, valid, init, d);
      var st := Run(own, valid, init);
      if e.Received? { HearSpeaks(st, e.beacon, now, d); }
      var heard := Heard(own, valid, st, e, now);
      CheckAllSpeaks(Sweep(heard, {}, ZERO), Ascending(heard.expected.Keys), now, d);
    } else {
      assert Closed(Told([], d));
    }
  }

  // ----- the directory's domain map

  function Obey(domainMap: map<string, string>, c: Command): map<string, string> {
    match c
    case Add(d, url) => domainMap[d := url]
    case Update(d, url) => domainMap[d := url]
    case Remove(d) => domainMap - {d}
  }

  function DomainMap(commands: seq<Command>): map<string, string> {
    if commands == [] then map[] else Obey(DomainMap(commands[..|commands| - 1]), commands[|commands| - 1])
  }

  lemma {:induction false} SentencesDecide(commands: seq<Command>, d: string)
    requires Open(Told(commands, d)) || Closed(Told(commands, d))
    ensures d in DomainMap(commands) <==> Open(Told(commands, d))
    ensures d in DomainMap(commands) ==>
              var told := Told(commands, d); !told[|told| - 1].Remove? && DomainMap(commands)[d] == told[|told| - 1].url
    ensures !(Open(Told(commands, d)) && Closed(Told(commands, d)))
  {
    if commands != [] {
      var init, c := commands[..|commands| - 1], commands[|commands| - 1];
      assert commands == init + [c];
      ToldMore(init, c, d);
      if c.domain == d { TalkMore(Told(init, d), c); }
      SentencesDecide(init, d);
    }
  }

  /** Once its commands are consumed, the directory knows exactly the connected domains. */
  lemma DirectoryKnowsTheConnected(own: string, valid: seq<string>, rounds: seq<(Event, Time)>)
    ensures var st := Run(own, valid, rounds); DomainMap(st.commands).Keys == st.connected.Keys
  {
    var st := Run(own, valid, rounds);
    hide Run, DomainMap, Open, Closed, Told;
    forall d ensures d in DomainMap(st.commands) <==> d in st.connected {
      CommandsAreSentences(own, valid, rounds, d);
      SentencesDecide(st.commands, d);
    }
  }

  // ----- the next timeout

  ghost predicate AllNormal(st: State) {
    forall d | d in st.expected :: st.expected[d].Normal()
  }

  lemma ShorterIsZero(timeout: Time, wait: Time)
    requires timeout.Normal() && wait.Normal() && 0 <= timeout.sec && 0 <= wait.sec
    ensures Shorter(timeout, wait) == ZERO <==> wait == ZERO
    ensures Shorter(timeout, wait).Normal() && 0 <= Shorter(timeout, wait).sec
    ensures timeout != ZERO ==> Shorter(timeout, wait).Micros() <= timeout.Micros()
    ensures Shorter(timeout, wait).Micros() <= wait.Micros()
    ensures Shorter(timeout, wait) == wait || (timeout != ZERO && Shorter(timeout, wait) == timeout)
  {
    CompareIsOrder(ZERO, timeout);
    CompareIsOrder(wait, timeout);
  }

  /** How long the deadline of a domain is away. */
  function Wait(st: State, d: string, now: Time): int { Due(st, d).Micros() - now.Micros() }

  lemma WaitIsNormal(a: Time, b: Time)
    requires a.Normal() && b.Normal()
    ensures SubtractTime(a, b).Normal() && 0 <= SubtractTime(a, b).sec
  {
    CompareIsOrder(a, b);
  }

  lemma CheckNormal(sw: Sweep, d: string, now: Time)
    requires AllNormal(sw.st) && now.Normal() && sw.timeout.Normal() && 0 <= sw.timeout.sec && d in sw.st.expected
    ensures var next := Check(sw, d, now); AllNormal(next.st) && next.timeout.Normal() && 0 <= next.timeout.sec
    ensures forall c | c != d :: Due(Check(sw, d, now).st, c) == Due(sw.st, c)
    ensures Check(sw, d, now).st.expected.Keys == sw.st.expected.Keys
    ensures sw.gone <= Check(sw, d, now).gone <= sw.gone + {d}
    ensures d !in Check(sw, d, now).gone ==>
              Check(sw, d, now).timeout == Shorter(sw.timeout, SubtractTime(Due(Check(sw, d, now).st, d), now))
    ensures d in Check(sw, d, now).gone && d !in sw.gone ==> Check(sw, d, now).timeout == sw.timeout
  {
    hide SubtractTime, Shorter, CompareTime;
    var st := if CompareTime(Due(sw.st, d), now) <= 0 then Lose(sw.st, d) else sw.st;
    assert AllNormal(st);
    WaitIsNormal(Due(st, d), now);
    ShorterIsZero(sw.timeout, SubtractTime(Due(st, d), now));
  }

  /** After some domains have been checked, in their order: the timeout is zero exactly if none of them is left or
      the last one left is overdue, and if none is overdue, it is the shortest computed wait. */
  ghost predicate Awaits(sw: Sweep, domains: seq<string>, now: Time) {
    var left := Dropped(domains, sw.gone);
    && AllNormal(sw.st) && sw.timeout.Normal() && 0 <= sw.timeout.sec
    && (sw.timeout == ZERO <==> left == [] || Wait(sw.st, left[|left| - 1], now) <= 0)
    && ((forall d | d in left :: 0 < Wait(sw.st, d, now)) ==>
          && (forall d | d in left :: sw.timeout.Micros() <= Wait(sw.st, d, now) + MILLION)
          && (left != [] ==> exists d :: d in left && Wait(sw.st, d, now) <= sw.timeout.Micros()))
  }

  lemma AwaitsMore(sw: Sweep, domains: seq<string>, d: string, now: Time)
    requires Awaits(sw, domains, now) && now.Normal() && d in sw.st.expected && d !in domains && d !in sw.gone
    ensures Awaits(Check(sw, d, now), domains + [d], now)
  {
    hide Check, SubtractTime, Shorter, CompareTime, Dropped, AllNormal;
    var next := Check(sw, d, now);
    var left := Dropped(domains, sw.gone);
    CheckNormal(sw, d, now);
    DroppedMoreGone(domains, sw.gone, next.gone, d);
    assert forall c | c in left :: c != d && Wait(next.st, c, now) == Wait(sw.st, c, now) by {
      LeftAreDomains(domains, sw.gone);
    }
    if d !in next.gone {
      NormalDue(next.st, d);
      var wait := SubtractTime(Due(next.st, d), now);
      SubtractIsZero(Due(next.st, d), now);
      WaitIsNormal(Due(next.st, d), now);
      ShorterIsZero(sw.timeout, wait);
      if 0 < Wait(next.st, d, now) { SubtractIsABound(Due(next.st, d), now); }
      assert Dropped(domains + [d], next.gone) == left + [d];
      if left != [] { assert left[|left| - 1] in left; }
    }
  }

  lemma NormalDue(st: State, d: string)
    requires AllNormal(st) && d in st.expected
    ensures Due(st, d).Normal()
  {}

  lemma LeftAreDomains(domains: seq<string>, gone: set<string>)
    ensures forall c | c in Dropped(domains, gone) :: c in domains
  {
    forall c | c in Dropped(domains, gone) ensures c in domains { DroppedIsIn(domains, gone, c); }
  }

  lemma {:induction false} DroppedIsIn(domains: seq<string>, gone: set<string>, c: string)
    ensures c in Dropped(domains, gone) <==> c in domains && c !in gone
  {
    if domains != [] {
      assert domains == domains[..|domains| - 1] + [domains[|domains| - 1]];
      DroppedIsIn(domains[..|domains| - 1], gone, c);
    }
  }

  lemma {:induction false} DroppedSame(domains: seq<string>, gone: set<string>, more: set<string>)
    requires forall c | c in domains :: c in gone <==> c in more
    ensures Dropped(domains, gone) == Dropped(domains, more)
  {
    if domains != [] {
      assert domains == domains[..|domains| - 1] + [domains[|domains| - 1]];
      DroppedSame(domains[..|domains| - 1], gone, more);
    }
  }

  lemma DroppedMoreGone(domains: seq<string>, gone: set<string>, more: set<string>, d: string)
    requires d !in domains && gone <= more <= gone + {d} && d !in gone
    ensures Dropped(domains + [d], more) == if d in more then Dropped(domains, gone) else Dropped(domains, gone) + [d]
  {
    assert (domains + [d])[..|domains|] == domains;
    DroppedSame(domains, gone, more);
  }

  lemma {:induction false} SweepAwaits(st: State, domains: seq<string>, now: Time)
    requires Distinct(domains) && AllNormal(st) && now.Normal() && forall d | d in domains :: d in st.expected
    ensures var sw := CheckAll(Sweep(st, {}, ZERO), domains, now);
            Awaits(sw, domains, now) && sw.st.expected.Keys == st.expected.Keys
                && forall d | d in sw.gone :: d in domains
  {
    if domains != [] {
      hide Awaits, Check, AllNormal, Distinct;
      var init, d := domains[..|domains| - 1], domains[|domains| - 1];
      assert domains == init + [d];
      DistinctInit(domains);
      SweepAwaits(st, init, now);
      var sw := CheckAll(Sweep(st, {}, ZERO), init, now);
      AwaitsMore(sw, init, d, now);
      AwaitsNormal(sw, init, now);
      CheckNormal(sw, d, now);
    }
  }

  lemma AwaitsNormal(sw: Sweep, domains: seq<string>, now: Time)
    requires Awaits(sw, domains, now)
    ensures AllNormal(sw.st) && sw.timeout.Normal() && 0 <= sw.timeout.sec
  {}

  lemma DistinctInit(domains: seq<string>)
    requires Distinct(domains) && domains != []
    ensures Distinct(domains[..|domains| - 1]) && domains[|domains| - 1] !in domains[..|domains| - 1]
  {}

  ghost predicate Sorted(domains: seq<string>) {
    forall i, j | 0 <= i < j < |domains| :: Before(domains[i], domains[j])
  }

  lemma {:induction false} DroppedSorted(domains: seq<string>, gone: set<string>)
    requires Sorted(domains)
    ensures Sorted(Dropped(domains, gone))
  {
    if domains != [] {
      var init, d := domains[..|domains| - 1], domains[|domains| - 1];
      DroppedSorted(init, gone);
      var left := Dropped(init, gone);
      forall i | 0 <= i < |left| ensures Before(left[i], d) {
        assert left[i] in left;
        DroppedIsIn(init, gone, left[i]);
        var k :| 0 <= k < |init| && init[k] == left[i];
        assert domains[k] == left[i];
      }
    }
  }

  lemma SweepOrder(domains: set<string>)
    ensures Sorted(Ascending(domains))
  {
    forall i, j | 0 <= i < j < |Ascending(domains)| ensures Before(Ascending(domains)[i], Ascending(domains)[j]) {
      AscendingOrdered(domains, i, j);
    }
  }

  // ----- the state before the sweep decides

  /** The tables a round sweeps: with the broadcast it has received, if any. */
  function Heard(own: string, valid: seq<string>, st: State, e: Event, now: Time): State {
    if e.Received? && Acceptable(own, valid, e.beacon.domain) then Hear(st, e.beacon, now) else st
  }

  predicate Late(st: State, d: string, now: Time) { CompareTime(Due(st, d), now) <= 0 }

  /** A domain that the sweep does not remove: it is not late, or can afford to be. */
  predicate Survives(st: State, d: string, now: Time) {
    d in st.expected && (Late(st, d, now) ==> Count(st, d) > 1)
  }

  /** The last domain by name that survives the sweep. */
  ghost predicate LastSurvivor(st: State, d: string, now: Time) {
    Survives(st, d, now) && forall c | Survives(st, c, now) :: c == d || Before(c, d)
  }

  /** It is late even by its next deadline. */
  predicate Behindhand(st: State, d: string, now: Time) {
    Late(st, d, now) && CompareTime(AddTime(Due(st, d), Rate(st, d)), now) <= 0
  }

  /** What a sweep does to one domain. */
  ghost predicate SweptTo(st: State, sw: Sweep, d: string, now: Time) {
    && (d in sw.gone <==> !Survives(st, d, now))
    && (Survives(st, d, now) ==>
          Due(sw.st, d) == if Late(st, d, now) then AddTime(Due(st, d), Rate(st, d)) else Due(st, d))
  }

  /** Everything about the domain is as it was. */
  predicate Unswept(st: State, sw: Sweep, d: string) {
    && (d in sw.st.expected <==> d in st.expected) && (d in sw.st.counts <==> d in st.counts)
    && Due(sw.st, d) == Due(st, d) && Count(sw.st, d) == Count(st, d) && Rate(sw.st, d) == Rate(st, d)
    && d !in sw.gone
  }

  lemma CheckOthers(st: State, sw: Sweep, d: string, c: string, now: Time)
    requires d != c
    ensures Unswept(st, sw, c) ==> Unswept(st, Check(sw, d, now), c)
    ensures SweptTo(st, sw, c, now) ==> SweptTo(st, Check(sw, d, now), c, now)
  {
    hide CompareTime, SubtractTime, Shorter, AddTime;
  }

  lemma CheckOne(st: State, sw: Sweep, d: string, now: Time)
    requires Unswept(st, sw, d) && d in st.expected && d in st.counts && d in st.rates
    ensures SweptTo(st, Check(sw, d, now), d, now)
  {
    hide CompareTime, SubtractTime, Shorter, AddTime;
  }

  lemma {:induction false} CheckAllSweeps(st: State, domains: seq<string>, now: Time, d: string)
    requires Distinct(domains) && (d in domains ==> d in st.expected && d in st.counts && d in st.rates)
    ensures var sw := CheckAll(Sweep(st, {}, ZERO), domains, now);
            if d in domains then SweptTo(st, sw, d, now) else Unswept(st, sw, d)
  {
    if domains != [] {
      hide Check, SweptTo, Unswept, Distinct;
      var init, c := domains[..|domains| - 1], domains[|domains| - 1];
      assert domains == init + [c];
      DistinctInit(domains);
      CheckAllSweeps(st, init, now, d);
      var sw := CheckAll(Sweep(st, {}, ZERO), init, now);
      if c == d { CheckOne(st, sw, d, now); } else { CheckOthers(st, sw, c, d, now); }
    }
  }

  lemma RoundBlocksExactly(own: string, valid: seq<string>, st: State, e: Event, now: Time)
    requires Fits(st, {}) && AllNormal(st) && now.Normal()
    ensures var before := Heard(own, valid, st, e, now);
            Round(own, valid, st, e, now).1 == ZERO <==>
                forall d | LastSurvivor(before, d, now) :: Behindhand(before, d, now)
  {
    hide Fits, Hear, CheckAll, Ascending, Awaits, AllNormal, Dropped, LastSurvivor, Behindhand, Sorted;
    var before := Heard(own, valid, st, e, now);
    var domains := Ascending(before.expected.Keys);
    if e.Received? { HearFits(st, e.beacon, now); }
    HeardNormal(own, valid, st, e, now);
    SweepAwaits(before, domains, now);
    var sw := CheckAll(Sweep(before, {}, ZERO), domains, now);
    SweepOrder(before.expected.Keys);
    ZeroExactly(before, sw, domains, now);
  }

  lemma FittingDomain(st: State, d: string)
    requires Fits(st, {}) && d in st.expected
    ensures d in st.counts && d in st.rates
  {}

  lemma SweptDomains(st: State)
    requires Fits(st, {})
    ensures st.expected.Keys == st.counts.Keys
  {}

  lemma LeftSurvive(st: State, sw: Sweep, domains: seq<string>, now: Time)
    requires Fits(st, {}) && Distinct(domains) && sw == CheckAll(Sweep(st, {}, ZERO), domains, now)
    requires forall d :: d in domains <==> d in st.expected
    ensures forall d :: d in Dropped(domains, sw.gone) <==> Survives(st, d, now)
    ensures forall d | d in domains :: SweptTo(st, sw, d, now)
  {
    hide Fits, CheckAll, SweptTo, Survives, Distinct;
    forall d ensures d in Dropped(domains, sw.gone) <==> Survives(st, d, now) {
      DroppedIsIn(domains, sw.gone, d);
      if d in domains {
        FittingDomain(st, d);
        CheckAllSweeps(st, domains, now, d);
        SurvivesIffKept(st, sw, d, now);
      } else {
        NotSurviving(st, d, now);
      }
    }
    forall d | d in domains ensures SweptTo(st, sw, d, now) {
      FittingDomain(st, d);
      CheckAllSweeps(st, domains, now, d);
    }
  }

  lemma SurvivesIffKept(st: State, sw: Sweep, d: string, now: Time)
    requires SweptTo(st, sw, d, now)
    ensures d in sw.gone <==> !Survives(st, d, now)
  {}

  lemma NotSurviving(st: State, d: string, now: Time)
    requires d !in st.expected
    ensures !Survives(st, d, now)
  {}

  lemma ZeroExactly(st: State, sw: Sweep, domains: seq<string>, now: Time)
    requires Fits(st, {}) && AllNormal(st) && now.Normal() && Sorted(domains) && Distinct(domains)
    requires sw == CheckAll(Sweep(st, {}, ZERO), domains, now) && Awaits(sw, domains, now)
    requires forall d :: d in domains <==> d in st.expected
    ensures sw.timeout == ZERO <==> forall d | LastSurvivor(st, d, now) :: Behindhand(st, d, now)
  {
    hide Fits, AllNormal, CheckAll, Dropped, Sorted, Distinct, SweptTo, LastSurvivor, Behindhand, Survives;
    var left := Dropped(domains, sw.gone);
    DroppedSorted(domains, sw.gone);
    LeftSurvive(st, sw, domains, now);
    if left == [] {
      NoSurvivor(st, now);
    } else {
      var last := left[|left| - 1];
      assert last in left;
      DroppedIsIn(domains, sw.gone, last);
      LastIsLast(st, left, now);
      forall d | LastSurvivor(st, d, now) ensures d == last { OneLast(st, d, last, now); }
      BehindhandExactly(st, sw, last, now);
    }
  }

  lemma NoSurvivor(st: State, now: Time)
    requires forall d :: !Survives(st, d, now)
    ensures forall d :: !LastSurvivor(st, d, now)
  {}

  lemma LastIsLast(st: State, left: seq<string>, now: Time)
    requires Sorted(left) && left != [] && forall c :: c in left <==> Survives(st, c, now)
    ensures LastSurvivor(st, left[|left| - 1], now)
  {
    hide Survives;
    assert left[|left| - 1] in left;
  }

  lemma OneLast(st: State, a: string, b: string, now: Time)
    requires LastSurvivor(st, a, now) && LastSurvivor(st, b, now)
    ensures a == b
  {
    hide Survives;
    BeforeTotal(a, b);
  }

  lemma BehindhandExactly(st: State, sw: Sweep, d: string, now: Time)
    requires AllNormal(st) && now.Normal() && SweptTo(st, sw, d, now) && Survives(st, d, now)
    ensures Wait(sw.st, d, now) <= 0 <==> Behindhand(st, d, now)
  {
    hide CompareTime;
    NormalDue(st, d);
    CompareIsOrder(Due(st, d), now);
    CompareIsOrder(AddTime(Due(st, d), Rate(st, d)), now);
  }

  lemma HeardNormal(own: string, valid: seq<string>, st: State, e: Event, now: Time)
    requires AllNormal(st) && now.Normal()
    ensures AllNormal(Heard(own, valid, st, e, now))
  {
    hide Meet;
  }

  lemma RoundWakesInTime(own: string, valid: seq<string>, st: State, e: Event, now: Time)
    requires AllNormal(st) && now.Normal()
    ensures var (st', timeout) := Round(own, valid, st, e, now);
            st'.expected != map[] && (forall d | d in st'.expected :: 0 < Wait(st', d, now)) ==>
              ((exists d :: d in st'.expected && Wait(st', d, now) <= timeout.Micros())
               && forall d | d in st'.expected :: timeout.Micros() <= Wait(st', d, now) + MILLION)
  {
    hide Hear, CheckAll, Ascending, Awaits, AllNormal, Dropped;
    var heard := Heard(own, valid, st, e, now);
    var domains := Ascending(heard.expected.Keys);
    HeardNormal(own, valid, st, e, now);
    SweepAwaits(heard, domains, now);
    var sw := CheckAll(Sweep(heard, {}, ZERO), domains, now);
    var (st', timeout) := Round(own, valid, st, e, now);
    assert st' == sw.st.(expected := sw.st.expected - sw.gone) && timeout == sw.timeout;
    if st'.expected != map[] && forall d | d in st'.expected :: 0 < Wait(st', d, now) {
      WakesAfter(sw, st', domains, now);
    }
  }

  lemma WakesAfter(sw: Sweep, st': State, domains: seq<string>, now: Time)
    requires Awaits(sw, domains, now) && (forall d :: d in domains <==> d in sw.st.expected)
    requires st' == sw.st.(expected := sw.st.expected - sw.gone)
    requires st'.expected != map[] && forall d | d in st'.expected :: 0 < Wait(st', d, now)
    ensures exists d :: d in st'.expected && Wait(st', d, now) <= sw.timeout.Micros()
    ensures forall d | d in st'.expected :: sw.timeout.Micros() <= Wait(st', d, now) + MILLION
  {
    hide AllNormal, Dropped;
    var left := Dropped(domains, sw.gone);
    forall c ensures c in left <==> c in st'.expected { DroppedIsIn(domains, sw.gone, c); }
    forall c | c in left ensures Wait(sw.st, c, now) == Wait(st', c, now) {}
    var d :| d in st'.expected;
    assert d in left;
  }

  /** Deadlines are normal times as long as the clock gives normal times. */
  lemma {:induction false} RunsAreNormal(own: string, valid: seq<string>, rounds: seq<(Event, Time)>)
    requires forall r | r in rounds :: r.1.Normal()
    ensures AllNormal(Run(own, valid, rounds))
  {
    if rounds != [] {
      hide Hear, CheckAll, Ascending, Awaits, Acceptable;
      var init := rounds[..|rounds| - 1];
      var (e, now) := rounds[|rounds| - 1];
      assert rounds == init + [(e, now)] && (e, now) in rounds;
      RunsAreNormal(own, valid, init);
      var st := Run(own, valid, init);
      HeardNormal(own, valid, st, e, now);
      var heard := Heard(own, valid, st, e, now);
      var domains := Ascending(heard.expected.Keys);
      SweepAwaits(heard, domains, now);
      AwaitsNormal(CheckAll(Sweep(heard, {}, ZERO), domains, now), domains, now);
    }
  }

  // ----- the timeout in every run

  /** The receiver blocks for good exactly when no domain survives the sweep, or when the last one by name that does
      is late even by its next deadline, however soon others are due. */
  lemma BlocksForGoodExactly(own: string, valid: seq<string>, rounds: seq<(Event, Time)>, e: Event, now: Time)
    requires now.Normal() && forall r | r in rounds :: r.1.Normal()
    ensures var st := Run(own, valid, rounds);
            var before := Heard(own, valid, st, e, now);
            Round(own, valid, st, e, now).1 == ZERO <==>
                forall d | LastSurvivor(before, d, now) :: Behindhand(before, d, now)
  {
    hide Run, Round, Heard, Fits, AllNormal, LastSurvivor, Behindhand;
    RunsFit(own, valid, rounds);
    RunsAreNormal(own, valid, rounds);
    RoundBlocksExactly(own, valid, Run(own, valid, rounds), e, now);
  }

  /** When every deadline left is in the future, the receiver does not wake up before the earliest of them, and at most
      one second after it. */
  lemma WakesInTime(own: string, valid: seq<string>, rounds: seq<(Event, Time)>, e: Event, now: Time)
    requires now.Normal() && forall r | r in rounds :: r.1.Normal()
    ensures var (st, timeout) := Round(own, valid, Run(own, valid, rounds), e, now);
            st.expected != map[] && (forall d | d in st.expected :: 0 < Wait(st, d, now)) ==>
              ((exists d :: d in st.expected && Wait(st, d, now) <= timeout.Micros())
               && forall d | d in st.expected :: timeout.Micros() <= Wait(st, d, now) + MILLION)
  {
    hide Run, Round, AllNormal, Wait;
    RunsAreNormal(own, valid, rounds);
    RoundWakesInTime(own, valid, Run(own, valid, rounds), e, now);
  }
}
