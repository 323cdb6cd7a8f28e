/** Which other domains are alive, judged by their broadcasts. */
module Liveness {
  import opened Common
  import opened Times

  const MAX_RECEIVE_COUNT: nat := 3

  /** ServiceDirectoryBroadcastPB. */
  datatype Beacon = Beacon(domain: string, url: string, startTime: int, rate: nat)

  datatype Command =
    | Add(domain: string, url: string)
    | Update(domain: string, url: string)
    | Remove(domain: string)

  /** A broadcast arrived, or a deadline passed. */
  datatype Mark = Hit(beacon: Beacon, when: Time) | Miss

  datatype Entry = Entry(domain: string, mark: Mark)

  /** The four maps, the commands sent so far, and for the statements below the marks that led here. */
  datatype State = State(
    counts: map<string, nat>,
    rates: map<string, nat>,
    expected: map<string, Time>,
    connected: map<string, int>,
    commands: seq<Command>,
    log: seq<Entry>)

  function Count(st: State, d: string): nat { if d in st.counts then st.counts[d] else 0 }

  function Rate(st: State, d: string): nat { if d in st.rates then st.rates[d] else 0 }

  function Due(st: State, d: string): Time { if d in st.expected then st.expected[d] else ZERO }

  // ----- a broadcast

  /** Broadcasts of the own domain and of domains that are not configured are ignored. */
  predicate Acceptable(own: string, valid: seq<string>, d: string) {
    d != own && (d in valid || "*" in valid)
  }

  /** The third broadcast in a row connects; a new start time of a connected domain is passed on. */
  function Meet(st: State, b: Beacon): (st': State)
    ensures st' == st.(connected := st'.connected, commands := st'.commands)
    ensures st'.connected.Keys == st.connected.Keys + {b.domain}
  {
    if b.domain !in st.connected then
      st.(connected := st.connected[b.domain := b.startTime], commands := st.commands + [Add(b.domain, b.url)])
    else if st.connected[b.domain] != b.startTime then
      st.(connected := st.connected[b.domain := b.startTime], commands := st.commands + [Update(b.domain, b.url)])
    else st
  }

  function Hear(st: State, b: Beacon, now: Time): State {
    var d := b.domain;
    var counted :=
      if d !in st.counts then st.(counts := st.counts[d := 1], rates := st.rates[d := b.rate])
      else if st.counts[d] + 1 >= MAX_RECEIVE_COUNT then Meet(st.(counts := st.counts[d := MAX_RECEIVE_COUNT]), b)
      else st.(counts := st.counts[d := st.counts[d] + 1]);
    counted.(expected := counted.expected[d := AddTime(now, b.rate)], log := counted.log + [Entry(d, Hit(b, now))])
  }

  // ----- the sweep over the deadlines

  /** The domains in gone have lost their last count; their deadlines go after the sweep. */
  datatype Sweep = Sweep(st: State, gone: set<string>, timeout: Time)

  /** A missed broadcast. */
  function Lose(st: State, d: string): State {
    var missed := st.(log := st.log + [Entry(d, Miss)]);
    if Count(st, d) <= 1 then
      missed.(counts := st.counts - {d}, rates := st.rates - {d}, connected := st.connected - {d},
              commands := if d in st.connected then st.commands + [Remove(d)] else st.commands)
    else
      missed.(counts := st.counts[d := st.counts[d] - 1],
              expected := st.expected[d := AddTime(Due(st, d), Rate(st, d))])
  }

  /** A zero timeout counts as none yet. */
  function Shorter(timeout: Time, wait: Time): Time {
    if CompareTime(ZERO, timeout) == 0 || CompareTime(wait, timeout) < 0 then wait else timeout
  }

  function Check(sw: Sweep, d: string, now: Time): Sweep {
    var late := CompareTime(Due(sw.st, d), now) <= 0;
    var st := if late then Lose(sw.st, d) else sw.st;
    if d !in st.counts then sw.(st := st, gone := sw.gone + {d})
    else Sweep(st, sw.gone, Shorter(sw.timeout, SubtractTime(Due(st, d), now)))
  }

  function CheckAll(sw: Sweep, domains: seq<string>, now: Time): Sweep {
    if domains == [] then sw
    else Check(CheckAll(sw, domains[..|domains| - 1], now), domains[|domains| - 1], now)
  }

  // ----- one round of the loop

  datatype Event =
    | Received(beacon: Beacon)
    | TimedOut
    | Empty

  function Round(own: string, valid: seq<string>, st: State, e: Event, now: Time): (State, Time) {
    var heard := if e.Received? && Acceptable(own, valid, e.beacon.domain) then Hear(st, e.beacon, now) else st;
    var sw := CheckAll(Sweep(heard, {}, ZERO), Ascending(heard.expected.Keys), now);
    (sw.st.(expected := sw.st.expected - sw.gone), sw.timeout)
  }

  const Start: State := State(map[], map[], map[], map[], [], [])

  /** An empty datagram skips the round, timeout and all. */
  function Run(own: string, valid: seq<string>, rounds: seq<(Event, Time)>): State {
    if rounds == [] then Start
    else
      var st := Run(own, valid, rounds[..|rounds| - 1]);
      var (e, now) := rounds[|rounds| - 1];
      if e.Empty? then st else Round(own, valid, st, e, now).0
  }

  // ----- the tables fit together

  /** In the middle of a sweep: the domains in gone still have a deadline, but nothing else. */
  predicate Fits(st: State, gone: set<string>) {
    && st.counts.Keys == st.rates.Keys
    && st.expected.Keys == st.counts.Keys + gone && st.counts.Keys !! gone
    && (forall d | d in st.counts :: 1 <= st.counts[d] <= MAX_RECEIVE_COUNT)
    && st.connected.Keys <= st.counts.Keys
  }

  lemma HearFits(st: State, b: Beacon, now: Time)
    requires Fits(st, {})
    ensures Fits(Hear(st, b, now), {})
  {
    hide Hear;
    HearCounts(st, b, now);
    HearConnects(st, b, now);
  }

  lemma HearCounts(st: State, b: Beacon, now: Time)
    requires forall d | d in st.counts :: 1 <= st.counts[d] <= MAX_RECEIVE_COUNT
    ensures var st' := Hear(st, b, now);
            st'.counts.Keys == st.counts.Keys + {b.domain}
            && forall d | d in st'.counts :: 1 <= st'.counts[d] <= MAX_RECEIVE_COUNT
  {
    hide Meet, AddTime;
  }

  lemma HearConnects(st: State, b: Beacon, now: Time)
    requires b.domain in st.counts ==> b.domain in st.rates
    ensures var st' := Hear(st, b, now);
            && st'.expected.Keys == st.expected.Keys + {b.domain}
            && st'.rates.Keys == st.rates.Keys + {b.domain}
            && st'.connected.Keys <= st.connected.Keys + {b.domain}
  {
    hide Meet, AddTime;
  }

  lemma CheckFits(sw: Sweep, d: string, now: Time)
    requires Fits(sw.st, sw.gone) && d in sw.st.counts
    ensures Fits(Check(sw, d, now).st, Check(sw, d, now).gone)
    ensures forall c | c != d :: c in Check(sw, d, now).st.counts <==> c in sw.st.counts
  {
    hide SubtractTime, Shorter, CompareTime, AddTime;
  }

  lemma {:induction false} CheckAllFits(st: State, domains: seq<string>, now: Time, timeout: Time)
    requires Fits(st, {}) && Distinct(domains) && forall d | d in domains :: d in st.counts
    ensures var sw := CheckAll(Sweep(st, {}, timeout), domains, now);
            Fits(sw.st, sw.gone) && forall c | c !in domains :: c in sw.st.counts <==> c in st.counts
  {
    if domains != [] {
      hide Fits, Check;
      var init, d := domains[..|domains| - 1], domains[|domains| - 1];
      assert domains == init + [d];
      CheckAllFits(st, init, now, timeout);
      assert d !in init;
      CheckFits(CheckAll(Sweep(st, {}, timeout), init, now), d, now);
    }
  }

  lemma RoundFits(own: string, valid: seq<string>, st: State, e: Event, now: Time)
    requires Fits(st, {})
    ensures Fits(Round(own, valid, st, e, now).0, {})
  {
    hide Hear, Ascending, CheckAll;
    if e.Received? { HearFits(st, e.beacon, now); }
    var heard := if e.Received? && Acceptable(own, valid, e.beacon.domain) then Hear(st, e.beacon, now) else st;
    CheckAllFits(heard, Ascending(heard.expected.Keys), now, ZERO);
  }

  /** The maps always have the same domains, with counts from one to three, and only counted domains are connected. */
  lemma {:induction false} RunsFit(own: string, valid: seq<string>, rounds: seq<(Event, Time)>)
    ensures Fits(Run(own, valid, rounds), {})
  {
    if rounds != [] {
      hide Fits, Round;
      RunsFit(own, valid, rounds[..|rounds| - 1]);
      var (e, now) := rounds[|rounds| - 1];
      RoundFits(own, valid, Run(own, valid, rounds[..|rounds| - 1]), e, now);
    } else {
      StartFits();
    }
  }

  lemma StartFits()
    ensures Fits(Start, {})
  {}

  // ----- the counter, seen as a game

  function Balance(marks: seq<Mark>): int {
    if marks == [] then 0 else Balance(marks[..|marks| - 1]) + if marks[|marks| - 1].Miss? then 1 else -1
  }

  /** Over some recent stretch there were this many more misses than hits. */
  ghost predicate Behind(marks: seq<Mark>, lead: int) {
    exists k | 0 <= k <= |marks| :: Balance(marks[k..]) >= lead
  }

  /** What a domain is, judged by its marks alone: unknown, being counted, or connected, with the marks since then. */
  datatype Phase =
    | Unknown
    | Counting(n: nat)
    | Up(since: seq<Mark>)

  ghost function Turn(phase: Phase, mark: Mark): Phase {
    match phase
    case Unknown => if mark.Hit? then Counting(1) else Unknown
    case Counting(n) =>
      if mark.Hit? then if n + 1 >= MAX_RECEIVE_COUNT then Up([]) else Counting(n + 1)
      else if n <= 1 then Unknown else Counting(n - 1)
    case Up(since) => if Behind(since + [mark], MAX_RECEIVE_COUNT) then Unknown else Up(since + [mark])
  }

  ghost function PhaseOf(log: seq<Entry>, d: string): Phase {
    if log == [] then Unknown
    else
      var phase := PhaseOf(log[..|log| - 1], d);
      if log[|log| - 1].domain == d then Turn(phase, log[|log| - 1].mark) else phase
  }

  /** The largest lead of the misses over the hits in any recent stretch, the empty one included. */
  function Excess(marks: seq<Mark>): nat {
    if marks == [] then 0
    else
      var before := Excess(marks[..|marks| - 1]);
      if marks[|marks| - 1].Miss? then before + 1 else if before == 0 then 0 else before - 1
  }

  lemma {:induction false} BalanceMore(marks: seq<Mark>, mark: Mark)
    ensures Balance(marks + [mark]) == Balance(marks) + if mark.Miss? then 1 else -1
  {
    assert (marks + [mark])[..|marks|] == marks;
  }

  lemma {:induction false} ExcessIsLargest(marks: seq<Mark>)
    ensures forall k | 0 <= k <= |marks| :: Balance(marks[k..]) <= Excess(marks)
    ensures exists k :: 0 <= k <= |marks| && Balance(marks[k..]) == Excess(marks)
  {
    if marks == [] {
      assert Balance(marks[0..]) == 0;
    } else {
      var init, last := marks[..|marks| - 1], marks[|marks| - 1];
      ExcessIsLargest(init);
      forall k | 0 <= k <= |init| ensures Balance(marks[k..]) == Balance(init[k..]) + if last.Miss? then 1 else -1 {
        assert marks[k..] == init[k..] + [last];
        BalanceMore(init[k..], last);
      }
      assert marks[|marks|..] == [] && Balance([]) == 0;
      var k :| 0 <= k <= |init| && Balance(init[k..]) == Excess(init);
      assert Balance(marks[k..]) == Excess(init) + if last.Miss? then 1 else -1;
    }
  }

  lemma BehindIsExcess(marks: seq<Mark>, lead: int)
    ensures Behind(marks, lead) <==> lead <= Excess(marks)
  {
    ExcessIsLargest(marks);
  }

  /** The maps say what the marks say. */
  ghost predicate Agrees(st: State, d: string) {
    match PhaseOf(st.log, d)
    case Unknown => d !in st.counts && d !in st.connected
    case Counting(n) => d in st.counts && st.counts[d] == n < MAX_RECEIVE_COUNT && d !in st.connected
    case Up(since) => d in st.counts && d in st.connected && st.counts[d] == MAX_RECEIVE_COUNT - Excess(since)
  }

  lemma PhaseMore(log: seq<Entry>, entry: Entry, d: string)
    ensures PhaseOf(log + [entry], d) ==
            if entry.domain == d then Turn(PhaseOf(log, d), entry.mark) else PhaseOf(log, d)
  {
    assert (log + [entry])[..|log|] == log;
  }

  lemma ExcessMore(marks: seq<Mark>, mark: Mark)
    ensures Excess(marks + [mark]) ==
            if mark.Miss? then Excess(marks) + 1 else if Excess(marks) == 0 then 0 else Excess(marks) - 1
    ensures Behind(marks + [mark], MAX_RECEIVE_COUNT) <==> MAX_RECEIVE_COUNT <= Excess(marks + [mark])
  {
    assert (marks + [mark])[..|marks|] == marks;
    BehindIsExcess(marks + [mark], MAX_RECEIVE_COUNT);
  }

  lemma HearAgrees(st: State, b: Beacon, now: Time, d: string)
    requires Fits(st, {}) && Agrees(st, d)
    ensures Agrees(Hear(st, b, now), d)
  {
    hide PhaseOf, Behind, Excess, Meet, AddTime;
    PhaseMore(st.log, Entry(b.domain, Hit(b, now)), d);
    if PhaseOf(st.log, d).Up? { ExcessMore(PhaseOf(st.log, d).since, Hit(b, now)); }
    NoExcess();
  }

  lemma NoExcess()
    ensures Excess([]) == 0
  {}

  lemma LoseAgrees(st: State, c: string, d: string)
    requires c in st.counts && 1 <= st.counts[c] && Agrees(st, d)
    ensures Agrees(Lose(st, c), d)
  {
    hide PhaseOf, Behind, Excess, AddTime, Due, Rate;
    PhaseMore(st.log, Entry(c, Miss), d);
    if PhaseOf(st.log, d).Up? { ExcessMore(PhaseOf(st.log, d).since, Miss); }
  }

  lemma {:induction false} CheckAllAgrees(st: State, domains: seq<string>, now: Time, timeout: Time, d: string)
    requires Fits(st, {}) && Distinct(domains) && (forall c | c in domains :: c in st.counts) && Agrees(st, d)
    ensures Agrees(CheckAll(Sweep(st, {}, timeout), domains, now).st, d)
  {
    if domains != [] {
      hide Fits, Agrees, Lose, SubtractTime, Shorter, CompareTime;
      var init, c := domains[..|domains| - 1], domains[|domains| - 1];
      assert domains == init + [c];
      CheckAllAgrees(st, init, now, timeout, d);
      CheckAllFits(st, init, now, timeout);
      var sw := CheckAll(Sweep(st, {}, timeout), init, now);
      CountsArePositive(sw.st, sw.gone, c);
      LoseAgrees(sw.st, c, d);
    }
  }

  lemma CountsArePositive(st: State, gone: set<string>, d: string)
    requires Fits(st, gone) && d in st.counts
    ensures 1 <= st.counts[d]
  {}

  lemma RoundAgrees(own: string, valid: seq<string>, st: State, e: Event, now: Time, d: string)
    requires Fits(st, {}) && Agrees(st, d)
    ensures Agrees(Round(own, valid, st, e, now).0, d)
  {
    hide Hear, Ascending, CheckAll, PhaseOf, Excess;
    if e.Received? {
      HearFits(st, e.beacon, now);
      HearAgrees(st, e.beacon, now, d);
    }
    var heard := if e.Received? && Acceptable(own, valid, e.beacon.domain) then Hear(st, e.beacon, now) else st;
    CheckAllAgrees(heard, Ascending(heard.expected.Keys), now, ZERO, d);
  }

  /** A domain is connected from its third broadcast in the lead until, over some recent stretch, it has missed three
      more than it sent; meanwhile its counter is three less the worst stretch. */
  lemma {:induction false} CountersTellThePhase(own: string, valid: seq<string>, rounds: seq<(Event, Time)>, d: string)
    ensures Agrees(Run(own, valid, rounds), d)
  {
    if rounds != [] {
      hide Agrees, Round, Fits;
      var init := rounds[..|rounds| - 1];
      CountersTellThePhase(own, valid, init, d);
      RunsFit(own, valid, init);
      var (e, now) := rounds[|rounds| - 1];
      RoundAgrees(own, valid, Run(own, valid, init), e, now, d);
    }
  }
}
