/** When a broadcast of a domain is due, and when it counts as missed, in terms of the broadcasts and the clock. */
module LivenessDeadlines {
  import opened Common
  import opened Times
  import opened Liveness
  import opened LivenessCommands

  function Marks(log: seq<Entry>, d: string): seq<Mark> {
    if log == [] then []
    else
      var last := log[|log| - 1];
      Marks(log[..|log| - 1], d) + if last.domain == d then [last.mark] else []
  }

  lemma MarksMore(log: seq<Entry>, entry: Entry, d: string)
    ensures Marks(log + [entry], d) == Marks(log, d) + if entry.domain == d then [entry.mark] else []
  {
    assert (log + [entry])[..|log|] == log;
  }

  // ----- what one round adds

  /** The broadcast is one of the domain, and of a domain that is listened to. */
  predicate Brought(own: string, valid: seq<string>, e: Event, d: string) {
    e.Received? && e.beacon.domain == d && d != own && (d in valid || "*" in valid)
  }

  /** The deadline that the sweep compares with the clock. */
  function Deadline(own: string, valid: seq<string>, st: State, e: Event, now: Time, d: string): Option<Time> {
    if Brought(own, valid, e, d) then Some(AddTime(now, e.beacon.rate))
    else if d in st.expected then Some(st.expected[d])
    else None
  }

  lemma CheckMarks(sw: Sweep, c: string, now: Time, d: string)
    ensures Marks(Check(sw, c, now).st.log, d) ==
            Marks(sw.st.log, d) + if c == d && Late(sw.st, d, now) then [Miss] else []
  {
    hide Marks, CompareTime, SubtractTime, Shorter, AddTime;
    MarksMore(sw.st.log, Entry(c, Miss), d);
    assert Marks(sw.st.log, d) + [] == Marks(sw.st.log, d);
  }

  lemma {:induction false} CheckAllMarks(st: State, domains: seq<string>, now: Time, d: string)
    requires Distinct(domains) && (d in domains ==> d in st.expected && d in st.counts && d in st.rates)
    ensures Marks(CheckAll(Sweep(st, {}, ZERO), domains, now).st.log, d) ==
            Marks(st.log, d) + if d in domains && Late(st, d, now) then [Miss] else []
  {
    if domains != [] {
      hide Check, Distinct, Marks, CompareTime;
      var init, c := domains[..|domains| - 1], domains[|domains| - 1];
      assert domains == init + [c];
      DistinctInit(domains);
      CheckAllMarks(st, init, now, d);
      var sw := CheckAll(Sweep(st, {}, ZERO), init, now);
      CheckMarks(sw, c, now, d);
      if c == d { CheckAllSweeps(st, init, now, d); }
    }
  }

  lemma HearMarks(own: string, valid: seq<string>, st: State, e: Event, now: Time, d: string)
    ensures Marks(Heard(own, valid, st, e, now).log, d) ==
            Marks(st.log, d) + if Brought(own, valid, e, d) then [Hit(e.beacon, now)] else []
    ensures var heard := Heard(own, valid, st, e, now);
            (if d in heard.expected then Some(heard.expected[d]) else None) == Deadline(own, valid, st, e, now, d)
  {
    hide Marks, Meet, AddTime;
    if e.Received? { MarksMore(st.log, Entry(e.beacon.domain, Hit(e.beacon, now)), d); }
    assert Marks(st.log, d) + [] == Marks(st.log, d);
  }

  lemma RoundMarks(own: string, valid: seq<string>, st: State, e: Event, now: Time, d: string)
    requires Fits(st, {})
    ensures var due := Deadline(own, valid, st, e, now, d);
            Marks(Round(own, valid, st, e, now).0.log, d) ==
            Marks(st.log, d) + (if Brought(own, valid, e, d) then [Hit(e.beacon, now)] else [])
              + if due.Some? && CompareTime(due.value, now) <= 0 then [Miss] else []
  {
    hide Marks, Hear, CheckAll, Ascending, CompareTime, Deadline, Brought, Fits;
    var heard := Heard(own, valid, st, e, now);
    HearMarks(own, valid, st, e, now, d);
    if e.Received? { HearFits(st, e.beacon, now); }
    if d in heard.expected { FittingDomain(heard, d); }
    CheckAllMarks(heard, Ascending(heard.expected.Keys), now, d);
  }

  /** In every run a round marks a domain with the broadcast it brings, if it is listened to, and then with a miss
      exactly when the deadline of the domain has passed. */
  lemma RoundsMarkTheDomains(own: string, valid: seq<string>, rounds: seq<(Event, Time)>, e: Event, now: Time,
                             d: string)
    ensures var st, st' := Run(own, valid, rounds), Run(own, valid, rounds + [(e, now)]);
            var due := Deadline(own, valid, st, e, now, d);
            Marks(st'.log, d) ==
            if e.Empty? then Marks(st.log, d)
            else Marks(st.log, d) + (if Brought(own, valid, e, d) then [Hit(e.beacon, now)] else [])
                   + if due.Some? && CompareTime(due.value, now) <= 0 then [Miss] else []
  {
    hide Marks, Round, CompareTime, Deadline, Brought, Fits;
    assert (rounds + [(e, now)])[..|rounds|] == rounds;
    RunsFit(own, valid, rounds);
    RoundMarks(own, valid, Run(own, valid, rounds), e, now, d);
  }

  // ----- the deadline, from the marks

  /** The last broadcast of a domain, when it came, how often it was missed since, and the rate that the first broadcast
      of the domain, since it was last unknown, has set. */
  datatype Waiting = Nobody | For(beacon: Beacon, when: Time, missed: nat, rate: nat)

  ghost function WaitingFor(log: seq<Entry>, d: string): Waiting {
    if log == [] then Nobody
    else
      var before, last := WaitingFor(log[..|log| - 1], d), log[|log| - 1];
      if last.domain == d then WaitingAfter(before, PhaseOf(log[..|log| - 1], d), last.mark) else before
  }

  function WaitingAfter(before: Waiting, phase: Phase, mark: Mark): Waiting {
    if mark.Hit? then
      For(mark.beacon, mark.when, 0, if before.Nobody? || phase.Unknown? then mark.beacon.rate else before.rate)
    else if before.Nobody? then Nobody
    else before.(missed := before.missed + 1)
  }

  /** The deadline is the time of the last broadcast and the rate it has announced, and the first rate again for each
      miss. */
  ghost predicate Dated(st: State, d: string) {
    && Agrees(st, d)
    && (d in st.counts ==>
          d in st.expected && d in st.rates && WaitingFor(st.log, d).For? &&
          var w := WaitingFor(st.log, d);
          st.rates[d] == w.rate
          && st.expected[d] == Time(w.when.sec + w.beacon.rate + w.missed * w.rate, w.when.usec))
  }

  lemma WaitingMore(log: seq<Entry>, entry: Entry, d: string)
    ensures WaitingFor(log + [entry], d) ==
            if entry.domain == d then WaitingAfter(WaitingFor(log, d), PhaseOf(log, d), entry.mark)
            else WaitingFor(log, d)
  {
    hide WaitingAfter;
    assert (log + [entry])[..|log|] == log;
  }

  lemma DatedAgrees(st: State, d: string)
    requires Dated(st, d)
    ensures Agrees(st, d) && (d in st.counts <==> !PhaseOf(st.log, d).Unknown?)
  {
    hide PhaseOf, WaitingFor, Excess;
  }

  lemma HearDated(st: State, b: Beacon, now: Time, d: string)
    requires Fits(st, {}) && Dated(st, d)
    ensures Dated(Hear(st, b, now), d)
  {
    hide Fits, Agrees, PhaseOf, WaitingFor, Meet;
    DatedAgrees(st, d);
    HearAgrees(st, b, now, d);
    WaitingMore(st.log, Entry(b.domain, Hit(b, now)), d);
  }

  lemma LoseDated(st: State, c: string, d: string)
    requires c in st.counts && 1 <= st.counts[c] && Dated(st, d)
    ensures Dated(Lose(st, c), d)
  {
    hide Agrees, PhaseOf, WaitingFor;
    DatedAgrees(st, d);
    LoseAgrees(st, c, d);
    WaitingMore(st.log, Entry(c, Miss), d);
    var w := WaitingFor(st.log, d);
    if w.For? { assert (w.missed + 1) * w.rate == w.missed * w.rate + w.rate; }
  }

  lemma {:induction false} CheckAllDated(st: State, domains: seq<string>, now: Time, timeout: Time, d: string)
    requires Fits(st, {}) && Distinct(domains) && (forall c | c in domains :: c in st.counts) && Dated(st, d)
    ensures Dated(CheckAll(Sweep(st, {}, timeout), domains, now).st, d)
  {
    if domains != [] {
      hide Fits, Dated, Lose, SubtractTime, Shorter, CompareTime, Distinct;
      var init, c := domains[..|domains| - 1], domains[|domains| - 1];
      assert domains == init + [c];
      DistinctInit(domains);
      CheckAllDated(st, init, now, timeout, d);
      CheckAllFits(st, init, now, timeout);
      var sw := CheckAll(Sweep(st, {}, timeout), init, now);
      CountsArePositive(sw.st, sw.gone, c);
      LoseDated(sw.st, c, d);
    }
  }

  lemma SweptDates(sw: Sweep, d: string)
    requires Dated(sw.st, d) && Fits(sw.st, sw.gone)
    ensures Dated(sw.st.(expected := sw.st.expected - sw.gone), d)
  {
    hide PhaseOf, WaitingFor, Excess;
  }

  lemma RoundDated(own: string, valid: seq<string>, st: State, e: Event, now: Time, d: string)
    requires Fits(st, {}) && Dated(st, d)
    ensures Dated(Round(own, valid, st, e, now).0, d)
  {
    hide Dated, Fits, Hear, CheckAll, Ascending;
    if e.Received? {
      HearDated(st, e.beacon, now, d);
      HearFits(st, e.beacon, now);
    }
    var heard := Heard(own, valid, st, e, now);
    SweptDomains(heard);
    CheckAllDated(heard, Ascending(heard.expected.Keys), now, ZERO, d);
    CheckAllFits(heard, Ascending(heard.expected.Keys), now, ZERO);
    SweptDates(CheckAll(Sweep(heard, {}, ZERO), Ascending(heard.expected.Keys), now), d);
  }

  lemma {:induction false} RunsAreDated(own: string, valid: seq<string>, rounds: seq<(Event, Time)>, d: string)
    ensures Dated(Run(own, valid, rounds), d)
  {
    if rounds != [] {
      hide Dated, Fits, Round;
      var init := rounds[..|rounds| - 1];
      var (e, now) := rounds[|rounds| - 1];
      RunsAreDated(own, valid, init, d);
      RunsFit(own, valid, init);
      RoundDated(own, valid, Run(own, valid, init), e, now, d);
    }
  }

  /** In every run a known domain is due one announced rate after its last broadcast, and later by the rate of the first
      broadcast for each deadline it has missed since. */
  lemma DeadlinesCountTheMisses(own: string, valid: seq<string>, rounds: seq<(Event, Time)>, d: string)
    requires d in Run(own, valid, rounds).expected
    ensures var st := Run(own, valid, rounds);
            var w := WaitingFor(st.log, d);
            w.For? && st.expected[d].Micros() ==
                      w.when.Micros() + (w.beacon.rate + w.missed * w.rate) * MILLION
  {
    hide Run, WaitingFor, Agrees;
    RunsAreDated(own, valid, rounds, d);
    RunsFit(own, valid, rounds);
    FittingDomain(Run(own, valid, rounds), d);
  }
}
