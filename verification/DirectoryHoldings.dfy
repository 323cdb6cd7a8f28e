/** A publisher list seen as URLs and registration times, and the changes the directory broadcasts about it. */
module DirectoryHoldings {
  import opened Directory
  import opened DirectoryRuns
  import opened DirectoryTimes

  datatype Holding = Holding(url: string, timestamp: nat)

  function HoldingsOf(st: State, list: seq<Publisher>): seq<Holding> {
    if list == [] then []
    else
      var last := |list| - 1;
      HoldingsOf(st, list[..last]) + [Holding(list[last].Url(), st.Instance(list[last].Url()))]
  }

  function Holdings(st: State, key: Key): seq<Holding> {
    HoldingsOf(st, st.Listed(key))
  }

  lemma {:induction false} HoldingAt(st: State, list: seq<Publisher>, i: nat)
    ensures |HoldingsOf(st, list)| == |list|
    ensures i < |list| ==> HoldingsOf(st, list)[i] == Holding(list[i].Url(), st.Instance(list[i].Url()))
  {
    if list != [] { HoldingAt(st, list[..|list| - 1], i); }
  }

  lemma HoldingsAt(st: State, key: Key)
    ensures |Holdings(st, key)| == |st.Listed(key)|
    ensures forall i | 0 <= i < |st.Listed(key)| ::
              Holdings(st, key)[i] == Holding(st.Listed(key)[i].Url(), st.Instance(st.Listed(key)[i].Url()))
  {
    HoldingAt(st, st.Listed(key), 0);
    forall i | 0 <= i < |st.Listed(key)|
      ensures Holdings(st, key)[i] == Holding(st.Listed(key)[i].Url(), st.Instance(st.Listed(key)[i].Url()))
    {
      HoldingAt(st, st.Listed(key), i);
    }
  }

  predicate DistinctHoldings(held: seq<Holding>) {
    forall i, j | 0 <= i < j < |held| :: held[i].url != held[j].url
  }

  /** Index of the holding at url, or their number. */
  function Position(held: seq<Holding>, url: string): (k: nat)
    ensures k <= |held|
    ensures k < |held| ==> held[k].url == url
    ensures forall j | 0 <= j < k :: held[j].url != url
  {
    if held == [] || held[0].url == url then 0 else 1 + Position(held[1..], url)
  }

  function Take(held: seq<Holding>, url: string, timestamp: nat): seq<Holding> {
    var k := Position(held, url);
    if k < |held| then held[k := Holding(url, timestamp)] else held + [Holding(url, timestamp)]
  }

  function Release(held: seq<Holding>, url: string, regTime: nat): seq<Holding> {
    var k := Position(held, url);
    if k < |held| && Seconds(held[k].timestamp) == regTime then Without(held, k) else held
  }

  /** What a request that is not stale does to the holdings of key, in a directory of the given domain. */
  function Effect(held: seq<Holding>, request: Request, domain: string, key: Key): seq<Holding> {
    match request
    case Lookup(_, _, _) => held
    case Register(r) =>
      if r.kind.Data? && key == Key(r.domain.Or(domain), r.id) && r.timestamp.Some?
      then Take(held, r.url, r.timestamp.value) else held
    case Unregister(u) =>
      if u.kind.Data? && key == Key(u.domain.Or(domain), u.id) then Release(held, u.url, u.regTime) else held
  }

  lemma PositionIsFind(st: State, key: Key, url: string)
    ensures Position(Holdings(st, key), url) == Find(st.Listed(key), url)
  {
    HoldingsAt(st, key);
    var k := Position(Holdings(st, key), url);
    var f := Find(st.Listed(key), url);
    hide Position, Find, Holdings;
    assert forall i | 0 <= i < |st.Listed(key)| :: Holdings(st, key)[i].url == st.Listed(key)[i].Url();
  }

  /** A request leaves the holdings of key alone when neither list nor times change. */
  lemma SameHoldings(st: State, st': State, key: Key)
    requires st'.Listed(key) == st.Listed(key)
    requires forall i | 0 <= i < |st.Listed(key)| ::
               st'.Instance(st.Listed(key)[i].Url()) == st.Instance(st.Listed(key)[i].Url())
    ensures Holdings(st', key) == Holdings(st, key)
  {
    HoldingsAt(st, key);
    HoldingsAt(st', key);
    hide Holdings;
  }

  lemma InstanceOfRecorded(owners: Owners, st: State, request: Request, key: Key, i: nat)
    requires Timed(owners, st) && Obeys(owners, st.domain, request)
    requires i < |st.Listed(key)|
    ensures var url := st.Listed(key)[i].Url();
            Step(st, request).Instance(url) == RecordedAfter(st, request, url).Or(0)
  {
    var url := st.Listed(key)[i].Url();
    assert InTime(owners, st, key, st.Listed(key)[i]);
    StepKeepsTimed(owners, st, request);
    hide Timed, Step, RecordedAfter;
    assert Recorded(Step(st, request), url) == RecordedAfter(st, request, url);
  }

  /** The URLs on the list stay where they are; a new one goes to the end. */
  lemma RegisterShape(st: State, r: Registration, key: Key)
    requires !Stale(st, r) && r.kind.Data? && key == Key(r.domain.Or(st.domain), r.id)
    ensures var list, list' := st.Listed(key), Step(st, Register(r)).Listed(key);
            && |list'| == (if Find(list, r.url) < |list| then |list| else |list| + 1)
            && (forall i | 0 <= i < |list| :: list'[i].Url() == list[i].Url())
            && (Find(list, r.url) == |list| ==> list'[|list|].Url() == r.url)
  {
    StepLists(st, Register(r), key);
    hide Step, Find;
  }

  /** The recorded times after a data registration of key: its own URL has the new one, the others keep theirs. */
  lemma RegisterInstances(owners: Owners, st: State, r: Registration, key: Key)
    requires Timed(owners, st) && Obeys(owners, st.domain, Register(r)) && !Stale(st, r)
    requires r.kind.Data? && key == Key(r.domain.Or(st.domain), r.id)
    ensures var st' := Step(st, Register(r));
            st'.Instance(r.url) == r.timestamp.value
            && forall i | 0 <= i < |st.Listed(key)| && st.Listed(key)[i].Url() != r.url ::
                 st'.Instance(st.Listed(key)[i].Url()) == st.Instance(st.Listed(key)[i].Url())
  {
    hide Timed, Step;
    var st' := Step(st, Register(r));
    StepKeepsTimed(owners, st, Register(r));
    assert Recorded(st', r.url) == r.timestamp;
    forall i | 0 <= i < |st.Listed(key)| && st.Listed(key)[i].Url() != r.url
      ensures st'.Instance(st.Listed(key)[i].Url()) == st.Instance(st.Listed(key)[i].Url())
    {
      InstanceOfRecorded(owners, st, Register(r), key, i);
    }
  }

  lemma OnlyOneAt(owners: Owners, st: State, key: Key, url: string)
    requires Timed(owners, st)
    ensures forall i | 0 <= i < |st.Listed(key)| && i != Find(st.Listed(key), url) :: st.Listed(key)[i].Url() != url
  {
    hide Timed, Find;
    TimedList(owners, st, key);
  }

  lemma RegisterHoldings(owners: Owners, st: State, r: Registration, key: Key)
    requires Timed(owners, st) && Obeys(owners, st.domain, Register(r)) && !Stale(st, r)
    requires r.kind.Data? && key == Key(r.domain.Or(st.domain), r.id)
    ensures Holdings(Step(st, Register(r)), key) == Take(Holdings(st, key), r.url, r.timestamp.value)
  {
    hide Timed, Step, Holdings, Find, Position, Obeys;
    var st' := Step(st, Register(r));
    RegisterShape(st, r, key);
    RegisterInstances(owners, st, r, key);
    OnlyOneAt(owners, st, key, r.url);
    PositionIsFind(st, key, r.url);
    HoldingsAt(st, key);
    HoldingsAt(st', key);
    var taken := Take(Holdings(st, key), r.url, r.timestamp.value);
    assert |Holdings(st', key)| == |taken|;
    forall i | 0 <= i < |taken| ensures Holdings(st', key)[i] == taken[i] {
    }
  }

  lemma RegisterElsewhere(owners: Owners, st: State, r: Registration, key: Key)
    requires Timed(owners, st) && Obeys(owners, st.domain, Register(r))
    requires r.kind.Data? ==> key != Key(r.domain.Or(st.domain), r.id)
    ensures Holdings(Step(st, Register(r)), key) == Holdings(st, key)
  {
    StepLists(st, Register(r), key);
    OthersStay(owners, st, r, key);
    forall i | 0 <= i < |st.Listed(key)|
      ensures Step(st, Register(r)).Instance(st.Listed(key)[i].Url()) == st.Instance(st.Listed(key)[i].Url())
    {
      InstanceOfRecorded(owners, st, Register(r), key, i);
      assert st.Listed(key)[i].Url() != r.url;
    }
    hide Timed, Step, ListAfter, Lists;
    SameHoldings(st, Step(st, Register(r)), key);
  }

  lemma UnregisterHoldings(owners: Owners, st: State, u: Unregistration, key: Key)
    requires Timed(owners, st) && Obeys(owners, st.domain, Unregister(u))
    ensures Holdings(Step(st, Unregister(u)), key) == Effect(Holdings(st, key), Unregister(u), st.domain, key)
  {
    hide Timed, Step, Found, Position, Find, FindInstance, Holdings, InTime, DistinctUrls, ListAfter, Lists, Obeys;
    var st' := Step(st, Unregister(u));
    var list := st.Listed(key);
    StepLists(st, Unregister(u), key);
    PositionIsFind(st, key, u.url);
    TimedList(owners, st, key);
    UnregisterKept(owners, st, u, key);
    forall i | 0 <= i < |list|
      ensures list[i].Url() != u.url || !Found(st, u) ==> st'.Instance(list[i].Url()) == st.Instance(list[i].Url())
    {
      UnregisterInstance(owners, st, u, key, i);
    }
    var k := Find(list, u.url);
    UnregisterPlaces(owners, st, st', u, key, k);
  }

  lemma UnregisterInstance(owners: Owners, st: State, u: Unregistration, key: Key, i: nat)
    requires Timed(owners, st) && Obeys(owners, st.domain, Unregister(u)) && i < |st.Listed(key)|
    ensures var url := st.Listed(key)[i].Url();
            url != u.url || !Found(st, u) ==> Step(st, Unregister(u)).Instance(url) == st.Instance(url)
  {
    hide Timed, Step, Found, Obeys;
    InstanceOfRecorded(owners, st, Unregister(u), key, i);
  }

  /** Removing one publisher removes its holding. */
  lemma UnregisterPlaces(owners: Owners, st: State, st': State, u: Unregistration, key: Key, k: nat)
    requires DistinctUrls(st.Listed(key)) && k == Find(st.Listed(key), u.url) == Position(Holdings(st, key), u.url)
    requires forall i | 0 <= i < |st.Listed(key)| :: InTime(owners, st, key, st.Listed(key)[i])
    requires forall i | 0 <= i < |st.Listed(key)| ::
               st.Listed(key)[i].Url() != u.url || !Found(st, u) ==>
                 st'.Instance(st.Listed(key)[i].Url()) == st.Instance(st.Listed(key)[i].Url())
    requires if u.kind.Data? && key == Key(u.domain.Or(st.domain), u.id) then
               (Found(st, u) <==> k < |st.Listed(key)| && st.Listed(key)[k].regTime == u.regTime)
               && (Found(st, u) ==> FindInstance(st.Listed(key), u.url, u.regTime) == k)
             else !Lists(st.Listed(key), u.url)
    requires st'.Listed(key) == ListAfter(st, Unregister(u), key)
    ensures Holdings(st', key) == Effect(Holdings(st, key), Unregister(u), st.domain, key)
  {
    hide Found, Position, Find, FindInstance, Holdings;
    HoldingsAt(st, key);
    HoldingsAt(st', key);
  }

  lemma UnregisterKept(owners: Owners, st: State, u: Unregistration, key: Key)
    requires Timed(owners, st) && Obeys(owners, st.domain, Unregister(u))
    ensures var k := Find(st.Listed(key), u.url);
            if u.kind.Data? && key == Key(u.domain.Or(st.domain), u.id) then
              (Found(st, u) <==> k < |st.Listed(key)| && st.Listed(key)[k].regTime == u.regTime)
              && (Found(st, u) ==> FindInstance(st.Listed(key), u.url, u.regTime) == k)
            else !Lists(st.Listed(key), u.url)
  {
    hide Timed;
    TimedList(owners, st, key);
    if !(u.kind.Data? && key == Key(u.domain.Or(st.domain), u.id)) {
      TimedIsTracked(owners, st);
    }
  }

  /** An accepted request has its effect on the holdings of every key, a stale one has none. */
  lemma StepHoldings(owners: Owners, st: State, request: Request, key: Key)
    requires Timed(owners, st) && Obeys(owners, st.domain, request)
    ensures Holdings(Step(st, request), key) ==
            if request.Register? && Stale(st, request.reg) then Holdings(st, key)
            else Effect(Holdings(st, key), request, st.domain, key)
  {
    match request
    case Lookup(_, _, _) =>
      StepLists(st, request, key);
      forall i | 0 <= i < |st.Listed(key)|
        ensures Step(st, request).Instance(st.Listed(key)[i].Url()) == st.Instance(st.Listed(key)[i].Url())
      {
        InstanceOfRecorded(owners, st, request, key, i);
      }
      SameHoldings(st, Step(st, request), key);
    case Unregister(u) => UnregisterHoldings(owners, st, u, key);
    case Register(r) =>
      if Stale(st, r) {
        SameHoldings(st, Step(st, request), key);
      } else if r.kind.Data? && key == Key(r.domain.Or(st.domain), r.id) {
        RegisterHoldings(owners, st, r, key);
      } else {
        RegisterElsewhere(owners, st, r, key);
      }
  }
}
