/** Short runs of the directory from its start. */
module DirectoryExamples {
  import opened Common
  import opened Directory
  import opened DirectoryRuns
  import opened DirectoryStreams
  import opened DirectoryTimes

  function Publication(id: string, url: string, timestamp: nat, domain: Option<string>): Request {
    Register(Registration(id, url, Data, domain, Some(timestamp), None, None, None))
  }

  function Listing(url: string, regTime: nat): Publisher { Publisher(Some(url), None, None, None, regTime) }

  /** What is sent when a product gets a publisher at a URL that no other product uses. */
  lemma NewPublisherSends(st: State, r: Registration)
    requires r.kind.Data? && !Stale(st, r) && Find(st.Listed(Key(r.domain.Or(st.domain), r.id)), r.url)
                                              == |st.Listed(Key(r.domain.Or(st.domain), r.id))|
    requires forall other :: other != r.id ==> !Lists(st.Listed(st.Own(other)), r.url)
    requires st.ready || r.id == REGISTERED_PUBLISHERS
    ensures var st' := Handle(st, Register(r));
            var key := Key(r.domain.Or(st.domain), r.id);
            && st'.updates == st.updates
                 + [Update(key,
                           st.Listed(key) +
                               [Publisher(Some(r.url), r.isRelay, r.componentId,
                                          r.ipAddress, Seconds(r.timestamp.value))])]
            && st'.backlog == st.backlog
  {
    hide Find, Lists, Purge, PublishDetails, Seconds;
    var key := Key(r.domain.Or(st.domain), r.id);
    var announced := Announce(PlaceData(st, key, r, r.timestamp.value), key);
    forall other ensures !Rival(announced, r.id, r.url, other) {
      if other != r.id { assert announced.Listed(announced.Own(other)) == st.Listed(st.Own(other)); }
    }
    PurgeInstances(announced, r.id, r.url);
  }

  /** Started up, with every URL in the hands of its owner. */
  ghost predicate Up(owners: Owners, st: State) {
    Timed(owners, st) && st.ready && st.processed && st.backlog == {}
  }

  lemma NobodyElse(owners: Owners, st: State, id: string, url: string)
    requires Timed(owners, st) && owners(url) == Owner(st.Own(id), Data)
    ensures forall other :: other != id ==> !Lists(st.Listed(st.Own(other)), url)
  {
    hide Timed;
    TimedIsTracked(owners, st);
  }

  lemma NewUrlIsUnrecorded(owners: Owners, st: State, id: string, url: string)
    requires Timed(owners, st) && owners(url) == Owner(st.Own(id), Data) && !Lists(st.Listed(st.Own(id)), url)
    ensures url !in st.instances
  {
    hide Lists;
  }

  /** One more publisher of an own product. */
  lemma PublisherJoins(owners: Owners, st: State, id: string, url: string, timestamp: nat)
    requires Up(owners, st) && owners(url) == Owner(st.Own(id), Data) && !Lists(st.Listed(st.Own(id)), url)
    ensures var st', list :=
            Step(st, Publication(id, url, timestamp, None)), st.Listed(st.Own(id)) + [Listing(url, Seconds(timestamp))];
            && Up(owners, st') && st'.updates == st.updates + [Update(st.Own(id), list)]
            && st'.Listed(st.Own(id)) == list
            && forall key: Key :: key != st.Own(id) ==> st'.Listed(key) == st.Listed(key)
  {
    hide Timed, Handle, Lists, Find, Seconds;
    var request := Publication(id, url, timestamp, None);
    NobodyElse(owners, st, id, url);
    NewUrlIsUnrecorded(owners, st, id, url);
    NotFound(st.Listed(st.Own(id)), url);
    NewPublisherSends(st, request.reg);
    StepKeepsTimed(owners, st, request);
    forall key: Key
      ensures Step(st, request).Listed(key) == ListAfter(st, request, key)
    {
      StepLists(st, request, key);
    }
    forall key: Key ensures key != st.Own(id) ==> ListAfter(st, request, key) == st.Listed(key) {
      if key != st.Own(id) { OthersStay(owners, st, request.reg, key); }
    }
  }

  lemma NotFound(list: seq<Publisher>, url: string)
    requires !Lists(list, url)
    ensures Find(list, url) == |list|
  {
    hide Find;
  }

  /** The registration that ends start-up. */
  lemma DirectoryStarts(owners: Owners, domain: string, url: string, timestamp: nat)
    requires owners(url) == Owner(Key(domain, REGISTERED_PUBLISHERS), Data)
    ensures var st := Step(Fresh(domain), Publication(REGISTERED_PUBLISHERS, url, timestamp, None));
            var list := [Listing(url, Seconds(timestamp))];
            && Up(owners, st) && st.domain == domain
            && st.updates == [Update(Key(domain, REGISTERED_PUBLISHERS), list)]
            && st.Listed(Key(domain, REGISTERED_PUBLISHERS)) == list
            && forall key: Key :: key != Key(domain, REGISTERED_PUBLISHERS) ==> st.Listed(key) == []
  {
    hide Handle, Seconds;
    var start, request := Fresh(domain), Publication(REGISTERED_PUBLISHERS, url, timestamp, None);
    assert Timed(owners, start) by { RunsStayTimed(owners, start, []); }
    NewPublisherSends(start, request.reg);
    StepKeepsTimed(owners, start, request);
    NothingBacklogged(Handle(start, request));
    assert [] + [Listing(url, Seconds(timestamp))] == [Listing(url, Seconds(timestamp))];
    assert Starts(start, request);
    var st := Step(start, request);
    assert st.updates == [] + [Update(Key(domain, REGISTERED_PUBLISHERS), [Listing(url, Seconds(timestamp))])];
    forall key: Key
      ensures st.Listed(key) ==
              if key == Key(domain, REGISTERED_PUBLISHERS) then [Listing(url, Seconds(timestamp))] else []
    {
      StartLists(domain, url, timestamp, key);
    }
  }

  lemma StartLists(domain: string, url: string, timestamp: nat, key: Key)
    ensures Step(Fresh(domain), Publication(REGISTERED_PUBLISHERS, url, timestamp, None)).Listed(key)
         == if key == Key(domain, REGISTERED_PUBLISHERS) then [Listing(url, Seconds(timestamp))] else []
  {
    hide Step, Seconds;
    StepLists(Fresh(domain), Publication(REGISTERED_PUBLISHERS, url, timestamp, None), key);
  }

  lemma NothingBacklogged(st: State)
    requires st.backlog == {}
    ensures Flush(st).updates == st.updates
  {}

  /** The only publisher of an own product leaves. */
  lemma PublisherLeaves(owners: Owners, st: State, id: string, url: string, regTime: nat)
    requires Up(owners, st) && owners(url) == Owner(st.Own(id), Data)
             && st.Listed(st.Own(id)) == [Listing(url, regTime)]
    ensures var st' := Step(st, Unregister(Unregistration(id, url, Data, None, regTime)));
            && Up(owners, st') && st'.updates == st.updates + [Update(st.Own(id), [])] && st'.Listed(st.Own(id)) == []
            && forall key: Key :: key != st.Own(id) ==> st'.Listed(key) == st.Listed(key)
  {
    hide Timed, PublishDetails;
    var request := Unregister(Unregistration(id, url, Data, None, regTime));
    StepKeepsTimed(owners, st, request);
    forall key: Key
      ensures Step(st, request).Listed(key) == ListAfter(st, request, key)
    {
      StepLists(st, request, key);
    }
    assert FindInstance(st.Listed(st.Own(id)), url, regTime) == 0;
  }

  // ----- runs in which something goes wrong

  lemma RunTwo(st: State, first: Request, second: Request)
    ensures Run(st, [first, second]) == Step(Step(st, first), second)
    ensures Run(st, [first]) == Step(st, first)
  {
    hide Step;
    assert [first, second][..1] == [first] && [first][..0] == [];
    assert Run(st, [first]) == Step(Run(st, []), first);
  }

  /** Two products at one URL: the time of the second registration is forgotten at once. */
  lemma SharedUrlForgetsTheTime(domain: string)
    ensures var st := Run(Fresh(domain), [Publication("A", "tcp://host:1", 1000000, None),
                                          Publication("B", "tcp://host:1", 2000000, None)]);
            "tcp://host:1" !in st.instances || st.instances["tcp://host:1"] != 2000000
  {
    hide Step;
    var first, second :=
      Publication("A", "tcp://host:1", 1000000, None), Publication("B", "tcp://host:1", 2000000, None);
    var st := Step(Fresh(domain), first);
    RunTwo(Fresh(domain), first, second);
    StepLists(Fresh(domain), first, st.Own("A"));
    StepLists(Fresh(domain), first, st.Own("B"));
    FirstIsRecorded(domain, first.reg);
    PurgeForgetsTheTime(st, second.reg);
    assert st.Listed(st.Own("A"))[0].Url() == "tcp://host:1";
    assert Lists(st.Listed(st.Own("A")), "tcp://host:1");
    assert "A" != "B";
  }

  lemma FirstIsRecorded(domain: string, r: Registration)
    requires r.kind.Data? && r.domain == None && r.timestamp.Some?
    ensures Recorded(Step(Fresh(domain), Register(r)), r.url) == r.timestamp
  {
    var owners := (url: string) => Owner(Key(domain, r.id), Data);
    RunsStayTimed(owners, Fresh(domain), []);
    hide Step;
    StepKeepsTimed(owners, Fresh(domain), Register(r));
  }

  /** A product of another domain that comes before start-up is over: nobody is told of its publisher. */
  lemma EarlyForeignerIsNotSent(domain: string)
    requires domain != "Other"
    ensures var st := Run(Fresh(domain), [Publication("P", "tcp://host:1", 1000000, Some("Other")),
                                          Publication(REGISTERED_PUBLISHERS, "tcp://host:2", 2000000, None)]);
            st.processed && !Current(st, Key("Other", "P"))
  {
    hide Step, Current, Timed, FindInstance, Announce, RegisterData;
    var first := Publication("P", "tcp://host:1", 1000000, Some("Other"));
    var second := Publication(REGISTERED_PUBLISHERS, "tcp://host:2", 2000000, None);
    var st, key := Step(Fresh(domain), first), Key("Other", "P");
    RunTwo(Fresh(domain), first, second);
    StepLists(Fresh(domain), first, key);
    StepLists(Fresh(domain), first, st.Own(REGISTERED_PUBLISHERS));
    RunsAreIdle(domain, [first]);
    RunsAreIdle(domain, [first, second]);
    var owners := (url: string) =>
      Owner(if url == "tcp://host:1" then key else Key(domain, REGISTERED_PUBLISHERS), Data);
    FreshIsTimed(owners, domain);
    StepKeepsTimed(owners, Fresh(domain), first);
    NewUrlIsUnrecorded(owners, st, REGISTERED_PUBLISHERS, "tcp://host:2");
    ReadyAfter(Fresh(domain), first);
    ReadyAfter(st, second);
    ForeignUpdatesAtStart(st, second, key);
  }

  lemma ReadyAfter(st: State, request: Request)
    ensures Step(st, request).ready == (st.ready || Starts(st, request))
  {
    hide Handle, BacklogUpdates;
  }
}
