/** The publisher updates the directory sends agree with its tables. */
module DirectoryStreams {
  import opened Common
  import opened Directory
  import opened DirectoryRuns

  /** The publisher list last sent for key. */
  function LastUpdate(updates: seq<Update>, key: Key): Option<seq<Publisher>> {
    if updates == [] then None
    else if updates[|updates| - 1].key == key then Some(updates[|updates| - 1].publishers)
    else LastUpdate(updates[..|updates| - 1], key)
  }

  /** Whoever has consumed every update knows what a lookup would answer. */
  predicate Current(st: State, key: Key) {
    LastUpdate(st.updates, key).Or([]) == st.Listed(key)
  }

  /** Sent, or waiting for start-up to finish. */
  predicate Covered(st: State, key: Key) {
    Current(st, key) || key.id in st.backlog
  }

  /** Between two states of one handler, nothing is taken back and a change to the list of key was announced. */
  predicate Tells(st: State, st': State, key: Key) {
    && st.updates <= st'.updates && st.backlog <= st'.backlog
    && (Covered(st', key) ||
        (st'.Listed(key) == st.Listed(key) && LastUpdate(st'.updates, key) == LastUpdate(st.updates, key)))
  }

  lemma Chain(a: State, b: State, c: State, key: Key)
    requires Tells(a, b, key) && Tells(b, c, key)
    ensures Tells(a, c, key)
  {
    hide LastUpdate;
  }

  lemma Unchanged(st: State, st': State, key: Key)
    requires st'.Listed(key) == st.Listed(key) && st'.updates == st.updates && st'.backlog == st.backlog
    ensures Tells(st, st', key)
  {}

  /** After both steps the change the first one makes to key has been announced. */
  lemma AnnounceTells(st: State, placed: State, key: Key, other: Key)
    requires placed.updates == st.updates && placed.backlog == st.backlog
    requires other != key ==> placed.Listed(other) == st.Listed(other)
    ensures Tells(st, Announce(placed, key), other)
    ensures other != key ==> LastUpdate(Announce(placed, key).updates, other) == LastUpdate(st.updates, other)
  {
    if placed.ready {
      var updates := placed.updates + [Update(key, placed.Listed(key))];
      assert updates[..|placed.updates|] == placed.updates;
      assert LastUpdate(updates, other) ==
             if other == key then Some(placed.Listed(key)) else LastUpdate(st.updates, other);
      hide LastUpdate;
    }
  }

  lemma EvictTells(st: State, id: string, k: nat, url: string, key: Key)
    requires k < |st.Listed(st.Own(id))|
    ensures Tells(st, Evict(st, id, k, url), key)
    ensures key != st.Own(id) ==> LastUpdate(Evict(st, id, k, url).updates, key) == LastUpdate(st.updates, key)
  {
    var cut := st.(lists := st.lists[st.Own(id) := Without(st.Listed(st.Own(id)), k)]);
    AnnounceTells(st, cut, st.Own(id), key);
    Unchanged(Announce(cut, st.Own(id)), Evict(st, id, k, url), key) by { hide Announce, PublishDetails; }
    Chain(st, Announce(cut, st.Own(id)), Evict(st, id, k, url), key);
    hide Announce, PublishDetails, Without, LastUpdate, Tells;
  }

  lemma PurgeOneTells(st: State, id: string, url: string, other: string, key: Key)
    ensures Tells(st, PurgeOne(st, id, url, other), key)
    ensures key != st.Own(other) ==>
            LastUpdate(PurgeOne(st, id, url, other).updates, key) == LastUpdate(st.updates, key)
  {
    var list := st.Listed(st.Own(other));
    if other != id && Find(list, url) < |list| {
      var evicted := Evict(st, other, Find(list, url), url);
      EvictTells(st, other, Find(list, url), url, key);
      hide Evict, Find, LastUpdate, Tells;
      assert PurgeOne(st, id, url, other) == Tidy(evicted, other);
      hide PurgeOne;
      Unchanged(evicted, Tidy(evicted, other), key);
      Chain(st, evicted, Tidy(evicted, other), key);
    } else {
      assert PurgeOne(st, id, url, other) == Tidy(st, other);
      hide PurgeOne, Evict, Find, LastUpdate, Tells;
      Unchanged(st, Tidy(st, other), key);
    }
  }

  lemma {:induction false} PurgeAllTells(st: State, id: string, url: string, others: seq<string>, key: Key)
    ensures Tells(st, PurgeAll(st, id, url, others), key)
    ensures key.domain != st.domain ==>
              LastUpdate(PurgeAll(st, id, url, others).updates, key) == LastUpdate(st.updates, key)
    decreases |others|
  {
    if others == [] {
      Unchanged(st, st, key);
    } else {
      var next := PurgeOne(st, id, url, others[0]);
      PurgeOneTells(st, id, url, others[0], key);
      PurgeAllTells(next, id, url, others[1..], key);
      hide PurgeOne, LastUpdate, Tells;
      Chain(st, next, PurgeAll(st, id, url, others), key);
    }
  }

  lemma PurgeTells(st: State, id: string, url: string, key: Key)
    ensures Tells(st, Purge(st, id, url), key)
    ensures key.domain != st.domain ==> LastUpdate(Purge(st, id, url).updates, key) == LastUpdate(st.updates, key)
  {
    PurgeAllTells(st, id, url, Ascending(ProductIds(st)), key);
    hide PurgeAll, Tells, LastUpdate;
  }

  lemma RegisterNewTells(st: State, target: Key, r: Registration, timestamp: nat, key: Key)
    requires !Known(st.Listed(target), r.url, timestamp)
    ensures Tells(st, RegisterData(st, target, r, timestamp), key)
    ensures key != target && key.domain != st.domain ==>
              LastUpdate(RegisterData(st, target, r, timestamp).updates, key) == LastUpdate(st.updates, key)
  {
    hide Known, LastUpdate, Tells, Placed, Purge, Announce, PublishDetails;
    var done := RegisterData(st, target, r, timestamp);
    var placed := PlaceData(st, target, r, timestamp);
    var announced := Announce(placed, target);
    var purged := Purge(announced, r.id, r.url);
    assert done.lists == purged.lists && done.updates == purged.updates && done.backlog == purged.backlog;
    assert announced.domain == st.domain;
    AnnounceTells(st, placed, target, key);
    PurgeTells(announced, r.id, r.url, key);
    hide RegisterData, PlaceData;
    Unchanged(purged, done, key);
    Chain(st, announced, purged, key);
    Chain(st, purged, done, key);
  }

  lemma RegisterDataTells(st: State, target: Key, r: Registration, timestamp: nat, key: Key)
    ensures Tells(st, RegisterData(st, target, r, timestamp), key)
    ensures key != target && key.domain != st.domain ==>
              LastUpdate(RegisterData(st, target, r, timestamp).updates, key) == LastUpdate(st.updates, key)
  {
    hide LastUpdate, Tells;
    if Known(st.Listed(target), r.url, timestamp) {
      var done := RegisterData(st, target, r, timestamp);
      hide PublishDetails, Known;
      assert done.lists == st.lists && done.updates == st.updates && done.backlog == st.backlog;
      hide RegisterData;
      Unchanged(st, done, key);
    } else {
      RegisterNewTells(st, target, r, timestamp, key);
      hide RegisterData;
    }
  }

  lemma UnregisterDataTells(st: State, target: Key, u: Unregistration, key: Key)
    ensures Tells(st, UnregisterData(st, target, u), key)
    ensures key != target ==> LastUpdate(UnregisterData(st, target, u).updates, key) == LastUpdate(st.updates, key)
  {
    var done := UnregisterData(st, target, u);
    var k := FindInstance(st.Listed(target), u.url, u.regTime);
    if k < |st.Listed(target)| {
      var removed := Announce(Withdraw(st, target, k), target);
      AnnounceTells(st, Withdraw(st, target, k), target, key) by { hide Without, LastUpdate; }
      hide PublishDetails, FindInstance, LastUpdate, Announce, Withdraw, Tells;
      assert done.lists == removed.lists && done.updates == removed.updates && done.backlog == removed.backlog;
      hide UnregisterData;
      Unchanged(removed, done, key);
      Chain(st, removed, done, key);
    } else {
      hide PublishDetails, FindInstance, LastUpdate, Announce, Withdraw, Tells;
      Unchanged(st, done, key);
    }
  }

  /** The publisher list a request is addressed to. */
  predicate Addresses(st: State, request: Request, key: Key) {
    match request
    case Register(r) => key == Key(r.domain.Or(st.domain), r.id)
    case Unregister(u) => key == Key(u.domain.Or(st.domain), u.id)
    case Lookup(_, _, _) => false
  }

  lemma RegisterServiceTells(st: State, target: Key, r: Registration, timestamp: nat, key: Key)
    ensures Tells(st, RegisterService(st, target, r, timestamp), key)
    ensures key.domain != st.domain ==>
              LastUpdate(RegisterService(st, target, r, timestamp).updates, key) == LastUpdate(st.updates, key)
  {
    hide PublishDetails, LastUpdate, Purge, Tells;
    var done := RegisterService(st, target, r, timestamp);
    var placed := PlaceService(st, target, r);
    var purged := Purge(placed, r.id, r.url);
    assert done.lists == purged.lists && done.updates == purged.updates && done.backlog == purged.backlog;
    hide RegisterService;
    PurgeTells(placed, r.id, r.url, key);
    Unchanged(st, placed, key);
    Unchanged(purged, done, key);
    Chain(st, placed, purged, key);
    Chain(st, purged, done, key);
  }

  lemma RegisterTells(st: State, r: Registration, key: Key)
    ensures Tells(st, HandleRegister(st, r), key)
    ensures key.domain != st.domain && key != Key(r.domain.Or(st.domain), r.id) ==>
              LastUpdate(HandleRegister(st, r).updates, key) == LastUpdate(st.updates, key)
  {
    hide LastUpdate, Tells, RegisterData, RegisterService;
    var target := Key(r.domain.Or(st.domain), r.id);
    if Stale(st, r) {
      Unchanged(st, st, key);
    } else if r.kind.Data? {
      RegisterDataTells(st, target, r, r.timestamp.value, key);
    } else {
      RegisterServiceTells(st, target, r, r.timestamp.value, key);
    }
  }

  lemma UnregisterTells(st: State, u: Unregistration, key: Key)
    ensures Tells(st, HandleUnregister(st, u), key)
    ensures key != Key(u.domain.Or(st.domain), u.id) ==>
              LastUpdate(HandleUnregister(st, u).updates, key) == LastUpdate(st.updates, key)
  {
    hide LastUpdate, Tells, UnregisterData, PublishDetails;
    var target := Key(u.domain.Or(st.domain), u.id);
    if u.kind.Data? {
      UnregisterDataTells(st, target, u, key);
    } else {
      var done := UnregisterService(st, target, u);
      assert done.lists == st.lists && done.updates == st.updates && done.backlog == st.backlog;
      hide UnregisterService;
      Unchanged(st, done, key);
    }
  }

  /** Every change a request makes to a publisher list is sent, or noted for the end of start-up. */
  lemma HandleTells(st: State, request: Request, key: Key)
    ensures Tells(st, Handle(st, request), key)
    ensures key.domain != st.domain && !Addresses(st, request, key) ==>
              LastUpdate(Handle(st, request).updates, key) == LastUpdate(st.updates, key)
  {
    hide LastUpdate, Tells, HandleRegister, HandleUnregister;
    match request
    case Lookup(_, _, _) => Unchanged(st, Handle(st, request), key);
    case Unregister(u) => UnregisterTells(st, u, key);
    case Register(r) => RegisterTells(st, r, key);
  }

  // ----- the end of start-up

  lemma {:induction false} BacklogSent(st: State, ids: seq<string>, key: Key)
    ensures LastUpdate(BacklogUpdates(st, ids), key) ==
            if key.domain == st.domain && key.id in ids then Some(st.Listed(key)) else None
  {
    if ids != [] {
      var last := |ids| - 1;
      var sent := BacklogUpdates(st, ids[..last]);
      BacklogSent(st, ids[..last], key);
      assert BacklogUpdates(st, ids)[..|sent|] == sent;
      assert ids == ids[..last] + [ids[last]];
    }
  }

  lemma {:induction false} LastUpdateOfBoth(a: seq<Update>, b: seq<Update>, key: Key)
    ensures LastUpdate(a + b, key) == if LastUpdate(b, key).Some? then LastUpdate(b, key) else LastUpdate(a, key)
  {
    if b == [] {
      assert a + b == a;
    } else {
      assert (a + b)[..|a + b| - 1] == a + b[..|b| - 1];
      LastUpdateOfBoth(a, b[..|b| - 1], key);
    }
  }

  lemma FlushSends(st: State, key: Key)
    ensures LastUpdate(Flush(st).updates, key) ==
            if st.ready && !st.processed && key.domain == st.domain && key.id in st.backlog
            then Some(st.Listed(key)) else LastUpdate(st.updates, key)
  {
    hide LastUpdate, BacklogUpdates;
    BacklogSent(st, Ascending(st.backlog), key);
    LastUpdateOfBoth(st.updates, BacklogUpdates(st, Ascending(st.backlog)), key);
  }

  /** What holds whenever the main loop waits for the next request. */
  ghost predicate Idle(st: State) {
    && (st.ready <==> st.processed)
    && (st.processed ==> st.backlog == {})
    && (!st.ready ==> st.updates == [] && forall domain :: st.Listed(Key(domain, REGISTERED_PUBLISHERS)) == [])
    && (forall id :: Covered(st, st.Own(id)))
  }

  lemma RegistrarListed(st: State, request: Request, domain: string)
    requires st.Listed(Key(domain, REGISTERED_PUBLISHERS)) == [] && !Step(st, request).ready
    ensures Step(st, request).Listed(Key(domain, REGISTERED_PUBLISHERS)) == []
  {
    StepLists(st, request, Key(domain, REGISTERED_PUBLISHERS));
  }

  lemma StepKeepsIdle(st: State, request: Request)
    requires Idle(st)
    ensures Idle(Step(st, request))
  {
    var handled := Handle(st, request);
    var st' := Step(st, request);
    forall id ensures Covered(st', st'.Own(id)) {
      HandleTells(st, request, st.Own(id));
      FlushSends(handled, st.Own(id));
      hide Handle, LastUpdate, BacklogUpdates;
    }
    if !st'.ready {
      forall domain ensures st'.Listed(Key(domain, REGISTERED_PUBLISHERS)) == [] {
        RegistrarListed(st, request, domain);
      }
    }
    hide Handle, LastUpdate, BacklogUpdates;
  }

  lemma {:induction false} RunsAreIdle(domain: string, requests: seq<Request>)
    ensures Idle(Run(Fresh(domain), requests)) && Run(Fresh(domain), requests).domain == domain
    decreases |requests|
  {
    if requests != [] {
      RunsAreIdle(domain, requests[..|requests| - 1]);
      StepKeepsIdle(Run(Fresh(domain), requests[..|requests| - 1]), requests[|requests| - 1]);
    }
  }

  /** Once RegisteredPublishers is registered, the last update sent for an own product is what a lookup answers,
      whatever registrations, purges and start-up delays came before. */
  lemma UpdatesMatchLookups(domain: string, requests: seq<Request>, id: string)
    requires Run(Fresh(domain), requests).processed
    ensures var st := Run(Fresh(domain), requests);
            Reply(st, Lookup(id, Data, None)) ==
                Publishers(Key(domain, id), LastUpdate(st.updates, Key(domain, id)).Or([]))
  {
    RunsAreIdle(domain, requests);
    assert Covered(Run(Fresh(domain), requests), Run(Fresh(domain), requests).Own(id));
  }

  // ----- products of other domains

  /** After start-up a product of any domain stays in step, and gets in step with its first change. */
  lemma ForeignUpdatesKeepUp(st: State, request: Request, key: Key)
    requires Idle(st) && st.processed
    requires Current(st, key) || Step(st, request).Listed(key) != st.Listed(key)
    ensures Current(Step(st, request), key)
  {
    HandleTells(st, request, key);
    hide Handle, LastUpdate;
  }

  lemma StarterIsSent(st: State, request: Request, key: Key)
    requires Starts(st, request) && Addresses(st, request, key)
    requires key.domain != st.domain && st.Listed(key) == []
    ensures Current(Handle(st, request), key)
  {
    var r := request.reg;
    var placed := PlaceData(st, key, r, r.timestamp.value);
    var announced := Announce(placed, key);
    assert LastUpdate(announced.updates, key) == Some(placed.Listed(key));
    PurgeTells(announced, r.id, r.url, key);
    PurgeLists(announced, r.id, r.url, key);
    hide Purge, Announce, Placed, LastUpdate;
    assert Handle(st, request) == Purge(announced, r.id, r.url);
  }

  lemma NothingSent(key: Key)
    ensures LastUpdate([], key) == None
  {}

  lemma ForeignStays(st: State, request: Request, key: Key)
    requires key.domain != st.domain && !Addresses(st, request, key)
    ensures Step(st, request).Listed(key) == st.Listed(key)
  {
    hide Step, Drop, Placed, Known, FindInstance, Stale;
    StepLists(st, request, key);
  }

  /** The step that ends start-up: a product of another domain is in step exactly when it had no publishers before.
      Backlogged changes of other domains are never sent. */
  lemma ForeignUpdatesAtStart(st: State, request: Request, key: Key)
    requires Idle(st) && !st.ready && Step(st, request).ready && key.domain != st.domain
    ensures Current(Step(st, request), key) <==> st.Listed(key) == []
  {
    hide LastUpdate, Handle, BacklogUpdates;
    NothingSent(key);
    var handled := Handle(st, request);
    FlushSends(handled, key);
    HandleTells(st, request, key);
    if Addresses(st, request, key) {
      assert key.id == REGISTERED_PUBLISHERS;
      StarterIsSent(st, request, key);
    } else {
      ForeignStays(st, request, key);
    }
  }
}
