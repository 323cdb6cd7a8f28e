/** Runs of the synchronizer: what it remembers for Remove, and that it can always catch up. */
module SynchronizingRuns {
  import opened Directory
  import opened DirectoryTimes
  import opened DirectoryBroadcast
  import opened Replication
  import opened Leaving
  import opened Restarts
  import opened Synchronizing

  // ----- what is remembered of a domain

  /** What Remove would withdraw is what the last picture heard has shown, under the kind of its change. */
  predicate Recalled(sys: System, domain: string)
    requires Reading(sys, domain)
  {
    HasLast(sys, domain)
    && var f, m := sys.sync.followed[domain], sys.sources[domain].details[sys.cursors[domain] - 1];
       f.services == m.services && f.products == m.products && f.kind == m.change.kind
  }

  ghost predicate Recalls(sys: System) {
    forall domain | Reading(sys, domain) :: Recalled(sys, domain)
  }

  lemma HeardRecalls(sys: System, at: string, m: Details, cursor: nat)
    requires Recalls(sys) && Connected(sys, at) && m.domain == at && 0 < cursor <= |sys.sources[at].details|
    requires sys.sources[at].details[cursor - 1] == m
    ensures Recalls(Hear(sys, at, m).(cursors := sys.cursors[at := cursor]))
  {
    hide MessageRequests, Recalls;
    var heard := Hear(sys, at, m).(cursors := sys.cursors[at := cursor]);
    forall domain | Reading(heard, domain) ensures Recalled(heard, domain) {
      if domain != at {
        RecalledBefore(sys, domain);
      }
    }
    AllRecalled(heard);
  }

  lemma RecalledBefore(sys: System, domain: string)
    requires Recalls(sys)
    ensures Reading(sys, domain) ==> Recalled(sys, domain)
  {
    hide Reading, Recalled;
  }

  lemma AllRecalled(sys: System)
    requires forall domain | Reading(sys, domain) :: Recalled(sys, domain)
    ensures Recalls(sys)
  {
    hide Reading, Recalled;
  }

  /** Commands and the lookup's answer; serving requests leaves the synchronizer's memory alone. */
  lemma CommandRecalls(sys: System, turn: Turn)
    requires Recalls(sys)
    requires !turn.PictureArrives? && !turn.PictureRepeats? && !turn.AtSource? && !turn.SourceRestarts?
    ensures Recalls(Turned(sys, turn))
  {
    hide Step, Hear, RemovalRequests, Recalls;
    var sys' := Turned(sys, turn);
    forall domain | Reading(sys', domain) ensures Recalled(sys', domain) { RecalledBefore(sys, domain); }
    AllRecalled(sys');
  }

  /** A directory that has restarted is not read until it is looked up again. */
  lemma RestartRecalls(owners: Owners, sys: System, at: string, registrationTime: nat)
    requires Recalls(sys) && Shaped(sys) && ProperTurn(owners, sys, SourceRestarts(at, registrationTime))
    ensures Recalls(Turned(sys, SourceRestarts(at, registrationTime)))
  {
    hide Step, Hear, Recalls;
    var sys' := Turned(sys, SourceRestarts(at, registrationTime));
    forall domain | Reading(sys', domain) ensures Recalled(sys', domain) { RecalledBefore(sys, domain); }
    AllRecalled(sys');
  }

  lemma SourceRecalls(sys: System, at: string, request: Request)
    requires Recalls(sys)
    requires at in sys.sources ==> sys.sources[at].details <= Step(sys.sources[at], request).details
    ensures Recalls(Turned(sys, AtSource(at, request)))
  {
    hide Step, Hear, Recalls;
    var sys' := Turned(sys, AtSource(at, request));
    forall domain | Reading(sys', domain) ensures Recalled(sys', domain) { RecalledBefore(sys, domain); }
    AllRecalled(sys');
  }

  lemma TurnRecalls(owners: Owners, sys: System, turn: Turn, id: string)
    requires Steady(owners, sys, id) && ProperTurn(owners, sys, turn) && Recalls(sys) && id != REGISTERED_PUBLISHERS
    ensures Recalls(Turned(sys, turn))
  {
    hide Steady, Recalls, Turned, Connected, Reading;
    match turn
    case PictureArrives(at) => ArrivalRecalls(owners, sys, at, id);
    case PictureRepeats(at) => RepetitionRecalls(owners, sys, at, id);
    case AtSource(at, request) =>
      if at in sys.sources { SourceGrows(owners, sys, at, request, id); }
      SourceRecalls(sys, at, request);
    case SourceRestarts(at, registrationTime) =>
      SteadyIsShaped(owners, sys, id);
      RestartRecalls(owners, sys, at, registrationTime);
    case _ => CommandRecalls(sys, turn);
  }

  lemma SteadyIsShaped(owners: Owners, sys: System, id: string)
    requires Steady(owners, sys, id)
    ensures Shaped(sys)
  {
    hide Shaped, KeepsRows, Attributed, GroundedAt;
  }

  lemma SourceGrows(owners: Owners, sys: System, at: string, request: Request, id: string)
    requires Steady(owners, sys, id) && at in sys.sources && Obeys(owners, at, request) && id != REGISTERED_PUBLISHERS
    ensures sys.sources[at].details <= Step(sys.sources[at], request).details
  {
    hide Steady, Timed, Step, Rooted, Follows, View, Obeys;
    SourceIsGrounded(owners, sys, id, at);
    ViewAtHome(owners, sys, at, id);
    StepFollows(owners, sys.sources[at], request, id);
    FollowedDetails(owners, sys.sources[at], Step(sys.sources[at], request), id);
  }

  lemma ViewAtHome(owners: Owners, sys: System, at: string, id: string)
    requires at in sys.sources && at in sys.cursors && Rooted(owners, View(sys, at), Key(at, id))
    ensures Timed(owners, sys.sources[at]) && sys.sources[at].domain == at
  {
    hide Timed, Reading, About, GoodStream, SafeQueue;
  }

  lemma ArrivalRecalls(owners: Owners, sys: System, at: string, id: string)
    requires Steady(owners, sys, id) && Recalls(sys)
    ensures Recalls(Turned(sys, PictureArrives(at)))
  {
    hide Steady, Recalls, Hear, Reading;
    if HasNext(sys, at) && Connected(sys, at) {
      DetailsAreOwn(owners, sys, id, at, sys.cursors[at]);
      HeardRecalls(sys, at, sys.sources[at].details[sys.cursors[at]], sys.cursors[at] + 1);
    }
  }

  lemma RepetitionRecalls(owners: Owners, sys: System, at: string, id: string)
    requires Steady(owners, sys, id) && Recalls(sys)
    ensures Recalls(Turned(sys, PictureRepeats(at)))
  {
    hide Steady, Recalls, Reading;
    if HasLast(sys, at) && Connected(sys, at) {
      var m := sys.sources[at].details[sys.cursors[at] - 1];
      DetailsAreOwn(owners, sys, id, at, sys.cursors[at] - 1);
      HeardRecalls(sys, at, m, sys.cursors[at]);
      assert sys.cursors[at := sys.cursors[at]] == sys.cursors;
      assert Hear(sys, at, m).(cursors := sys.cursors[at := sys.cursors[at]]) == Hear(sys, at, m);
    }
  }

  lemma {:induction false} RunsRecall(owners: Owners, replica: string, since: map<string, nat>, turns: seq<Turn>)
    requires replica !in since && AllProperTurns(owners, Begin(replica, since), turns)
    ensures Recalls(After(Begin(replica, since), turns))
  {
    if turns != [] {
      hide Recalls, AllProperTurns, Turned, AllAccounted, Begin;
      var last := |turns| - 1;
      ProperPrefix(owners, Begin(replica, since), turns);
      RunsRecall(owners, replica, since, turns[..last]);
      BeginAccounted(owners, replica, since, "");
      RunsAreAccounted(owners, Begin(replica, since), turns[..last], "");
      AccountedIsSteady(owners, Begin(replica, since), turns[..last], "");
      TurnRecalls(owners, After(Begin(replica, since), turns[..last]), turns[last], "");
    }
  }

  /** In every run the synchronizer remembers of a domain it reads exactly what the last picture it has heard showed, so
      that is what Remove withdraws. */
  lemma TheLastPictureIsRemembered(owners: Owners, replica: string, since: map<string, nat>, turns: seq<Turn>,
                                   domain: string)
    requires replica !in since && AllProperTurns(owners, Begin(replica, since), turns)
    requires Reading(After(Begin(replica, since), turns), domain)
    ensures var now := After(Begin(replica, since), turns);
            HasLast(now, domain)
            && var f, m := now.sync.followed[domain], now.sources[domain].details[now.cursors[domain] - 1];
               f.services == m.services && f.products == m.products && f.kind == m.change.kind
  {
    hide After, AllProperTurns, Begin;
    RunsRecall(owners, replica, since, turns);
    RecalledBefore(After(Begin(replica, since), turns), domain);
  }

  // ----- catching up

  lemma {:induction false} AfterBoth(sys: System, a: seq<Turn>, b: seq<Turn>)
    ensures After(sys, a + b) == After(After(sys, a), b)
  {
    hide Turned;
    if b == [] {
      assert a + b == a;
    } else {
      assert (a + b)[..|a + b| - 1] == a + b[..|b| - 1];
      AfterBoth(sys, a, b[..|b| - 1]);
    }
  }

  lemma ProperBoth(owners: Owners, sys: System, a: seq<Turn>, b: seq<Turn>)
    requires AllProperTurns(owners, sys, a) && AllProperTurns(owners, After(sys, a), b)
    ensures AllProperTurns(owners, sys, a + b)
  {
    hide ProperTurn, After;
    forall i | 0 <= i < |a + b| ensures ProperTurn(owners, After(sys, (a + b)[..i]), (a + b)[i]) {
      if i < |a| {
        assert (a + b)[..i] == a[..i];
      } else {
        assert (a + b)[..i] == a + b[..i - |a|];
        AfterBoth(sys, a, b[..i - |a|]);
      }
    }
  }

  lemma OneTurn(owners: Owners, sys: System, turn: Turn)
    ensures After(sys, [turn]) == Turned(sys, turn)
    ensures ProperTurn(owners, sys, turn) ==> AllProperTurns(owners, sys, [turn])
  {
    hide Turned, ProperTurn;
    assert [turn][..0] == [];
    assert After(sys, [turn][..0]) == sys;
  }

  /** Proper turns lead from here to there, and the directories followed stay as they are. */
  ghost predicate Leads(owners: Owners, sys: System, turns: seq<Turn>, there: System) {
    AllProperTurns(owners, sys, turns) && After(sys, turns) == there
    && there.sources == sys.sources && there.since == sys.since
  }

  ghost predicate CanReach(owners: Owners, sys: System, there: System) {
    exists turns :: Leads(owners, sys, turns, there)
  }

  lemma CanStay(owners: Owners, sys: System)
    ensures CanReach(owners, sys, sys)
  {
    assert Leads(owners, sys, [], sys);
  }

  lemma CanTurn(owners: Owners, sys: System, turn: Turn)
    requires ProperTurn(owners, sys, turn)
    requires Turned(sys, turn).sources == sys.sources && Turned(sys, turn).since == sys.since
    ensures CanReach(owners, sys, Turned(sys, turn))
  {
    hide Turned, ProperTurn;
    OneTurn(owners, sys, turn);
    assert Leads(owners, sys, [turn], Turned(sys, turn));
  }

  lemma CanGoOn(owners: Owners, a: System, b: System, c: System)
    requires CanReach(owners, a, b) && CanReach(owners, b, c)
    ensures CanReach(owners, a, c)
  {
    hide AllProperTurns, After;
    var s :| Leads(owners, a, s, b);
    var t :| Leads(owners, b, t, c);
    AfterBoth(a, s, t);
    ProperBoth(owners, a, s, t);
    assert Leads(owners, a, s + t, c);
  }

  /** Requests are served one by one until none is left. */
  lemma {:induction false} CanServeAll(owners: Owners, sys: System)
    ensures exists there :: CanReach(owners, sys, there) && there.wire == [] && there.sync.waiting == []
                            && there.sync.followed == sys.sync.followed && there.cursors == sys.cursors
    decreases 3 * |sys.sync.waiting| + |sys.wire| + (if sys.sync.pending then 1 else 0)
  {
    hide CanReach, Step;
    if sys.wire == [] && sys.sync.waiting == [] {
      CanStay(owners, sys);
    } else {
      var turn := if sys.wire != [] then AtRequest else if sys.sync.pending then AnswerArrives else Turn.SendNext;
      var next := Turned(sys, turn);
      CanTurn(owners, sys, turn);
      CanServeAll(owners, next);
      var there :| CanReach(owners, next, there) && there.wire == [] && there.sync.waiting == []
                   && there.sync.followed == next.sync.followed && there.cursors == next.cursors;
      CanGoOn(owners, sys, next, there);
    }
  }

  predicate OwnStream(sys: System, domain: string) {
    domain in sys.sources && forall m | m in sys.sources[domain].details :: m.domain == domain
  }

  lemma HearsNext(sys: System, domain: string)
    requires Attached(sys, domain) && HasNext(sys, domain) && OwnStream(sys, domain)
    ensures var next := Turned(sys, PictureArrives(domain));
            Reading(next, domain) && next.sources == sys.sources && next.since == sys.since
            && next.cursors == sys.cursors[domain := sys.cursors[domain] + 1]
  {
    hide MessageRequests;
    assert sys.sources[domain].details[sys.cursors[domain]] in sys.sources[domain].details;
  }

  lemma HearsLast(sys: System, domain: string)
    requires Attached(sys, domain) && HasLast(sys, domain) && OwnStream(sys, domain)
    ensures var next := Turned(sys, PictureRepeats(domain));
            Reading(next, domain) && next.sources == sys.sources && next.since == sys.since
            && next.cursors == sys.cursors
  {
    hide MessageRequests;
    assert sys.sources[domain].details[sys.cursors[domain] - 1] in sys.sources[domain].details;
  }

  /** All pictures arrive. */
  lemma {:induction false} CanHearAll(owners: Owners, sys: System, domain: string)
    requires Reading(sys, domain) && OwnStream(sys, domain) && sys.cursors[domain] <= |sys.sources[domain].details|
    ensures exists there :: CanReach(owners, sys, there) && Reading(there, domain)
                            && there.sources == sys.sources && domain in there.cursors
                            && there.cursors[domain] == |sys.sources[domain].details|
    decreases |sys.sources[domain].details| - sys.cursors[domain]
  {
    hide CanReach, Turned;
    if sys.cursors[domain] == |sys.sources[domain].details| {
      CanStay(owners, sys);
    } else {
      var next := Turned(sys, PictureArrives(domain));
      HearsNext(sys, domain);
      CanTurn(owners, sys, PictureArrives(domain));
      CanHearAll(owners, next, domain);
      var there :| CanReach(owners, next, there) && Reading(there, domain)
                   && there.sources == next.sources && domain in there.cursors
                   && there.cursors[domain] == |next.sources[domain].details|;
      CanGoOn(owners, sys, next, there);
    }
  }

  /** The domain is added, unless it is followed, and looked up. */
  lemma CanAttach(owners: Owners, sys: System, domain: string)
    requires domain in sys.sources && domain in sys.cursors && domain in sys.since
    ensures exists there :: CanReach(owners, sys, there) && Attached(there, domain)
                            && there.sources == sys.sources && there.cursors == sys.cursors
  {
    hide CanReach;
    var added := Turned(sys, AddCommand(domain));
    var updated := Turned(added, UpdateCommand(domain));
    var located := Turned(updated, LocationArrives(domain, sys.since[domain]));
    CanTurn(owners, sys, AddCommand(domain));
    CanTurn(owners, added, UpdateCommand(domain));
    CanTurn(owners, updated, LocationArrives(domain, sys.since[domain]));
    CanGoOn(owners, sys, added, updated);
    CanGoOn(owners, sys, updated, located);
  }

  lemma CanRead(owners: Owners, sys: System, domain: string)
    requires domain in sys.cursors && domain in sys.since && OwnStream(sys, domain)
    requires sys.sources[domain].details != [] && sys.cursors[domain] <= |sys.sources[domain].details|
    ensures exists there :: CanReach(owners, sys, there) && Reading(there, domain)
                            && there.sources == sys.sources && domain in there.cursors
                            && there.cursors[domain] <= |there.sources[domain].details|
  {
    hide CanReach, Turned, Attached, Reading;
    CanAttach(owners, sys, domain);
    var ready :| CanReach(owners, sys, ready) && Attached(ready, domain)
                 && ready.sources == sys.sources && ready.cursors == sys.cursors;
    var turn := if HasNext(ready, domain) then PictureArrives(domain) else PictureRepeats(domain);
    if HasNext(ready, domain) { HearsNext(ready, domain); } else { HearsLast(ready, domain); }
    CanTurn(owners, ready, turn);
    CanGoOn(owners, sys, ready, Turned(ready, turn));
  }

  lemma CanCatchUp(owners: Owners, sys: System, domain: string)
    requires domain in sys.cursors && domain in sys.since && OwnStream(sys, domain)
    requires sys.sources[domain].details != [] && sys.cursors[domain] <= |sys.sources[domain].details|
    ensures exists there :: CanReach(owners, sys, there) && there.sources == sys.sources && domain in there.cursors
                            && CaughtUp(View(there, domain))
  {
    hide CanReach, About;
    CanRead(owners, sys, domain);
    var reading :| CanReach(owners, sys, reading) && Reading(reading, domain) && reading.sources == sys.sources
                 && domain in reading.cursors && reading.cursors[domain] <= |reading.sources[domain].details|;
    CanHearAll(owners, reading, domain);
    var heard :| CanReach(owners, reading, heard) && Reading(heard, domain) && heard.sources == reading.sources
                 && domain in heard.cursors && heard.cursors[domain] == |reading.sources[domain].details|;
    CanServeAll(owners, heard);
    var there :| CanReach(owners, heard, there) && there.wire == [] && there.sync.waiting == []
                 && there.sync.followed == heard.sync.followed && there.cursors == heard.cursors;
    CanGoOn(owners, sys, reading, heard);
    CanGoOn(owners, sys, heard, there);
    Unchanged(owners, heard, there);
    NothingUnderWay(domain);
    assert there.wire + there.sync.waiting == [];
  }

  lemma Unchanged(owners: Owners, sys: System, there: System)
    requires CanReach(owners, sys, there)
    ensures there.sources == sys.sources && there.since == sys.since
  {
    hide AllProperTurns, After;
  }

  lemma NothingUnderWay(domain: string)
    ensures About([], domain) == []
  {}

  /** Every run can go on so that a domain that has broadcast anything is caught up with, without its directory doing
      anything. */
  lemma EveryRunCanCatchUp(owners: Owners, replica: string, since: map<string, nat>, turns: seq<Turn>, domain: string)
    requires replica !in since && domain in since && AllProperTurns(owners, Begin(replica, since), turns)
    requires var now := After(Begin(replica, since), turns);
             domain in now.sources ==> now.sources[domain].details != []
    ensures exists more :: AllProperTurns(owners, Begin(replica, since), turns + more)
                           && var now := After(Begin(replica, since), turns);
                              var later := After(Begin(replica, since), turns + more);
                              later.sources == now.sources && domain in later.sources && domain in later.cursors
                              && CaughtUp(View(later, domain))
  {
    hide After, AllProperTurns, CaughtUp, View, Begin, CanReach;
    var now := After(Begin(replica, since), turns);
    RunIsOwn(owners, replica, since, turns, domain);
    CanCatchUp(owners, now, domain);
    var there :| CanReach(owners, now, there) && there.sources == now.sources && domain in there.cursors
                 && CaughtUp(View(there, domain));
    var more := Way(owners, now, there);
    AfterBoth(Begin(replica, since), turns, more);
    ProperBoth(owners, Begin(replica, since), turns, more);
    assert After(Begin(replica, since), turns + more) == there;
  }

  ghost function Way(owners: Owners, sys: System, there: System): (turns: seq<Turn>)
    requires CanReach(owners, sys, there)
    ensures AllProperTurns(owners, sys, turns) && After(sys, turns) == there
  {
    var turns :| Leads(owners, sys, turns, there);
    turns
  }

  lemma RunIsOwn(owners: Owners, replica: string, since: map<string, nat>, turns: seq<Turn>, domain: string)
    requires replica !in since && domain in since && AllProperTurns(owners, Begin(replica, since), turns)
    ensures var now := After(Begin(replica, since), turns);
            domain in now.sources && domain in now.cursors && domain in now.since && OwnStream(now, domain)
            && now.cursors[domain] <= |now.sources[domain].details|
  {
    hide After, AllProperTurns, Begin, AllAccounted, Steady, View, Reading, About;
    var now := After(Begin(replica, since), turns);
    BeginAccounted(owners, replica, since, "");
    RunsAreAccounted(owners, Begin(replica, since), turns, "");
    AccountedIsSteady(owners, Begin(replica, since), turns, "");
    AccountedSources(owners, replica, since, turns);
    SourceIsGrounded(owners, now, "", domain);
    ShapedKeys(now);
    forall m | m in now.sources[domain].details ensures m.domain == domain {
      var i :| 0 <= i < |now.sources[domain].details| && now.sources[domain].details[i] == m;
      DetailsAreOwn(owners, now, "", domain, i);
    }
    CursorInside(owners, now, domain);
  }

  lemma AccountedSources(owners: Owners, replica: string, since: map<string, nat>, turns: seq<Turn>)
    requires AllAccounted(owners, Begin(replica, since), turns, "")
    ensures After(Begin(replica, since), turns).sources.Keys == since.Keys
  {
    hide After, Accounted, Shaped, KeepsRows, Attributed;
    BeginDomain(replica, since);
  }

  lemma ShapedKeys(sys: System)
    requires Shaped(sys)
    ensures sys.sources.Keys == sys.cursors.Keys == sys.since.Keys
  {}

  lemma CursorInside(owners: Owners, sys: System, domain: string)
    requires domain in sys.sources && domain in sys.cursors && Rooted(owners, View(sys, domain), Key(domain, ""))
    ensures sys.cursors[domain] <= |sys.sources[domain].details|
  {
    hide Timed, Reading, About, GoodStream, SafeQueue;
  }
}
