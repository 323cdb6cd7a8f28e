/** The synchronizer's state and turns as values, with any number of domains followed at once. Each followed domain
    moves as a link of its own, so what is proved of one link holds of every domain. */
module Synchronizing {
  import opened Common
  import opened Directory
  import opened DirectoryTimes
  import opened DirectoryBroadcast
  import opened Replication
  import opened RemoteTables
  import opened Leaving
  import opened Restarts

  // ----- the synchronizer

  /** What is kept of a domain: whether its first picture has come, whether its socket is one whose messages must carry
      the registration time the lookup named, and what Remove will need of the last picture. */
  datatype Followed = Followed(
    initialized: bool, checked: bool, registrationTime: nat, services: seq<Row>, products: seq<Row>, kind: Kind)

  datatype Sync = Sync(followed: map<string, Followed>, waiting: seq<Request>, pending: bool)

  const UNSEEN := Followed(false, false, 0, [], [], Data)

  function Added(s: Sync, domain: string): Sync {
    if domain in s.followed then s else s.(followed := s.followed[domain := UNSEEN])
  }

  function Reset(s: Sync, domain: string): Sync
    requires domain in s.followed
  {
    s.(followed := s.followed[domain := s.followed[domain].(initialized := false, checked := false)])
  }

  function Located(s: Sync, domain: string, registrationTime: nat): Sync
    requires domain in s.followed
  {
    s.(followed := s.followed[domain := s.followed[domain].(
       initialized := false, checked := true, registrationTime := registrationTime)])
  }

  /** The message comes from another publisher than the one the lookup named. */
  predicate Mismatches(f: Followed, registrationTime: nat) {
    f.checked && f.registrationTime != registrationTime
  }

  function Heard(s: Sync, m: Details, registrationTime: nat): Sync
    requires m.domain in s.followed
  {
    var f := s.followed[m.domain];
    if Mismatches(f, registrationTime) then s
    else s.(followed := s.followed[m.domain := f.(
              initialized := true, services := m.services, products := m.products, kind := m.change.kind)],
            waiting := s.waiting + MessageRequests(m, f.initialized))
  }

  /** A domain that is gone: every row of its last picture is unregistered, under the kind of the last change and
      with the registration time of the directory itself. */
  function Forgotten(s: Sync, domain: string): Sync {
    if domain !in s.followed then s
    else
      var f := s.followed[domain];
      s.(followed := s.followed - {domain},
         waiting := s.waiting + RemovalRequests(domain, f.services + f.products, f.kind, f.registrationTime))
  }

  function SentNext(s: Sync): Sync {
    if !s.pending && s.waiting != [] then s.(waiting := s.waiting[1..], pending := true) else s
  }

  // ----- the directories around it

  datatype System = System(
    sources: map<string, State>, since: map<string, nat>, cursors: map<string, nat>,
    replica: State, sync: Sync, wire: seq<Request>)

  datatype Turn =
    | AtSource(domain: string, request: Request)
    | AtReplica(request: Request)
    | AtRequest                                                    // the own directory serves what it was sent
    | AnswerArrives
    | SendNext
    | AddCommand(domain: string)
    | UpdateCommand(domain: string)
    | RemoveCommand(domain: string)
    | LocationArrives(domain: string, registrationTime: nat)
    | PictureMissed(domain: string)
    | PictureArrives(domain: string)
    | PictureRepeats(domain: string)                               // the publisher sends its cached picture again
    | SourceRestarts(domain: string, registrationTime: nat)

  /** At the start nobody is followed. */
  function Begin(replica: string, since: map<string, nat>): System {
    System(map domain | domain in since :: Fresh(domain), since, map domain | domain in since :: 0,
           Fresh(replica), Sync(map[], [], false), [])
  }

  /** The synchronizer is subscribed to pictures of the domain. */
  predicate Connected(sys: System, domain: string) {
    domain in sys.sources && domain in sys.cursors && domain in sys.since
    && domain in sys.sync.followed && sys.sync.followed[domain].checked
  }

  /** It expects the registration time the directory now publishes under. */
  predicate Attached(sys: System, domain: string) {
    Connected(sys, domain) && sys.sync.followed[domain].registrationTime == sys.since[domain]
  }

  predicate Reading(sys: System, domain: string) {
    Attached(sys, domain) && sys.sync.followed[domain].initialized
  }

  predicate HasNext(sys: System, domain: string) {
    domain in sys.sources && domain in sys.cursors && sys.cursors[domain] < |sys.sources[domain].details|
  }

  predicate HasLast(sys: System, domain: string) {
    domain in sys.sources && domain in sys.cursors && 0 < sys.cursors[domain] <= |sys.sources[domain].details|
  }

  function Hear(sys: System, domain: string, m: Details): System
    requires Connected(sys, domain)
  {
    if m.domain in sys.sync.followed then sys.(sync := Heard(sys.sync, m, sys.since[domain])) else sys
  }

  function Turned(sys: System, turn: Turn): System {
    match turn
    case AtSource(domain, request) =>
      if domain in sys.sources then sys.(sources := sys.sources[domain := Step(sys.sources[domain], request)]) else sys
    case AtReplica(request) => sys.(replica := Step(sys.replica, request))
    case AtRequest =>
      if sys.wire == [] then sys else sys.(replica := Step(sys.replica, sys.wire[0]), wire := sys.wire[1..])
    case AnswerArrives =>
      if sys.sync.pending && sys.wire == [] then sys.(sync := sys.sync.(pending := false)) else sys
    case SendNext =>
      if !sys.sync.pending && sys.sync.waiting != [] then
        sys.(wire := sys.wire + [sys.sync.waiting[0]], sync := SentNext(sys.sync))
      else sys
    case AddCommand(domain) => sys.(sync := Added(sys.sync, domain))
    case UpdateCommand(domain) =>
      if domain in sys.sync.followed then sys.(sync := Reset(sys.sync, domain)) else sys
    case RemoveCommand(domain) => sys.(sync := Forgotten(sys.sync, domain))
    case LocationArrives(domain, registrationTime) =>
      if domain in sys.sync.followed && !sys.sync.followed[domain].checked
      then sys.(sync := Located(sys.sync, domain, registrationTime)) else sys
    case PictureMissed(domain) =>
      if HasNext(sys, domain) && !Reading(sys, domain)
      then sys.(cursors := sys.cursors[domain := sys.cursors[domain] + 1]) else sys
    case PictureArrives(domain) =>
      if HasNext(sys, domain) && Connected(sys, domain) then
        Hear(sys, domain, sys.sources[domain].details[sys.cursors[domain]])
          .(cursors := sys.cursors[domain := sys.cursors[domain] + 1])
      else sys
    case PictureRepeats(domain) =>
      if HasLast(sys, domain) && Connected(sys, domain) then
        Hear(sys, domain, sys.sources[domain].details[sys.cursors[domain] - 1])
      else sys
    case SourceRestarts(domain, registrationTime) =>
      if domain in sys.sources && domain in sys.cursors && domain in sys.since then
        sys.(sources := sys.sources[domain := Fresh(domain)], cursors := sys.cursors[domain := 0],
             since := sys.since[domain := registrationTime])
      else sys
  }

  function After(sys: System, turns: seq<Turn>): System {
    if turns == [] then sys else Turned(After(sys, turns[..|turns| - 1]), turns[|turns| - 1])
  }

  /** Nobody uses another one's URL or speaks to the replica about a followed domain, a restarted directory registers
      in a later second than before, and no lookup tells of a registration that is still to come. A domain whose last
      change was to a service is removed only when no data product of its last picture has the ID of a service. */
  ghost predicate ProperTurn(owners: Owners, sys: System, turn: Turn) {
    match turn
    case AtSource(domain, request) => Obeys(owners, domain, request)
    case AtReplica(request) =>
      Obeys(owners, sys.replica.domain, request) &&
      (match request
       case Register(r) => r.domain.Or(sys.replica.domain) !in sys.sources
       case Unregister(u) => u.domain.Or(sys.replica.domain) !in sys.sources
       case Lookup(_, _, _) => true)
    case LocationArrives(domain, registrationTime) => domain in sys.since ==> registrationTime <= sys.since[domain]
    case RemoveCommand(domain) =>
      (domain in sys.sync.followed ==>
         var f := sys.sync.followed[domain];
         Distinguished(owners, domain, f.services + f.products, f.kind))
    case SourceRestarts(domain, registrationTime) => domain in sys.since ==> sys.since[domain] < registrationTime
    case _ => true
  }

  ghost predicate AllProperTurns(owners: Owners, sys: System, turns: seq<Turn>) {
    forall i | 0 <= i < |turns| :: ProperTurn(owners, After(sys, turns[..i]), turns[i])
  }

  // ----- one domain of the system, seen as a link

  /** The domain a request names. */
  function Subject(request: Request): Option<string> {
    match request
    case Register(r) => r.domain
    case Unregister(u) => u.domain
    case Lookup(_, _, _) => None
  }

  predicate Names(request: Request, domain: string) {
    Subject(request) == Some(domain)
  }

  function About(queue: seq<Request>, domain: string): seq<Request> {
    if queue == [] then []
    else
      var last := |queue| - 1;
      About(queue[..last], domain) + if Names(queue[last], domain) then [queue[last]] else []
  }

  function View(sys: System, domain: string): Link
    requires domain in sys.sources && domain in sys.cursors
  {
    Link(sys.sources[domain], sys.replica, Reading(sys, domain), sys.cursors[domain],
         About(sys.wire + sys.sync.waiting, domain))
  }

  /** The moves of one domain's link that a turn of the system amounts to: one or none. */
  function MoveOf(sys: System, turn: Turn, domain: string): seq<Move> {
    match turn
    case AtSource(d, request) => if d == domain then [Act(Action.SourceServes(request))] else []
    case AtReplica(request) => [Act(Action.ReplicaServes(request))]
    case AtRequest =>
      if sys.wire == [] then []
      else if Names(sys.wire[0], domain) then [Act(Apply)] else [Act(Action.ReplicaServes(sys.wire[0]))]
    case AnswerArrives => []
    case SendNext => []
    case AddCommand(_) => []
    case UpdateCommand(d) => if d == domain && d in sys.sync.followed then [Refollow] else []
    case RemoveCommand(d) =>
      if d == domain && d in sys.sync.followed then
        var f := sys.sync.followed[d];
        [Leave(f.services + f.products, f.kind, f.registrationTime)]
      else []
    case LocationArrives(_, _) => []
    case PictureMissed(d) => if d == domain && HasNext(sys, d) && !Reading(sys, d) then [Act(Miss)] else []
    case PictureArrives(d) =>
      if d == domain && HasNext(sys, d) && Connected(sys, d)
      then [Act(if Attached(sys, d) then Deliver else Miss)] else []
    case PictureRepeats(d) => if d == domain && HasLast(sys, d) && Attached(sys, d) then [Act(Redeliver)] else []
    case SourceRestarts(d, _) => if d == domain then [Restart] else []
  }

  function MovesOf(sys: System, turns: seq<Turn>, domain: string): seq<Move> {
    if turns == [] then []
    else
      var last := |turns| - 1;
      MovesOf(sys, turns[..last], domain) + MoveOf(After(sys, turns[..last]), turns[last], domain)
  }

  // ----- queues by domain

  lemma {:induction false} AboutBoth(a: seq<Request>, b: seq<Request>, domain: string)
    ensures About(a + b, domain) == About(a, domain) + About(b, domain)
  {
    if b == [] {
      assert a + b == a;
    } else {
      assert (a + b)[..|a + b| - 1] == a + b[..|b| - 1];
      AboutBoth(a, b[..|b| - 1], domain);
      hide Names;
    }
  }

  lemma AboutOne(request: Request, domain: string)
    ensures About([request], domain) == if Names(request, domain) then [request] else []
  {
    hide Names;
    assert About([request][..0], domain) == [];
  }

  lemma {:induction false} AboutAll(queue: seq<Request>, domain: string, other: string)
    requires forall i | 0 <= i < |queue| :: Names(queue[i], domain)
    ensures About(queue, other) == if other == domain then queue else []
  {
    if queue != [] {
      AboutAll(queue[..|queue| - 1], domain, other);
      assert Names(queue[|queue| - 1], domain);
    }
  }

  lemma {:induction false} InAbout(queue: seq<Request>, domain: string, i: nat)
    requires i < |queue| && Names(queue[i], domain)
    ensures queue[i] in About(queue, domain)
  {
    hide Names;
    if i < |queue| - 1 { InAbout(queue[..|queue| - 1], domain, i); }
  }

  lemma {:induction false} RowRequestsName(domain: string, rows: seq<Row>, kind: Kind)
    ensures forall i | 0 <= i < |RowRequests(domain, rows, kind)| :: Names(RowRequests(domain, rows, kind)[i], domain)
  {
    if rows != [] { RowRequestsName(domain, rows[..|rows| - 1], kind); }
  }

  lemma RemovalNames(domain: string, rows: seq<Row>, kind: Kind, regTime: nat)
    ensures forall i | 0 <= i < |RemovalRequests(domain, rows, kind, regTime)| ::
              Names(RemovalRequests(domain, rows, kind, regTime)[i], domain)
  {
    forall i | 0 <= i < |RemovalRequests(domain, rows, kind, regTime)|
      ensures Names(RemovalRequests(domain, rows, kind, regTime)[i], domain)
    {
      RowsOf(domain, rows, kind, regTime, i);
    }
  }

  lemma MessageNames(m: Details, initialized: bool)
    ensures forall i | 0 <= i < |MessageRequests(m, initialized)| :: Names(MessageRequests(m, initialized)[i], m.domain)
  {
    RowRequestsName(m.domain, m.services, Service);
    RowRequestsName(m.domain, m.products, Data);
    hide RowRequests;
  }

  // ----- what every run keeps

  predicate Shaped(sys: System) {
    && sys.sources.Keys == sys.cursors.Keys == sys.since.Keys
    && sys.replica.domain !in sys.sources
    && (forall domain | domain in sys.sources :: sys.sources[domain].domain == domain)
    && (forall domain | domain in sys.sources && domain in sys.sync.followed ::
          sys.sync.followed[domain].registrationTime <= sys.since[domain])
  }

  /** Every queued request is about one of the followed directories. */
  predicate Attributed(sys: System, queue: seq<Request>) {
    forall i | 0 <= i < |queue| :: Subject(queue[i]).Some? && Subject(queue[i]).value in sys.sources
  }

  ghost predicate GroundedAt(owners: Owners, sys: System, domain: string, id: string) {
    && domain in sys.sources && domain in sys.cursors
    && Rooted(owners, View(sys, domain), Key(domain, id))
    && Withdrawn(sys.sources[domain].details, Key(domain, id))
  }

  /** What Remove would withdraw is the domain's own. */
  predicate KeepsRows(owners: Owners, sys: System) {
    forall domain | domain in sys.sync.followed ::
      var rows := sys.sync.followed[domain].services + sys.sync.followed[domain].products;
      OwnRows(owners, domain, rows) && (domain !in sys.sources ==> rows == [])
  }

  ghost predicate Steady(owners: Owners, sys: System, id: string) {
    && Shaped(sys) && KeepsRows(owners, sys)
    && Attributed(sys, sys.wire) && Attributed(sys, sys.sync.waiting)
    && (forall domain | domain in sys.sources :: GroundedAt(owners, sys, domain, id))
  }

  lemma SourceIsGrounded(owners: Owners, sys: System, id: string, domain: string)
    requires Steady(owners, sys, id) && domain in sys.sources
    ensures Shaped(sys) && Rooted(owners, View(sys, domain), Key(domain, id))
    ensures Withdrawn(sys.sources[domain].details, Key(domain, id))
  {
    hide Rooted, Withdrawn, View, Attributed;
    assert GroundedAt(owners, sys, domain, id);
  }

  lemma DetailsAreOwn(owners: Owners, sys: System, id: string, domain: string, i: nat)
    requires Steady(owners, sys, id) && domain in sys.sources && i < |sys.sources[domain].details|
    ensures sys.sources[domain].details[i].domain == domain
  {
    hide Rooted, Withdrawn, Attributed;
    SourceIsGrounded(owners, sys, id, domain);
    hide Steady;
    MessageOf(owners, View(sys, domain), Key(domain, id), i);
  }

  lemma WireIsAttributed(owners: Owners, sys: System, id: string)
    requires Steady(owners, sys, id) && sys.wire != []
    ensures Subject(sys.wire[0]).Some? && Subject(sys.wire[0]).value in sys.sources
  {
    hide Rooted, Withdrawn, Subject, View, Shaped;
  }

  /** The request under way is safe, whichever domain it is about. */
  lemma WireIsSafe(owners: Owners, sys: System, id: string)
    requires Steady(owners, sys, id) && sys.wire != []
    ensures Named(sys.wire[0]) && Safe(owners, sys.replica.domain, sys.wire[0])
  {
    hide Steady, Rooted, Withdrawn, Subject, Named, Safe, About, Reading;
    WireIsAttributed(owners, sys, id);
    var domain := Subject(sys.wire[0]).value;
    SourceIsGrounded(owners, sys, id, domain);
    Ground(owners, View(sys, domain), Key(domain, id));
    InAbout(sys.wire + sys.sync.waiting, domain, 0);
    var queue := About(sys.wire + sys.sync.waiting, domain);
    var i :| 0 <= i < |queue| && queue[i] == sys.wire[0];
  }

  // ----- each turn is a move of each link

  ghost predicate Simulated(sys: System, turn: Turn, domain: string)
    requires domain in sys.sources && domain in sys.cursors
  {
    var sys' := Turned(sys, turn);
    domain in sys'.sources && domain in sys'.cursors
    && View(sys', domain) == Travel(View(sys, domain), MoveOf(sys, turn, domain))
  }

  lemma NoMove(link: Link)
    ensures Travel(link, []) == link
  {
    hide Moved;
  }

  lemma OneMove(link: Link, move: Move)
    ensures Travel(link, [move]) == Moved(link, move)
  {
    hide Moved;
    assert Travel(link, [move][..0]) == link;
  }

  /** What a link shows of a system. */
  lemma SameView(sys: System, sys': System, domain: string)
    requires domain in sys.sources && domain in sys.cursors
    requires sys'.sources == sys.sources && sys'.cursors == sys.cursors && sys'.replica == sys.replica
    requires sys'.wire + sys'.sync.waiting == sys.wire + sys.sync.waiting
    ensures View(sys', domain) == View(sys, domain).(initialized := Reading(sys', domain))
  {
    hide Reading, About;
  }

  lemma QuietSimulated(sys: System, turn: Turn, domain: string)
    requires Shaped(sys) && domain in sys.sources && (turn.AnswerArrives? || turn.AddCommand? || turn.LocationArrives?)
    ensures Simulated(sys, turn, domain)
  {
    hide View, Travel, Step, Hear, HasNext, HasLast, SentNext;
    NoMove(View(sys, domain));
    SameView(sys, Turned(sys, turn), domain);
    SameView(sys, sys, domain);
  }

  lemma UpdateSimulated(sys: System, at: string, domain: string)
    requires Shaped(sys) && domain in sys.sources
    ensures Simulated(sys, UpdateCommand(at), domain)
  {
    hide View, Travel, Step, Hear, HasNext, HasLast, SentNext;
    NoMove(View(sys, domain));
    OneMove(View(sys, domain), Refollow);
    SameView(sys, Turned(sys, UpdateCommand(at)), domain);
    SameView(sys, sys, domain);
  }

  lemma ForgottenReads(sys: System, at: string, domain: string)
    requires at in sys.sync.followed
    ensures Reading(sys.(sync := Forgotten(sys.sync, at)), domain) <==> domain != at && Reading(sys, domain)
  {
    hide RemovalRequests;
  }

  lemma RemoveSimulated(sys: System, at: string, domain: string)
    requires Shaped(sys) && domain in sys.sources
    ensures Simulated(sys, RemoveCommand(at), domain)
  {
    hide Travel, RemovalRequests, About, Names, Step, Reading;
    NoMove(View(sys, domain));
    if at in sys.sync.followed {
      ForgottenReads(sys, at, domain);
      var f := sys.sync.followed[at];
      var requests := RemovalRequests(at, f.services + f.products, f.kind, f.registrationTime);
      OneMove(View(sys, domain), Leave(f.services + f.products, f.kind, f.registrationTime));
      RemovalNames(at, f.services + f.products, f.kind, f.registrationTime);
      AboutAll(requests, at, domain);
      AboutBoth(sys.wire + sys.sync.waiting, requests, domain);
      assert sys.wire + (sys.sync.waiting + requests) == sys.wire + sys.sync.waiting + requests;
      assert About(sys.wire + sys.sync.waiting, domain) + [] == About(sys.wire + sys.sync.waiting, domain);
    }
  }

  lemma SendSimulated(sys: System, domain: string)
    requires Shaped(sys) && domain in sys.sources
    ensures Simulated(sys, SendNext, domain)
  {
    hide View, Travel;
    NoMove(View(sys, domain));
    var waiting := sys.sync.waiting;
    if waiting != [] { assert sys.wire + [waiting[0]] + waiting[1..] == sys.wire + waiting; }
    SameView(sys, Turned(sys, SendNext), domain);
    SameView(sys, sys, domain);
  }

  lemma SourceSimulated(sys: System, at: string, request: Request, domain: string)
    requires Shaped(sys) && domain in sys.sources
    ensures Simulated(sys, AtSource(at, request), domain)
  {
    hide About, Travel, Step;
    NoMove(View(sys, domain));
    OneMove(View(sys, domain), Act(Action.SourceServes(request)));
  }

  lemma ReplicaSimulated(sys: System, request: Request, domain: string)
    requires Shaped(sys) && domain in sys.sources
    ensures Simulated(sys, AtReplica(request), domain)
  {
    hide About, Travel, Step;
    OneMove(View(sys, domain), Act(Action.ReplicaServes(request)));
  }

  lemma MissSimulated(sys: System, at: string, domain: string)
    requires Shaped(sys) && domain in sys.sources
    ensures Simulated(sys, PictureMissed(at), domain)
  {
    hide View, Travel;
    NoMove(View(sys, domain));
    OneMove(View(sys, domain), Act(Miss));
    SameView(sys, sys, domain);
    ViewAt(sys, domain);
    if HasNext(sys, at) && !Reading(sys, at) { MovedCursor(sys, at, domain); }
  }

  lemma ViewAt(sys: System, domain: string)
    requires domain in sys.sources && domain in sys.cursors
    ensures View(sys, domain).source == sys.sources[domain] && View(sys, domain).cursor == sys.cursors[domain]
    ensures View(sys, domain).initialized == Reading(sys, domain)
  {
    hide About, Reading;
  }

  lemma RestartSimulated(owners: Owners, sys: System, domain: string, at: string, registrationTime: nat)
    requires Shaped(sys) && domain in sys.sources && ProperTurn(owners, sys, SourceRestarts(at, registrationTime))
    ensures Simulated(sys, SourceRestarts(at, registrationTime), domain)
  {
    hide About, Travel;
    NoMove(View(sys, domain));
    OneMove(View(sys, domain), Restart);
  }

  lemma RequestSimulated(sys: System, domain: string)
    requires Shaped(sys) && domain in sys.sources
    ensures Simulated(sys, AtRequest, domain)
  {
    hide Travel, Step, Names, About;
    NoMove(View(sys, domain));
    if sys.wire != [] {
      var first, rest := sys.wire[0], sys.wire[1..];
      assert sys.wire + sys.sync.waiting == [first] + (rest + sys.sync.waiting);
      AboutBoth([first], rest + sys.sync.waiting, domain);
      AboutOne(first, domain);
      OneMove(View(sys, domain), Act(Apply));
      OneMove(View(sys, domain), Act(Action.ReplicaServes(first)));
    }
  }

  /** Hearing a message of one domain lengthens the queue of that domain only. */
  lemma HeardQueue(sys: System, at: string, m: Details, domain: string)
    requires at in sys.sync.followed && m.domain == at && at in sys.since
    ensures var f := sys.sync.followed[at];
            var queue := About(sys.wire + sys.sync.waiting, domain);
            About(sys.wire + Heard(sys.sync, m, sys.since[at]).waiting, domain) ==
            if at == domain && !Mismatches(f, sys.since[at]) then queue + MessageRequests(m, f.initialized) else queue
  {
    hide MessageRequests, Names, About;
    var requests := MessageRequests(m, sys.sync.followed[at].initialized);
    MessageNames(m, sys.sync.followed[at].initialized);
    AboutAll(requests, at, domain);
    AboutBoth(sys.wire + sys.sync.waiting, requests, domain);
    assert sys.wire + (sys.sync.waiting + requests) == sys.wire + sys.sync.waiting + requests;
    assert About(sys.wire + sys.sync.waiting, domain) + [] == About(sys.wire + sys.sync.waiting, domain);
  }

  /** What hearing a message does to the link of one domain. */
  lemma HeardView(sys: System, at: string, m: Details, domain: string)
    requires domain in sys.sources && domain in sys.cursors && Connected(sys, at) && m.domain == at
    ensures var sys' := Hear(sys, at, m);
            && sys' == sys.(sync := sys'.sync)
            && View(sys', domain) ==
               if at == domain && Attached(sys, at) then
                 View(sys, domain).(initialized := true,
                                    queue := View(sys, domain).queue + MessageRequests(m, Reading(sys, domain)))
               else View(sys, domain)
  {
    hide MessageRequests, About;
    HeardQueue(sys, at, m, domain);
  }

  lemma ArrivalSimulated(sys: System, domain: string, at: string)
    requires Shaped(sys) && domain in sys.sources
    requires HasNext(sys, at) ==> sys.sources[at].details[sys.cursors[at]].domain == at
    ensures Simulated(sys, PictureArrives(at), domain)
  {
    hide Travel, About, MessageRequests, Hear;
    NoMove(View(sys, domain));
    OneMove(View(sys, domain), Act(Deliver));
    OneMove(View(sys, domain), Act(Miss));
    if HasNext(sys, at) && Connected(sys, at) {
      var m := sys.sources[at].details[sys.cursors[at]];
      HeardView(sys, at, m, domain);
      MovedCursor(Hear(sys, at, m), at, domain);
      hide View;
    }
  }

  lemma MovedCursor(sys: System, at: string, domain: string)
    requires domain in sys.sources && domain in sys.cursors && at in sys.cursors
    ensures View(sys.(cursors := sys.cursors[at := sys.cursors[at] + 1]), domain) ==
            if at == domain then View(sys, domain).(cursor := sys.cursors[at] + 1) else View(sys, domain)
  {
    hide About;
  }

  lemma RepetitionSimulated(sys: System, domain: string, at: string)
    requires Shaped(sys) && domain in sys.sources
    requires HasLast(sys, at) ==> sys.sources[at].details[sys.cursors[at] - 1].domain == at
    ensures Simulated(sys, PictureRepeats(at), domain)
  {
    hide Travel, About, MessageRequests, Hear;
    NoMove(View(sys, domain));
    OneMove(View(sys, domain), Act(Redeliver));
    if HasLast(sys, at) && Connected(sys, at) {
      HeardView(sys, at, sys.sources[at].details[sys.cursors[at] - 1], domain);
    }
  }

  lemma TurnSimulated(owners: Owners, sys: System, turn: Turn, id: string, domain: string)
    requires Steady(owners, sys, id) && domain in sys.sources && ProperTurn(owners, sys, turn)
    ensures Shaped(sys) && Simulated(sys, turn, domain)
  {
    hide Steady, Simulated;
    SourceIsGrounded(owners, sys, id, domain);
    hide Rooted, Withdrawn, View, Shaped, ProperTurn;
    match turn
    case AtSource(at, request) => SourceSimulated(sys, at, request, domain);
    case AtReplica(request) => ReplicaSimulated(sys, request, domain);
    case PictureMissed(at) => MissSimulated(sys, at, domain);
    case AtRequest => RequestSimulated(sys, domain);
    case SendNext => SendSimulated(sys, domain);
    case PictureArrives(at) =>
      if HasNext(sys, at) { DetailsAreOwn(owners, sys, id, at, sys.cursors[at]); }
      ArrivalSimulated(sys, domain, at);
    case PictureRepeats(at) =>
      if HasLast(sys, at) { DetailsAreOwn(owners, sys, id, at, sys.cursors[at] - 1); }
      RepetitionSimulated(sys, domain, at);
    case SourceRestarts(at, registrationTime) => RestartSimulated(owners, sys, domain, at, registrationTime);
    case AnswerArrives => QuietSimulated(sys, turn, domain);
    case AddCommand(_) => QuietSimulated(sys, turn, domain);
    case UpdateCommand(at) => UpdateSimulated(sys, at, domain);
    case RemoveCommand(at) => RemoveSimulated(sys, at, domain);
    case LocationArrives(_, _) => QuietSimulated(sys, turn, domain);
  }

  /** The move a turn amounts to is proper for the link of each domain. */
  lemma MoveIsProper(owners: Owners, sys: System, turn: Turn, id: string, domain: string)
    requires Steady(owners, sys, id) && domain in sys.sources && ProperTurn(owners, sys, turn)
    ensures AllProperMoves(owners, domain, sys.replica.domain, MoveOf(sys, turn, domain))
  {
    hide Steady, Obeys, Safe, SafeQueue, HasNext, HasLast, Connected, Attached, Reading, Named, Names, Rooted,
      Withdrawn, View, Shaped, RemovalRequests, OwnRows, Distinguished;
    SourceIsGrounded(owners, sys, id, domain);
    if turn.AtRequest? && sys.wire != [] {
      WireIsSafe(owners, sys, id);
      var first := sys.wire[0];
      if !Names(first, domain) { OtherIsProper(owners, sys, first, domain); }
    } else if turn.AtReplica? {
      ForeignIsProper(owners, sys, turn.request, domain);
    } else if turn == RemoveCommand(domain) && domain in sys.sync.followed {
      RowsAreKept(owners, sys, id, domain);
      var f := sys.sync.followed[domain];
      RemovalIsSafe(owners, sys.replica.domain, domain, f.services + f.products, f.kind, f.registrationTime);
    }
  }

  lemma RowsAreKept(owners: Owners, sys: System, id: string, domain: string)
    requires Steady(owners, sys, id) && domain in sys.sync.followed
    ensures var rows := sys.sync.followed[domain].services + sys.sync.followed[domain].products;
            OwnRows(owners, domain, rows) && (domain !in sys.sources ==> rows == [])
  {
    hide Rooted, Withdrawn, View, Attributed, Shaped, OwnRows;
  }

  /** What the replica serves about other domains does not touch this one. */
  lemma OtherIsProper(owners: Owners, sys: System, request: Request, domain: string)
    requires Named(request) && Safe(owners, sys.replica.domain, request) && !Names(request, domain)
    ensures ProperMove(owners, domain, sys.replica.domain, Act(Action.ReplicaServes(request)))
  {
    hide Safe;
  }

  lemma ForeignIsProper(owners: Owners, sys: System, request: Request, domain: string)
    requires domain in sys.sources && ProperTurn(owners, sys, AtReplica(request))
    ensures ProperMove(owners, domain, sys.replica.domain, Act(Action.ReplicaServes(request)))
  {
    hide Obeys;
  }

  // ----- what turns keep

  /** What a turn changes beside the queues keeps the shape. */
  lemma ReshapedSync(sys: System, sys': System)
    requires Shaped(sys) && sys'.sources == sys.sources && sys'.since == sys.since
             && sys'.replica.domain == sys.replica.domain
    requires sys'.cursors.Keys == sys.cursors.Keys
    requires forall domain | domain in sys.sources && domain in sys'.sync.followed ::
               (domain in sys.sync.followed
                && sys'.sync.followed[domain].registrationTime == sys.sync.followed[domain].registrationTime)
               || sys'.sync.followed[domain].registrationTime <= sys.since[domain]
    ensures Shaped(sys')
  {}

  lemma HeardShaped(sys: System, at: string, m: Details, cursors: map<string, nat>)
    requires Shaped(sys) && Connected(sys, at) && cursors.Keys == sys.cursors.Keys
    ensures Shaped(Hear(sys, at, m).(cursors := cursors))
    ensures Hear(sys, at, m) == sys.(sync := Hear(sys, at, m).sync)
  {
    hide Shaped, MessageRequests;
    ReshapedSync(sys, Hear(sys, at, m).(cursors := cursors));
  }

  lemma SourceKeepsShaped(sys: System, turn: Turn)
    requires Shaped(sys) && (turn.AtSource? || turn.AtReplica? || turn.AtRequest?)
    ensures Shaped(Turned(sys, turn))
    ensures Turned(sys, turn).sources.Keys == sys.sources.Keys && Turned(sys, turn).replica.domain == sys.replica.domain
  {
    hide Step, Hear, HasNext, HasLast, Connected, Reading, Added, Reset, Located, SentNext;
  }

  lemma RestartKeepsShaped(owners: Owners, sys: System, domain: string, registrationTime: nat)
    requires Shaped(sys) && ProperTurn(owners, sys, SourceRestarts(domain, registrationTime))
    ensures var sys' := Turned(sys, SourceRestarts(domain, registrationTime));
            Shaped(sys') && sys'.sources.Keys == sys.sources.Keys && sys'.replica.domain == sys.replica.domain
  {
    hide Step, Hear, HasNext, HasLast, Connected, Reading, Added, Reset, Located, SentNext, Obeys;
  }

  lemma TurnKeepsShaped(owners: Owners, sys: System, turn: Turn)
    requires Shaped(sys) && ProperTurn(owners, sys, turn)
    ensures Shaped(Turned(sys, turn))
    ensures Turned(sys, turn).sources.Keys == sys.sources.Keys && Turned(sys, turn).replica.domain == sys.replica.domain
  {
    hide Shaped, Step, Hear, Obeys, Attached, Reading, Added, Reset, Located, Forgotten, Distinguished;
    match turn
    case AtSource(_, _) => SourceKeepsShaped(sys, turn);
    case AtReplica(_) => SourceKeepsShaped(sys, turn);
    case AtRequest => SourceKeepsShaped(sys, turn);
    case SourceRestarts(domain, registrationTime) => RestartKeepsShaped(owners, sys, domain, registrationTime);
    case PictureArrives(at) =>
      if HasNext(sys, at) && Connected(sys, at) {
        HeardShaped(sys, at, sys.sources[at].details[sys.cursors[at]], sys.cursors[at := sys.cursors[at] + 1]);
      }
    case PictureRepeats(at) =>
      if HasLast(sys, at) && Connected(sys, at) {
        HeardShaped(sys, at, sys.sources[at].details[sys.cursors[at] - 1], sys.cursors);
      }
    case LocationArrives(domain, _) => CommandKeepsShaped(owners, sys, turn);
    case AddCommand(_) => CommandKeepsShaped(owners, sys, turn);
    case UpdateCommand(_) => CommandKeepsShaped(owners, sys, turn);
    case RemoveCommand(_) => CommandKeepsShaped(owners, sys, turn);
    case PictureMissed(_) => ReshapedSync(sys, Turned(sys, turn));
    case AnswerArrives => ReshapedSync(sys, Turned(sys, turn));
    case SendNext => ReshapedSync(sys, Turned(sys, turn));
  }

  lemma SinceOfSources(sys: System)
    requires Shaped(sys)
    ensures forall domain | domain in sys.sources :: domain in sys.since && domain in sys.cursors
  {
    assert forall domain | domain in sys.sources.Keys :: domain in sys.since.Keys && domain in sys.cursors.Keys;
  }

  lemma CommandKeepsShaped(owners: Owners, sys: System, turn: Turn)
    requires Shaped(sys) && ProperTurn(owners, sys, turn)
    requires turn.LocationArrives? || turn.AddCommand? || turn.UpdateCommand? || turn.RemoveCommand?
    ensures Shaped(Turned(sys, turn))
    ensures Turned(sys, turn).sources == sys.sources && Turned(sys, turn).replica == sys.replica
  {
    hide Shaped, Step, Hear, HasNext, HasLast, Connected, Reading, SentNext, Obeys, RemovalRequests, Distinguished;
    SinceOfSources(sys);
    ReshapedSync(sys, Turned(sys, turn));
  }

  lemma AttributedBoth(sys: System, a: seq<Request>, b: seq<Request>)
    requires Attributed(sys, a) && Attributed(sys, b)
    ensures Attributed(sys, a + b)
  {
    hide Subject;
  }

  lemma AttributedPart(sys: System, queue: seq<Request>, lo: nat, hi: nat)
    requires Attributed(sys, queue) && lo <= hi <= |queue|
    ensures Attributed(sys, queue[lo..hi])
  {
    hide Subject;
  }

  lemma AttributedStays(sys: System, sys': System, queue: seq<Request>)
    requires Attributed(sys, queue) && sys'.sources.Keys == sys.sources.Keys
    ensures Attributed(sys', queue)
  {
    hide Subject;
    assert forall domain :: domain in sys.sources <==> domain in sys'.sources.Keys;
  }

  lemma HeardAttributed(sys: System, at: string, m: Details)
    requires at in sys.sources && Connected(sys, at) && m.domain == at && Attributed(sys, sys.sync.waiting)
    ensures Attributed(sys, Hear(sys, at, m).sync.waiting) && Hear(sys, at, m).wire == sys.wire
  {
    hide Attributed, MessageRequests;
    var requests := MessageRequests(m, sys.sync.followed[at].initialized);
    MessageNames(m, sys.sync.followed[at].initialized);
    MessagesAttributed(sys, at, requests);
    AttributedBoth(sys, sys.sync.waiting, requests);
  }

  lemma MessagesAttributed(sys: System, at: string, requests: seq<Request>)
    requires at in sys.sources && forall i | 0 <= i < |requests| :: Names(requests[i], at)
    ensures Attributed(sys, requests)
  {
    hide Subject;
    assert forall i | 0 <= i < |requests| :: Names(requests[i], at);
  }

  lemma QueuesAttributed(owners: Owners, sys: System, id: string)
    requires Steady(owners, sys, id)
    ensures Attributed(sys, sys.wire) && Attributed(sys, sys.sync.waiting) && Shaped(sys)
  {
    hide Rooted, Withdrawn, View, Attributed;
  }

  lemma TurnKeepsAttributed(owners: Owners, sys: System, turn: Turn, id: string)
    requires Steady(owners, sys, id)
    ensures var sys' := Turned(sys, turn);
            Attributed(sys, sys'.wire) && Attributed(sys, sys'.sync.waiting)
  {
    hide Steady, Step, Attributed, Hear, Rooted, Withdrawn, View, Shaped, Attached, Reading;
    QueuesAttributed(owners, sys, id);
    match turn
    case AtRequest =>
      if sys.wire != [] {
        AttributedPart(sys, sys.wire, 1, |sys.wire|);
        assert sys.wire[1..|sys.wire|] == sys.wire[1..];
      }
    case SendNext =>
      var waiting := sys.sync.waiting;
      if waiting != [] {
        AttributedPart(sys, waiting, 1, |waiting|);
        AttributedPart(sys, waiting, 0, 1);
        assert waiting[0..1] == [waiting[0]] && waiting[1..|waiting|] == waiting[1..];
        AttributedBoth(sys, sys.wire, waiting[0..1]);
      }
    case PictureArrives(at) =>
      if HasNext(sys, at) && Connected(sys, at) {
        DetailsAreOwn(owners, sys, id, at, sys.cursors[at]);
        HeardAttributed(sys, at, sys.sources[at].details[sys.cursors[at]]);
      }
    case PictureRepeats(at) =>
      if HasLast(sys, at) && Connected(sys, at) {
        DetailsAreOwn(owners, sys, id, at, sys.cursors[at] - 1);
        HeardAttributed(sys, at, sys.sources[at].details[sys.cursors[at] - 1]);
      }
    case AtSource(_, _) =>
    case AtReplica(_) =>
    case AnswerArrives =>
    case AddCommand(_) =>
    case UpdateCommand(_) =>
    case RemoveCommand(at) => if at in sys.sync.followed { RemovalAttributed(owners, sys, id, at); }
    case LocationArrives(_, _) =>
    case PictureMissed(_) =>
    case SourceRestarts(_, _) =>
  }

  lemma RemovalAttributed(owners: Owners, sys: System, id: string, at: string)
    requires Steady(owners, sys, id) && at in sys.sync.followed
    ensures Attributed(sys, Forgotten(sys.sync, at).waiting)
  {
    hide Steady, Attributed, Rooted, Withdrawn, View, Shaped, RemovalRequests, OwnRows, Names;
    QueuesAttributed(owners, sys, id);
    RowsAreKept(owners, sys, id, at);
    var f := sys.sync.followed[at];
    var requests := RemovalRequests(at, f.services + f.products, f.kind, f.registrationTime);
    RowsOf(at, f.services + f.products, f.kind, f.registrationTime, 0);
    if at in sys.sources {
      RemovalNames(at, f.services + f.products, f.kind, f.registrationTime);
      MessagesAttributed(sys, at, requests);
      AttributedBoth(sys, sys.sync.waiting, requests);
    } else {
      assert requests == [] && sys.sync.waiting + [] == sys.sync.waiting;
    }
  }

  lemma GoodRows(owners: Owners, m: Details, key: Key)
    requires GoodMessage(owners, m, key)
    ensures OwnRows(owners, m.domain, m.services + m.products)
  {
    hide Timely, HeldIn, Obeys, ChangeRequest;
    forall i | 0 <= i < |m.services + m.products|
      ensures owners((m.services + m.products)[i].url).key == Key(m.domain, (m.services + m.products)[i].id)
    {
      if i < |m.services| {
        assert (m.services + m.products)[i] == m.services[i];
      } else {
        assert (m.services + m.products)[i] == m.products[i - |m.services|];
      }
    }
  }

  lemma HearKeepsRows(owners: Owners, sys: System, id: string, at: string, i: nat)
    requires Steady(owners, sys, id) && Connected(sys, at) && i < |sys.sources[at].details|
    ensures KeepsRows(owners, Hear(sys, at, sys.sources[at].details[i]))
  {
    hide Steady, Rooted, Withdrawn, View, Shaped, OwnRows, MessageRequests;
    DetailsAreOwn(owners, sys, id, at, i);
    SourceIsGrounded(owners, sys, id, at);
    MessageIsGood(owners, sys, id, at, i);
    GoodRows(owners, sys.sources[at].details[i], Key(at, id));
    forall domain | domain in sys.sync.followed
      ensures var rows := sys.sync.followed[domain].services + sys.sync.followed[domain].products;
              OwnRows(owners, domain, rows) && (domain !in sys.sources ==> rows == [])
    {
      RowsAreKept(owners, sys, id, domain);
    }
  }

  lemma MessageIsGood(owners: Owners, sys: System, id: string, at: string, i: nat)
    requires Steady(owners, sys, id) && at in sys.sources && i < |sys.sources[at].details|
    ensures GoodMessage(owners, sys.sources[at].details[i], Key(at, id))
  {
    hide Steady, Rooted, Withdrawn, GoodMessage, About, Reading;
    SourceIsGrounded(owners, sys, id, at);
    MessageOf(owners, View(sys, at), Key(at, id), i);
  }

  lemma OthersKeepRows(owners: Owners, sys: System, turn: Turn)
    requires KeepsRows(owners, sys) && !turn.PictureArrives? && !turn.PictureRepeats?
    requires Turned(sys, turn).sources.Keys == sys.sources.Keys
    ensures KeepsRows(owners, Turned(sys, turn))
  {
    hide OwnRows, Step, Hear, HasNext, HasLast, Connected, Reading, RemovalRequests;
    NoRows(owners);
    forall domain | domain in Turned(sys, turn).sync.followed
      ensures var f := Turned(sys, turn).sync.followed[domain];
              OwnRows(owners, domain, f.services + f.products)
              && (domain !in Turned(sys, turn).sources ==> f.services + f.products == [])
    {
      assert domain in Turned(sys, turn).sources <==> domain in sys.sources.Keys;
    }
  }

  lemma NoRows(owners: Owners)
    ensures forall domain :: OwnRows(owners, domain, [] + [])
  {}

  lemma TurnKeepsRows(owners: Owners, sys: System, turn: Turn, id: string)
    requires Steady(owners, sys, id) && Turned(sys, turn).sources.Keys == sys.sources.Keys
    ensures KeepsRows(owners, Turned(sys, turn))
  {
    hide Steady, KeepsRows, Step, Hear, Attached, Reading;
    KeptRows(owners, sys, id);
    match turn
    case PictureArrives(at) =>
      if HasNext(sys, at) && Connected(sys, at) {
        var heard := Hear(sys, at, sys.sources[at].details[sys.cursors[at]]);
        HearKeepsRows(owners, sys, id, at, sys.cursors[at]);
        SameRows(owners, heard, sys.cursors[at := sys.cursors[at] + 1]);
      }
    case PictureRepeats(at) =>
      if HasLast(sys, at) && Connected(sys, at) { HearKeepsRows(owners, sys, id, at, sys.cursors[at] - 1); }
    case _ => OthersKeepRows(owners, sys, turn);
  }

  lemma KeptRows(owners: Owners, sys: System, id: string)
    requires Steady(owners, sys, id)
    ensures KeepsRows(owners, sys)
  {
    hide Rooted, Withdrawn, View, Attributed, Shaped, KeepsRows;
  }

  lemma SameRows(owners: Owners, sys: System, cursors: map<string, nat>)
    requires KeepsRows(owners, sys)
    ensures KeepsRows(owners, sys.(cursors := cursors))
  {
    hide OwnRows;
  }

  // ----- every run

  /** One domain of the system, after the given moves of its link since the start. */
  ghost predicate Accounted(owners: Owners, now: System, moves: seq<Move>, domain: string, id: string) {
    var start := Start(domain, now.replica.domain);
    && domain in now.sources && domain in now.cursors
    && AllProperMoves(owners, domain, now.replica.domain, moves)
    && View(now, domain) == Travel(start, moves)
    && Tended(owners, View(now, domain), Remnant(map[], start, moves, Key(domain, id)), Key(domain, id))
  }

  lemma TendedIsGrounded(owners: Owners, now: System, left: map<string, nat>, domain: string, id: string)
    requires domain in now.sources && domain in now.cursors
    requires Tended(owners, View(now, domain), left, Key(domain, id))
    ensures GroundedAt(owners, now, domain, id) && now.sources[domain].domain == domain
  {
    hide Timed, Overlaid, Withdrawn, GoodStream, SafeQueue, Reading, About;
  }

  /** A turn keeps what a domain's link has to show for its moves. */
  lemma DomainTurn(owners: Owners, now: System, turn: Turn, left: map<string, nat>, domain: string, id: string)
    requires Steady(owners, now, id) && ProperTurn(owners, now, turn) && id != REGISTERED_PUBLISHERS
    requires domain in now.sources && domain in now.cursors
    requires Tended(owners, View(now, domain), left, Key(domain, id))
    ensures Shaped(now) && Simulated(now, turn, domain)
    ensures Tended(owners, Travel(View(now, domain), MoveOf(now, turn, domain)),
                   Remnant(left, View(now, domain), MoveOf(now, turn, domain), Key(domain, id)), Key(domain, id))
  {
    hide Steady, ProperTurn, Tended, MoveOf, Travel, Remnant, Simulated, AllProperMoves,
        GroundedAt, Shaped, Reading, About;
    TurnSimulated(owners, now, turn, id, domain);
    MoveIsProper(owners, now, turn, id, domain);
    TendedIsGrounded(owners, now, left, domain, id);
    TravelKeepsTended(owners, View(now, domain), left, MoveOf(now, turn, domain), Key(domain, id));
  }

  lemma MoreMoves(owners: Owners, source: string, replica: string, a: seq<Move>, b: seq<Move>)
    requires AllProperMoves(owners, source, replica, a) && AllProperMoves(owners, source, replica, b)
    ensures AllProperMoves(owners, source, replica, a + b)
  {
    hide ProperMove;
  }

  lemma TurnKeepsAccounted(owners: Owners, now: System, turn: Turn, moves: seq<Move>, domain: string, id: string)
    requires Accounted(owners, now, moves, domain, id) && Steady(owners, now, id) && ProperTurn(owners, now, turn)
    requires id != REGISTERED_PUBLISHERS && Turned(now, turn).replica.domain == now.replica.domain
    ensures Accounted(owners, Turned(now, turn), moves + MoveOf(now, turn, domain), domain, id)
  {
    hide Tended, Steady, Turned, View, MoveOf, Travel, Remnant, Shaped, ProperTurn, AllProperMoves;
    var start, key := Start(domain, now.replica.domain), Key(domain, id);
    var more := MoveOf(now, turn, domain);
    DomainTurn(owners, now, turn, Remnant(map[], start, moves, key), domain, id);
    MoveIsProper(owners, now, turn, id, domain);
    MoreMoves(owners, domain, now.replica.domain, moves, more);
    TravelBoth(start, moves, more);
    RemnantBoth(map[], start, moves, more, key);
  }

  /** All domains of a system that began with these directories. */
  ghost predicate AllAccounted(owners: Owners, sys: System, turns: seq<Turn>, id: string) {
    var now := After(sys, turns);
    && now.sources.Keys == sys.sources.Keys && now.replica.domain == sys.replica.domain
    && Shaped(now) && KeepsRows(owners, now) && Attributed(now, now.wire) && Attributed(now, now.sync.waiting)
    && forall domain | domain in now.sources :: Accounted(owners, now, MovesOf(sys, turns, domain), domain, id)
  }

  lemma AccountedIsSteady(owners: Owners, sys: System, turns: seq<Turn>, id: string)
    requires AllAccounted(owners, sys, turns, id)
    ensures Steady(owners, After(sys, turns), id)
  {
    hide After, MovesOf, Tended, View, Travel, Remnant, Shaped, Attributed, AllProperMoves, GroundedAt;
    var now := After(sys, turns);
    forall domain | domain in now.sources ensures GroundedAt(owners, now, domain, id) {
      var moves := MovesOf(sys, turns, domain);
      assert Accounted(owners, now, moves, domain, id);
      TendedIsGrounded(owners, now, Remnant(map[], Start(domain, now.replica.domain), moves, Key(domain, id)),
                       domain, id);
    }
  }

  lemma BeginAccounted(owners: Owners, replica: string, since: map<string, nat>, id: string)
    requires replica !in since
    ensures AllAccounted(owners, Begin(replica, since), [], id)
  {
    hide Tended;
    var sys := Begin(replica, since);
    forall domain | domain in sys.sources ensures Accounted(owners, sys, [], domain, id) {
      StartsTended(owners, domain, replica, Key(domain, id));
      assert View(sys, domain) == Start(domain, replica);
    }
  }

  lemma {:induction false} RunsAreAccounted(owners: Owners, sys: System, turns: seq<Turn>, id: string)
    requires AllAccounted(owners, sys, [], id) && AllProperTurns(owners, sys, turns) && id != REGISTERED_PUBLISHERS
    ensures AllAccounted(owners, sys, turns, id)
  {
    if turns != [] {
      var last := |turns| - 1;
      ProperPrefix(owners, sys, turns);
      RunsAreAccounted(owners, sys, turns[..last], id);
      OneMoreTurn(owners, sys, turns, id);
    }
    hide AllAccounted, AllProperTurns, After;
  }

  lemma ProperPrefix(owners: Owners, sys: System, turns: seq<Turn>)
    requires AllProperTurns(owners, sys, turns) && turns != []
    ensures var last := |turns| - 1;
            AllProperTurns(owners, sys, turns[..last]) && ProperTurn(owners, After(sys, turns[..last]), turns[last])
  {
    hide ProperTurn, After;
    var last := |turns| - 1;
    forall i | 0 <= i < last ensures ProperTurn(owners, After(sys, turns[..last][..i]), turns[..last][i]) {
      assert turns[..last][..i] == turns[..i];
    }
  }

  lemma OneMoreTurn(owners: Owners, sys: System, turns: seq<Turn>, id: string)
    requires turns != [] && id != REGISTERED_PUBLISHERS
    requires var last := |turns| - 1;
             AllAccounted(owners, sys, turns[..last], id) && ProperTurn(owners, After(sys, turns[..last]), turns[last])
    ensures AllAccounted(owners, sys, turns, id)
  {
    hide Accounted, Steady, Turned, MoveOf, Shaped, Attributed, ProperTurn;
    var last := |turns| - 1;
    var before, turn := After(sys, turns[..last]), turns[last];
    var now := Turned(before, turn);
    AccountedIsSteady(owners, sys, turns[..last], id);
    TurnKeepsShaped(owners, before, turn);
    TurnKeepsAttributed(owners, before, turn, id);
    TurnKeepsRows(owners, before, turn, id);
    AttributedStays(before, now, now.wire);
    AttributedStays(before, now, now.sync.waiting);
    forall domain | domain in now.sources ensures Accounted(owners, now, MovesOf(sys, turns, domain), domain, id) {
      assert domain in before.sources.Keys;
      TurnKeepsAccounted(owners, before, turn, MovesOf(sys, turns[..last], domain), domain, id);
    }
  }

  /** With any number of directories followed at once, each restarting, being followed anew, or being removed and added
      again at any time: when the pictures of one domain have arrived and the requests about it are served, the own
      directory lists for each of its products what that directory lists and the remnant beside it. */
  lemma FollowersCatchUp(
    owners: Owners, replica: string, since: map<string, nat>, turns: seq<Turn>, domain: string, id: string)
    requires replica !in since && domain in since && id != REGISTERED_PUBLISHERS
    requires AllProperTurns(owners, Begin(replica, since), turns)
    requires var now := After(Begin(replica, since), turns);
             domain in now.sources && domain in now.cursors && CaughtUp(View(now, domain))
    ensures var now := After(Begin(replica, since), turns);
            var key := Key(domain, id);
            var left := Remnant(map[], Start(domain, replica), MovesOf(Begin(replica, since), turns, domain), key);
            Entries(now.replica, key) == Entries(now.sources[domain], key) + left
            && (Entries(now.replica, key) == Entries(now.sources[domain], key) <==> left == map[])
  {
    hide Tended, After, MovesOf, Remnant, Travel, Entries, AllProperTurns, Shaped,
        Attributed, AllProperMoves, CaughtUp, Begin,
      Reading, About;
    BeginAccounted(owners, replica, since, id);
    RunsAreAccounted(owners, Begin(replica, since), turns, id);
    BeginDomain(replica, since);
    var now := After(Begin(replica, since), turns);
    var moves := MovesOf(Begin(replica, since), turns, domain);
    assert Accounted(owners, now, moves, domain, id);
    RemnantStays(owners, domain, replica, moves, id);
  }

  /** A domain that is removed, or of which no picture has come since it was lost: when the requests about it are
      served, the own directory lists its remnant and nothing else. */
  lemma RemovedDomainsLeaveTheirRemnant(
    owners: Owners, replica: string, since: map<string, nat>, turns: seq<Turn>, domain: string, id: string)
    requires replica !in since && domain in since && id != REGISTERED_PUBLISHERS
    requires AllProperTurns(owners, Begin(replica, since), turns)
    requires var now := After(Begin(replica, since), turns);
             domain in now.sources && domain in now.cursors && !Reading(now, domain) && View(now, domain).queue == []
    ensures Entries(After(Begin(replica, since), turns).replica, Key(domain, id)) ==
            Remnant(map[], Start(domain, replica), MovesOf(Begin(replica, since), turns, domain), Key(domain, id))
  {
    hide Tended, After, MovesOf, Remnant, Travel, Entries, AllProperTurns, Shaped, Attributed, AllProperMoves, Begin,
      Reading, About;
    BeginAccounted(owners, replica, since, id);
    RunsAreAccounted(owners, Begin(replica, since), turns, id);
    BeginDomain(replica, since);
    var moves := MovesOf(Begin(replica, since), turns, domain);
    assert Accounted(owners, After(Begin(replica, since), turns), moves, domain, id);
    OnlyTheRemnantStays(owners, domain, replica, moves, id);
  }

  lemma BeginDomain(replica: string, since: map<string, nat>)
    ensures Begin(replica, since).replica.domain == replica && Begin(replica, since).sources.Keys == since.Keys
  {}

  /** A directory that never restarts and is never followed anew leaves nothing behind. */
  predicate Untroubled(turns: seq<Turn>, domain: string) {
    forall i | 0 <= i < |turns| ::
      !((turns[i].SourceRestarts? || turns[i].UpdateCommand? || turns[i].RemoveCommand?) && turns[i].domain == domain)
  }

  lemma {:induction false} UntroubledMoves(sys: System, turns: seq<Turn>, domain: string)
    requires Untroubled(turns, domain)
    ensures forall i | 0 <= i < |MovesOf(sys, turns, domain)| :: MovesOf(sys, turns, domain)[i].Act?
  {
    if turns != [] {
      UntroubledMoves(sys, turns[..|turns| - 1], domain);
      hide After, Reading, Attached, Connected, HasNext, HasLast, Names;
    }
  }

  /** Whatever happens to the others, such a domain is listed by the own directory exactly as it lists itself. */
  lemma UntroubledDomainsAgree(
    owners: Owners, replica: string, since: map<string, nat>, turns: seq<Turn>, domain: string, id: string)
    requires replica !in since && domain in since && id != REGISTERED_PUBLISHERS
    requires AllProperTurns(owners, Begin(replica, since), turns) && Untroubled(turns, domain)
    requires var now := After(Begin(replica, since), turns);
             domain in now.sources && domain in now.cursors && CaughtUp(View(now, domain))
    ensures var now := After(Begin(replica, since), turns);
            Entries(now.replica, Key(domain, id)) == Entries(now.sources[domain], Key(domain, id))
  {
    hide After, MovesOf, Remnant, Entries, AllProperTurns, CaughtUp, View, Untroubled, Begin;
    FollowersCatchUp(owners, replica, since, turns, domain, id);
    UntroubledMoves(Begin(replica, since), turns, domain);
    NothingRemains(Start(domain, replica), MovesOf(Begin(replica, since), turns, domain), Key(domain, id));
  }
}
