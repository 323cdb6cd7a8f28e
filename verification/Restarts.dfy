/** What a remote directory holds when the directory it follows restarts, or is followed anew: beside the new pictures
    there remains what earlier ones showed and nothing has renewed or withdrawn since. */
module Restarts {
  import opened Directory
  import opened DirectoryTimes
  import opened DirectoryHoldings
  import opened DirectoryBroadcast
  import opened Replication
  import opened RemoteTables
  import opened Leaving

  // ----- a link whose source restarts

  datatype Move =
    | Act(action: Action)
    | Restart   // the source starts again with empty tables and an empty stream
    | Refollow  // the synchronizer starts over: the next picture counts as the first
    | Leave(rows: seq<Row>, kind: Kind, regTime: nat)  // it withdraws these rows and does not follow the source

  function Moved(link: Link, move: Move): Link {
    match move
    case Act(action) => Next(link, action)
    case Restart => link.(source := Fresh(link.source.domain), initialized := false, cursor := 0)
    case Refollow => link.(initialized := false)
    case Leave(rows, kind, regTime) =>
      link.(initialized := false, queue := link.queue + RemovalRequests(link.source.domain, rows, kind, regTime))
  }

  function Travel(link: Link, moves: seq<Move>): Link {
    if moves == [] then link else Moved(Travel(link, moves[..|moves| - 1]), moves[|moves| - 1])
  }

  /** The publishers of key in the last picture delivered since the source was followed. */
  function Shown(link: Link, key: Key): map<string, nat> {
    if link.initialized && 0 < link.cursor <= |link.source.details|
    then Table(HeldIn(link.source.details[link.cursor - 1].products, key.id)) else map[]
  }

  /** How one move changes the remnant: losing the source adds what it showed, leaving it takes out what is withdrawn, a
      first picture takes over what it renews, and a change takes over or withdraws its own URL. */
  function LeftAfter(left: map<string, nat>, link: Link, move: Move, key: Key): map<string, nat> {
    match move
    case Restart => Shown(link, key) + left
    case Refollow => Shown(link, key) + left
    case Leave(rows, kind, regTime) => Remaining(Shown(link, key) + left, rows, kind, regTime, key.id)
    case Act(action) =>
      if action.Deliver? && link.cursor < |link.source.details| then
        var m := link.source.details[link.cursor];
        if link.initialized then Answered(left, ChangeRequest(m.domain, m.change), key)
        else Outdated(left, Table(HeldIn(m.products, key.id)))
      else if action.Redeliver? && 0 < link.cursor <= |link.source.details| then
        var m := link.source.details[link.cursor - 1];
        if link.initialized then Answered(left, ChangeRequest(m.domain, m.change), key)
        else Outdated(left, Table(HeldIn(m.products, key.id)))
      else left
  }

  /** The remnant of a run: it depends on the pictures the source shows and on which of them arrive, not on the
      replica. */
  function Remnant(left: map<string, nat>, link: Link, moves: seq<Move>, key: Key): map<string, nat> {
    if moves == [] then left
    else
      var last := |moves| - 1;
      LeftAfter(Remnant(left, link, moves[..last], key), Travel(link, moves[..last]), moves[last], key)
  }

  /** The request does not speak of data products of the domain. */
  predicate Elsewhere(request: Request, source: string, replica: string) {
    match request
    case Register(r) => r.kind.Data? ==> r.domain.Or(replica) != source
    case Unregister(u) => u.kind.Data? ==> u.domain.Or(replica) != source
    case Lookup(_, _, _) => true
  }

  /** What the replica serves may miss, and the rows that are withdrawn are the source's. */
  ghost predicate ProperMove(owners: Owners, source: string, replica: string, move: Move) {
    match move
    case Act(action) =>
      if action.ReplicaServes? then
        Safe(owners, replica, action.request) && Elsewhere(action.request, source, replica)
      else Proper(owners, source, replica, action)
    case Restart => true
    case Refollow => true
    case Leave(rows, kind, regTime) => SafeQueue(owners, replica, RemovalRequests(source, rows, kind, regTime))
  }

  ghost predicate Rooted(owners: Owners, link: Link, key: Key) {
    && Timed(owners, link.source) && Timed(owners, link.replica)
    && link.source.domain == key.domain != link.replica.domain
    && GoodStream(owners, link.source, key)
    && SafeQueue(owners, link.replica.domain, link.queue)
    && link.cursor <= |link.source.details|
  }

  /** Serving the queue leads to the last picture delivered, under the remnant. */
  ghost predicate Overlaid(link: Link, left: map<string, nat>, key: Key) {
    && (link.initialized ==> 0 < link.cursor)
    && ServedAll(Table(Holdings(link.replica, key)), link.queue, key) == Shown(link, key) + left
    && Beyond(left, Shown(link, key))
  }

  ghost predicate Tended(owners: Owners, link: Link, left: map<string, nat>, key: Key) {
    Rooted(owners, link, key) && Withdrawn(link.source.details, key) && Overlaid(link, left, key)
  }

  lemma Ground(owners: Owners, link: Link, key: Key)
    requires Rooted(owners, link, key)
    ensures Timed(owners, link.source) && Timed(owners, link.replica)
    ensures link.source.domain == key.domain != link.replica.domain
    ensures GoodStream(owners, link.source, key) && SafeQueue(owners, link.replica.domain, link.queue)
    ensures link.cursor <= |link.source.details|
  {
    hide Timed, GoodStream, SafeQueue;
  }

  lemma {:induction false} ServedFirst(table: map<string, nat>, queue: seq<Request>, key: Key)
    requires queue != []
    ensures ServedAll(Served(table, queue[0], key), queue[1..], key) == ServedAll(table, queue, key)
  {
    assert queue == [queue[0]] + queue[1..];
    ServedBoth(table, [queue[0]], queue[1..], key);
    ServedOne(table, queue[0], key);
    hide Served, ServedAll;
  }

  lemma ApplyKeepsTended(owners: Owners, link: Link, left: map<string, nat>, key: Key)
    requires Tended(owners, link, left, key) && link.queue != []
    ensures Tended(owners, Next(link, Apply), left, key)
  {
    hide Timed, Step, Holdings, GoodStream, SafeQueue, Table, Served, ServedAll, Named, Safe, Withdrawn, Beyond, Shown;
    var first := link.queue[0];
    Ground(owners, link, key);
    SafeTail(owners, link.replica.domain, link.queue);
    SafeStep(owners, link.replica, first, key);
    ServedFirst(Table(Holdings(link.replica, key)), link.queue, key);
    AppliedShows(link, Step(link.replica, first), link.queue[1..], key);
  }

  lemma AppliedShows(link: Link, replica: State, queue: seq<Request>, key: Key)
    ensures Shown(link.(replica := replica, queue := queue), key) == Shown(link, key)
  {
    hide Table, HeldIn;
  }

  lemma MessageOf(owners: Owners, link: Link, key: Key, i: nat)
    requires Rooted(owners, link, key) && Withdrawn(link.source.details, key) && i < |link.source.details|
    ensures var m := link.source.details[i];
            m.domain == key.domain && DistinctHoldings(HeldIn(m.products, key.id))
            && Clears(Table(HeldIn(m.products, key.id)), ChangeRequest(m.domain, m.change), key)
            && GoodMessage(owners, m, key)
  {
    hide Timed, HeldIn, Table, Clears, SafeQueue;
    Ground(owners, link, key);
    MessageAt(owners, link.source, key, i);
    GoodHeld(owners, link.source.details[i], key);
    hide GoodStream, GoodMessage;
  }

  lemma Queued(owners: Owners, link: Link, m: Details, initialized: bool, key: Key)
    requires SafeQueue(owners, link.replica.domain, link.queue) && GoodMessage(owners, m, key)
    ensures SafeQueue(owners, link.replica.domain, link.queue + MessageRequests(m, initialized))
  {
    hide SafeQueue, GoodQueue, GoodMessage, MessageRequests;
    MessageObeys(owners, m, initialized, link.replica.domain, key);
    GoodIsSafe(owners, link.replica.domain, MessageRequests(m, initialized));
    SafeBoth(owners, link.replica.domain, link.queue, MessageRequests(m, initialized));
  }

  /** Message i arrives as the first one. */
  lemma FirstShows(owners: Owners, link: Link, left: map<string, nat>, i: nat, key: Key)
    requires Tended(owners, link, left, key) && i < |link.source.details| && !link.initialized
    ensures var m := link.source.details[i];
            Tended(owners, link.(initialized := true, cursor := i + 1, queue := link.queue + MessageRequests(m, false)),
                   Outdated(left, Table(HeldIn(m.products, key.id))), key)
  {
    hide Timed, Holdings, GoodStream, SafeQueue, HeldIn, Table, ServedAll, Withdrawn, Clears, GoodMessage,
      DistinctHoldings, MessageRequests;
    var m := link.source.details[i];
    var table := Table(Holdings(link.replica, key));
    Ground(owners, link, key);
    MessageOf(owners, link, key, i);
    Queued(owners, link, m, false, key);
    SnapshotServed(ServedAll(table, link.queue, key), m, key);
    ServedBoth(table, link.queue, MessageRequests(m, false), key);
    assert ServedAll(table, link.queue, key) == left;
  }

  lemma SnapshotKeepsTended(owners: Owners, link: Link, left: map<string, nat>, key: Key)
    requires Tended(owners, link, left, key) && link.cursor < |link.source.details| && !link.initialized
    ensures Tended(owners, Next(link, Deliver), LeftAfter(left, link, Act(Deliver), key), key)
  {
    hide Tended, Outdated, Table, HeldIn, MessageRequests;
    FirstShows(owners, link, left, link.cursor, key);
  }

  /** The cached picture that is sent on a new connection may be the first one, too. */
  lemma CachedKeepsTended(owners: Owners, link: Link, left: map<string, nat>, key: Key)
    requires Tended(owners, link, left, key) && 0 < link.cursor <= |link.source.details| && !link.initialized
    ensures Tended(owners, Next(link, Redeliver), LeftAfter(left, link, Act(Redeliver), key), key)
  {
    hide Tended, Outdated, Table, HeldIn, MessageRequests;
    FirstShows(owners, link, left, link.cursor - 1, key);
  }

  lemma ChangeQueued(owners: Owners, link: Link, m: Details, shown: map<string, nat>, left: map<string, nat>, key: Key)
    requires ServedAll(Table(Holdings(link.replica, key)), link.queue, key) == shown + left && Beyond(left, shown)
    requires var request := ChangeRequest(m.domain, m.change);
             Renews(shown, request, key) && Clears(Served(shown, request, key), request, key)
    ensures var request := ChangeRequest(m.domain, m.change);
            ServedAll(Table(Holdings(link.replica, key)), link.queue + MessageRequests(m, true), key)
              == Served(shown, request, key) + Answered(left, request, key)
            && Beyond(Answered(left, request, key), Served(shown, request, key))
  {
    hide Holdings, Table, ServedAll, Served, Clears, Renews, Beyond, Answered, ChangeRequest;
    var request := ChangeRequest(m.domain, m.change);
    var table := Table(Holdings(link.replica, key));
    ChangeServed(shown, left, request, key);
    ServedBoth(table, link.queue, [request], key);
    ServedOne(ServedAll(table, link.queue, key), request, key);
  }

  /** What Timely says of holdings, said of their table. */
  lemma TimelyRenews(held: seq<Holding>, request: Request, key: Key)
    requires Timely(held, request, key.domain, key)
    ensures Renews(Table(held), request, key)
  {
    hide Table, Position;
    if request.Register? { TableAt(held, request.reg.url); }
  }

  lemma ChangeIsNamed(domain: string, c: Change)
    ensures Named(ChangeRequest(domain, c))
  {}

  /** The change of the next message leads from its predecessor's picture to its own. */
  lemma NextPicture(owners: Owners, link: Link, key: Key)
    requires Rooted(owners, link, key) && Withdrawn(link.source.details, key)
    requires 0 < link.cursor < |link.source.details|
    ensures var l, m := link.source.details[link.cursor - 1], link.source.details[link.cursor];
            var before, request := Table(HeldIn(l.products, key.id)), ChangeRequest(m.domain, m.change);
            && Renews(before, request, key)
            && Served(before, request, key) == Table(HeldIn(m.products, key.id))
            && Clears(Served(before, request, key), request, key)
  {
    hide Timed, HeldIn, Table, Effect, Timely, Served, Renews, Clears, GoodMessage,
        GoodStream, SafeQueue, DistinctHoldings,
      ChangeRequest, Named;
    var l, m := link.source.details[link.cursor - 1], link.source.details[link.cursor];
    var held, request := HeldIn(l.products, key.id), ChangeRequest(m.domain, m.change);
    Ground(owners, link, key);
    MessageOf(owners, link, key, link.cursor - 1);
    MessageOf(owners, link, key, link.cursor);
    MessageAt(owners, link.source, key, link.cursor);
    ChangeIsNamed(m.domain, m.change);
    TimelyRenews(held, request, key);
    EffectTable(held, request, key.domain, key);
  }

  lemma ChangeKeepsTended(owners: Owners, link: Link, left: map<string, nat>, key: Key)
    requires Tended(owners, link, left, key) && link.cursor < |link.source.details| && link.initialized
    ensures Tended(owners, Next(link, Deliver), LeftAfter(left, link, Act(Deliver), key), key)
  {
    hide Timed, Holdings, GoodStream, SafeQueue, HeldIn, Table, ServedAll, Served,
        Withdrawn, Clears, Renews, GoodMessage,
      DistinctHoldings, MessageRequests, ChangeRequest, Answered, Beyond;
    var m := link.source.details[link.cursor];
    Ground(owners, link, key);
    MessageOf(owners, link, key, link.cursor);
    NextPicture(owners, link, key);
    Queued(owners, link, m, true, key);
    ChangeQueued(owners, link, m, Shown(link, key), left, key);
  }

  /** The change of a message has had its effect on its own picture already. */
  lemma SamePicture(owners: Owners, link: Link, key: Key)
    requires Rooted(owners, link, key) && Withdrawn(link.source.details, key)
    requires 0 < link.cursor <= |link.source.details|
    ensures var m := link.source.details[link.cursor - 1];
            var shown, request := Table(HeldIn(m.products, key.id)), ChangeRequest(m.domain, m.change);
            Renews(shown, request, key) && Served(shown, request, key) == shown && Clears(shown, request, key)
  {
    hide Timed, HeldIn, Table, Effect, Timely, Served, Renews, Clears, GoodStream,
        SafeQueue, DistinctHoldings, ChangeRequest,
      Named, Obeys;
    var m := link.source.details[link.cursor - 1];
    var held, request := HeldIn(m.products, key.id), ChangeRequest(m.domain, m.change);
    MessageOf(owners, link, key, link.cursor - 1);
    ChangeIsNamed(m.domain, m.change);
    TimelyRenews(held, request, key);
    EffectTable(held, request, key.domain, key);
  }

  lemma RedeliverKeepsTended(owners: Owners, link: Link, left: map<string, nat>, key: Key)
    requires Tended(owners, link, left, key) && link.initialized
    ensures Tended(owners, Next(link, Redeliver), LeftAfter(left, link, Act(Redeliver), key), key)
  {
    hide Timed, Holdings, GoodStream, SafeQueue, HeldIn, Table, ServedAll, Served,
        Withdrawn, Clears, Renews, GoodMessage,
      DistinctHoldings, MessageRequests, ChangeRequest, Answered, Beyond;
    Ground(owners, link, key);
    var m := link.source.details[link.cursor - 1];
    MessageOf(owners, link, key, link.cursor - 1);
    SamePicture(owners, link, key);
    Queued(owners, link, m, true, key);
    ChangeQueued(owners, link, m, Shown(link, key), left, key);
  }

  lemma SourceKeepsTended(owners: Owners, link: Link, left: map<string, nat>, request: Request, key: Key)
    requires Tended(owners, link, left, key) && Obeys(owners, link.source.domain, request)
             && key.id != REGISTERED_PUBLISHERS
    ensures Tended(owners, Next(link, SourceServes(request)), left, key)
  {
    hide Timed, Step, Holdings, HeldIn, GoodStream, Table, ServedAll, SafeQueue, Follows, Obeys, Withdrawn, Beyond;
    Ground(owners, link, key);
    StepKeepsTimed(owners, link.source, request);
    StreamStaysGood(owners, link.source, request, key);
    StepStaysWithdrawn(owners, link.source, request, key);
    StepFollows(owners, link.source, request, key.id);
    FollowedDetails(owners, link.source, Step(link.source, request), key.id);
    assert link.source.details <= Step(link.source, request).details;
  }

  lemma ElsewhereChangesNothing(owners: Owners, st: State, request: Request, key: Key)
    requires Timed(owners, st) && Safe(owners, st.domain, request) && Elsewhere(request, key.domain, st.domain)
    ensures Timed(owners, Step(st, request)) && Holdings(Step(st, request), key) == Holdings(st, key)
  {
    hide Timed, Step, Holdings, Take, Release, Stale, Obeys, Astray;
    if Obeys(owners, st.domain, request) {
      StepKeepsTimed(owners, st, request);
      StepHoldings(owners, st, request, key);
    } else {
      AstrayChangesNothing(owners, st, request, key);
    }
  }

  lemma ReplicaKeepsTended(owners: Owners, link: Link, left: map<string, nat>, request: Request, key: Key)
    requires Tended(owners, link, left, key)
    requires ProperMove(owners, link.source.domain, link.replica.domain, Act(ReplicaServes(request)))
    ensures Tended(owners, Next(link, ReplicaServes(request)), left, key)
  {
    hide Timed, Step, Holdings, HeldIn, GoodStream, Table, ServedAll, SafeQueue, Safe, Elsewhere, Withdrawn, Beyond;
    Ground(owners, link, key);
    ElsewhereChangesNothing(owners, link.replica, request, key);
    AppliedShows(link, Step(link.replica, request), link.queue, key);
  }

  lemma LostKeepsTended(owners: Owners, link: Link, left: map<string, nat>, key: Key)
    requires Tended(owners, link, left, key)
    ensures Tended(owners, Moved(link, Restart), Shown(link, key) + left, key)
    ensures Tended(owners, Moved(link, Refollow), Shown(link, key) + left, key)
  {
    hide Holdings, HeldIn, Table, ServedAll, SafeQueue, GoodMessage, Linked;
    assert map[] + (Shown(link, key) + left) == Shown(link, key) + left;
  }

  lemma LeaveKeepsTended(owners: Owners, link: Link, left: map<string, nat>, rows: seq<Row>, kind: Kind, regTime: nat,
                         key: Key)
    requires Tended(owners, link, left, key)
    requires SafeQueue(owners, link.replica.domain, RemovalRequests(link.source.domain, rows, kind, regTime))
    ensures Tended(owners, Moved(link, Leave(rows, kind, regTime)),
                   Remaining(Shown(link, key) + left, rows, kind, regTime, key.id), key)
  {
    hide Timed, Holdings, HeldIn, Table, ServedAll, GoodStream, SafeQueue, RemovalRequests, Remaining, Withdrawn;
    var requests := RemovalRequests(link.source.domain, rows, kind, regTime);
    Ground(owners, link, key);
    SafeBoth(owners, link.replica.domain, link.queue, requests);
    var table := Table(Holdings(link.replica, key));
    ServedBoth(table, link.queue, requests, key);
    RemovalServed(ServedAll(table, link.queue, key), link.source.domain, rows, kind, regTime, key);
    var rest := Remaining(Shown(link, key) + left, rows, kind, regTime, key.id);
    assert map[] + rest == rest;
  }

  lemma MovedKeepsTended(owners: Owners, link: Link, left: map<string, nat>, move: Move, key: Key)
    requires Tended(owners, link, left, key) && key.id != REGISTERED_PUBLISHERS
    requires ProperMove(owners, link.source.domain, link.replica.domain, move)
    ensures Tended(owners, Moved(link, move), LeftAfter(left, link, move, key), key)
    ensures Moved(link, move).source.domain == link.source.domain
            && Moved(link, move).replica.domain == link.replica.domain
  {
    hide Tended, Timed, Step, LeftAfter, Next, SafeQueue, Remaining, RemovalRequests;
    LeftAlone(left, link, move, key);
    match move
    case Restart => LostKeepsTended(owners, link, left, key);
    case Refollow => LostKeepsTended(owners, link, left, key);
    case Leave(rows, kind, regTime) => LeaveKeepsTended(owners, link, left, rows, kind, regTime, key);
    case Act(action) => NextKeepsTended(owners, link, left, action, key);
  }

  /** The moves that do not bring a message. */
  lemma LeftAlone(left: map<string, nat>, link: Link, move: Move, key: Key)
    ensures move.Restart? || move.Refollow? ==> LeftAfter(left, link, move, key) == Shown(link, key) + left
    ensures move.Act? && !move.action.Deliver? && !move.action.Redeliver? ==> LeftAfter(left, link, move, key) == left
    ensures move == Act(Deliver) && !(link.cursor < |link.source.details|) ==> LeftAfter(left, link, move, key) == left
    ensures move == Act(Redeliver) && !(0 < link.cursor <= |link.source.details|) ==>
              LeftAfter(left, link, move, key) == left
    ensures move.Leave? ==>
              LeftAfter(left, link, move, key)
              == Remaining(Shown(link, key) + left, move.rows, move.kind, move.regTime, key.id)
  {
    hide Shown, Answered, Outdated, Remaining, Table, HeldIn;
  }

  lemma NextKeepsTended(owners: Owners, link: Link, left: map<string, nat>, action: Action, key: Key)
    requires Tended(owners, link, left, key) && key.id != REGISTERED_PUBLISHERS
    requires ProperMove(owners, link.source.domain, link.replica.domain, Act(action))
    ensures Tended(owners, Next(link, action), LeftAfter(left, link, Act(action), key), key)
    ensures Next(link, action).source.domain == link.source.domain
            && Next(link, action).replica.domain == link.replica.domain
  {
    hide Timed, Step, Holdings, HeldIn, GoodStream, SafeQueue, Safe, Elsewhere, Withdrawn, Overlaid, LeftAfter,
      MessageRequests;
    Ground(owners, link, key);
    LeftAlone(left, link, Act(action), key);
    match action
    case SourceServes(request) => SourceKeepsTended(owners, link, left, request, key);
    case ReplicaServes(request) => ReplicaKeepsTended(owners, link, left, request, key);
    case Miss => MissKeepsTended(owners, link, left, key);
    case Deliver =>
      if link.cursor < |link.source.details| {
        if link.initialized {
          ChangeKeepsTended(owners, link, left, key);
        } else {
          SnapshotKeepsTended(owners, link, left, key);
        }
      }
    case Redeliver =>
      if link.initialized {
        RedeliverKeepsTended(owners, link, left, key);
      } else if 0 < link.cursor {
        CachedKeepsTended(owners, link, left, key);
      }
    case Apply => if link.queue != [] { ApplyKeepsTended(owners, link, left, key); }
  }

  lemma MissKeepsTended(owners: Owners, link: Link, left: map<string, nat>, key: Key)
    requires Tended(owners, link, left, key)
    ensures Tended(owners, Next(link, Miss), left, key)
  {
    hide Timed, Holdings, HeldIn, GoodStream, SafeQueue, Withdrawn, Table, ServedAll, Beyond;
  }

  // ----- runs

  ghost predicate AllProperMoves(owners: Owners, source: string, replica: string, moves: seq<Move>) {
    forall i | 0 <= i < |moves| :: ProperMove(owners, source, replica, moves[i])
  }

  lemma {:induction false} TravelKeepsTended(owners: Owners, link: Link, left: map<string, nat>, moves: seq<Move>,
                                             key: Key)
    requires Tended(owners, link, left, key) && key.id != REGISTERED_PUBLISHERS
    requires AllProperMoves(owners, link.source.domain, link.replica.domain, moves)
    ensures var link' := Travel(link, moves);
            Tended(owners, link', Remnant(left, link, moves, key), key)
            && link'.source.domain == link.source.domain && link'.replica.domain == link.replica.domain
  {
    if moves != [] {
      var last := |moves| - 1;
      TravelKeepsTended(owners, link, left, moves[..last], key);
      hide Tended, Moved, ProperMove, LeftAfter;
      MovedKeepsTended(owners, Travel(link, moves[..last]), Remnant(left, link, moves[..last], key), moves[last], key);
    }
  }

  lemma StartsTended(owners: Owners, source: string, replica: string, key: Key)
    requires source != replica && key.domain == source
    ensures Tended(owners, Start(source, replica), map[], key)
  {}

  /** Every message is delivered and every request served. */
  predicate CaughtUp(link: Link) {
    link.initialized && link.cursor == |link.source.details| && link.queue == []
  }

  /** The URLs listed for key, with their times. */
  function Entries(st: State, key: Key): map<string, nat> {
    Table(Holdings(st, key))
  }

  lemma EntriesAt(st: State, key: Key, url: string)
    ensures url in Entries(st, key) <==> Lists(st.Listed(key), url)
    ensures url in Entries(st, key) ==> Entries(st, key)[url] == st.Instance(url)
  {
    var k := Position(Holdings(st, key), url);
    TableAt(Holdings(st, key), url);
    HoldingsAt(st, key);
    if Lists(st.Listed(key), url) {
      var i :| 0 <= i < |st.Listed(key)| && st.Listed(key)[i].Url() == url;
      assert Holdings(st, key)[i].url == url;
    }
    hide Holdings, Table, Position;
  }

  lemma CaughtUpShows(owners: Owners, link: Link, left: map<string, nat>, key: Key)
    requires Tended(owners, link, left, key) && CaughtUp(link)
    ensures Entries(link.replica, key) == Entries(link.source, key) + left
    ensures Beyond(left, Entries(link.source, key))
  {
    hide Timed, Holdings, HeldIn, Table, SafeQueue, GoodDetails, Withdrawn, Beyond;
    assert ServedAll(Table(Holdings(link.replica, key)), [], key) == Table(Holdings(link.replica, key));
  }

  lemma OverlayIsEqual(shown: map<string, nat>, left: map<string, nat>)
    requires Beyond(left, shown)
    ensures shown + left == shown <==> left == map[]
  {
    if left != map[] {
      var url :| url in left;
      assert (shown + left)[url] == left[url];
    }
  }

  /** However often the source restarts or is followed anew: once it has caught up, the replica lists what the
      source lists and the remnant beside it, so it agrees with the source exactly when nothing remains. */
  lemma RemnantStays(owners: Owners, source: string, replica: string, moves: seq<Move>, id: string)
    requires source != replica && id != REGISTERED_PUBLISHERS
    requires AllProperMoves(owners, source, replica, moves)
    requires CaughtUp(Travel(Start(source, replica), moves))
    ensures var key := Key(source, id);
            var link := Travel(Start(source, replica), moves);
            var left := Remnant(map[], Start(source, replica), moves, key);
            Entries(link.replica, key) == Entries(link.source, key) + left
            && (Entries(link.replica, key) == Entries(link.source, key) <==> left == map[])
  {
    hide Tended, Travel, Remnant, Entries, ProperMove;
    var key := Key(source, id);
    var link := Travel(Start(source, replica), moves);
    var left := Remnant(map[], Start(source, replica), moves, key);
    StartsTended(owners, source, replica, key);
    TravelKeepsTended(owners, Start(source, replica), map[], moves, key);
    CaughtUpShows(owners, link, left, key);
    OverlayIsEqual(Entries(link.source, key), left);
  }

  /** While no picture has come since the source was lost or left, the replica lists the remnant and nothing else. */
  lemma OnlyTheRemnantStays(owners: Owners, source: string, replica: string, moves: seq<Move>, id: string)
    requires source != replica && id != REGISTERED_PUBLISHERS
    requires AllProperMoves(owners, source, replica, moves)
    requires var link := Travel(Start(source, replica), moves); !link.initialized && link.queue == []
    ensures var key := Key(source, id);
            Entries(Travel(Start(source, replica), moves).replica, key) ==
            Remnant(map[], Start(source, replica), moves, key)
  {
    hide Tended, Travel, Remnant, Entries, ProperMove;
    var key := Key(source, id);
    StartsTended(owners, source, replica, key);
    TravelKeepsTended(owners, Start(source, replica), map[], moves, key);
    UnreadShows(owners, Travel(Start(source, replica), moves), Remnant(map[], Start(source, replica), moves, key), key);
  }

  lemma UnreadShows(owners: Owners, link: Link, left: map<string, nat>, key: Key)
    requires Tended(owners, link, left, key) && !link.initialized && link.queue == []
    ensures Entries(link.replica, key) == left
  {
    hide Timed, Holdings, HeldIn, Table, SafeQueue, GoodDetails, Withdrawn, Beyond;
    assert ServedAll(Table(Holdings(link.replica, key)), [], key) == Table(Holdings(link.replica, key));
    assert map[] + left == left;
  }

  // ----- one restart

  lemma {:induction false} TravelBoth(link: Link, a: seq<Move>, b: seq<Move>)
    ensures Travel(link, a + b) == Travel(Travel(link, a), b)
  {
    if b == [] {
      assert a + b == a;
    } else {
      assert (a + b)[..|a + b| - 1] == a + b[..|b| - 1];
      TravelBoth(link, a, b[..|b| - 1]);
    }
  }

  lemma {:induction false} RemnantBoth(left: map<string, nat>, link: Link, a: seq<Move>, b: seq<Move>, key: Key)
    ensures Remnant(left, link, a + b, key) == Remnant(Remnant(left, link, a, key), Travel(link, a), b, key)
  {
    hide LeftAfter, Moved, Travel;
    if b == [] {
      assert a + b == a;
    } else {
      var last := |b| - 1;
      assert (a + b)[..|a + b| - 1] == a + b[..last];
      RemnantBoth(left, link, a, b[..last], key);
      TravelBoth(link, a, b[..last]);
    }
  }

  lemma ThroughOne(left: map<string, nat>, link: Link, move: Move, key: Key)
    ensures Travel(link, [move]) == Moved(link, move)
    ensures Remnant(left, link, [move], key) == LeftAfter(left, link, move, key)
  {
    hide LeftAfter, Moved;
    assert [move][..0] == [];
    assert Travel(link, [move][..0]) == link;
    assert Remnant(left, link, [move][..0], key) == left;
  }

  /** Nothing remains as long as the source is neither restarted nor followed anew. */
  lemma {:induction false} NothingRemains(link: Link, moves: seq<Move>, key: Key)
    requires forall i | 0 <= i < |moves| :: moves[i].Act?
    ensures Remnant(map[], link, moves, key) == map[]
  {
    if moves != [] {
      NothingRemains(link, moves[..|moves| - 1], key);
      hide Travel, Table, HeldIn, ChangeRequest;
    }
  }

  /** The move brings no message. */
  predicate Silent(move: Move) {
    move.Act? && !move.action.Deliver? && !move.action.Redeliver?
  }

  lemma {:induction false} SilentMoves(left: map<string, nat>, link: Link, moves: seq<Move>, key: Key)
    requires forall i | 0 <= i < |moves| :: Silent(moves[i])
    ensures Remnant(left, link, moves, key) == left
    ensures Travel(link, moves).initialized == link.initialized
  {
    hide LeftAfter, Moved, Silent;
    if moves != [] {
      var last := |moves| - 1;
      SilentMoves(left, link, moves[..last], key);
      SilentMove(left, Travel(link, moves[..last]), moves[last], key);
    }
  }

  lemma SilentMove(left: map<string, nat>, link: Link, move: Move, key: Key)
    requires Silent(move)
    ensures LeftAfter(left, link, move, key) == left && Moved(link, move).initialized == link.initialized
  {
    hide LeftAfter, Step;
    LeftAlone(left, link, move, key);
  }

  /** Everything listed before is listed again, and with no earlier time. */
  predicate Renewed(before: map<string, nat>, after: map<string, nat>) {
    forall url | url in before :: url in after && before[url] <= after[url]
  }

  /** The run up to the first picture after a restart: what it does not renew remains. */
  lemma RemnantOfOne(link: Link, before: seq<Move>, between: seq<Move>, rest: seq<Move>, key: Key)
    requires forall i | 0 <= i < |before| :: before[i].Act?
    requires forall i | 0 <= i < |between| :: Silent(between[i])
    requires forall i | 0 <= i < |rest| :: Silent(rest[i])
    requires var there := Travel(link, before + [Restart] + between); there.cursor < |there.source.details|
    ensures var there := Travel(link, before + [Restart] + between);
            Remnant(map[], link, before + [Restart] + between + [Act(Deliver)] + rest, key) ==
            Outdated(Shown(Travel(link, before), key),
                     Table(HeldIn(there.source.details[there.cursor].products, key.id)))
  {
    hide Travel, Remnant, Shown, Table, HeldIn, Outdated, Silent;
    var here := Travel(link, before);
    var shown := Shown(here, key);
    NothingRemains(link, before, key);
    ThroughOne(map[], here, Restart, key);
    LeftAlone(map[], here, Restart, key);
    assert shown + map[] == shown;
    RemnantBoth(map[], link, before, [Restart], key);
    TravelBoth(link, before, [Restart]);
    SilentMoves(shown, Moved(here, Restart), between, key);
    RemnantBoth(map[], link, before + [Restart], between, key);
    TravelBoth(link, before + [Restart], between);
    var there := Travel(link, before + [Restart] + between);
    ThroughOne(shown, there, Act(Deliver), key);
    RemnantBoth(map[], link, before + [Restart] + between, [Act(Deliver)], key);
    TravelBoth(link, before + [Restart] + between, [Act(Deliver)]);
    RemnantBoth(map[], link, before + [Restart] + between + [Act(Deliver)], rest, key);
    SilentMoves(Outdated(shown, Table(HeldIn(there.source.details[there.cursor].products, key.id))),
                Moved(there, Act(Deliver)), rest, key);
  }

  /** One restart, one new picture: once it is served, the replica agrees with the restarted source exactly when the new
      picture renews every URL of the last one from before; a publisher withdrawn in between stays listed. */
  lemma RestartKeepsTheWithdrawn(
    owners: Owners, source: string, replica: string, before: seq<Move>, between: seq<Move>, rest: seq<Move>, id: string)
    requires source != replica && id != REGISTERED_PUBLISHERS
    requires forall i | 0 <= i < |before| :: before[i].Act?
    requires forall i | 0 <= i < |between| :: Silent(between[i])
    requires forall i | 0 <= i < |rest| :: Silent(rest[i])
    requires var there := Travel(Start(source, replica), before + [Restart] + between);
             there.cursor < |there.source.details|
    requires var moves := before + [Restart] + between + [Act(Deliver)] + rest;
             AllProperMoves(owners, source, replica, moves) && CaughtUp(Travel(Start(source, replica), moves))
    ensures var key := Key(source, id);
            var there := Travel(Start(source, replica), before + [Restart] + between);
            var link := Travel(Start(source, replica), before + [Restart] + between + [Act(Deliver)] + rest);
            Entries(link.replica, key) == Entries(link.source, key) <==>
            Renewed(Shown(Travel(Start(source, replica), before), key),
                    Table(HeldIn(there.source.details[there.cursor].products, id)))
  {
    hide Travel, Remnant, Shown, Table, HeldIn, Silent, Entries, AllProperMoves, CaughtUp;
    var key := Key(source, id);
    var there := Travel(Start(source, replica), before + [Restart] + between);
    RemnantOfOne(Start(source, replica), before, between, rest, key);
    RemnantStays(owners, source, replica, before + [Restart] + between + [Act(Deliver)] + rest, id);
    var shown := Shown(Travel(Start(source, replica), before), key);
    var picture := Table(HeldIn(there.source.details[there.cursor].products, id));
    if !Renewed(shown, picture) {
      var url :| url in shown && !(url in picture && shown[url] <= picture[url]);
      assert url in Outdated(shown, picture);
    }
  }
}
