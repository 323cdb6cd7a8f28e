/** The thread that owns the publish sockets. */
module PublishManagers {
  import opened Common
  import opened Sorting
  import opened Subscriptions
  import opened Publishing
  import opened PublishCalls
  import opened SubscriberFlags

  class PublishDetails {
    const id: string
    const socket: Socket
    const cacheLastValue: bool
    var hasSubscribers: bool
    var lastCachedValues: Cache

    constructor (id: string, socket: Socket, cacheLastValue: bool)
      ensures this.id == id && this.socket == socket && this.cacheLastValue == cacheLastValue
      ensures !hasSubscribers && lastCachedValues == map[]
    {
      this.id, this.socket, this.cacheLastValue := id, socket, cacheLastValue;
      hasSubscribers, lastCachedValues := false, map[];
    }

    function View(): Outlet
      reads this
    {
      Outlet(id, cacheLastValue, hasSubscribers, lastCachedValues)
    }

    /** The last message of each filter text, unless the publisher does not want it kept. */
    method Remember(message: Message)
      modifies this
      ensures View() == Fed(old(View()), Event.Publish(message))
    {
      if cacheLastValue { lastCachedValues := lastCachedValues[message.filter := message]; }
    }
  }

  /** Where the details of an ID are found, if it has any. */
  ghost function SocketsById(details: map<string, PublishDetails?>): map<string, Option<Socket>> {
    map id | id in details :: if details[id] == null then None else Some(details[id].socket)
  }

  ghost function OutletsBySocket(details: map<Socket, PublishDetails>): map<Socket, Outlet>
    reads details.Values
  {
    map s | s in details :: details[s].View()
  }

  lemma SocketsByIdChange(details: map<string, PublishDetails?>, id: string, d: PublishDetails?)
    ensures SocketsById(details[id := d]) == SocketsById(details)[id := if d == null then None else Some(d.socket)]
    ensures SocketsById(details - {id}) == SocketsById(details) - {id}
  {}

  lemma OutletsMore(details: map<Socket, PublishDetails>, s: Socket, d: PublishDetails)
    ensures OutletsBySocket(details[s := d]) == OutletsBySocket(details)[s := d.View()]
    ensures OutletsBySocket(details - {s}) == OutletsBySocket(details) - {s}
  {}

  class PublishManager {
    var publishMapByID: map<string, PublishDetails?>
    var publishMapBySocket: map<Socket, PublishDetails>
    var pollItems: seq<Socket>
    var next: Socket

    ghost function Objects(): set<object>
      reads this
    {
      set s | s in publishMapBySocket :: publishMapBySocket[s]
    }

    /** Each details object is in the map under its own socket, and an ID leads to an object of that map. */
    ghost predicate Valid()
      reads this, Objects()
    {
      && (forall s | s in publishMapBySocket :: publishMapBySocket[s].socket == s && s < next)
      && (forall id | id in publishMapByID && publishMapByID[id] != null ::
            publishMapByID[id].id == id && publishMapByID[id].socket in publishMapBySocket
            && publishMapBySocket[publishMapByID[id].socket] == publishMapByID[id])
    }

    ghost function View(): Outlets
      reads this, Objects()
    {
      Outlets(SocketsById(publishMapByID), OutletsBySocket(publishMapBySocket), pollItems, next)
    }

    constructor ()
      ensures Valid() && View() == Empty && Objects() == {}
    {
      publishMapByID, publishMapBySocket := map[], map[];
      pollItems := FIXED;
      next := FIRST;
    }

    /** Registering an ID again makes a second socket; the first one stays open without an ID. Nothing happens when no
        socket can be bound. */
    method RegisterDataProduct(id: string, cacheLastValue: bool, bound: bool)
      requires Valid()
      modifies this
      ensures Valid() && View() == if bound then Registered(old(View()), id, cacheLastValue) else old(View())
      ensures fresh(Objects() - old(Objects()))
    {
      if bound {
        var details := new PublishDetails(id, next, cacheLastValue);
        Track(details);
      }
    }

    method Track(details: PublishDetails)
      requires Valid() && details !in Objects() && details.socket == next
      requires details.lastCachedValues == map[] && !details.hasSubscribers
      modifies this
      ensures Valid() && View() == Registered(old(View()), details.id, details.cacheLastValue)
      ensures Objects() <= old(Objects()) + {details}
    {
      hide SocketsById, OutletsBySocket;
      SocketsByIdChange(publishMapByID, details.id, details);
      OutletsMore(publishMapBySocket, next, details);
      pollItems := pollItems + [next];
      publishMapByID := publishMapByID[details.id := details];
      publishMapBySocket := publishMapBySocket[next := details];
      next := next + 1;
    }

    /** Follows the pointer it finds for the ID, and crashes if there is none. */
    method UnregisterDataProduct(id: string) returns (crashed: bool)
      requires Valid()
      modifies this, Objects()
      ensures crashed == Unregistered(old(View()), id).Crashed?
      ensures !crashed ==> Valid() && Running(View()) == Unregistered(old(View()), id) && Objects() <= old(Objects())
    {
      hide Dropped;
      crashed := false;
      if id in publishMapByID {
        var details := publishMapByID[id];
        if details == null { return true; }
        assert publishMapBySocket[details.socket] in Objects();
        Forget(id, details);
      }
    }

    /** Takes details out of both maps and the poll vector, and empties their cache. */
    method Forget(id: string, details: PublishDetails)
      requires Valid() && id in publishMapByID && publishMapByID[id] == details
      modifies this, details
      ensures Valid() && View() == Unbound(old(View()), id, details.socket) && Objects() <= old(Objects())
    {
      hide Dropped, SocketsById, OutletsBySocket;
      SocketsByIdChange(publishMapByID, id, null);
      OutletsMore(publishMapBySocket, details.socket, details);
      publishMapBySocket := publishMapBySocket - {details.socket};
      publishMapByID := publishMapByID - {id};
      details.lastCachedValues := map[];
      details.hasSubscribers := false;
      RemovePollItem(details.socket);
    }

    method RemovePollItem(s: Socket)
      modifies this`pollItems
      ensures pollItems == Dropped(old(pollItems), {s})
    {
      var i := 0;
      var kept := [];
      while i < |pollItems|
        invariant i <= |pollItems| && pollItems == old(pollItems)
        invariant kept == Dropped(pollItems[..i], {s})
      {
        assert pollItems[..i + 1][..i] == pollItems[..i];
        if pollItems[i] != s { kept := kept + [pollItems[i]]; }
        i := i + 1;
      }
      assert pollItems[..i] == pollItems;
      pollItems := kept;
    }

    /** publishMapByID[id]: an unknown ID gets an entry without details. */
    method LookUp(id: string) returns (details: PublishDetails?)
      requires Valid()
      modifies this`publishMapByID
      ensures Valid() && View() == LookedUp(old(View()), id) && Objects() == old(Objects())
      ensures id in publishMapByID && details == publishMapByID[id]
      ensures details != null ==> old(View()).byId == View().byId && View().byId[id] == Some(details.socket)
      ensures details == null ==> View().byId[id] == None
    {
      hide OutletsBySocket;
      SocketsByIdChange(publishMapByID, id, null);
      if id !in publishMapByID { publishMapByID := publishMapByID[id := null]; }
      details := publishMapByID[id];
    }

    method Publish(id: string, message: Message) returns (sent: seq<(Socket, Message)>)
      requires Valid()
      modifies this`publishMapByID, Objects()
      ensures Valid() && Objects() == old(Objects()) && Running(View()) == Called(old(View()), Send(id, message))
      ensures sent == if View().byId[id].Some? then [(View().byId[id].value, message)] else []
    {
      var details := LookUp(id);
      if details == null { return []; }
      Feed(details.socket, message);
      sent := [(details.socket, message)];
    }

    method Feed(s: Socket, message: Message)
      requires Valid() && s in publishMapBySocket
      modifies publishMapBySocket[s]
      ensures Valid() && s in old(View()).bySocket
      ensures View() ==
              old(View()).(bySocket := old(View()).bySocket[s := Fed(old(View()).bySocket[s], Event.Publish(message))])
    {
      hide SocketsById;
      publishMapBySocket[s].Remember(message);
      assert View().bySocket == old(View()).bySocket[s := Fed(old(View()).bySocket[s], Event.Publish(message))];
    }

    /** The answer to a node that asks whether anybody subscribes, or nothing for an unknown ID. */
    method SubscribersExist(id: string) returns (answer: Option<bool>)
      requires Valid()
      modifies this`publishMapByID
      ensures Valid() && Running(View()) == Called(old(View()), Call.SubscribersExist(id))
      ensures match View().byId[id]
              case None => answer == None
              case Some(s) => s in View().bySocket && answer == Some(View().bySocket[s].hasSubscribers)
      ensures answer == Answer(View(), id) && answer == Answer(old(View()), id)
    {
      var details := LookUp(id);
      answer := if details == null then None else Some(details.hasSubscribers);
    }

    method Notice(s: Socket, newsub: bool)
      requires Valid() && s in publishMapBySocket
      modifies publishMapBySocket[s]
      ensures Valid() && Running(View()) == Called(old(View()), Subscribed(s, newsub))
      ensures publishMapBySocket[s].lastCachedValues == old(publishMapBySocket[s].lastCachedValues)
    {
      hide SocketsById;
      publishMapBySocket[s].hasSubscribers := newsub;
      assert View().bySocket == old(View()).bySocket[s := old(View()).bySocket[s].(hasSubscribers := newsub)];
    }

    /** A subscription on a socket makes it send its whole cache again, oldest first. */
    method Subscription(s: Socket, newsub: bool) returns (sent: seq<Message>)
      requires Valid() && s in publishMapBySocket
      modifies publishMapBySocket[s]
      ensures Valid() && Running(View()) == Called(old(View()), Subscribed(s, newsub))
      ensures sent == if newsub then Emit(old(publishMapBySocket[s].lastCachedValues), NewSubscriber) else []
    {
      hide Replay, SocketsById, OutletsBySocket;
      Notice(s, newsub);
      sent := [];
      if newsub { sent := ReplayCache(publishMapBySocket[s].lastCachedValues); }
    }
  }

  /** Copies of the cached values, flagged, oldest first. */
  method ReplayCache(cache: Cache) returns (sent: seq<Message>)
    ensures sent == Replay(cache)
  {
    var values := CollectValues(cache, Ascending(cache.Keys));
    values := Sort(values, Time);
    sent := [];
    assert values[..0] == [];
    for i := 0 to |values|
      invariant sent == AllFlagged(values[..i])
    {
      assert values[..i + 1][..i] == values[..i];
      sent := sent + [Flagged(values[i])];
    }
    assert values[..|values|] == values;
  }

  method CollectValues(cache: Cache, filters: seq<string>) returns (values: seq<Message>)
    requires forall f | f in filters :: f in cache
    ensures values == Values(cache, filters)
  {
    values := [];
    assert filters[..0] == [];
    for i := 0 to |filters|
      invariant values == Values(cache, filters[..i])
    {
      assert filters[..i + 1][..i] == filters[..i];
      values := values + [cache[filters[i]]];
    }
    assert filters[..|filters|] == filters;
  }
}
