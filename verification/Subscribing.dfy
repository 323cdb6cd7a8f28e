/** The subscription manager's reaction to its node, to publishers and to the service directory. */
module Subscribing {
  import opened Common
  import opened Directory
  import opened Relays
  import opened Subscriptions
  import opened Reconciliation
  import opened Refreshing
  import opened Updating
  import opened Acceptance

  // ----- subscribing

  /** The first subscription to a product and a filter opens a socket for the directory's publisher updates. */
  function Prepare(st: Tables, sub: Sub, receiveCached: bool): Tables {
    if sub in st.subscriptions then st
    else st.(subscriptions := st.subscriptions[sub := Subscription(receiveCached, map[], map[], {}, st.next)],
             poll := st.poll + [st.next],
             next := st.next + 1)
  }

  function Join(st: Tables, sub: Sub, p: Publisher): (st': Tables)
    requires sub in st.subscriptions
    ensures st'.subscriptions.Keys == st.subscriptions.Keys
  {
    if p.Url() in st.subscriptions[sub].pollItemMap then st else Connect(st, sub, p.Url(), p.regTime)
  }

  function JoinAll(st: Tables, sub: Sub, list: seq<Publisher>): (st': Tables)
    requires sub in st.subscriptions
    ensures st'.subscriptions.Keys == st.subscriptions.Keys
  {
    if list == [] then st else Join(JoinAll(st, sub, list[..|list| - 1]), sub, list[|list| - 1])
  }

  function Subscribed(st: Tables, sub: Sub, subscribers: set<nat>): Tables
    requires sub in st.subscriptions
  {
    st.(subscriptions := st.subscriptions[sub := st.subscriptions[sub].(subscribers := subscribers)])
  }

  function Enlist(st: Tables, sub: Sub, subscriber: nat): Tables
    requires sub in st.subscriptions
  {
    Subscribed(st, sub, st.subscriptions[sub].subscribers + {subscriber})
  }

  function AddSubscription(st: Tables, sub: Sub, receiveCached: bool, subscriber: nat, list: seq<Publisher>): Tables {
    Enlist(JoinAll(Prepare(st, sub, receiveCached), sub, list), sub, subscriber)
  }

  // ----- unsubscribing

  /** The last subscriber takes the subscription and all its sockets with it. */
  function RemoveSubscription(st: Tables, sub: Sub, subscriber: nat): Tables {
    if sub !in st.subscriptions then st
    else
      var d := st.subscriptions[sub];
      var subscribers := d.subscribers - {subscriber};
      if subscribers != {} then
        Subscribed(st, sub, subscribers)
      else
        var sockets := d.pollItemMap.Values;
        st.(subscriptions := st.subscriptions - {sub},
            sockets := st.sockets - sockets,
            verification := st.verification - sockets,
            lastCached := st.lastCached - sockets,
            poll := Dropped(st.poll, sockets + {d.updateSocket}))
  }

  // ----- data

  /** Data arrives on a socket; one that carries another publisher's registration time has its socket closed. */
  function Receive(st: Tables, s: Socket, products: seq<Product>): Tables
    requires s in st.sockets && st.sockets[s] in st.subscriptions
  {
    var sub := st.sockets[s];
    var r := Read(st.lastCached, s, Verification(st, s), st.subscriptions[sub].receiveCached, products);
    var st1 := st.(lastCached := r.lastCached);
    if r.mismatch then Delete(st1, sub, s) else st1
  }

  // ----- one pass

  datatype Event =
    | Subscribe(sub: Sub, receiveCached: bool, subscriber: nat, list: seq<Publisher>)
    | Unsubscribe(sub: Sub, subscriber: nat)
    | Update(product: Key, list: seq<Publisher>)
    | Data(from: Sub, url: string, products: seq<Product>)

  /** The component a manager runs in and the address of its host decide which publishers it trims. */
  datatype Place = Place(componentId: string, ip: string)

  ghost function Next(st: Tables, place: Place, e: Event): (st': Tables)
    requires Consistent(st)
  {
    match e
    case Subscribe(sub, receiveCached, subscriber, list) =>
      AddSubscription(st, sub, receiveCached, subscriber, Trimmed(list, place.componentId, place.ip))
    case Unsubscribe(sub, subscriber) => RemoveSubscription(st, sub, subscriber)
    case Update(product, list) =>
      if product.id == "" then st else UpdatePublishers(st, product, Trimmed(list, place.componentId, place.ip))
    case Data(sub, url, products) =>
      if sub in st.subscriptions && url in st.subscriptions[sub].pollItemMap then
        CurrentSocketConsistent(st, sub, url);
        Receive(st, st.subscriptions[sub].pollItemMap[url], products)
      else st
  }

  lemma CurrentSocketConsistent(st: Tables, sub: Sub, url: string)
    requires Consistent(st) && sub in st.subscriptions && url in st.subscriptions[sub].pollItemMap
    ensures var s := st.subscriptions[sub].pollItemMap[url];
            s in st.sockets && st.sockets[s] == sub && s in st.verification && s != NULL
            && s in st.subscriptions[sub].socketToUrlMap && st.subscriptions[sub].socketToUrlMap[s] == url
  {
    InverseOf(st, {}, sub);
    hide Sound;
    CurrentSocket(st, {}, sub, url);
  }
}
