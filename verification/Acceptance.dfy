/** Which of the data products arriving on a socket are handed to the subscribers. */
module Acceptance {
  import opened Common
  import opened Subscriptions

  /** GravityDataProduct's operator==. */
  predicate Same(a: Product, b: Product) {
    a.id == b.id && a.data == b.data
  }

  /** Not a repetition of the last value. */
  predicate Newer(last: Option<Product>, p: Product) {
    last.None? || last.value.timestamp < p.timestamp || (last.value.timestamp == p.timestamp && !Same(last.value, p))
  }

  function Last(lastCached: map<Socket, Product>, s: Socket): Option<Product> {
    if s in lastCached then Some(lastCached[s]) else None
  }

  /** What a relay passes on may have come from its source already. */
  predicate SeenElsewhere(lastCached: map<Socket, Product>, p: Product) {
    exists t | t in lastCached ::
      lastCached[t].timestamp == p.timestamp && lastCached[t].componentId == p.componentId && Same(lastCached[t], p)
  }

  predicate Accepts(lastCached: map<Socket, Product>, s: Socket, p: Product) {
    Newer(Last(lastCached, s), p) && !(s !in lastCached && p.relayed && SeenElsewhere(lastCached, p))
  }

  datatype Reading = Reading(lastCached: map<Socket, Product>, delivered: seq<Product>, mismatch: bool)

  /** Reading a socket until it is empty, or until a product carries the registration time of another publisher. */
  function Read(lastCached: map<Socket, Product>, s: Socket, regTime: nat, receiveCached: bool,
                products: seq<Product>): (r: Reading)
    ensures forall t | t != s ::
              (t in r.lastCached <==> t in lastCached) && (t in lastCached ==> r.lastCached[t] == lastCached[t])
    ensures forall p | p in r.delivered :: p in products
  {
    if products == [] then Reading(lastCached, [], false)
    else
      var last := |products| - 1;
      var r := Read(lastCached, s, regTime, receiveCached, products[..last]);
      var p := products[last];
      if r.mismatch then r
      else if p.regTime != regTime then r.(mismatch := true)
      else if Accepts(r.lastCached, s, p) then
        Reading(r.lastCached[s := p], if p.cached && !receiveCached then r.delivered else r.delivered + [p], false)
      else r
  }
}
