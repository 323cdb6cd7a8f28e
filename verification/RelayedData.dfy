/** What a subscriber that moves from a source to a relay of it accepts of the relayed data. */
module RelayedData {
  import opened Subscriptions
  import opened Acceptance
  import opened Replays

  /** The same publication, on whatever way it came. */
  predicate Twins(a: Product, b: Product) {
    a.timestamp == b.timestamp && a.componentId == b.componentId && a.id == b.id && a.data == b.data
  }

  /** It is the last value of some socket. */
  predicate Seen(lastCached: map<Socket, Product>, p: Product) {
    exists t :: t in lastCached && Twins(lastCached[t], p)
  }

  /** What is handed on of the products that are accepted. */
  function Kept(products: seq<Product>, receiveCached: bool): seq<Product> {
    if products == [] then []
    else
      var last := products[|products| - 1];
      Kept(products[..|products| - 1], receiveCached) + if last.cached && !receiveCached then [] else [last]
  }

  predicate Expected(products: seq<Product>, regTime: nat) {
    forall i | 0 <= i < |products| :: products[i].regTime == regTime
  }

  predicate Relayed(products: seq<Product>, regTime: nat) {
    Expected(products, regTime) && forall i | 0 <= i < |products| :: products[i].relayed
  }

  // ----- one product

  lemma ReadOne(lastCached: map<Socket, Product>, s: Socket, regTime: nat, receiveCached: bool, p: Product)
    ensures Read(lastCached, s, regTime, receiveCached, [p]) ==
            if p.regTime != regTime then Reading(lastCached, [], true)
            else if Accepts(lastCached, s, p) then Reading(lastCached[s := p], Kept([p], receiveCached), false)
            else Reading(lastCached, [], false)
  {
    hide Accepts;
    assert [p][..0] == [];
    assert Read(lastCached, s, regTime, receiveCached, []) == Reading(lastCached, [], false);
    assert Kept([], receiveCached) == [];
  }

  /** The first relayed product on a socket is accepted exactly when no socket has it as its last value: same timestamp,
      component, product and data. */
  lemma FirstRelayedExactly(lastCached: map<Socket, Product>, s: Socket, regTime: nat, receiveCached: bool, p: Product)
    requires s !in lastCached && p.relayed && p.regTime == regTime
    ensures var r := Read(lastCached, s, regTime, receiveCached, [p]);
            && !r.mismatch
            && (r.lastCached == lastCached[s := p] <==>
                forall t | t in lastCached ::
                  !(lastCached[t].timestamp == p.timestamp && lastCached[t].componentId == p.componentId
                    && lastCached[t].id == p.id && lastCached[t].data == p.data))
            && (s !in r.lastCached ==> r == Reading(lastCached, [], false))
            && (s in r.lastCached ==> r.delivered == if p.cached && !receiveCached then [] else [p])
  {
    ReadOne(lastCached, s, regTime, receiveCached, p);
    assert Kept([p], receiveCached) == if p.cached && !receiveCached then [] else [p] by { assert [p][..0] == []; }
    if SeenElsewhere(lastCached, p) {
      assert s !in lastCached;
    } else {
      assert forall t | t in lastCached ::
          !(lastCached[t].timestamp == p.timestamp && lastCached[t].componentId == p.componentId
            && Same(lastCached[t], p));
    }
  }

  // ----- a stream

  lemma {:induction false} SeenAreSkipped(lastCached: map<Socket, Product>, s: Socket, regTime: nat,
                                          receiveCached: bool, products: seq<Product>)
    requires s !in lastCached && Relayed(products, regTime) && forall p | p in products :: Seen(lastCached, p)
    ensures Read(lastCached, s, regTime, receiveCached, products) == Reading(lastCached, [], false)
  {
    hide Seen;
    if products != [] {
      var init, last := products[..|products| - 1], products[|products| - 1];
      assert products == init + [last] && last in products;
      SeenAreSkipped(lastCached, s, regTime, receiveCached, init);
      SeenIsRefused(lastCached, s, last);
    }
  }

  lemma SeenIsRefused(lastCached: map<Socket, Product>, s: Socket, p: Product)
    requires s !in lastCached && p.relayed
    ensures Accepts(lastCached, s, p) <==> !Seen(lastCached, p)
  {
    if Seen(lastCached, p) {
      var t :| t in lastCached && Twins(lastCached[t], p);
      assert SeenElsewhere(lastCached, p);
    }
  }

  /** Once a socket has a value, products that rise above it are accepted, relayed or not. */
  lemma {:induction false} RisesThrough(lastCached: map<Socket, Product>, s: Socket, regTime: nat, receiveCached: bool,
                                        products: seq<Product>)
    requires s in lastCached && Expected(products, regTime) && Rising([lastCached[s]] + products)
    ensures Read(lastCached, s, regTime, receiveCached, products) ==
            Reading(lastCached[s := ([lastCached[s]] + products)[|products|]], Kept(products, receiveCached), false)
  {
    var all := [lastCached[s]] + products;
    if products == [] {
      assert lastCached[s := lastCached[s]] == lastCached;
    } else {
      var init, last := products[..|products| - 1], products[|products| - 1];
      assert all[..|all| - 1] == [lastCached[s]] + init;
      assert all[|all| - 1] == last && all[|init|] == ([lastCached[s]] + init)[|init|];
      assert all[|init|].timestamp < all[|all| - 1].timestamp;
      RisesThrough(lastCached, s, regTime, receiveCached, init);
      hide Rising;
      var r := Read(lastCached, s, regTime, receiveCached, init);
      assert r.lastCached[s := last] == lastCached[s := last];
    }
  }

  /** From the first unseen product on. */
  lemma UnseenIsRead(lastCached: map<Socket, Product>, s: Socket, regTime: nat, receiveCached: bool,
                     products: seq<Product>)
    requires s !in lastCached && Relayed(products, regTime) && Rising(products)
    requires products != [] && !Seen(lastCached, products[0])
    ensures Read(lastCached, s, regTime, receiveCached, products) ==
            Reading(lastCached[s := products[|products| - 1]], Kept(products, receiveCached), false)
  {
    hide Seen, Read, Accepts, Kept;
    var p, rest := products[0], products[1..];
    SeenIsRefused(lastCached, s, p);
    assert [p] + rest == products;
    FirstAndRest(lastCached, s, regTime, receiveCached, p, rest);
  }

  /** A first product that is accepted, and products that rise above it. */
  lemma FirstAndRest(lastCached: map<Socket, Product>, s: Socket, regTime: nat, receiveCached: bool, p: Product,
                     rest: seq<Product>)
    requires s !in lastCached && Expected([p] + rest, regTime) && Rising([p] + rest) && Accepts(lastCached, s, p)
    ensures Read(lastCached, s, regTime, receiveCached, [p] + rest) ==
            Reading(lastCached[s := ([p] + rest)[|rest|]], Kept([p] + rest, receiveCached), false)
  {
    hide Read, Accepts, Kept, Rising;
    assert ([p] + rest)[0] == p && forall i | 0 <= i < |rest| :: ([p] + rest)[i + 1] == rest[i];
    ReadOne(lastCached, s, regTime, receiveCached, p);
    var with := lastCached[s := p];
    RisesThrough(with, s, regTime, receiveCached, rest);
    assert with[s := ([p] + rest)[|rest|]] == lastCached[s := ([p] + rest)[|rest|]];
    ReadBoth(lastCached, s, regTime, receiveCached, [p], rest);
    KeptBoth([p], rest, receiveCached);
  }

  lemma RisingTail(products: seq<Product>, k: nat)
    requires Rising(products) && k <= |products|
    ensures Rising(products[k..])
  {}

  /** Of a rising stream of relayed products a new socket is given all from the first one on that no socket has as its
      last value. */
  lemma RelayedFromTheFirstUnseen(lastCached: map<Socket, Product>, s: Socket, regTime: nat, receiveCached: bool,
                                  products: seq<Product>, k: nat)
    requires s !in lastCached && Relayed(products, regTime) && Rising(products)
    requires k <= |products| && (forall j | 0 <= j < k :: Seen(lastCached, products[j]))
    requires k < |products| ==> !Seen(lastCached, products[k])
    ensures Read(lastCached, s, regTime, receiveCached, products) ==
            Reading(if k < |products| then lastCached[s := products[|products| - 1]] else lastCached,
                    Kept(products[k..], receiveCached), false)
  {
    hide Seen, Read, Accepts, Kept, Rising;
    SeenAreSkipped(lastCached, s, regTime, receiveCached, products[..k]);
    NothingKept(receiveCached);
    if k < |products| {
      RisingTail(products, k);
      UnseenIsRead(lastCached, s, regTime, receiveCached, products[k..]);
      assert products == products[..k] + products[k..];
      ReadBoth(lastCached, s, regTime, receiveCached, products[..k], products[k..]);
      assert [] + Kept(products[k..], receiveCached) == Kept(products[k..], receiveCached);
    } else {
      assert products[..k] == products && products[k..] == [];
    }
  }

  /** A new socket is given all that its source publishes from then on. */
  lemma SourceIsRead(lastCached: map<Socket, Product>, s: Socket, regTime: nat, receiveCached: bool,
                     products: seq<Product>)
    requires s !in lastCached && Expected(products, regTime) && Rising(products)
    requires products != [] && !products[0].relayed
    ensures Read(lastCached, s, regTime, receiveCached, products) ==
            Reading(lastCached[s := products[|products| - 1]], Kept(products, receiveCached), false)
  {
    var p, rest := products[0], products[1..];
    assert Accepts(lastCached, s, p);
    hide Read, Accepts, Kept;
    assert [p] + rest == products;
    FirstAndRest(lastCached, s, regTime, receiveCached, p, rest);
  }

  lemma NothingKept(receiveCached: bool)
    ensures Kept([], receiveCached) == []
  {}

  lemma {:induction false} KeptBoth(a: seq<Product>, b: seq<Product>, receiveCached: bool)
    ensures Kept(a + b, receiveCached) == Kept(a, receiveCached) + Kept(b, receiveCached)
  {
    if b == [] {
      assert a + b == a;
    } else {
      assert (a + b)[..|a + b| - 1] == a + b[..|b| - 1];
      KeptBoth(a, b[..|b| - 1], receiveCached);
    }
  }

  // ----- later on

  function Unmarked(p: Product): Product { p.(relayed := false) }

  function AllUnmarked(products: seq<Product>): seq<Product> {
    if products == [] then [] else AllUnmarked(products[..|products| - 1]) + [Unmarked(products[|products| - 1])]
  }

  lemma {:induction false} UnmarkedMore(products: seq<Product>, p: Product)
    ensures AllUnmarked(products + [p]) == AllUnmarked(products) + [Unmarked(p)]
  {
    assert (products + [p])[..|products|] == products;
  }

  lemma ReadMore(lastCached: map<Socket, Product>, s: Socket, regTime: nat, receiveCached: bool,
                 products: seq<Product>, p: Product)
    ensures var r := Read(lastCached, s, regTime, receiveCached, products);
            Read(lastCached, s, regTime, receiveCached, products + [p]) ==
            if r.mismatch then r
            else if p.regTime != regTime then r.(mismatch := true)
            else if Accepts(r.lastCached, s, p) then
              Reading(r.lastCached[s := p], if p.cached && !receiveCached then r.delivered else r.delivered + [p],
                      false)
            else r
  {
    hide Accepts;
    assert (products + [p])[..|products|] == products;
  }

  lemma SameChoice(a: map<Socket, Product>, b: map<Socket, Product>, s: Socket, p: Product)
    requires s in a && s in b && Unmarked(a[s]) == Unmarked(b[s])
    ensures Accepts(a, s, p) <==> Accepts(b, s, Unmarked(p))
  {}

  /** Once a socket has a value it makes no difference whether a product was relayed. */
  lemma {:induction false} MarksAreIgnored(lastCached: map<Socket, Product>, s: Socket, regTime: nat,
                                           receiveCached: bool, products: seq<Product>)
    requires s in lastCached
    ensures var r := Read(lastCached, s, regTime, receiveCached, products);
            var q := Read(lastCached, s, regTime, receiveCached, AllUnmarked(products));
            && q.mismatch == r.mismatch && q.delivered == AllUnmarked(r.delivered)
            && s in r.lastCached && s in q.lastCached && Unmarked(q.lastCached[s]) == Unmarked(r.lastCached[s])
  {
    if products != [] {
      hide Read, Accepts, AllUnmarked;
      var init, last := products[..|products| - 1], products[|products| - 1];
      assert products == init + [last];
      MarksAreIgnored(lastCached, s, regTime, receiveCached, init);
      UnmarkedMore(init, last);
      ReadMore(lastCached, s, regTime, receiveCached, init, last);
      ReadMore(lastCached, s, regTime, receiveCached, AllUnmarked(init), Unmarked(last));
      var r := Read(lastCached, s, regTime, receiveCached, init);
      UnmarkedMore(r.delivered, last);
      SameChoice(r.lastCached, Read(lastCached, s, regTime, receiveCached, AllUnmarked(init)).lastCached, s, last);
    }
  }

  // ----- moving from a source to its relay

  /** The relay passes the publications of the source on, from number m on. */
  predicate Relays(published: seq<Product>, m: nat, relayed: seq<Product>) {
    && m + |relayed| == |published|
    && forall i | 0 <= i < |relayed| :: Twins(published[m + i], relayed[i])
  }

  /** The same publications in the same order. */
  predicate AllTwins(a: seq<Product>, b: seq<Product>) {
    |a| == |b| && forall i | 0 <= i < |a| :: Twins(a[i], b[i])
  }

  lemma RelayedRises(published: seq<Product>, m: nat, relayed: seq<Product>)
    requires Rising(published) && Relays(published, m, relayed)
    ensures Rising(relayed)
  {
    forall i, j | 0 <= i < j < |relayed| ensures relayed[i].timestamp < relayed[j].timestamp {
      assert Twins(published[m + i], relayed[i]) && Twins(published[m + j], relayed[j]);
    }
  }

  /** Of the source's publications a subscriber that has read n of them remembers the last one only. */
  lemma SeenExactly(lastCached: map<Socket, Product>, t: Socket, published: seq<Product>, n: nat, i: nat, p: Product)
    requires Rising(published) && 0 < n <= |published| && i < |published| && Twins(published[i], p)
    requires t in lastCached && lastCached[t] == published[n - 1]
    requires forall u, j | u in lastCached && u != t && 0 <= j < |published| :: !Twins(lastCached[u], published[j])
    ensures Seen(lastCached, p) <==> i == n - 1
  {
    if Seen(lastCached, p) {
      var u :| u in lastCached && Twins(lastCached[u], p);
      if u != t { assert Twins(lastCached[u], published[i]); }
    }
    if i == n - 1 { assert Twins(lastCached[t], p); }
  }

  lemma {:induction false} KeepsAll(products: seq<Product>, receiveCached: bool)
    requires receiveCached || forall p | p in products :: !p.cached
    ensures Kept(products, receiveCached) == products
  {
    if products != [] {
      assert products == products[..|products| - 1] + [products[|products| - 1]];
      KeepsAll(products[..|products| - 1], receiveCached);
    }
  }

  /** Nothing that was read before is one of the publications. */
  predicate Unrelated(lastCached: map<Socket, Product>, published: seq<Product>) {
    forall u, j | u in lastCached && 0 <= j < |published| :: !Twins(lastCached[u], published[j])
  }

  /** A subscriber reads n publications from the source, and then, on a new socket, all the relay passes on, which
      begins with publication m. It is given every publication exactly once, and in order, if and only if the relay
      begins with the next publication or with the last one that was read. */
  lemma RelayTakesOverExactly(lastCached: map<Socket, Product>, t: Socket, s: Socket, sourceTime: nat, relayTime: nat,
                              receiveCached: bool, published: seq<Product>, n: nat, m: nat, relayed: seq<Product>)
    requires Rising(published) && 0 < n <= |published| && m < |published| && !published[0].relayed
    requires t !in lastCached && s !in lastCached && s != t && Unrelated(lastCached, published)
    requires Expected(published, sourceTime) && Relays(published, m, relayed) && Relayed(relayed, relayTime)
    requires receiveCached || forall p | p in published + relayed :: !p.cached
    ensures var r := Read(lastCached, t, sourceTime, receiveCached, published[..n]);
            var q := Read(r.lastCached, s, relayTime, receiveCached, relayed);
            && !r.mismatch && !q.mismatch
            && (AllTwins(r.delivered + q.delivered, published) <==> m == n - 1 || m == n)
  {
    hide Twins, Seen, Read, Kept;
    SourceIsRead(lastCached, t, sourceTime, receiveCached, published[..n]);
    KeepsAll(published[..n], receiveCached);
    var now := lastCached[t := published[n - 1]];
    RelayedRises(published, m, relayed);
    forall i | 0 <= i < |relayed| ensures Seen(now, relayed[i]) <==> m + i == n - 1 {
      SeenExactly(now, t, published, n, m + i, relayed[i]);
    }
    hide Rising;
    var k := if m == n - 1 then 1 else 0;
    RelayedFromTheFirstUnseen(now, s, relayTime, receiveCached, relayed, k);
    KeepsAll(relayed[k..], receiveCached);
    Continued(published, n, m, relayed, k);
  }

  lemma Continued(published: seq<Product>, n: nat, m: nat, relayed: seq<Product>, k: nat)
    requires 0 < n <= |published| && m < |published| && Relays(published, m, relayed)
    requires k == if m == n - 1 then 1 else 0
    ensures AllTwins(published[..n] + relayed[k..], published) <==> m == n - 1 || m == n
  {
    hide Twins;
    var all := published[..n] + relayed[k..];
    assert |all| == n + |published| - m - k;
    if m + k == n {
      forall i | 0 <= i < |all| ensures Twins(all[i], published[i]) {
        if i < n {
          Twin(published[i]);
        } else {
          TwinsBack(published[m + (i - n + k)], relayed[i - n + k]);
        }
      }
    }
  }

  lemma Twin(p: Product)
    ensures Twins(p, p)
  {}

  lemma TwinsBack(a: Product, b: Product)
    requires Twins(a, b)
    ensures Twins(b, a)
  {}
}
