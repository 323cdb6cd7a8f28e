/** Parsed parameters: what a hash table of lists amounts to. */
module KeyValues {
  import opened Common

  /** A C string: signed characters, none of them zero. */
  type Char = c: int | -0x80 <= c < 0x80 && c != 0 witness 1
  type CString = seq<Char>

  datatype Pair = Pair(key: CString, val: CString)

  const NBUCKETS: nat := 64
  const WORD := 0x1_0000_0000

  /** Conversion to unsigned int. */
  function Unsigned(c: int): nat { c % WORD }

  function Sum(key: CString): (val: nat)
    ensures val < WORD
  {
    if key == [] then 0 else (Sum(key[..|key| - 1]) + Unsigned(key[|key| - 1])) % WORD
  }

  /** NBUCKETS is a power of two, so the mask is a remainder. */
  function Bucket(key: CString): (i: nat)
    ensures i < NBUCKETS
  {
    Sum(key) % NBUCKETS
  }

  /** The value of the first pair with this key. */
  function Find(pairs: seq<Pair>, key: CString): Option<CString> {
    if pairs == [] then None else if pairs[0].key == key then Some(pairs[0].val) else Find(pairs[1..], key)
  }

  /** The pairs of one bucket, in the order they were stored. */
  function InBucket(pairs: seq<Pair>, i: nat): seq<Pair> {
    if pairs == [] then []
    else
      var last := pairs[|pairs| - 1];
      InBucket(pairs[..|pairs| - 1], i) + if Bucket(last.key) == i then [last] else []
  }

  /** All buckets, one after the other. */
  function Scan(pairs: seq<Pair>, n: nat): seq<Pair> {
    if n == 0 then [] else Scan(pairs, n - 1) + InBucket(pairs, n - 1)
  }

  lemma {:induction false} FindBoth(a: seq<Pair>, b: seq<Pair>, key: CString)
    ensures Find(a + b, key) == if Find(a, key).Some? then Find(a, key) else Find(b, key)
  {
    if a == [] {
      assert a + b == b;
    } else {
      assert (a + b)[1..] == a[1..] + b;
      FindBoth(a[1..], b, key);
    }
  }

  lemma FindOne(p: Pair, key: CString)
    ensures Find([p], key) == if p.key == key then Some(p.val) else None
  {}

  /** Looking into the bucket of a key finds the first pair that was stored for it. */
  lemma {:induction false} BucketFindsTheFirst(pairs: seq<Pair>, i: nat, key: CString)
    ensures Find(InBucket(pairs, i), key) == if Bucket(key) == i then Find(pairs, key) else None
  {
    if pairs != [] {
      hide Bucket;
      var init, last := pairs[..|pairs| - 1], pairs[|pairs| - 1];
      assert pairs == init + [last];
      BucketFindsTheFirst(init, i, key);
      FindBoth(init, [last], key);
      FindOne(last, key);
      FindBoth(InBucket(init, i), [last], key);
      assert InBucket(init, i) + [] == InBucket(init, i);
    }
  }

  /** And so does a scan of all buckets. */
  lemma {:induction false} ScanFindsTheFirst(pairs: seq<Pair>, n: nat, key: CString)
    ensures Find(Scan(pairs, n), key) == if Bucket(key) < n then Find(pairs, key) else None
  {
    if n > 0 {
      ScanFindsTheFirst(pairs, n - 1, key);
      FindBoth(Scan(pairs, n - 1), InBucket(pairs, n - 1), key);
      BucketFindsTheFirst(pairs, n - 1, key);
    }
  }

  lemma InBucketMore(pairs: seq<Pair>, p: Pair, i: nat)
    ensures InBucket(pairs + [p], i) == InBucket(pairs, i) + if Bucket(p.key) == i then [p] else []
  {
    hide Bucket;
    assert (pairs + [p])[..|pairs|] == pairs;
  }

  lemma BagOfBoth(a: seq<Pair>, b: seq<Pair>, q: Pair)
    ensures multiset(a + b)[q] == multiset(a)[q] + multiset(b)[q]
  {
    assert multiset(a + b) == multiset(a) + multiset(b);
  }

  lemma ScanStep(pairs: seq<Pair>, n: nat, q: Pair)
    requires n > 0
    ensures multiset(Scan(pairs, n))[q] == multiset(Scan(pairs, n - 1))[q] + multiset(InBucket(pairs, n - 1))[q]
  {
    hide InBucket;
    BagOfBoth(Scan(pairs, n - 1), InBucket(pairs, n - 1), q);
  }

  lemma BucketStep(pairs: seq<Pair>, p: Pair, i: nat, q: Pair)
    ensures multiset(InBucket(pairs + [p], i))[q] ==
            multiset(InBucket(pairs, i))[q] + if q == p && Bucket(p.key) == i then 1 else 0
  {
    hide Bucket, InBucket;
    InBucketMore(pairs, p, i);
    if Bucket(p.key) == i {
      BagOfBoth(InBucket(pairs, i), [p], q);
    } else {
      assert InBucket(pairs, i) + [] == InBucket(pairs, i);
    }
  }

  lemma {:induction false} ScanMore(pairs: seq<Pair>, p: Pair, n: nat, q: Pair)
    ensures multiset(Scan(pairs + [p], n))[q] ==
            multiset(Scan(pairs, n))[q] + if q == p && Bucket(p.key) < n then 1 else 0
  {
    hide Bucket, InBucket, Scan;
    if n == 0 {
      ScanNone(pairs);
      ScanNone(pairs + [p]);
    } else {
      ScanMore(pairs, p, n - 1, q);
      BucketStep(pairs, p, n - 1, q);
      ScanStep(pairs, n, q);
      ScanStep(pairs + [p], n, q);
    }
  }

  lemma ScanNone(pairs: seq<Pair>)
    ensures Scan(pairs, 0) == []
  {}

  lemma {:induction false} ScanCounts(pairs: seq<Pair>, q: Pair)
    ensures multiset(Scan(pairs, NBUCKETS))[q] == multiset(pairs)[q]
  {
    if pairs == [] {
      NothingScanned(NBUCKETS);
    } else {
      var init, last := pairs[..|pairs| - 1], pairs[|pairs| - 1];
      assert pairs == init + [last];
      ScanCounts(init, q);
      ScanMore(init, last, NBUCKETS, q);
      BagOfBoth(init, [last], q);
    }
  }

  /** A scan meets every pair exactly once. */
  lemma ScanIsComplete(pairs: seq<Pair>)
    ensures multiset(Scan(pairs, NBUCKETS)) == multiset(pairs) && |Scan(pairs, NBUCKETS)| == |pairs|
  {
    hide Scan;
    forall q ensures multiset(Scan(pairs, NBUCKETS))[q] == multiset(pairs)[q] { ScanCounts(pairs, q); }
    assert multiset(Scan(pairs, NBUCKETS)) == multiset(pairs);
    assert |multiset(Scan(pairs, NBUCKETS))| == |multiset(pairs)|;
  }

  lemma {:induction false} NothingScanned(n: nat)
    ensures Scan([], n) == []
  {
    if n > 0 { NothingScanned(n - 1); }
  }
}

/** The same on linked structures, updated in place. */
module KeyValueLists {
  import opened Common
  import opened KeyValues

  class VarEl {
    const key: CString
    const val: CString
    var next: VarEl?
    var prev: VarEl?

    constructor (key: CString, val: CString)
      ensures this.key == key && this.val == val && next == null && prev == null
    {
      this.key, this.val := key, val;
      next, prev := null, null;
    }
  }

  ghost function At(els: seq<VarEl>, i: int): VarEl? {
    if 0 <= i < |els| then els[i] else null
  }

  ghost predicate Linked(els: seq<VarEl>)
    reads els
  {
    forall i | 0 <= i < |els| :: els[i].next == At(els, i + 1) && els[i].prev == At(els, i - 1)
  }

  ghost function PairsOf(els: seq<VarEl>): (pairs: seq<Pair>)
    ensures |pairs| == |els|
    ensures forall i | 0 <= i < |els| :: pairs[i] == Pair(els[i].key, els[i].val)
  {
    if els == [] then [] else PairsOf(els[..|els| - 1]) + [Pair(els[|els| - 1].key, els[|els| - 1].val)]
  }

  /** Before an element is added: nothing but the last one points to nothing. */
  lemma LastOf(els: seq<VarEl>, e: VarEl)
    requires Distinct(els) && Linked(els) && e !in els
    ensures Distinct(els + [e])
    ensures forall i | 0 <= i < |els| ::
              els[i] != e && (els[i] == At(els, |els| - 1) <==> i == |els| - 1)
              && els[i].next == At(els, i + 1) && els[i].prev == At(els, i - 1)
  {}

  lemma LinkedMore(before: seq<VarEl>, e: VarEl, els: seq<VarEl>)
    requires els == before + [e] && e.next == null && e.prev == At(before, |before| - 1)
    requires forall i | 0 <= i < |before| ::
               before[i].next == (if i == |before| - 1 then e else At(before, i + 1))
                   && before[i].prev == At(before, i - 1)
    ensures Linked(els)
  {
    forall i | 0 <= i < |els| ensures els[i].next == At(els, i + 1) && els[i].prev == At(els, i - 1) {
      assert i < |before| ==> els[i] == before[i];
    }
  }

  lemma NeighboursOf(els: seq<VarEl>, k: nat)
    requires k < |els| && Distinct(els) && Linked(els)
    ensures els[k].next == At(els, k + 1) && els[k].prev == At(els, k - 1)
    ensures forall j | 0 <= j < |els| ::
              (els[j] == At(els, k + 1) <==> j == k + 1) && (els[j] == At(els, k - 1) <==> j == k - 1)
    ensures forall j | 0 <= j < |els| :: els[j] == els[k] <==> j == k
  {}

  /** The neighbours of an element point past it, and it points nowhere. */
  method Unlink(e: VarEl, ghost els: seq<VarEl>, ghost k: nat)
    requires k < |els| && els[k] == e && Distinct(els) && Linked(els)
    modifies els
    ensures e.next == null && e.prev == null
    ensures forall j | 0 <= j < |els| && j != k ::
              els[j].next == (if j == k - 1 then At(els, k + 1) else At(els, j + 1))
              && els[j].prev == (if j == k + 1 then At(els, k - 1) else At(els, j - 1))
  {
    hide Distinct;
    NeighboursOf(els, k);
    assert forall j | 0 <= j < |els| :: els[j].next == At(els, j + 1) && els[j].prev == At(els, j - 1);
    hide Linked;
    ghost var n, p := At(els, k + 1), At(els, k - 1);
    if e.next != null { e.next.prev := e.prev; }
    assert forall j | 0 <= j < |els| ::
        els[j].next == At(els, j + 1) && els[j].prev == if els[j] == n then p else At(els, j - 1);
    if e.prev != null { e.prev.next := e.next; }
    assert forall j | 0 <= j < |els| ::
        els[j].next == (if els[j] == p then n else At(els, j + 1))
        && els[j].prev == if els[j] == n then p else At(els, j - 1);
    e.next := null;
    e.prev := null;
  }

  /** The ends of a list without element k. */
  lemma EndsWithout(els: seq<VarEl>, k: nat, head: VarEl?, tail: VarEl?)
    requires k < |els| && Distinct(els) && head == At(els, 0) && tail == At(els, |els| - 1)
    ensures var rest := els[..k] + els[k + 1..];
            && (if head == els[k] then At(els, k + 1) else head) == At(rest, 0)
            && (if tail == els[k] then At(els, k - 1) else tail) == At(rest, |rest| - 1)
  {}

  lemma OwnNeighbours(els: seq<VarEl>, k: nat)
    requires Linked(els) && k < |els|
    ensures els[k].next == At(els, k + 1) && els[k].prev == At(els, k - 1)
  {}

  /** The neighbours in a list without element k, in terms of the list before. */
  lemma AtWithout(before: seq<VarEl>, k: nat, i: nat)
    requires k < |before| && i < |before| - 1
    ensures var els, j := before[..k] + before[k + 1..], if i < k then i else i + 1;
            && els[i] == before[j]
            && At(els, i + 1) == (if j == k - 1 then At(before, k + 1) else At(before, j + 1))
            && At(els, i - 1) == if j == k + 1 then At(before, k - 1) else At(before, j - 1)
  {}

  lemma DistinctWithout(before: seq<VarEl>, k: nat)
    requires k < |before| && Distinct(before)
    ensures Distinct(before[..k] + before[k + 1..])
  {}

  /** What the four assignments of a removal have to achieve. */
  lemma LinkedWithout(before: seq<VarEl>, k: nat, els: seq<VarEl>)
    requires k < |before| && Distinct(before) && els == before[..k] + before[k + 1..]
    requires forall j | 0 <= j < |before| && j != k ::
               before[j].next == (if j == k - 1 then At(before, k + 1) else At(before, j + 1))
               && before[j].prev == (if j == k + 1 then At(before, k - 1) else At(before, j - 1))
    ensures Distinct(els) && Linked(els)
  {
    hide Distinct, At;
    DistinctWithout(before, k);
    forall i | 0 <= i < |els| ensures els[i].next == At(els, i + 1) && els[i].prev == At(els, i - 1) {
      var j := if i < k then i else i + 1;
      AtWithout(before, k, i);
      assert j < |before| && j != k;
    }
  }

  lemma PairsOfMore(els: seq<VarEl>, e: VarEl)
    ensures PairsOf(els + [e]) == PairsOf(els) + [Pair(e.key, e.val)]
  {
    assert (els + [e])[..|els|] == els;
  }

  class VarList {
    var head: VarEl?
    var tail: VarEl?
    var len: int
    /** The elements, from head to tail. */
    ghost var els: seq<VarEl>

    ghost predicate Valid()
      reads this, els
    {
      && len == |els|
      && Distinct(els) && Linked(els)
      && head == At(els, 0) && tail == At(els, |els| - 1)
    }

    constructor ()
      ensures Valid() && els == []
    {
      head, tail, len, els := null, null, 0, [];
    }

    lemma AllDistinct()
      requires Valid()
      ensures Distinct(els)
    {
      hide Distinct, Linked;
    }

    lemma HeadIsFirst()
      requires Valid()
      ensures head == if els == [] then null else els[0]
    {
      hide Distinct, Linked;
    }

    lemma TailIsIn()
      requires Valid()
      ensures tail == null || tail in els
    {
      hide Distinct, Linked;
    }

    /** A list none of whose parts is touched. */
    twostate lemma Untouched()
      requires old(Valid()) && unchanged(this)
      requires forall i | 0 <= i < |els| :: els[i].next == old(els[i].next) && els[i].prev == old(els[i].prev)
      ensures Valid()
    {
      assert els == old(els) && old(Linked(els));
      forall i | 0 <= i < |els| ensures els[i].next == At(els, i + 1) && els[i].prev == At(els, i - 1) {
        assert old(els[i].next) == At(els, i + 1) && old(els[i].prev) == At(els, i - 1);
      }
    }

    /** At the tail. */
    method Insert(e: VarEl)
      requires Valid() && e !in els
      modifies this, e, tail
      ensures Valid() && els == old(els) + [e]
      ensures old(tail) == null || old(tail) in old(els)
    {
      hide Distinct, Linked;
      ghost var before := els;
      LastOf(els, e);
      e.prev := tail;
      e.next := null;
      if tail != null { tail.next := e; }
      tail := e;
      if head == null { head := e; }
      len := len + 1;
      els := els + [e];
      LinkedMore(before, e, els);
    }

    /** Takes an element out of the list, wherever it is. */
    method Remove(e: VarEl, ghost k: nat)
      requires Valid() && k < |els| && els[k] == e
      modifies this, els
      ensures Valid() && els == old(els)[..k] + old(els)[k + 1..] && e.next == null && e.prev == null
    {
      hide Distinct, Linked, At;
      ghost var before := els;
      OwnNeighbours(els, k);
      EndsWithout(els, k, head, tail);
      var next, prev := e.next, e.prev;
      Unlink(e, els, k);
      if head == e { head := next; }
      if tail == e { tail := prev; }
      len := len - 1;
      els := els[..k] + els[k + 1..];
      LinkedWithout(before, k, els);
    }

    /** The first element with this key. */
    method FindEl(key: CString) returns (found: VarEl?)
      requires Valid()
      ensures match Find(PairsOf(els), key)
              case None => found == null
              case Some(val) => found != null && found in els && found.key == key && found.val == val
    {
      hide Distinct;
      found := head;
      ghost var k := 0;
      ghost var pairs := PairsOf(els);
      assert pairs[0..] == pairs;
      while found != null
        invariant k <= |els| && found == (if k < |els| then els[k] else null)
        invariant Find(pairs, key) == Find(pairs[k..], key)
        decreases |els| - k
      {
        assert pairs[k..][0] == pairs[k] && pairs[k..][1..] == pairs[k + 1..];
        if found.key == key { return; }
        found := found.next;
        k := k + 1;
      }
    }

    /** Frees the elements from the head on, until there is none. */
    method Clear()
      requires Valid()
      modifies this, els
      ensures Valid() && els == []
      ensures forall e | e in old(els) :: e.next == null && e.prev == null
    {
      hide Distinct, Linked, Valid;
      ghost var all := els;
      ghost var k := 0;
      AllDistinct();
      Whole(all);
      while head != null
        invariant Valid() && k <= |all| && els == all[k..]
        invariant forall i | 0 <= i < k :: all[i].next == null && all[i].prev == null
        decreases |els|
      {
        HeadIsFirst();
        FirstGone(all, k);
        Behind(all, k);
        Remove(head, 0);
        k := k + 1;
      }
      HeadIsFirst();
      assert k == |all|;
      forall e | e in all ensures e.next == null && e.prev == null {
        var i :| 0 <= i < |all| && all[i] == e;
      }
    }
  }

  lemma Whole(all: seq<VarEl>)
    ensures all[0..] == all
  {}

  lemma FirstGone(all: seq<VarEl>, k: nat)
    requires k < |all|
    ensures all[k..][0] == all[k] && all[k..][..0] + all[k..][1..] == all[k + 1..]
  {}

  lemma Behind(all: seq<VarEl>, k: nat)
    requires Distinct(all) && k < |all|
    ensures forall i | 0 <= i < k :: all[i] !in all[k..]
  {}

  lemma NextOf(els: seq<VarEl>, k: nat)
    requires Linked(els) && k < |els|
    ensures els[k].next == At(els, k + 1)
  {}
}
