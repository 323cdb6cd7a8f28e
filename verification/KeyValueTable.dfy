/** The hash table of parameter lists. */
module KeyValueTables {
  import opened Common
  import opened KeyValues
  import opened KeyValueLists

  lemma OtherBuckets(buckets: seq<VarList>, i: nat)
    requires Distinct(buckets) && i < |buckets|
    ensures forall j | 0 <= j < |buckets| && j != i :: buckets[j] != buckets[i]
  {}

  class KeyValueTable {
    const buckets: seq<VarList>
    /** What has been stored, in order. */
    ghost var stored: seq<Pair>
    ghost var Repr: set<object>

    ghost predicate Valid()
      reads this, Repr
    {
      && |buckets| == NBUCKETS && Distinct(buckets) && this !in Repr
      && (forall i | 0 <= i < |buckets| ::
            buckets[i] in Repr && (forall e | e in buckets[i].els :: e in Repr)
            && buckets[i].Valid() && PairsOf(buckets[i].els) == InBucket(stored, i))
      && (forall i, j, e | 0 <= i < |buckets| && 0 <= j < |buckets| && i != j && e in buckets[i].els ::
            e !in buckets[j].els)
    }

    constructor ()
      ensures Valid() && fresh(Repr) && stored == []
    {
      var lists: seq<VarList> := [];
      while |lists| < NBUCKETS
        invariant |lists| <= NBUCKETS && Distinct(lists)
        invariant forall k | 0 <= k < |lists| :: fresh(lists[k]) && lists[k].Valid() && lists[k].els == []
      {
        var list := new VarList();
        lists := lists + [list];
      }
      buckets := lists;
      stored := [];
      Repr := set k | 0 <= k < |lists| :: lists[k];
    }

    /** keyvalue_getstring: the value of the first pair stored for the key, or nothing. */
    method GetString(key: CString) returns (val: CString)
      requires Valid()
      ensures val == Find(stored, key).Or([])
      ensures val == Find(Scan(stored, NBUCKETS), key).Or([])
    {
      BucketFindsTheFirst(stored, Bucket(key), key);
      ScanFindsTheFirst(stored, NBUCKETS, key);
      var list := buckets[Bucket(key)];
      assert list.Valid();
      var found := list.FindEl(key);
      if found != null { return found.val; }
      return [];
    }

    /** What the parser does with a definition. */
    method Store(key: CString, val: CString)
      requires Valid()
      modifies this, Repr
      ensures Valid() && stored == old(stored) + [Pair(key, val)] && fresh(Repr - old(Repr))
    {
      hide Bucket, InBucket, PairsOf, Linked, Distinct, VarList.Valid;
      var e := new VarEl(key, val);
      var i := Bucket(key);
      var list := buckets[i];
      OtherBuckets(buckets, i);
      list.TailIsIn();
      PairsOfMore(list.els, e);
      label before:
      list.Insert(e);
      forall j | 0 <= j < |buckets| && j != i
        ensures buckets[j].Valid() && buckets[j].els == old@before(buckets[j].els)
      {
        buckets[j].Untouched@before();
      }
      stored := stored + [Pair(key, val)];
      Repr := Repr + {e};
      forall j | 0 <= j < |buckets| ensures PairsOf(buckets[j].els) == InBucket(stored, j) {
        InBucketMore(old(stored), Pair(key, val), j);
      }
    }

    /** keyvalue_getkeys: the keys of all buckets, and an end mark behind them. */
    method GetKeys() returns (keys: array<Option<CString>>)
      requires Valid()
      ensures fresh(keys) && keys.Length == |stored| + 1 && keys[|stored|] == None
      ensures |Scan(stored, NBUCKETS)| == |stored|
      ensures forall k | 0 <= k < |stored| :: keys[k] == Some(Scan(stored, NBUCKETS)[k].key)
    {
      hide InBucket, Distinct, Linked, Scan, PairsOf, Bucket;
      ScanIsComplete(stored);
      ghost var all := Scan(stored, NBUCKETS);
      var nentries := CountEntries();
      keys := new Option<CString>[nentries + 1](_ => None);
      var j := 0;
      ScanNone(stored);
      for i := 0 to NBUCKETS
        invariant j == |Scan(stored, i)| <= |all|
        invariant Valid() && forall k | 0 <= k < j :: keys[k] == Some(all[k].key)
        invariant keys.Length == |stored| + 1 && fresh(keys) && forall k | j <= k < keys.Length :: keys[k] == None
      {
        ScanPrefix(stored, i + 1, NBUCKETS);
        ScanIsOneMore(stored, i);
        j := CopyKeys(buckets[i], keys, j);
      }
    }

    method CountEntries() returns (nentries: nat)
      requires Valid()
      ensures nentries == |Scan(stored, NBUCKETS)|
    {
      hide InBucket, Distinct, Linked, Scan;
      nentries := 0;
      ScanNone(stored);
      for i := 0 to NBUCKETS
        invariant nentries == |Scan(stored, i)|
      {
        ScanIsOneMore(stored, i);
        assert buckets[i].Valid();
        nentries := nentries + buckets[i].len;
      }
    }

    /** keyvalue_close: frees everything. */
    method Close()
      requires Valid()
      modifies this, Repr
      ensures Valid() && stored == []
    {
      hide InBucket, Linked, PairsOf;
      assert forall i, j | 0 <= i < j < |buckets| :: buckets[i] != buckets[j];
      hide Distinct;
      for i := 0 to NBUCKETS
        invariant Repr == old(Repr)
        invariant forall j | 0 <= j < i :: buckets[j].els == []
        invariant forall j | i <= j < NBUCKETS :: buckets[j].els == old(buckets[j].els)
        invariant forall j | 0 <= j < NBUCKETS :: buckets[j].Valid()
      {
        ghost var list := buckets[i];
        label before:
        buckets[i].Clear();
        forall j | 0 <= j < NBUCKETS && j != i
          ensures buckets[j].Valid() && buckets[j].els == old@before(buckets[j].els)
        {
          forall m | 0 <= m < |buckets[j].els| ensures buckets[j].els[m] !in old@before(list.els) {
            assert buckets[j].els[m] in old(buckets[j].els);
          }
          buckets[j].Untouched@before();
        }
      }
      stored := [];
      forall j | 0 <= j < NBUCKETS ensures PairsOf(buckets[j].els) == InBucket(stored, j) { NothingInBucket(j); }
    }
  }

  lemma NothingInBucket(i: nat)
    ensures InBucket([], i) == [] == PairsOf([])
  {}

  lemma ScanIsOneMore(pairs: seq<Pair>, i: nat)
    ensures Scan(pairs, i + 1) == Scan(pairs, i) + InBucket(pairs, i)
  {}

  lemma {:induction false} ScanPrefix(pairs: seq<Pair>, i: nat, n: nat)
    requires i <= n
    ensures Scan(pairs, i) <= Scan(pairs, n)
  {
    if i < n { ScanPrefix(pairs, i, n - 1); }
  }

  method CopyKeys(list: VarList, keys: array<Option<CString>>, start: nat) returns (j: nat)
    requires list.Valid() && start + |list.els| <= keys.Length
    modifies keys
    ensures j == start + |list.els|
    ensures forall k | 0 <= k < keys.Length ::
              keys[k] == if start <= k < j then Some(PairsOf(list.els)[k - start].key) else old(keys[k])
  {
    hide Distinct, Linked;
    j := start;
    var el := list.head;
    ghost var pairs := PairsOf(list.els);
    while el != null
      invariant start <= j <= start + |list.els| && el == At(list.els, j - start)
      invariant forall k | 0 <= k < keys.Length ::
                  keys[k] == if start <= k < j then Some(pairs[k - start].key) else old(keys[k])
      decreases start + |list.els| - j
    {
      NextOf(list.els, j - start);
      keys[j] := Some(el.key);
      el := el.next;
      j := j + 1;
    }
  }
}
