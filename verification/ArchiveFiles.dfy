/** The two components that write and read an archive. */
module ArchiveFiles {
  import opened Archives
  import opened Playback

  class FileArchiver {
    /** The byte order of this machine, as the reading machine sees it. */
    const order: Order
    var archiveFile: seq<Byte>
    var suspend: bool
    ghost var archived: seq<Record>

    ghost predicate Valid()
      reads this
    {
      Fit(archived) && archiveFile == Archive(order, archived)
    }

    /** Opens the file with the marker. */
    constructor (order: Order, startSuspended: bool)
      ensures Valid() && archived == [] && suspend == startSuspended && this.order == order
    {
      this.order, suspend := order, startSuspended;
      archiveFile, archived := IntBytes(order, 1), [];
    }

    method SetSuspend(value: bool)
      requires Valid()
      modifies this`suspend
      ensures Valid() && suspend == value
    {
      suspend := value;
    }

    /** Writes each product behind its length, unless archiving is suspended. */
    method SubscriptionFilled(dataProducts: seq<Record>)
      requires Valid() && Fit(dataProducts)
      modifies this`archiveFile, this`archived
      ensures Valid() && archived == if suspend then old(archived) else old(archived) + dataProducts
    {
      hide Archive, IntBytes;
      if !suspend {
        assert old(archived) + dataProducts[..0] == old(archived);
        for i := 0 to |dataProducts|
          invariant Valid() && archived == old(archived) + dataProducts[..i]
        {
          var r := dataProducts[i];
          ArchiveMore(order, archived, r);
          archiveFile := archiveFile + IntBytes(order, |r|);
          archiveFile := archiveFile + r;
          archived := archived + [r];
          assert dataProducts[..i + 1] == dataProducts[..i] + [r];
        }
        assert dataProducts[..|dataProducts|] == dataProducts;
      }
    }
  }

  lemma {:induction false} BodyMore(order: Order, records: seq<Record>, r: Record)
    requires Fit(records) && |r| < LIMIT
    ensures Fit(records + [r]) && Body(order, records + [r]) == Body(order, records) + IntBytes(order, |r|) + r
  {
    hide IntBytes;
    assert Fit(records + [r]);
    var more := records + [r];
    if records == [] {
      assert more[1..] == [];
    } else {
      FitInit(records);
      assert more[1..] == records[1..] + [r] && more[0] == records[0];
      BodyMore(order, records[1..], r);
      Regrouped(IntBytes(order, |records[0]|) + records[0], Body(order, records[1..]), IntBytes(order, |r|), r);
    }
  }

  lemma Regrouped(a: seq<Byte>, b: seq<Byte>, c: seq<Byte>, d: seq<Byte>)
    ensures a + (b + c + d) == a + b + c + d
  {}

  lemma ArchiveMore(order: Order, records: seq<Record>, r: Record)
    requires Fit(records) && |r| < LIMIT
    ensures Fit(records + [r]) && Archive(order, records + [r]) == Archive(order, records) + IntBytes(order, |r|) + r
  {
    hide IntBytes, Body;
    BodyMore(order, records, r);
  }

  class FileReader {
    const archiveFile: seq<Byte>
    const wishes: Wishes
    var at: nat
    var good: bool
    var swapEndian: bool
    var dataProducts: seq<Record>
    var crashed: bool
    ghost var popped: seq<Record>

    ghost function View(): Shared
      reads this
    {
      Shared(archiveFile, swapEndian, at, good, crashed, dataProducts, popped)
    }

    constructor (file: seq<Byte>, wishes: Wishes)
      ensures archiveFile == file && this.wishes == wishes && View() == Open(file)
    {
      archiveFile, this.wishes := file, wishes;
      dataProducts, crashed, popped := [], false, [];
      good := |file| >= 4;
      if |file| >= 4 {
        at := 4;
        swapEndian := Signed(WordAt(file, 0)) != 1;
      } else {
        at := |file|;
        swapEndian := false;
      }
    }

    /** Reads a length and as many bytes. */
    method ReadRecord() returns (fetched: Fetched)
      ensures fetched == Fetch(archiveFile, swapEndian, at)
    {
      hide EndianSwap;
      if at + 4 > |archiveFile| { return Ended; }
      var size := Signed(if swapEndian then EndianSwap(WordAt(archiveFile, at)) else WordAt(archiveFile, at));
      if size < 0 { return Thrown; }
      if at + 4 + size > |archiveFile| { return Ended; }
      return Got(archiveFile[at + 4..at + 4 + size], at + 4 + size);
    }

    /** Reads records until one is wanted or the file ends; the number of queued products comes back. */
    method ReadNextDataProduct() returns (size: nat)
      modifies this`at, this`good, this`dataProducts, this`crashed
      ensures View() == ReadNext(wishes, old(View())) && size == |dataProducts|
    {
      hide Fetch;
      while good && !crashed
        invariant ReadNext(wishes, View()) == ReadNext(wishes, old(View()))
        decreases |archiveFile| - at
      {
        var fetched := ReadRecord();
        if fetched.Ended? {
          good := false;
          break;
        }
        if fetched.Thrown? {
          crashed := true;
          break;
        }
        at := fetched.rest;
        if !wishes.Wants(fetched.record) { continue; }
        dataProducts := dataProducts + [fetched.record];
        break;
      }
      size := |dataProducts|;
    }

    method HasData() returns (ret: bool)
      ensures ret == (dataProducts != [])
    {
      ret := |dataProducts| > 0;
    }

    /** Takes the oldest record; what was popped, queued and unread before still is, each in its place. */
    method PopGravityDataProduct() returns (gdp: Record)
      requires dataProducts != []
      modifies this`dataProducts, this`popped
      ensures View() == Pop(old(View())) && popped == old(popped) + [gdp]
      ensures forall all | Conserved(wishes, old(View()), all) :: Conserved(wishes, View(), all)
    {
      hide Conserved;
      forall all | Conserved(wishes, View(), all) ensures Conserved(wishes, Pop(View()), all) {
        PopConserves(wishes, View(), all);
      }
      gdp := dataProducts[0];
      dataProducts := dataProducts[1..];
      popped := popped + [gdp];
    }
  }
}
