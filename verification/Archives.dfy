/** The archive file: a marker, then records behind their lengths. */
module Archives {

  type Byte = x: int | 0 <= x < 0x100

  /** An int of 32 bits as it lies in memory on the reading machine, lowest byte first. */
  datatype Word = Word(b0: Byte, b1: Byte, b2: Byte, b3: Byte) {
    function Reversed(): Word { Word(b3, b2, b1, b0) }
    function Bytes(): seq<Byte> { [b0, b1, b2, b3] }
  }

  function Signed(w: Word): int {
    w.b0 + 0x100 * w.b1 + 0x1_0000 * w.b2 + 0x100_0000 * w.b3 - if w.b3 >= 0x80 then 0x1_0000_0000 else 0
  }

  const LIMIT := 0x8000_0000

  function WordOf(n: int): Word
    requires 0 <= n < LIMIT
  {
    Word(n % 0x100, n / 0x100 % 0x100, n / 0x100 / 0x100 % 0x100, n / 0x100 / 0x100 / 0x100)
  }

  lemma WordHolds(n: int)
    requires 0 <= n < LIMIT
    ensures Signed(WordOf(n)) == n && WordOf(n).b0 == n % 0x100
  {
    var a := n / 0x100;
    var b := a / 0x100;
    assert n == 0x100 * a + n % 0x100;
    assert a == 0x100 * b + a % 0x100;
    assert b == 0x100 * (b / 0x100) + b % 0x100;
  }

  // ----- endian_swap

  function Or(a: nat, b: nat, bits: nat): nat {
    if bits == 0 then 0 else 2 * Or(a / 2, b / 2, bits - 1) + if a % 2 == 1 || b % 2 == 1 then 1 else 0
  }

  function Power(bits: nat): (p: nat)
    ensures p > 0
  {
    if bits == 0 then 1 else 2 * Power(bits - 1)
  }

  lemma {:induction false} OrInRange(a: nat, b: nat, bits: nat)
    ensures Or(a, b, bits) < Power(bits)
  {
    if bits > 0 { OrInRange(a / 2, b / 2, bits - 1); }
  }

  lemma {:induction false} OrZero(a: nat, bits: nat)
    requires a < Power(bits)
    ensures Or(a, 0, bits) == a && Or(0, a, bits) == a
  {
    if bits > 0 { OrZero(a / 2, bits - 1); }
  }

  lemma {:induction false} OrOnes(a: nat, bits: nat)
    ensures Or(Power(bits) - 1, a, bits) == Power(bits) - 1
  {
    if bits > 0 {
      assert (Power(bits) - 1) / 2 == Power(bits - 1) - 1;
      OrOnes(a / 2, bits - 1);
    }
  }

  lemma EightBits()
    ensures Power(8) == 0x100
  {
    assert Power(4) == 16;
  }

  function OrByte(a: Byte, b: Byte): Byte {
    OrInRange(a, b, 8);
    EightBits();
    Or(a, b, 8)
  }

  function OrWord(v: Word, w: Word): Word {
    Word(OrByte(v.b0, w.b0), OrByte(v.b1, w.b1), OrByte(v.b2, w.b2), OrByte(v.b3, w.b3))
  }

  /** What an arithmetic shift to the right moves in. */
  function Sign(w: Word): Byte { if w.b3 >= 0x80 then 0xFF else 0 }

  function ShiftRight24(w: Word): Word { Word(w.b3, Sign(w), Sign(w), Sign(w)) }

  function ShiftRight8(w: Word): Word { Word(w.b1, w.b2, w.b3, Sign(w)) }

  function ShiftLeft8(w: Word): Word { Word(0, w.b0, w.b1, w.b2) }

  function ShiftLeft24(w: Word): Word { Word(0, 0, 0, w.b0) }

  function OnlyByte1(w: Word): Word { Word(0, w.b1, 0, 0) }

  function OnlyByte2(w: Word): Word { Word(0, 0, w.b2, 0) }

  function EndianSwap(i: Word): Word {
    OrWord(OrWord(OrWord(ShiftRight24(i), OnlyByte2(ShiftLeft8(i))), OnlyByte1(ShiftRight8(i))), ShiftLeft24(i))
  }

  lemma OrByteWithZero(a: Byte)
    ensures OrByte(a, 0) == a && OrByte(0, a) == a
  {
    EightBits();
    OrZero(a, 8);
  }

  lemma OrByteWithOnes(a: Byte)
    ensures OrByte(0xFF, a) == 0xFF
  {
    EightBits();
    OrOnes(a, 8);
  }

  /** The highest byte is shifted in with its sign: below 0x80 the bytes are reversed, otherwise the result is
      negative. */
  lemma SwapReversesExactly(i: Word)
    ensures i.b3 < 0x80 ==> EndianSwap(i) == i.Reversed()
    ensures i.b3 >= 0x80 ==> Signed(EndianSwap(i)) < 0
  {
    hide OrByte;
    OrByteWithZero(i.b0);
    OrByteWithZero(i.b1);
    OrByteWithZero(i.b2);
    OrByteWithZero(i.b3);
    OrByteWithZero(0);
    OrByteWithZero(0xFF);
    OrByteWithOnes(i.b0);
    OrByteWithOnes(i.b1);
    OrByteWithOnes(i.b2);
    OrByteWithOnes(0);
  }

  // ----- writing

  type Record = seq<Byte>

  /** How a machine writes an int: the reading machine's way, or the other way round. */
  datatype Order = Same | Opposite

  function IntBytes(order: Order, n: int): seq<Byte>
    requires 0 <= n < LIMIT
  {
    (if order.Same? then WordOf(n) else WordOf(n).Reversed()).Bytes()
  }

  ghost predicate Fit(records: seq<Record>) {
    forall k | 0 <= k < |records| :: |records[k]| < LIMIT
  }

  lemma FitInit(records: seq<Record>)
    requires Fit(records) && records != []
    ensures Fit(records[..|records| - 1]) && |records[|records| - 1]| < LIMIT
            && |records[0]| < LIMIT && Fit(records[1..])
  {}

  ghost function Body(order: Order, records: seq<Record>): seq<Byte>
    requires Fit(records)
  {
    if records == [] then []
    else
      FitInit(records);
      IntBytes(order, |records[0]|) + records[0] + Body(order, records[1..])
  }

  ghost function Archive(order: Order, records: seq<Record>): seq<Byte>
    requires Fit(records)
  {
    IntBytes(order, 1) + Body(order, records)
  }

  // ----- reading

  function WordAt(file: seq<Byte>, at: nat): Word
    requires at + 4 <= |file|
  {
    Word(file[at], file[at + 1], file[at + 2], file[at + 3])
  }

  /** The next record; or the end of the file, possibly in the middle of a record; or a length that no buffer can have,
      which ends the program. */
  datatype Fetched =
    | Got(record: Record, rest: nat)
    | Ended
    | Thrown

  function Fetch(file: seq<Byte>, swap: bool, at: nat): (f: Fetched)
    ensures f.Got? ==> at < f.rest <= |file|
  {
    if at + 4 > |file| then Ended
    else
      var size := Signed(if swap then EndianSwap(WordAt(file, at)) else WordAt(file, at));
      if size < 0 then Thrown
      else if at + 4 + size > |file| then Ended
      else Got(file[at + 4..at + 4 + size], at + 4 + size)
  }

  function Parse(file: seq<Byte>, swap: bool, at: nat): seq<Record>
    decreases |file| - at
  {
    match Fetch(file, swap, at)
    case Got(record, rest) => [record] + Parse(file, swap, rest)
    case _ => []
  }

  /** The first int of the file tells whether its machine had the other byte order. */
  function Swapped(file: seq<Byte>): bool
    requires 4 <= |file|
  {
    Signed(WordAt(file, 0)) != 1
  }

  function Contents(file: seq<Byte>): seq<Record> {
    if |file| < 4 then [] else Parse(file, Swapped(file), 4)
  }

  // ----- what is read of what was written

  /** A length that endian_swap gets right. */
  predicate Readable(order: Order, record: Record) {
    order.Same? || |record| % 0x100 < 0x80
  }

  /** How many of the first records are readable. */
  function FirstReadable(order: Order, records: seq<Record>): (k: nat)
    ensures k <= |records|
    ensures k == |records| <==> forall j | 0 <= j < |records| :: Readable(order, records[j])
  {
    if records == [] || !Readable(order, records[0]) then 0 else 1 + FirstReadable(order, records[1..])
  }

  /** How many of the first records are complete within this many bytes. */
  function Complete(records: seq<Record>, bytes: int): (k: nat)
    ensures k <= |records|
  {
    if records == [] || bytes < 4 + |records[0]| then 0 else 1 + Complete(records[1..], bytes - 4 - |records[0]|)
  }

  function Min(a: nat, b: nat): nat { if a < b then a else b }

  lemma FetchLength(file: seq<Byte>, order: Order, at: nat, n: int)
    requires 0 <= n < LIMIT && at + 4 <= |file| && file[at..at + 4] == IntBytes(order, n)
    ensures var w := WordAt(file, at);
            var size := Signed(if order.Opposite? then EndianSwap(w) else w);
            if order.Same? || n % 0x100 < 0x80 then size == n else size < 0
  {
    hide EndianSwap;
    var four := file[at..at + 4];
    assert forall k | 0 <= k < 4 :: four[k] == file[at + k];
    WordHolds(n);
    var w := WordAt(file, at);
    if order.Same? {
      assert w == WordOf(n);
    } else {
      assert w == WordOf(n).Reversed();
      SwapReversesExactly(w);
      assert w.Reversed() == WordOf(n);
    }
  }

  /** A record that is there as a whole. */
  lemma FetchWhole(file: seq<Byte>, order: Order, at: nat, record: Record)
    requires |record| < LIMIT && at + 4 + |record| <= |file|
    requires file[at..at + 4] == IntBytes(order, |record|) && file[at + 4..at + 4 + |record|] == record
    ensures Fetch(file, order.Opposite?, at) ==
            if Readable(order, record) then Got(record, at + 4 + |record|) else Thrown
  {
    hide EndianSwap, IntBytes;
    FetchLength(file, order, at, |record|);
  }

  /** A record that is cut off. */
  lemma FetchCut(file: seq<Byte>, order: Order, at: nat, record: Record)
    requires |record| < LIMIT && at <= |file| < at + 4 + |record|
    requires at + 4 <= |file| ==> file[at..at + 4] == IntBytes(order, |record|)
    ensures !Fetch(file, order.Opposite?, at).Got?
  {
    hide EndianSwap, IntBytes;
    if at + 4 <= |file| { FetchLength(file, order, at, |record|); }
  }

  lemma BodyStarts(order: Order, records: seq<Record>, part: seq<Byte>)
    requires Fit(records) && records != [] && part <= Body(order, records)
    ensures |records[0]| < LIMIT && Fit(records[1..])
    ensures 4 <= |part| ==> part[..4] == IntBytes(order, |records[0]|)
    ensures var n := 4 + |records[0]|;
            n <= |part| ==> part[4..n] == records[0] && part[n..] <= Body(order, records[1..])
  {
    FitInit(records);
    var head := IntBytes(order, |records[0]|);
    var body := Body(order, records);
    assert |head| == 4 && body == head + records[0] + Body(order, records[1..]);
    if 4 <= |part| { assert part[..4] == body[..4] == head; }
    var n := 4 + |records[0]|;
    if n <= |part| {
      assert part[4..n] == body[4..n] == records[0];
      assert part[n..] == body[n..|part|] && body[n..] == Body(order, records[1..]);
    }
  }

  /** What is read begins with the first record, if that is complete and readable. */
  lemma FirstOfMin(order: Order, records: seq<Record>, bytes: int)
    requires records != []
    ensures var n, k := 4 + |records[0]|, Min(Complete(records, bytes), FirstReadable(order, records));
            if bytes < n || !Readable(order, records[0]) then records[..k] == []
            else records[..k] ==
                 [records[0]] +
                 records[1..][..Min(Complete(records[1..], bytes - n), FirstReadable(order, records[1..]))]
  {
    hide Readable;
  }

  /** Reading any beginning of a body gives the complete records, up to the first whose length cannot be swapped. */
  lemma {:induction false} ParseBody(file: seq<Byte>, order: Order, at: nat, records: seq<Record>)
    requires at <= |file| && Fit(records) && file[at..] <= Body(order, records)
    ensures Parse(file, order.Opposite?, at) ==
            records[..Min(Complete(records, |file| - at), FirstReadable(order, records))]
    decreases |records|
  {
    hide Fetch, IntBytes, Body, Readable, FirstReadable, Complete;
    if records == [] {
      NoBody(order);
      NothingToFetch(file, order.Opposite?, at);
    } else {
      var part, n := file[at..], 4 + |records[0]|;
      BodyStarts(order, records, part);
      FirstOfMin(order, records, |part|);
      if 4 <= |part| { assert part[..4] == file[at..at + 4]; }
      if n <= |part| {
        assert part[4..n] == file[at + 4..at + n];
        FetchWhole(file, order, at, records[0]);
        assert part[n..] == file[at + n..];
        ParseBody(file, order, at + n, records[1..]);
      } else {
        FetchCut(file, order, at, records[0]);
      }
    }
  }

  lemma NoBody(order: Order)
    ensures Fit([]) && Body(order, []) == []
  {}

  lemma NothingToFetch(file: seq<Byte>, swap: bool, at: nat)
    requires |file| < at + 4
    ensures Fetch(file, swap, at) == Ended
  {}

  lemma MarkerTells(file: seq<Byte>, order: Order)
    requires 4 <= |file| && file[..4] == IntBytes(order, 1)
    ensures Swapped(file) == order.Opposite?
  {
    var four := file[..4];
    assert forall k | 0 <= k < 4 :: four[k] == file[k];
    WordHolds(1);
  }

  /** However much of an archive is left, and whichever machine wrote it, reading it gives its complete records, as
      far as their lengths can be read. */
  lemma TruncatedArchivesAreRead(order: Order, records: seq<Record>, n: nat)
    requires Fit(records) && 4 <= n <= |Archive(order, records)|
    ensures Contents(Archive(order, records)[..n]) ==
            records[..Min(Complete(records, n - 4), FirstReadable(order, records))]
  {
    hide IntBytes, Swapped, Parse, Body;
    var file := Archive(order, records)[..n];
    FourBytes(order, 1);
    assert file[..4] == IntBytes(order, 1);
    MarkerTells(file, order);
    assert file[4..] == Body(order, records)[..n - 4];
    ParseBody(file, order, 4, records);
  }

  lemma FourBytes(order: Order, n: int)
    requires 0 <= n < LIMIT
    ensures |IntBytes(order, n)| == 4
  {}

  lemma {:induction false} AllComplete(order: Order, records: seq<Record>)
    requires Fit(records)
    ensures Complete(records, |Body(order, records)|) == |records|
  {
    if records != [] {
      hide IntBytes;
      FitInit(records);
      FourBytes(order, |records[0]|);
      AllComplete(order, records[1..]);
    }
  }

  /** A whole archive is read back exactly when no length of a record from a machine of the other byte order has a
      low byte of 128 or more. */
  lemma RoundTripExactly(order: Order, records: seq<Record>)
    requires Fit(records)
    ensures Contents(Archive(order, records)) == records <==>
            forall j | 0 <= j < |records| :: Readable(order, records[j])
  {
    hide IntBytes, Contents, Body;
    var archive := Archive(order, records);
    FourBytes(order, 1);
    AllComplete(order, records);
    TruncatedArchivesAreRead(order, records, |archive|);
    assert archive[..|archive|] == archive;
    var k := FirstReadable(order, records);
    assert Min(|records|, k) == k;
    if k == |records| { assert records[..k] == records; } else { assert |records[..k]| == k; }
  }

  /** A record of 128 bytes from a machine of the other byte order is not read back. */
  lemma LongRecordIsLost(record: Record)
    requires |record| == 128
    ensures Fit([record]) && Contents(Archive(Opposite, [record])) != [record]
  {
    hide Contents, Archive;
    assert !Readable(Opposite, [record][0]);
    RoundTripExactly(Opposite, [record]);
  }
}
