/** A reader thread that fills a queue from an archive, and a consumer that may read ahead of it. */
module Playback {
  import opened Archives

  /** What both threads share under the mutex: the open file, the queue, and for the statements what has been popped. A
      length that no buffer can have ends the program. */
  datatype Shared = Shared(file: seq<Byte>, swap: bool, at: nat, good: bool, crashed: bool, queue: seq<Record>,
                           popped: seq<Record>)

  /** An empty list wants everything. */
  datatype Wishes = Wishes(list: seq<string>, idOf: Record -> string) {
    predicate Wants(r: Record) { list == [] || idOf(r) in list }
  }

  function Open(file: seq<Byte>): Shared {
    if |file| < 4 then Shared(file, false, |file|, false, false, [], [])
    else Shared(file, Swapped(file), 4, true, false, [], [])
  }

  /** Reads on to the next record that is wanted. */
  function ReadNext(wishes: Wishes, sh: Shared): Shared
    decreases |sh.file| - sh.at
  {
    if !sh.good || sh.crashed then sh
    else
      match Fetch(sh.file, sh.swap, sh.at)
      case Ended => sh.(good := false)
      case Thrown => sh.(crashed := true)
      case Got(record, rest) =>
        if wishes.Wants(record) then sh.(at := rest, queue := sh.queue + [record])
            else ReadNext(wishes, sh.(at := rest))
  }

  /** The oldest queued record goes to the consumer. */
  function Pop(sh: Shared): Shared
    requires sh.queue != []
  {
    sh.(popped := sh.popped + [sh.queue[0]], queue := sh.queue[1..])
  }

  // ----- the two threads

  /** processArchive: reading, waiting until the queue is short enough, or finished. */
  datatype ReaderPhase = Reading | Waiting | Finished

  /** getNextDataProduct: outside of it, after finding the queue empty, after finding it filled; or it has returned
      null. */
  datatype ConsumerPhase = Idle | Empty | Filled | Null

  datatype System = System(shared: Shared, reader: ReaderPhase, consumer: ConsumerPhase)

  datatype Turn = ReaderTurn | ConsumerTurn

  const QUEUE_LIMIT := 100

  /** Each step is one critical section. */
  function Step(wishes: Wishes, sys: System, turn: Turn): System {
    if sys.shared.crashed then sys
    else
      match turn
      case ReaderTurn =>
        (match sys.reader
         case Reading =>
           var sh := ReadNext(wishes, sys.shared);
           sys.(shared := sh, reader := if |sh.queue| > 0 then Waiting else Finished)
         case Waiting =>
           sys.(reader := if sys.shared.good && |sys.shared.queue| > QUEUE_LIMIT then Waiting else Reading)
         case Finished => sys)
      case ConsumerTurn =>
        (match sys.consumer
         case Idle => sys.(consumer := if sys.shared.queue != [] then Filled else Empty)
         case Empty =>
           var sh := ReadNext(wishes, sys.shared);
           sys.(shared := sh, consumer := if |sh.queue| > 0 then Filled else Null)
         case Filled =>
           if sys.shared.queue == [] then sys.(shared := sys.shared.(crashed := true))
           else sys.(shared := Pop(sys.shared), consumer := Idle)
         case Null => sys.(consumer := Idle))
  }

  function Run(wishes: Wishes, file: seq<Byte>, turns: seq<Turn>): System {
    if turns == [] then System(Open(file), Reading, Idle)
    else Step(wishes, Run(wishes, file, turns[..|turns| - 1]), turns[|turns| - 1])
  }

  // ----- what is delivered

  function Wanted(wishes: Wishes, records: seq<Record>): seq<Record> {
    if records == [] then []
    else (if wishes.Wants(records[0]) then [records[0]] else []) + Wanted(wishes, records[1..])
  }

  /** What the file still holds. */
  function Ahead(wishes: Wishes, sh: Shared): seq<Record> {
    if sh.good && !sh.crashed then Wanted(wishes, Parse(sh.file, sh.swap, sh.at)) else []
  }

  /** Popped, queued and unread records together are always what the archive holds of the wanted ones. */
  ghost predicate Conserved(wishes: Wishes, sh: Shared, all: seq<Record>) {
    sh.popped + sh.queue + Ahead(wishes, sh) == all
  }

  lemma WantedFirst(wishes: Wishes, r: Record, records: seq<Record>)
    ensures Wanted(wishes, [r] + records) == (if wishes.Wants(r) then [r] else []) + Wanted(wishes, records)
  {
    assert ([r] + records)[1..] == records;
  }

  lemma AheadGot(wishes: Wishes, sh: Shared, record: Record, rest: nat)
    requires sh.good && !sh.crashed && Fetch(sh.file, sh.swap, sh.at) == Got(record, rest)
    ensures Ahead(wishes, sh) == (if wishes.Wants(record) then [record] else []) + Ahead(wishes, sh.(at := rest))
  {
    hide Fetch;
    WantedFirst(wishes, record, Parse(sh.file, sh.swap, rest));
  }

  lemma AheadEnds(wishes: Wishes, sh: Shared)
    requires !Fetch(sh.file, sh.swap, sh.at).Got?
    ensures Ahead(wishes, sh) == []
  {
    hide Fetch;
  }

  lemma QueueConserves(wishes: Wishes, sh: Shared, record: Record, rest: nat, all: seq<Record>)
    requires Conserved(wishes, sh, all) && Ahead(wishes, sh) == [record] + Ahead(wishes, sh.(at := rest))
    ensures Conserved(wishes, sh.(at := rest, queue := sh.queue + [record]), all)
  {
    var next := sh.(at := rest, queue := sh.queue + [record]);
    assert Ahead(wishes, next) == Ahead(wishes, sh.(at := rest));
    hide Ahead;
  }

  lemma {:induction false} ReadNextConserves(wishes: Wishes, sh: Shared, all: seq<Record>)
    requires Conserved(wishes, sh, all)
    ensures Conserved(wishes, ReadNext(wishes, sh), all)
    ensures sh.queue <= ReadNext(wishes, sh).queue && ReadNext(wishes, sh).popped == sh.popped
    ensures ReadNext(wishes, sh).queue == [] ==> !ReadNext(wishes, sh).good || ReadNext(wishes, sh).crashed
    decreases |sh.file| - sh.at
  {
    hide Fetch, Parse, Wanted;
    if sh.good && !sh.crashed {
      match Fetch(sh.file, sh.swap, sh.at)
      case Ended => AheadEnds(wishes, sh);
      case Thrown => AheadEnds(wishes, sh);
      case Got(record, rest) =>
        AheadGot(wishes, sh, record, rest);
        if wishes.Wants(record) {
          QueueConserves(wishes, sh, record, rest, all);
        } else {
          ReadNextConserves(wishes, sh.(at := rest), all);
        }
    }
  }

  /** And the consumer never pops an empty queue, and is told that there is no more only when that is so. */
  ghost predicate Sound(wishes: Wishes, sys: System, all: seq<Record>) {
    && Conserved(wishes, sys.shared, all)
    && (sys.consumer.Filled? ==> sys.shared.queue != [])
    && (sys.consumer.Null? && !sys.shared.crashed ==> sys.shared.queue == [] && !sys.shared.good)
    && (sys.reader.Finished? && !sys.shared.crashed ==> !sys.shared.good)
  }

  lemma PopConserves(wishes: Wishes, sh: Shared, all: seq<Record>)
    requires Conserved(wishes, sh, all) && sh.queue != []
    ensures Conserved(wishes, Pop(sh), all)
  {
    hide Ahead;
    SameAhead(wishes, sh, Pop(sh));
    PopMoves(sh.popped, sh.queue, Ahead(wishes, sh));
  }

  lemma SameAhead(wishes: Wishes, sh: Shared, next: Shared)
    requires next == sh.(popped := next.popped, queue := next.queue)
    ensures Ahead(wishes, next) == Ahead(wishes, sh)
  {
    hide Parse, Wanted;
  }

  lemma PopMoves(popped: seq<Record>, queue: seq<Record>, ahead: seq<Record>)
    requires queue != []
    ensures popped + [queue[0]] + queue[1..] + ahead == popped + queue + ahead
  {
    assert queue == [queue[0]] + queue[1..];
  }

  lemma {:induction false} ExhaustedStays(wishes: Wishes, sh: Shared)
    requires !sh.good
    ensures ReadNext(wishes, sh) == sh
  {}

  lemma StepIsSound(wishes: Wishes, sys: System, turn: Turn, all: seq<Record>)
    requires Sound(wishes, sys, all)
    ensures Sound(wishes, Step(wishes, sys, turn), all)
  {
    hide Conserved, ReadNext;
    var sh := sys.shared;
    ReadNextConserves(wishes, sh, all);
    if !sh.good { ExhaustedStays(wishes, sh); }
    if turn.ConsumerTurn? && sys.consumer.Filled? { PopConserves(wishes, sh, all); }
  }

  lemma OpenIsSound(wishes: Wishes, file: seq<Byte>)
    ensures Sound(wishes, System(Open(file), Reading, Idle), Wanted(wishes, Contents(file)))
  {}

  lemma {:induction false} RunsAreSound(wishes: Wishes, file: seq<Byte>, turns: seq<Turn>)
    ensures Sound(wishes, Run(wishes, file, turns), Wanted(wishes, Contents(file)))
  {
    if turns == [] {
      OpenIsSound(wishes, file);
    } else {
      hide Sound, Step;
      RunsAreSound(wishes, file, turns[..|turns| - 1]);
      StepIsSound(wishes, Run(wishes, file, turns[..|turns| - 1]), turns[|turns| - 1], Wanted(wishes, Contents(file)));
    }
  }

  /** However the threads interleave, what is popped is a beginning of the wanted records of the file, in their
      order, and a null result means that all of them have been popped. */
  lemma DeliversInOrder(wishes: Wishes, file: seq<Byte>, turns: seq<Turn>)
    ensures var sys := Run(wishes, file, turns);
            var all := Wanted(wishes, Contents(file));
            && sys.shared.popped <= all
            && (sys.consumer.Filled? ==> sys.shared.queue != [])
            && (sys.consumer.Null? && !sys.shared.crashed ==> sys.shared.popped == all)
  {
    hide Run, Contents, Wanted;
    RunsAreSound(wishes, file, turns);
  }

  /** From the writer to the consumer, for any truncation of the file. */
  lemma ArchivedIsPlayedBack(wishes: Wishes, order: Order, records: seq<Record>, n: nat, turns: seq<Turn>)
    requires Fit(records) && 4 <= n <= |Archive(order, records)|
    ensures var sys := Run(wishes, Archive(order, records)[..n], turns);
            var all := Wanted(wishes, records[..Min(Complete(records, n - 4), FirstReadable(order, records))]);
            sys.shared.popped <= all && (sys.consumer.Null? && !sys.shared.crashed ==> sys.shared.popped == all)
  {
    hide Run, Contents, Wanted, Archive;
    TruncatedArchivesAreRead(order, records, n);
    DeliversInOrder(wishes, Archive(order, records)[..n], turns);
  }

  // ----- no crash

  /** The next lengths, up to the end of the file, can be read. */
  ghost predicate Safe(file: seq<Byte>, swap: bool, at: nat)
    decreases |file| - at
  {
    match Fetch(file, swap, at)
    case Got(_, rest) => Safe(file, swap, rest)
    case Ended => true
    case Thrown => false
  }

  /** Where the length of record k starts within a body. */
  function Offset(records: seq<Record>, k: nat): nat
    requires k <= |records|
  {
    if k == 0 then 0 else 4 + |records[0]| + Offset(records[1..], k - 1)
  }

  /** The length of the first unreadable record lies within this many bytes, and so do all records before it. */
  predicate Endangered(order: Order, records: seq<Record>, bytes: int) {
    var k := FirstReadable(order, records);
    k < |records| && Offset(records, k) + 4 <= bytes
  }

  lemma EndangeredFirst(order: Order, records: seq<Record>, bytes: int)
    requires records != []
    ensures Endangered(order, records, bytes) <==>
            if Readable(order, records[0]) then Endangered(order, records[1..], bytes - 4 - |records[0]|)
                else 4 <= bytes
  {}

  lemma {:induction false} BodyIsSafeExactly(file: seq<Byte>, order: Order, at: nat, records: seq<Record>)
    requires at <= |file| && Fit(records) && file[at..] <= Body(order, records)
    ensures Safe(file, order.Opposite?, at) <==> !Endangered(order, records, |file| - at)
    decreases |records|
  {
    hide Fetch, IntBytes, Body, Endangered, Readable;
    if records == [] {
      NoBody(order);
      NothingToFetch(file, order.Opposite?, at);
      NoDanger(order, |file| - at);
    } else {
      var part, n := file[at..], 4 + |records[0]|;
      BodyStarts(order, records, part);
      EndangeredFirst(order, records, |part|);
      if 4 <= |part| { assert part[..4] == file[at..at + 4]; }
      if n <= |part| {
        assert part[4..n] == file[at + 4..at + n];
        FetchWhole(file, order, at, records[0]);
        assert part[n..] == file[at + n..];
        BodyIsSafeExactly(file, order, at + n, records[1..]);
      } else {
        CutIsThrownExactly(file, order, at, records[0]);
        BehindTheEnd(order, records[1..], |part| - n);
      }
    }
  }

  lemma NoDanger(order: Order, bytes: int)
    ensures !Endangered(order, [], bytes)
  {}

  lemma BehindTheEnd(order: Order, records: seq<Record>, bytes: int)
    requires bytes < 0
    ensures !Endangered(order, records, bytes)
  {}

  lemma CutIsThrownExactly(file: seq<Byte>, order: Order, at: nat, record: Record)
    requires |record| < LIMIT && at <= |file| < at + 4 + |record|
    requires at + 4 <= |file| ==> file[at..at + 4] == IntBytes(order, |record|)
    ensures Fetch(file, order.Opposite?, at) == if at + 4 <= |file| && !Readable(order, record) then Thrown else Ended
  {
    hide EndianSwap, IntBytes;
    if at + 4 <= |file| { FetchLength(file, order, at, |record|); }
  }

  lemma {:induction false} ReadNextIsSafe(wishes: Wishes, sh: Shared)
    requires Safe(sh.file, sh.swap, sh.at) && !sh.crashed
    ensures var sh' := ReadNext(wishes, sh);
            !sh'.crashed && sh'.file == sh.file && sh'.swap == sh.swap && Safe(sh'.file, sh'.swap, sh'.at)
    decreases |sh.file| - sh.at
  {
    hide Fetch;
    if sh.good {
      match Fetch(sh.file, sh.swap, sh.at)
      case Got(record, rest) => if !wishes.Wants(record) { ReadNextIsSafe(wishes, sh.(at := rest)); }
      case _ =>
    }
  }

  ghost predicate Unharmed(sys: System) {
    !sys.shared.crashed && Safe(sys.shared.file, sys.shared.swap, sys.shared.at)
  }

  lemma StepIsUnharmed(wishes: Wishes, sys: System, turn: Turn)
    requires Unharmed(sys) && (sys.consumer.Filled? ==> sys.shared.queue != [])
    ensures Unharmed(Step(wishes, sys, turn))
  {
    hide Safe, ReadNext;
    ReadNextIsSafe(wishes, sys.shared);
  }

  lemma {:induction false} RunsAreUnharmed(wishes: Wishes, file: seq<Byte>, turns: seq<Turn>)
    requires Unharmed(System(Open(file), Reading, Idle))
    ensures Unharmed(Run(wishes, file, turns))
  {
    hide Unharmed, Open, Step, Contents, Wanted, Conserved;
    if turns != [] {
      var init := turns[..|turns| - 1];
      RunsAreUnharmed(wishes, file, init);
      RunsAreSound(wishes, file, init);
      StepIsUnharmed(wishes, Run(wishes, file, init), turns[|turns| - 1]);
    }
  }

  // ----- a crash

  /** Reading on before an unreadable length ends in a crash or at a record before it. */
  lemma {:induction false} ReadNextStaysUnsafe(wishes: Wishes, sh: Shared)
    requires !Safe(sh.file, sh.swap, sh.at) && sh.good && !sh.crashed && sh.queue == []
    ensures var sh' := ReadNext(wishes, sh);
            sh'.crashed
            || (sh'.good && |sh'.queue| == 1 && sh'.file == sh.file && sh'.swap == sh.swap
                && sh.at < sh'.at <= |sh.file|
                && !Safe(sh'.file, sh'.swap, sh'.at))
    decreases |sh.file| - sh.at
  {
    hide Fetch;
    match Fetch(sh.file, sh.swap, sh.at)
    case Got(record, rest) => if !wishes.Wants(record) { ReadNextStaysUnsafe(wishes, sh.(at := rest)); }
    case _ =>
  }

  /** The consumer is about to look into the empty queue. */
  ghost predicate Doomed(sys: System) {
    sys.consumer.Idle? && sys.shared.queue == [] && sys.shared.good && !sys.shared.crashed
    && !Safe(sys.shared.file, sys.shared.swap, sys.shared.at)
  }

  lemma OneRound(wishes: Wishes, sys: System)
    requires Doomed(sys)
    ensures var tried := Step(wishes, Step(wishes, sys, ConsumerTurn), ConsumerTurn);
            tried.shared.crashed
            || (var popped := Step(wishes, tried, ConsumerTurn);
                Doomed(popped) && popped.shared.file == sys.shared.file
                && sys.shared.at < popped.shared.at <= |sys.shared.file|)
  {
    hide ReadNext, Safe;
    ReadNextStaysUnsafe(wishes, sys.shared);
  }

  lemma RunOneMore(wishes: Wishes, file: seq<Byte>, turns: seq<Turn>, turn: Turn)
    ensures Run(wishes, file, turns + [turn]) == Step(wishes, Run(wishes, file, turns), turn)
  {
    hide Step;
    assert (turns + [turn])[..|turns|] == turns;
  }

  /** A consumer that keeps asking reads up to the unreadable length. */
  lemma {:induction false} DoomedCrashes(wishes: Wishes, file: seq<Byte>, turns: seq<Turn>) returns (longer: seq<Turn>)
    requires Doomed(Run(wishes, file, turns))
    ensures Run(wishes, file, longer).shared.crashed
    decreases |Run(wishes, file, turns).shared.file| - Run(wishes, file, turns).shared.at
  {
    hide Run, Step, Doomed;
    OneRound(wishes, Run(wishes, file, turns));
    RunOneMore(wishes, file, turns, ConsumerTurn);
    longer := turns + [ConsumerTurn];
    RunOneMore(wishes, file, longer, ConsumerTurn);
    longer := longer + [ConsumerTurn];
    if !Run(wishes, file, longer).shared.crashed {
      RunOneMore(wishes, file, longer, ConsumerTurn);
      longer := DoomedCrashes(wishes, file, longer + [ConsumerTurn]);
    }
  }

  lemma CrashesExactly(wishes: Wishes, file: seq<Byte>)
    requires 4 <= |file|
    ensures (exists turns :: Run(wishes, file, turns).shared.crashed) <==> !Safe(file, Swapped(file), 4)
  {
    hide Safe, Swapped, Step;
    if Safe(file, Swapped(file), 4) {
      forall turns ensures !Run(wishes, file, turns).shared.crashed {
        RunsAreUnharmed(wishes, file, turns);
        hide Run;
      }
    } else {
      assert Run(wishes, file, []) == System(Open(file), Reading, Idle);
      var longer := DoomedCrashes(wishes, file, []);
      hide Run;
    }
  }

  /** Whatever the consumer wishes, playing back the first n bytes of an archive can end the program exactly when
      they hold the length of a record that cannot be swapped, and with it all records before; so never on a machine
      of the byte order that wrote it. */
  lemma PlaybackCrashesExactly(wishes: Wishes, order: Order, records: seq<Record>, n: nat)
    requires Fit(records) && 4 <= n <= |Archive(order, records)|
    ensures (exists turns :: Run(wishes, Archive(order, records)[..n], turns).shared.crashed)
            <==> Endangered(order, records, n - 4)
  {
    hide IntBytes, Swapped, Body, Run, Safe, Endangered;
    var file := Archive(order, records)[..n];
    FourBytes(order, 1);
    assert file[..4] == IntBytes(order, 1);
    MarkerTells(file, order);
    assert file[4..] == Body(order, records)[..n - 4];
    BodyIsSafeExactly(file, order, 4, records);
    CrashesExactly(wishes, file);
  }

  /** Playing back a record of 128 bytes from such a machine can end the program. */
  lemma LongRecordCrashes(wishes: Wishes, record: Record)
    requires |record| == 128
    ensures Fit([record]) && exists turns :: Run(wishes, Archive(Opposite, [record]), turns).shared.crashed
  {
    hide Run, IntBytes;
    var records := [record];
    FourBytes(Opposite, 1);
    FourBytes(Opposite, 128);
    assert |Archive(Opposite, records)| >= 8;
    assert !Readable(Opposite, records[0]);
    PlaybackCrashesExactly(wishes, Opposite, records, |Archive(Opposite, records)|);
    assert Archive(Opposite, records)[..|Archive(Opposite, records)|] == Archive(Opposite, records);
  }
}
