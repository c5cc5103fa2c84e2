/** The receiving half of a transfer: src/transfer/receiver.rs. */
module Receiver {
  import opened Wrappers
  import opened TransferProtocol
  import opened ChunkPlan

  /** CRC32 is not part of this model; it is a function handed in. */
  type Checksum = seq<Byte> -> U32

  // ---------- the shared state, as a value ----------

  /** The temporary file, one flag per chunk, and the counter of flags set. */
  datatype Disk = Disk(file: seq<Byte>, flags: seq<bool>, count: nat)

  function WriteAt(file: seq<Byte>, offset: nat, data: seq<Byte>): (r: seq<Byte>)
    requires offset + |data| <= |file|
    ensures |r| == |file|
    ensures forall i :: 0 <= i < |file| ==>
              r[i] == if offset <= i < offset + |data| then data[i - offset] else file[i]
  {
    file[..offset] + data + file[offset + |data|..]
  }

  predicate Accepts(d: Disk, h: Header) {
    InBounds(Limits(|d.flags|, |d.file|), h)
  }

  /** One chunk that passed the bounds: refused on a checksum mismatch, otherwise
      written, and counted the first time. */
  function ReceiveChunk(crc: Checksum, d: Disk, c: Chunk): (r: (Disk, AckMessage))
    requires WellFormed(c) && Accepts(d, c.header)
    ensures |r.0.file| == |d.file| && |r.0.flags| == |d.flags|
  {
    var id := c.header.chunkId;
    if crc(c.payload) != c.header.hash32 then (d, AckMessage(id, true))
    else
      var file := WriteAt(d.file, c.header.offset, c.payload);
      var count := if d.flags[id] then d.count else d.count + 1;
      (Disk(file, d.flags[id := true], count), AckMessage(id, false))
  }

  predicate AllAccepted(d: Disk, cs: seq<Chunk>) {
    forall c :: c in cs ==> WellFormed(c) && Accepts(d, c.header)
  }

  /** Disk and answers after a run of chunks. */
  datatype Served = Served(disk: Disk, sent: seq<Byte>)

  function ReceiveAll(crc: Checksum, d: Disk, cs: seq<Chunk>): (r: Served)
    requires AllAccepted(d, cs)
    ensures |r.disk.file| == |d.file| && |r.disk.flags| == |d.flags|
    decreases |cs|
  {
    if cs == [] then Served(d, [])
    else
      var step := ReceiveChunk(crc, d, cs[0]);
      var later := ReceiveAll(crc, step.0, cs[1..]);
      Served(later.disk, EncodeAck(step.1) + later.sent)
  }

  function LimitsOf(d: Disk): Limits {
    Limits(|d.flags|, |d.file|)
  }

  /** All a worker does with the bytes of its stream. */
  function Serve(crc: Checksum, d: Disk, input: seq<Byte>): Served {
    ParsedIsPrefix(LimitsOf(d), input);
    ReceiveAll(crc, d, ParseStream(LimitsOf(d), input).chunks)
  }

  lemma ServeStep(crc: Checksum, d: Disk, input: seq<Byte>)
    ensures var m := NextMessage(LimitsOf(d), input);
            match m
            case Stop(end, _) =>
              Serve(crc, d, input) == Served(d, []) && ParseStream(LimitsOf(d), input).end == end
            case Data(c) =>
              && WellFormed(c) && Accepts(d, c.header)
              && var step := ReceiveChunk(crc, d, c);
                 var after := input[HEADER_SIZE + |c.payload|..];
                 && ParseStream(LimitsOf(d), input).end == ParseStream(LimitsOf(d), after).end
                 && Serve(crc, d, input) == Served(Serve(crc, step.0, after).disk,
                                                   EncodeAck(step.1) + Serve(crc, step.0, after).sent)
  {
    var m := NextMessage(LimitsOf(d), input);
    if m.Data? {
      NextIsPrefix(LimitsOf(d), input);
      var later := ParseStream(LimitsOf(d), input[HEADER_SIZE + |m.chunk.payload|..]).chunks;
      assert ([m.chunk] + later)[1..] == later;
      ParsedIsPrefix(LimitsOf(d), input);
    }
  }

  // ---------- what processing genuine chunks achieves ----------

  /** The file being sent, its block size, and the checksum both ends use. */
  datatype Source = Source(bytes: seq<Byte>, chunkSize: nat, crc: Checksum)

  predicate ValidSource(src: Source) {
    0 < src.chunkSize && |src.bytes| <= 0xffff_ffff_ffff_ffff && src.chunkSize <= 0xffff_ffff
  }

  function Total(src: Source): (n: nat)
    requires ValidSource(src)
    ensures n < U32_RANGE
  {
    TotalChunks(|src.bytes|, src.chunkSize)
  }

  /** The chunk with number `id`, as `sender_worker` reads it from the file. */
  function ChunkOf(src: Source, id: nat): (c: Chunk)
    requires ValidSource(src) && id < Total(src)
    ensures WellFormed(c) && c.header.chunkId == id
    ensures InBounds(Limits(Total(src), |src.bytes|), c.header)
  {
    RangeOfId(id, src.chunkSize, |src.bytes|);
    var from := Offset(id, src.chunkSize);
    var payload := src.bytes[from..End(id, src.chunkSize, |src.bytes|)];
    Chunk(Header(id, from, |payload|, src.crc(payload)), payload)
  }

  /** Every position of chunk `id` holds the source byte. */
  ghost predicate Correct(src: Source, file: seq<Byte>, id: nat) {
    |file| == |src.bytes| &&
    forall pos :: 0 <= pos < |file| && Covers(id, pos, src.chunkSize, |file|) ==> file[pos] == src.bytes[pos]
  }

  /** Writing a prefix of a genuine chunk spoils no position that was right,
      and a complete write makes the chunk right. */
  lemma {:induction false} WritingIsHarmless(src: Source, file: seq<Byte>, id: nat, written: nat)
    requires ValidSource(src) && id < Total(src) && |file| == |src.bytes|
    requires written <= |ChunkOf(src, id).payload|
    ensures var c := ChunkOf(src, id);
            var file' := WriteAt(file, c.header.offset, c.payload[..written]);
            && (forall other :: Correct(src, file, other) ==> Correct(src, file', other))
            && (written == |c.payload| ==> Correct(src, file', id))
  {
    var c := ChunkOf(src, id);
    var file' := WriteAt(file, c.header.offset, c.payload[..written]);
    forall other | Correct(src, file, other)
      ensures Correct(src, file', other)
    {
      forall pos | 0 <= pos < |file'| && Covers(other, pos, src.chunkSize, |file'|)
        ensures file'[pos] == src.bytes[pos]
      {
      }
    }
  }

  /** A file right in every announced chunk is the source, provided the chunk
      count survived its cast to u32. */
  lemma {:induction false} AllCorrectIsSource(src: Source, file: seq<Byte>)
    requires ValidSource(src) && CeilDiv(|src.bytes|, src.chunkSize) < U32_RANGE
    requires |file| == |src.bytes|
    requires forall id :: 0 <= id < Total(src) ==> Correct(src, file, id)
    ensures file == src.bytes
  {
    forall pos: nat | pos < |file|
      ensures file[pos] == src.bytes[pos]
    {
      var id := CoveringChunk(pos, src.chunkSize, |src.bytes|);
      assert Correct(src, file, id);
    }
  }

  function CountTrue(flags: seq<bool>): (n: nat)
    ensures n <= |flags|
  {
    if flags == [] then 0
    else CountTrue(flags[..|flags| - 1]) + if flags[|flags| - 1] then 1 else 0
  }

  lemma {:induction false} CountTrueUpdate(flags: seq<bool>, i: nat)
    requires i < |flags|
    ensures CountTrue(flags[i := true]) == CountTrue(flags) + if flags[i] then 0 else 1
  {
    var last := |flags| - 1;
    if i < last {
      CountTrueUpdate(flags[..last], i);
      assert flags[i := true][..last] == flags[..last][i := true];
    } else {
      assert flags[i := true][..last] == flags[..last];
    }
  }

  lemma {:induction false} CountTrueFull(flags: seq<bool>)
    ensures CountTrue(flags) == |flags| <==> forall i :: 0 <= i < |flags| ==> flags[i]
  {
    if flags != [] {
      CountTrueFull(flags[..|flags| - 1]);
    }
  }

  lemma {:induction false} CountTrueNone(flags: seq<bool>)
    requires forall i :: 0 <= i < |flags| ==> !flags[i]
    ensures CountTrue(flags) == 0
  {
    if flags != [] {
      CountTrueNone(flags[..|flags| - 1]);
    }
  }

  ghost predicate Consistent(src: Source, d: Disk)
    requires ValidSource(src)
  {
    && |d.flags| == Total(src) && |d.file| == |src.bytes|
    && d.count == CountTrue(d.flags)
    && forall id :: 0 <= id < |d.flags| && d.flags[id] ==> Correct(src, d.file, id)
  }

  /** A fresh temporary file: any content, no flags. */
  lemma {:induction false} FreshDiskConsistent(src: Source, file: seq<Byte>)
    requires ValidSource(src) && |file| == |src.bytes|
    ensures Consistent(src, Disk(file, seq(Total(src), i => false), 0))
  {
    CountTrueNone(seq(Total(src), i => false));
  }

  predicate Announced(src: Source, ids: seq<nat>)
    requires ValidSource(src)
  {
    forall i :: 0 <= i < |ids| ==> ids[i] < Total(src)
  }

  function ChunksOf(src: Source, ids: seq<nat>): (cs: seq<Chunk>)
    requires ValidSource(src) && Announced(src, ids)
    ensures |cs| == |ids| && forall i :: 0 <= i < |ids| ==> cs[i] == ChunkOf(src, ids[i])
  {
    seq(|ids|, i requires 0 <= i < |ids| => ChunkOf(src, ids[i]))
  }

  function Acks(src: Source, ids: seq<nat>): seq<Byte>
    requires ValidSource(src) && Announced(src, ids)
  {
    if ids == [] then [] else EncodeAck(AckMessage(ids[0], false)) + Acks(src, ids[1..])
  }

  lemma {:induction false} ReceiveOneGenuine(src: Source, d: Disk, id: nat)
    requires ValidSource(src) && Consistent(src, d) && id < Total(src)
    ensures Accepts(d, ChunkOf(src, id).header)
    ensures var (d', ack) := ReceiveChunk(src.crc, d, ChunkOf(src, id));
            Consistent(src, d') && ack == AckMessage(id, false) && d'.flags == d.flags[id := true]
  {
    var c := ChunkOf(src, id);
    assert c.payload[..|c.payload|] == c.payload;
    WritingIsHarmless(src, d.file, id, |c.payload|);
    CountTrueUpdate(d.flags, id);
  }

  lemma AllGenuineAccepted(src: Source, d: Disk, ids: seq<nat>)
    requires ValidSource(src) && Announced(src, ids)
    requires |d.flags| == Total(src) && |d.file| == |src.bytes|
    ensures AllAccepted(d, ChunksOf(src, ids))
  {
    var cs := ChunksOf(src, ids);
    forall c | c in cs
      ensures WellFormed(c) && Accepts(d, c.header)
    {
      var i :| 0 <= i < |cs| && cs[i] == c;
      assert c == ChunkOf(src, ids[i]);
    }
  }

  function FlagAll(flags: seq<bool>, ids: seq<nat>): (r: seq<bool>)
    requires forall i :: 0 <= i < |ids| ==> ids[i] < |flags|
    decreases |ids|
    ensures |r| == |flags|
    ensures forall id :: 0 <= id < |r| ==> (r[id] <==> flags[id] || id in ids)
  {
    if ids == [] then flags
    else
      assert ids == [ids[0]] + ids[1..];
      FlagAll(flags[ids[0] := true], ids[1..])
  }

  /** Genuine chunks in any order, with repetitions: every one is acknowledged in
      turn, exactly the chunks received are flagged in addition, and the count
      stays the number of flags although repeated chunks are written again. */
  lemma {:induction false} ReceiveGenuine(src: Source, d: Disk, ids: seq<nat>)
    requires ValidSource(src) && Consistent(src, d) && Announced(src, ids)
    ensures AllAccepted(d, ChunksOf(src, ids))
    ensures var r := ReceiveAll(src.crc, d, ChunksOf(src, ids));
            Consistent(src, r.disk) && r.sent == Acks(src, ids) && r.disk.flags == FlagAll(d.flags, ids)
    decreases |ids|
  {
    AllGenuineAccepted(src, d, ids);
    if ids != [] {
      ReceiveOneGenuine(src, d, ids[0]);
      var step := ReceiveChunk(src.crc, d, ChunkOf(src, ids[0]));
      ReceiveGenuine(src, step.0, ids[1..]);
      assert ChunksOf(src, ids)[1..] == ChunksOf(src, ids[1..]);
    }
  }

  /** Bytes to file: encode any list of chunks that mentions every number, append
      DONE, let the receiver parse and process it, and the file is the source. */
  lemma {:induction false} StreamReproducesFile(src: Source, d: Disk, ids: seq<nat>, tail: seq<Byte>)
    requires ValidSource(src) && Consistent(src, d) && Announced(src, ids)
    requires CeilDiv(|src.bytes|, src.chunkSize) < U32_RANGE
    requires forall id :: 0 <= id < Total(src) ==> id in ids
    ensures var input := EncodeChunks(ChunksOf(src, ids)) + [Code(Done)] + tail;
            && ParseStream(LimitsOf(d), input).end == DoneReceived
            && Serve(src.crc, d, input).disk.file == src.bytes
            && Serve(src.crc, d, input).disk.count == Total(src)
            && Serve(src.crc, d, input).sent == Acks(src, ids)
  {
    AllGenuineAccepted(src, d, ids);
    FramingRoundTrip(LimitsOf(d), ChunksOf(src, ids), tail);
    ReceiveGenuine(src, d, ids);
    var d' := ReceiveAll(src.crc, d, ChunksOf(src, ids)).disk;
    AllCorrectIsSource(src, d'.file);
    CountTrueFull(d'.flags);
  }

  /** The same from the temporary file as it is created, whatever it holds. */
  lemma FreshFileBecomesSource(src: Source, file: seq<Byte>, ids: seq<nat>, tail: seq<Byte>)
    requires ValidSource(src) && |file| == |src.bytes| && Announced(src, ids)
    requires CeilDiv(|src.bytes|, src.chunkSize) < U32_RANGE
    requires forall id :: 0 <= id < Total(src) ==> id in ids
    ensures var start := Disk(file, seq(Total(src), i => false), 0);
            var input := EncodeChunks(ChunksOf(src, ids)) + [Code(Done)] + tail;
            Serve(src.crc, start, input).disk.file == src.bytes
            && Serve(src.crc, start, input).disk.count == Total(src)
  {
    FreshDiskConsistent(src, file);
    StreamReproducesFile(src, Disk(file, seq(Total(src), i => false), 0), ids, tail);
  }

  // ---------- the worker, in place ----------

  /** The state the receiver's workers share. */
  class ReceiverWorkers {
    const file: array<Byte>
    const flags: array<bool>
    var receivedCount: nat
    var doneReceived: bool

    constructor (fileSize: nat, totalChunks: nat)
      ensures fresh(file) && fresh(flags) && Contents().file == seq(fileSize, i => 0)
      ensures Contents().flags == seq(totalChunks, i => false) && receivedCount == 0 && !doneReceived
    {
      file := new Byte[fileSize](i => 0);
      flags := new bool[totalChunks](i => false);
      receivedCount := 0;
      doneReceived := false;
    }

    ghost function Contents(): (d: Disk)
      reads this, file, flags
    {
      Disk(file[..], flags[..], receivedCount)
    }

    method WriteAll(offset: nat, data: seq<Byte>)
      requires offset + |data| <= file.Length
      modifies file
      ensures file[..] == WriteAt(old(file[..]), offset, data)
    {
      forall i | 0 <= i < |data| {
        file[offset + i] := data[i];
      }
    }

    /** One chunk that passed the bounds: check, write, flag, count, answer. */
    method Process(c: Chunk, crc: Checksum) returns (ack: AckMessage)
      requires WellFormed(c) && Accepts(Contents(), c.header)
      modifies this`receivedCount, file, flags
      ensures (Contents(), ack) == ReceiveChunk(crc, old(Contents()), c)
    {
      var id := c.header.chunkId;
      if crc(c.payload) != c.header.hash32 {
        return AckMessage(id, true);
      }
      WriteAll(c.header.offset, c.payload);
      var known := flags[id];
      flags[id] := true;
      if !known {
        receivedCount := receivedCount + 1;
      }
      ack := AckMessage(id, false);
    }

    /** Reads one message; `buffer` is the worker's reused payload buffer. */
    method Read(input: seq<Byte>, at: nat, buffer: seq<Byte>) returns (m: Message, buffer': seq<Byte>)
      requires at <= |input|
      ensures m == NextMessage(Limits(flags.Length, file.Length), input[at..])
    {
      buffer' := buffer;
      ghost var left := input[at..];
      if at == |input| {
        return Stop(ReadError, 0), buffer;
      }
      match FromCode(input[at]) {
        case None => m := Stop(UnknownType, 1);
        case Some(Done) => m := Stop(DoneReceived, 1);
        case Some(ChunkHeader) =>
          var from := at + HEADER_SIZE;
          if |input| < from {
            return Stop(ReadError, |input| - at), buffer;
          }
          assert left[..HEADER_SIZE] == input[at..from];
          var header := DecodeHeader(input[at..from]).value;
          if header.chunkId >= flags.Length
          || header.offset >= file.Length || header.len > file.Length - header.offset
          {
            return Stop(BadHeader, HEADER_SIZE), buffer;
          }
          if |input| < from + header.len {
            return Stop(ReadError, |input| - at), buffer;
          }
          if |buffer| < header.len {
            buffer' := buffer + seq(header.len - |buffer|, i => 0);
          }
          buffer' := input[from..from + header.len] + buffer'[header.len..];
          m := Data(Chunk(header, buffer'[..header.len]));
          assert left[HEADER_SIZE..HEADER_SIZE + header.len] == buffer'[..header.len];
        case Some(_) => m := Stop(UnexpectedType, 1);
      }
    }

    /** One turn of the loop: reads a message and, if it is a chunk, processes it.
        What the whole input still has to yield shrinks by exactly this turn. */
    method Turn(input: seq<Byte>, at: nat, buffer: seq<Byte>, crc: Checksum)
      returns (end: Option<StreamEnd>, next: nat, answer: seq<Byte>, buffer': seq<Byte>)
      requires at <= |input|
      modifies this`receivedCount, file, flags
      ensures end.Some? ==>
                && next == at && answer == []
                && end.value == ParseStream(LimitsOf(old(Contents())), input[at..]).end
                && Served(Contents(), []) == Serve(crc, old(Contents()), input[at..])
      ensures end.None? ==>
                && at < next <= |input|
                && ParseStream(LimitsOf(Contents()), input[next..]).end
                   == ParseStream(LimitsOf(old(Contents())), input[at..]).end
                && Serve(crc, old(Contents()), input[at..])
                   == Served(Serve(crc, Contents(), input[next..]).disk,
                             answer + Serve(crc, Contents(), input[next..]).sent)
    {
      ServeStep(crc, Contents(), input[at..]);
      var m;
      m, buffer' := Read(input, at, buffer);
      match m {
        case Stop(e, _) =>
          end, next, answer := Some(e), at, [];
        case Data(c) =>
          next := at + HEADER_SIZE + |c.payload|;
          assert input[at..][HEADER_SIZE + |c.payload|..] == input[next..];
          var ack := Process(c, crc);
          end, answer := None, EncodeAck(ack);
      }
    }

    /** The read loop over the bytes one stream delivers before it ends.
        `end` is None when the worker left because DONE had arrived elsewhere. */
    method Worker(input: seq<Byte>, crc: Checksum) returns (sent: seq<Byte>, end: Option<StreamEnd>)
      modifies this, file, flags
      ensures old(doneReceived) ==> end == None && sent == [] && Contents() == old(Contents())
      ensures !old(doneReceived) ==>
                && Served(Contents(), sent) == Serve(crc, old(Contents()), input)
                && end == Some(ParseStream(LimitsOf(old(Contents())), input).end)
      ensures doneReceived == (old(doneReceived) || end == Some(DoneReceived))
    {
      sent, end := [], None;
      if doneReceived {
        return;
      }
      ghost var whole := ParseStream(LimitsOf(Contents()), input).end;
      ghost var answers := Serve(crc, Contents(), input);
      assert input[0..] == input;
      var buffer: seq<Byte> := [];
      var at := 0;
      while end.None?
        invariant at <= |input| && !doneReceived
        invariant end.None? ==>
                    && ParseStream(LimitsOf(Contents()), input[at..]).end == whole
                    && answers.disk == Serve(crc, Contents(), input[at..]).disk
                    && answers.sent == sent + Serve(crc, Contents(), input[at..]).sent
        invariant end.Some? ==> end.value == whole && Served(Contents(), sent) == answers
        decreases end.None?, |input| - at
      {
        ghost var before := sent;
        var answer;
        end, at, answer, buffer := Turn(input, at, buffer, crc);
        sent := sent + answer;
        ghost var later := Serve(crc, Contents(), input[at..]).sent;
        assert end.None? ==> before + (answer + later) == sent + later;
      }
      doneReceived := end == Some(DoneReceived);
    }
  }
}
