/** The sending half of a transfer: `sender_worker` in src/transfer/sender.rs,
    one worker on the shared queue and counters, in place. */
module Sender {
  import opened Wrappers
  import opened TransferProtocol
  import opened ChunkPlan
  import opened Receiver
  import TransferSystem
  import TransferProofs

  /** Piece size in which a payload is written and counted. */
  const PROGRESS_IO_CHUNK: nat := 256 * 1024

  /** What one attempt at a chunk meets: an answer (whatever number it names), no
      readable answer, or a failure of the stream at the given payload piece. A
      piece beyond the payload stands for a failure before it: while reading the
      file or writing the header. */
  datatype Reply = AckReply(chunkId: U32) | NackReply(chunkId: U32) | NoReply | IoFailed(piece: nat)

  datatype Ending = Returned | AckError | IoError | Running

  /** The state the workers share. */
  datatype Queue = Queue(pending: seq<nat>, completed: nat, completedBytes: nat, sentBytes: int)

  function Len(src: Source, id: nat): nat {
    Length(id, src.chunkSize, |src.bytes|)
  }

  function CountedBefore(len: nat, piece: nat): nat {
    if piece * PROGRESS_IO_CHUNK < len then piece * PROGRESS_IO_CHUNK else 0
  }

  /** One turn with a number at the head of the queue. */
  function Turn(src: Source, q: Queue, reply: Reply): (r: (Queue, Option<Ending>))
    requires q.pending != []
  {
    var id := q.pending[0];
    var q1 := q.(pending := q.pending[1..]);
    match reply
    case AckReply(_) =>
      (q1.(completed := q.completed + 1, completedBytes := q.completedBytes + Len(src, id),
           sentBytes := q.sentBytes + Len(src, id)), None)
    case NackReply(_) => (q1.(pending := q1.pending + [id]), None)
    case NoReply => (q1.(pending := q1.pending + [id], sentBytes := q.sentBytes + Len(src, id)), Some(AckError))
    case IoFailed(piece) => (q1.(sentBytes := q.sentBytes + CountedBefore(Len(src, id), piece)), Some(IoError))
  }

  /** A worker's run, as far as the replies reach. */
  datatype Work = Work(queue: Queue, tried: seq<nat>, acked: seq<nat>, lost: seq<nat>, ending: Ending)

  function Run(src: Source, total: nat, q: Queue, replies: seq<Reply>): Work
    decreases |replies|
  {
    if q.pending == [] then Work(q, [], [], [], if q.completed >= total then Returned else Running)
    else if replies == [] then Work(q, [], [], [], Running)
    else
      var id := q.pending[0];
      var (q1, ending) := Turn(src, q, replies[0]);
      var rest := if ending.Some? then Work(q1, [], [], [], ending.value) else Run(src, total, q1, replies[1..]);
      rest.(tried := [id] + rest.tried,
            acked := if replies[0].AckReply? then [id] + rest.acked else rest.acked,
            lost := if replies[0].IoFailed? then [id] + rest.lost else rest.lost)
  }

  lemma RunStep(src: Source, total: nat, q: Queue, replies: seq<Reply>)
    requires q.pending != [] && replies != []
    ensures var step := Turn(src, q, replies[0]);
            var r := Run(src, total, q, replies);
            if step.1.Some? then r.queue == step.0 && r.ending == step.1.value && r.tried == [q.pending[0]]
            else
              var rest := Run(src, total, step.0, replies[1..]);
              r.queue == rest.queue && r.ending == rest.ending && r.tried == [q.pending[0]] + rest.tried
  {
  }

  lemma RunEnd(src: Source, total: nat, q: Queue, replies: seq<Reply>)
    requires q.pending == [] || replies == []
    ensures Run(src, total, q, replies)
            == Work(q, [], [], [], if q.pending == [] && q.completed >= total then Returned else Running)
  {
  }

  lemma {:induction false} SumHead(src: Source, id: nat, ids: seq<nat>)
    ensures TransferSystem.SumOf(src, [id] + ids) == Len(src, id) + TransferSystem.SumOf(src, ids)
    decreases |ids|
  {
    if ids == [] {
      assert ([id] + ids)[..0] == [];
    } else {
      var last := |ids| - 1;
      SumHead(src, id, ids[..last]);
      assert ([id] + ids)[..|ids|] == [id] + ids[..last];
    }
  }

  /** Whatever the network answers, a worker loses no number unless it dies with it
      in hand, and at most that one. */
  lemma {:induction false} RunConserves(src: Source, total: nat, q: Queue, replies: seq<Reply>, id: nat)
    ensures var r := Run(src, total, q, replies);
            TransferSystem.Occurrences(q.pending, id)
            == TransferSystem.Occurrences(r.queue.pending, id)
               + TransferSystem.Occurrences(r.acked, id) + TransferSystem.Occurrences(r.lost, id)
    decreases |replies|
  {
    hide Len;
    if q.pending != [] && replies != [] {
      var head := q.pending[0];
      var step := Turn(src, q, replies[0]);
      TransferProofs.OccurrencesHead(q.pending, id);
      TransferProofs.OccurrencesSnoc(q.pending[1..], head, id);
      if step.1.None? {
        RunConserves(src, total, step.0, replies[1..], id);
        var rest := Run(src, total, step.0, replies[1..]);
        TransferProofs.OccurrencesHead([head] + rest.acked, id);
        assert ([head] + rest.acked)[1..] == rest.acked;
      } else {
        TransferProofs.OccurrencesHead([head], id);
      }
    }
  }

  /** How a run ends: a loss means an error, and the loop is left in order only
      with nothing queued and everything counted. */
  lemma {:induction false} RunEnding(src: Source, total: nat, q: Queue, replies: seq<Reply>)
    ensures var r := Run(src, total, q, replies);
            && |r.lost| == (if r.ending == IoError then 1 else 0)
            && (r.ending == Returned ==> r.queue.pending == [] && r.queue.completed >= total)
    decreases |replies|
  {
    hide Len;
    if q.pending != [] && replies != [] {
      RunEnding(src, total, Turn(src, q, replies[0]).0, replies[1..]);
    }
  }

  /** The counters count exactly the acknowledged chunks, and bytes counted as sent
      for a refused chunk are taken back. */
  lemma {:induction false} RunCounts(src: Source, total: nat, q: Queue, replies: seq<Reply>)
    ensures var r := Run(src, total, q, replies);
            && r.queue.completed == q.completed + |r.acked|
            && r.queue.completedBytes == q.completedBytes + TransferSystem.SumOf(src, r.acked)
            && (r.ending == Returned || r.ending == Running ==>
                  r.queue.sentBytes - q.sentBytes == r.queue.completedBytes - q.completedBytes)
    decreases |replies|
  {
    hide Len;
    if q.pending != [] && replies != [] {
      var step := Turn(src, q, replies[0]);
      if step.1.None? {
        RunCounts(src, total, step.0, replies[1..]);
        SumHead(src, q.pending[0], Run(src, total, step.0, replies[1..]).acked);
      }
    }
  }

  /** The bytes a worker puts on its stream for the chunks it tries completely. */
  function Frames(src: Source, ids: seq<nat>): seq<Byte>
    requires ValidSource(src) && Announced(src, ids)
  {
    EncodeChunks(ChunksOf(src, ids))
  }

  class SenderWorkers {
    const src: Source
    const total: nat
    var pending: seq<nat>
    var completedChunks: nat
    var completedBytes: nat
    var sentBytes: int

    constructor (src: Source)
      requires ValidSource(src)
      ensures this.src == src && total == Total(src)
      ensures Contents() == Queue(TransferSystem.Upto(Total(src)), 0, 0, 0)
    {
      this.src := src;
      this.total := Total(src);
      pending := TransferSystem.Upto(Total(src));
      completedChunks, completedBytes, sentBytes := 0, 0, 0;
    }

    ghost function Contents(): Queue
      reads this
    {
      Queue(pending, completedChunks, completedBytes, sentBytes)
    }

    /** The piecewise payload write, failing at piece `failAt` if it gets there. */
    method WritePayload(len: nat, failAt: Option<nat>) returns (ok: bool)
      modifies this`sentBytes
      ensures ok <==> failAt.None? || len <= failAt.value * PROGRESS_IO_CHUNK
      ensures sentBytes == old(sentBytes) + if ok then len else failAt.value * PROGRESS_IO_CHUNK
    {
      var offset, piece := 0, 0;
      while offset < len
        invariant offset == Min(piece * PROGRESS_IO_CHUNK, len)
        invariant failAt.Some? && failAt.value < piece ==> failAt.value * PROGRESS_IO_CHUNK >= len
        invariant sentBytes == old(sentBytes) + offset
        decreases len - offset
      {
        if failAt == Some(piece) {
          return false;
        }
        var end := Min(offset + PROGRESS_IO_CHUNK, len);
        sentBytes := sentBytes + (end - offset);
        offset, piece := end, piece + 1;
      }
      return true;
    }

    /** Takes the head of the queue, reads and writes that chunk, handles the answer. */
    method Attempt(reply: Reply) returns (id: nat, written: seq<Byte>, ending: Option<Ending>)
      requires ValidSource(src) && total == Total(src) && pending != [] && Announced(src, pending)
      modifies this
      ensures id == old(pending[0]) && id < Total(src) && Announced(src, pending)
      ensures (Contents(), ending) == Turn(src, old(Contents()), reply)
      ensures ending == Some(IoError) <==> reply.IoFailed?
      ensures ending != Some(Running) && ending != Some(Returned)
      ensures written == if reply.IoFailed? then [] else EncodeChunk(ChunkOf(src, id))
    {
      id := pending[0];
      pending := pending[1..];
      var offset := id * src.chunkSize;
      var remaining := Max(|src.bytes| - offset, 0);
      var len := Min(remaining, src.chunkSize);
      RangeOfId(id, src.chunkSize, |src.bytes|);
      var buffer := src.bytes[offset..offset + len];
      var header := Header(id, offset, len, src.crc(buffer));
      written := [];
      if reply.IoFailed? && len <= reply.piece * PROGRESS_IO_CHUNK {
        return id, written, Some(IoError);
      }
      var ok := WritePayload(len, if reply.IoFailed? then Some(reply.piece) else None);
      if !ok {
        return id, written, Some(IoError);
      }
      written := EncodeHeader(header) + buffer;
      match reply {
        case NackReply(_) =>
          sentBytes := sentBytes - len;
          pending := pending + [id];
          ending := None;
        case AckReply(_) =>
          completedChunks := completedChunks + 1;
          completedBytes := completedBytes + len;
          ending := None;
        case NoReply =>
          pending := pending + [id];
          ending := Some(AckError);
      }
    }

    /** One turn of the loop, added to what was tried and written before. */
    method Round(replies: seq<Reply>, at: nat, ghost tried: seq<nat>, written: seq<Byte>)
      returns (ending: Option<Ending>, ghost tried': seq<nat>, written': seq<Byte>)
      requires ValidSource(src) && total == Total(src) && pending != [] && Announced(src, pending)
      requires at < |replies| && Announced(src, tried) && written == Frames(src, tried)
      modifies this
      ensures |tried'| == |tried| + 1 && tried'[..|tried|] == tried
      ensures Announced(src, pending) && Announced(src, tried')
      ensures written' == Frames(src, if ending == Some(IoError) then tried else tried')
      ensures var r := Run(src, total, old(Contents()), replies[at..]);
              if ending.Some? then Contents() == r.queue && ending.value == r.ending && tried' == tried + r.tried
              else
                var rest := Run(src, total, Contents(), replies[at + 1..]);
                rest.queue == r.queue && rest.ending == r.ending && tried' + rest.tried == tried + r.tried
    {
      hide Turn, Frames, Len, Run, Announced;
      RunStep(src, total, Contents(), replies[at..]);
      assert replies[at..][1..] == replies[at + 1..];
      var id, bytes;
      id, bytes, ending := Attempt(replies[at]);
      FramesSnoc(src, tried, id);
      tried', written' := tried + [id], written + bytes;
    }

    /** The worker's loop for as long as replies are known; `written` is what its
        stream carries for the chunks it wrote completely. */
    method Worker(replies: seq<Reply>)
      returns (ending: Ending, ghost tried: seq<nat>, written: seq<Byte>)
      requires ValidSource(src) && total == Total(src) && Announced(src, pending)
      modifies this
      ensures var r := Run(src, total, old(Contents()), replies);
              && Contents() == r.queue && ending == r.ending && tried == r.tried
      ensures Announced(src, tried) && Announced(src, pending)
      ensures ending == IoError ==> tried != []
      ensures written == Frames(src, if ending == IoError then tried[..|tried| - 1] else tried)
    {
      hide Frames, Run, Announced;
      FramesNone(src);
      tried, written := [], [];
      var at := 0;
      ghost var whole := Run(src, total, Contents(), replies);
      assert replies[0..] == replies;
      while pending != [] && at < |replies|
        invariant at <= |replies| && Announced(src, pending) && Announced(src, tried)
        invariant var rest := Run(src, total, Contents(), replies[at..]);
                  rest.queue == whole.queue && rest.ending == whole.ending && tried + rest.tried == whole.tried
        invariant written == Frames(src, tried)
        decreases |replies| - at
      {
        var stop;
        stop, tried, written := Round(replies, at, tried, written);
        if stop.Some? {
          return stop.value, tried, written;
        }
        at := at + 1;
      }
      RunEnd(src, total, Contents(), replies[at..]);
      ending := if pending == [] && completedChunks >= total then Returned else Running;
    }
  }

  lemma {:induction false} EncodeSnoc(cs: seq<Chunk>, c: Chunk)
    ensures EncodeChunks(cs + [c]) == EncodeChunks(cs) + EncodeChunk(c)
    decreases |cs|
  {
    if cs == [] {
      assert [c][1..] == [];
    } else {
      EncodeSnoc(cs[1..], c);
      assert (cs + [c])[1..] == cs[1..] + [c];
    }
  }

  lemma FramesNone(src: Source)
    requires ValidSource(src)
    ensures Announced(src, []) && Frames(src, []) == []
  {
  }

  lemma FramesSnoc(src: Source, ids: seq<nat>, id: nat)
    requires ValidSource(src) && Announced(src, ids) && id < Total(src)
    ensures Announced(src, ids + [id]) && (ids + [id])[..|ids|] == ids
    ensures Frames(src, ids + [id]) == Frames(src, ids) + EncodeChunk(ChunkOf(src, id))
  {
    EncodeSnoc(ChunksOf(src, ids), ChunkOf(src, id));
    assert ChunksOf(src, ids + [id]) == ChunksOf(src, ids) + [ChunkOf(src, id)];
  }
}
