/** The workers of `Sender` and `Receiver` take whole turns at a time; the step relation
    of `TransferSystem` breaks these turns up where other tasks can run. Run without
    interruption, the steps of a turn do what the turn does. */
module TransferRefinement {
  import opened Wrappers
  import opened TransferProtocol
  import opened ChunkPlan
  import opened Receiver
  import opened TransferSystem
  import Sender

  function Then(cfg: Config, x: Option<Local>, step: Step): Option<Local> {
    match x
    case None => None
    case Some(y) => LocalStep(cfg, y, step)
  }

  /** Reading, checking, writing, flagging, counting and answering one chunk that is next
      on the stream, refused or new or repeated, is ReceiveChunk and its answer. */
  lemma ReceiverTurn(cfg: Config, x: Local, c: Chunk, w: nat)
    requires x.link.rcv.Listening? && x.link.fwd != [] && x.link.fwd[0] == Frame(c)
    requires WellFormed(c) && Accepts(x.disk, c.header)
    ensures var taken := Then(cfg, Some(x), Take(w));
            var r := ReceiveChunk(cfg.src.crc, x.disk, c);
            var after := Some(Local(x.link.(rcv := Listening, fwd := x.link.fwd[1..],
                                            back := x.link.back + [Answer(r.1)]), r.0, x.done));
            if cfg.src.crc(c.payload) != c.header.hash32 then Then(cfg, taken, Reply(w)) == after
            else
              var swapped := Then(cfg, Then(cfg, taken, Write(w)), Swap(w));
              if x.disk.flags[c.header.chunkId] then Then(cfg, swapped, Reply(w)) == after
              else Then(cfg, Then(cfg, swapped, Count(w)), Reply(w)) == after
  {
    var id := c.header.chunkId;
    assert x.disk.flags[id] ==> x.disk.flags[id := true] == x.disk.flags;
    hide WriteAt;
  }

  /** What the turn of a sender's worker may change of the shared state. */
  function SharedOf(s: State, sent: int): Sender.Queue {
    Sender.Queue(s.pending, s.completed, s.completedBytes, sent)
  }

  predicate SameQueue(s: State, q: Sender.Queue) {
    s.pending == q.pending && s.completed == q.completed && s.completedBytes == q.completedBytes
  }

  /** The stream between writing the chunk and reading the answer: the receiver has taken
      the chunk and put one message back. */
  function Replied(s: State, w: nat, a: AnswerMsg): State
    requires w < |s.links|
  {
    SetLink(s, w, s.links[w].(fwd := [], back := [a]))
  }

  function Popped(cfg: Config, s: State, w: nat): Option<State>
    requires Valid(cfg) && w < |s.links|
  {
    SenderStep(cfg, s, Pop(w), w)
  }

  /** An acknowledged chunk: popped, sent, answered. */
  lemma AckedTurn(cfg: Config, s: State, w: nat, ack: AckMessage, sent: int)
    requires Valid(cfg) && w < |s.links| && s.links[w].snd.Idle?
    requires s.pending != [] && s.pending[0] < Total(cfg.src)
    ensures var s1 := Popped(cfg, s, w);
            && s1.Some? && |s1.value.links| == |s.links|
            && var s2 := SenderStep(cfg, s1.value, Send(w), w);
            && s2.Some? && |s2.value.links| == |s.links|
            && var s3 := SenderStep(cfg, Replied(s2.value, w, Answer(ack)), ReadAnswer(w), w);
            && s3.Some? && |s3.value.links| == |s.links|
            && (if ack.isNack then
                  && var s4 := SenderStep(cfg, s3.value, Requeue(w), w);
                  && s4.Some? && s4.value.links[w].snd.Idle?
                  && SameQueue(s4.value, Sender.Turn(cfg.src, SharedOf(s, sent), Sender.NackReply(ack.chunkId)).0)
                else
                  && s3.value.links[w].snd.Idle?
                  && SameQueue(s3.value, Sender.Turn(cfg.src, SharedOf(s, sent), Sender.AckReply(ack.chunkId)).0))
  {
    hide ChunkOf, Length;
  }

  /** A chunk without an answer goes back to the queue and takes the worker down. */
  lemma UnansweredTurn(cfg: Config, s: State, w: nat, sent: int)
    requires Valid(cfg) && w < |s.links| && s.links[w].snd.Idle?
    requires s.pending != [] && s.pending[0] < Total(cfg.src)
    ensures var s1 := Popped(cfg, s, w);
            && s1.Some? && |s1.value.links| == |s.links|
            && var s2 := SenderStep(cfg, s1.value, Send(w), w);
            && s2.Some? && |s2.value.links| == |s.links|
            && var s3 := SenderStep(cfg, s2.value, AnswerFail(w), w);
            && s3.Some? && |s3.value.links| == |s.links|
            && var s4 := SenderStep(cfg, s3.value, Requeue(w), w);
            && s4.Some? && s4.value.links[w].snd.Dead?
            && SameQueue(s4.value, Sender.Turn(cfg.src, SharedOf(s, sent), Sender.NoReply).0)
  {
    hide ChunkOf, Length;
  }

  /** A failure before the chunk is written takes the worker and the number down. */
  lemma FailedTurn(cfg: Config, s: State, w: nat, piece: nat, delivered: bool, sent: int)
    requires Valid(cfg) && w < |s.links| && s.links[w].snd.Idle?
    requires s.pending != [] && s.pending[0] < Total(cfg.src)
    ensures var s1 := Popped(cfg, s, w);
            && s1.Some? && |s1.value.links| == |s.links|
            && var s2 := SenderStep(cfg, s1.value, SendFail(w, delivered), w);
            && s2.Some? && s2.value.links[w].snd.Dead? && s2.value.lost == s.lost + [s.pending[0]]
            && SameQueue(s2.value, Sender.Turn(cfg.src, SharedOf(s, sent), Sender.IoFailed(piece)).0)
  {
    hide ChunkOf, Length;
  }

  // ---------- what a failure leaves ----------

  /** A write that fails half way leaves the first part of the chunk in the file, and the rest of it as
      it was; the worker is gone, with its number neither flagged nor counted. */
  lemma FailedWrite(cfg: Config, x: Local, w: nat, written: nat)
    requires DiskStep(x, WriteFail(w, written)).Some?
    ensures var y, c := DiskStep(x, WriteFail(w, written)).value, x.link.rcv.chunk;
            var from := c.header.offset;
            && |y.disk.file| == |x.disk.file| && y.disk.flags == x.disk.flags && y.disk.count == x.disk.count
            && y.link.rcv.Failed? && y.link.back == x.link.back
            && forall i :: 0 <= i < |x.disk.file| ==>
                 y.disk.file[i] == if from <= i < from + written then c.payload[i - from] else x.disk.file[i]
  {
  }

  /** Once DONE has been seen on any stream, a read that fails is as good as an end: the worker hands its
      stream back. Before, it is an error. */
  lemma ReadFailure(cfg: Config, s: State, w: nat)
    requires Valid(cfg) && w < |s.links| && s.links[w].rcv.Listening?
    ensures Apply(cfg, s, ListenFail(w)).Some?
    ensures s.done ==> Apply(cfg, s, ListenFail(w)) == Apply(cfg, s, Leave(w))
    ensures Apply(cfg, s, ListenFail(w)).value.links[w].rcv == if s.done then Left else Failed
  {
  }
}
