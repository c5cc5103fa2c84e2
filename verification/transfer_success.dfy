/** A transfer in which nothing goes wrong does succeed: the guarantees of
    `TransferProofs` are not about runs that cannot happen. */
module TransferSuccess {
  import opened Wrappers
  import opened TransferProtocol
  import opened ChunkPlan
  import opened Receiver
  import opened TransferSystem
  import opened TransferProofs

  const CALM: Link := Link(Idle, Listening, [], [])

  /** One stream, `k` chunks delivered and answered, the others queued in order. */
  ghost predicate Delivered(cfg: Config, s: State, k: nat)
    requires Valid(cfg)
  {
    && k <= Total(cfg.src) && s.links == [CALM]
    && |s.pending| == Total(cfg.src) - k && (forall i :: 0 <= i < |s.pending| ==> s.pending[i] == k + i)
    && s.completed == k && !s.done && s.smain == Sending && s.rmain == Receiving
    && |s.disk.flags| == Total(cfg.src) && (forall i :: k <= i < |s.disk.flags| ==> !s.disk.flags[i])
    && |s.disk.file| == |cfg.src.bytes|
  }

  function At(s: State, l: Link): State {
    s.(links := [l])
  }

  /** What one more step of the only link leads to. */
  lemma Onward(cfg: Config, s0: State, steps: seq<Step>, s: State, step: Step, s': State)
    requires Valid(cfg) && Run(cfg, s0, steps) == Some(s) && Apply(cfg, s, step) == Some(s')
    ensures Run(cfg, s0, steps + [step]) == Some(s')
  {
    assert (steps + [step])[..|steps|] == steps;
  }

  lemma OneLink(l: Link, l': Link, c: Chunk, a: AnswerMsg)
    ensures [l][0 := l'] == [l']
    ensures [] + [Frame(c)] == [Frame(c)] && [Frame(c)][1..] == []
    ensures [] + [a] == [a] && [a][1..] == []
  {
  }

  lemma Sent(cfg: Config, s: State, k: nat) returns (s1: State, s2: State)
    requires Valid(cfg) && Delivered(cfg, s, k) && k < Total(cfg.src)
    ensures Apply(cfg, s, Pop(0)) == Some(s1) && Apply(cfg, s1, Send(0)) == Some(s2)
    ensures s2 == At(s, Link(Awaiting(k), Listening, [Frame(ChunkOf(cfg.src, k))], [])).(pending := s.pending[1..])
  {
    var c := ChunkOf(cfg.src, k);
    var l1, l2 := CALM.(snd := Holding(k)), Link(Awaiting(k), Listening, [Frame(c)], []);
    s1 := At(s, l1).(pending := s.pending[1..]);
    s2 := At(s1, l2);
    OneLink(CALM, l1, c, FinalAck);
    OneLink(l1, l2, c, FinalAck);
    hide ChunkOf;
  }

  lemma Received(cfg: Config, s: State, k: nat) returns (s1: State, s2: State)
    requires Valid(cfg) && k < Total(cfg.src)
    requires s.links == [Link(Awaiting(k), Listening, [Frame(ChunkOf(cfg.src, k))], [])]
    requires |s.disk.flags| == Total(cfg.src) && |s.disk.file| == |cfg.src.bytes|
    ensures Apply(cfg, s, Take(0)) == Some(s1) && Apply(cfg, s1, Write(0)) == Some(s2)
    ensures var c := ChunkOf(cfg.src, k);
            c.header.offset + |c.payload| <= |s.disk.file| &&
            s2 == At(s, Link(Awaiting(k), Written(k), [], []))
                  .(disk := s.disk.(file := WriteAt(s.disk.file, c.header.offset, c.payload)))
  {
    var c := ChunkOf(cfg.src, k);
    var l, l1, l2 := s.links[0], Link(Awaiting(k), Got(c), [], []), Link(Awaiting(k), Written(k), [], []);
    s1 := At(s, l1);
    s2 := At(s1, l2).(disk := s.disk.(file := WriteAt(s.disk.file, c.header.offset, c.payload)));
    OneLink(l, l1, c, FinalAck);
    OneLink(l1, l2, c, FinalAck);
    assert cfg.src.crc(c.payload) == c.header.hash32;
    hide ChunkOf, WriteAt;
  }

  lemma Counted(cfg: Config, s: State, k: nat) returns (s1: State, s2: State)
    requires Valid(cfg) && k < Total(cfg.src) && s.links == [Link(Awaiting(k), Written(k), [], [])]
    requires |s.disk.flags| == Total(cfg.src) && !s.disk.flags[k]
    ensures Apply(cfg, s, Swap(0)) == Some(s1) && Apply(cfg, s1, Count(0)) == Some(s2)
    ensures s2 == At(s, Link(Awaiting(k), Answering(AckMessage(k, false)), [], []))
                  .(disk := s.disk.(flags := s.disk.flags[k := true], count := s.disk.count + 1))
  {
    var l, l1, l2 := s.links[0], Link(Awaiting(k), Flagged(k), [], []),
                     Link(Awaiting(k), Answering(AckMessage(k, false)), [], []);
    s1 := At(s, l1).(disk := s.disk.(flags := s.disk.flags[k := true]));
    s2 := At(s1, l2).(disk := s1.disk.(count := s.disk.count + 1));
    OneLink(l, l1, ChunkOf(cfg.src, k), FinalAck);
    OneLink(l1, l2, ChunkOf(cfg.src, k), FinalAck);
  }

  lemma Answered(cfg: Config, s: State, k: nat) returns (s1: State, s2: State)
    requires Valid(cfg) && k < Total(cfg.src) && s.links == [Link(Awaiting(k), Answering(AckMessage(k, false)), [], [])]
    ensures Apply(cfg, s, Reply(0)) == Some(s1) && Apply(cfg, s1, ReadAnswer(0)) == Some(s2)
    ensures s2 == At(s, CALM).(completed := s.completed + 1, acked := s.acked + [k],
              completedBytes := s.completedBytes + Length(k, cfg.src.chunkSize, |cfg.src.bytes|))
  {
    var a := Answer(AckMessage(k, false));
    var l, l1 := s.links[0], Link(Awaiting(k), Listening, [], [a]);
    s1 := At(s, l1);
    s2 := At(s1, CALM).(completed := s.completed + 1, acked := s.acked + [k],
      completedBytes := s.completedBytes + Length(k, cfg.src.chunkSize, |cfg.src.bytes|));
    OneLink(l, l1, ChunkOf(cfg.src, k), a);
    OneLink(l1, CALM, ChunkOf(cfg.src, k), a);
  }

  /** One more chunk gets through. */
  lemma OneMoreChunk(cfg: Config, s: State, k: nat) returns (s': State)
    requires Valid(cfg) && Reachable(cfg, s) && Delivered(cfg, s, k) && k < Total(cfg.src)
    ensures Reachable(cfg, s') && Delivered(cfg, s', k + 1)
  {
    var s1, s2 := Sent(cfg, s, k);
    var s3, s4 := Received(cfg, s2, k);
    var s5, s6 := Counted(cfg, s4, k);
    var s7, s8 := Answered(cfg, s6, k);
    Further(cfg, s, Pop(0), s1);
    Further(cfg, s1, Send(0), s2);
    Further(cfg, s2, Take(0), s3);
    Further(cfg, s3, Write(0), s4);
    Further(cfg, s4, Swap(0), s5);
    Further(cfg, s5, Count(0), s6);
    Further(cfg, s6, Reply(0), s7);
    Further(cfg, s7, ReadAnswer(0), s8);
    s' := s8;
  }

  lemma Further(cfg: Config, s: State, step: Step, s': State)
    requires Valid(cfg) && Reachable(cfg, s) && Apply(cfg, s, step) == Some(s')
    ensures Reachable(cfg, s')
  {
    var s0: State, steps: seq<Step> :| Init(cfg, s0) && Run(cfg, s0, steps) == Some(s);
    Onward(cfg, s0, steps, s, step, s');
  }

  lemma {:induction false} AllChunks(cfg: Config, s: State, k: nat) returns (s': State)
    requires Valid(cfg) && Reachable(cfg, s) && Delivered(cfg, s, k)
    ensures Reachable(cfg, s') && Delivered(cfg, s', Total(cfg.src))
    decreases Total(cfg.src) - k
  {
    s' := s;
    if k < Total(cfg.src) {
      s' := OneMoreChunk(cfg, s, k);
      s' := AllChunks(cfg, s', k + 1);
    }
  }

  lemma DoneSent(cfg: Config, s: State) returns (s1: State, s2: State, s3: State)
    requires Valid(cfg) && Delivered(cfg, s, Total(cfg.src))
    ensures Apply(cfg, s, Finish(0)) == Some(s1) && Apply(cfg, s1, SenderClose(0)) == Some(s2)
    ensures Apply(cfg, s2, Take(0)) == Some(s3)
    ensures s3 == At(s, Link(Returned, Left, [], [])).(smain := AwaitingFinal(0), done := true)
  {
    var c := Chunk(Header(0, 0, 0, 0), []);
    var l1 := CALM.(snd := Returned);
    var l2, l3 := l1.(fwd := [DoneMsg]), l1.(rcv := Left);
    OneLink(CALM, l1, c, FinalAck);
    OneLink(l1, l2, c, FinalAck);
    OneLink(l2, l3, c, FinalAck);
    assert [] + [DoneMsg] == [DoneMsg] && [DoneMsg][1..] == [];
    s1 := At(s, l1);
    s2 := At(s1, l2).(smain := AwaitingFinal(0));
    s3 := At(s2, l3).(done := true);
  }

  lemma FinalSent(cfg: Config, s: State) returns (s1: State, s2: State, s3: State)
    requires Valid(cfg) && s.links == [Link(Returned, Left, [], [])]
    requires s.rmain == Receiving && s.smain == AwaitingFinal(0)
    requires s.disk.count == Total(cfg.src) && s.disk.file == cfg.src.bytes
    ensures Apply(cfg, s, ReceiverJoin) == Some(s1) && Apply(cfg, s1, FinalReply(0)) == Some(s2)
    ensures Apply(cfg, s2, ReadFinal) == Some(s3) && s3.smain == SenderOk
  {
    var l := Link(Returned, Left, [], [FinalAck]);
    OneLink(s.links[0], l, Chunk(Header(0, 0, 0, 0), []), FinalAck);
    s1 := s.(rmain := Renamed);
    s2 := At(s1, l).(rmain := Acked);
    s3 := s2.(smain := SenderOk);
  }

  /** All chunks answered: DONE, the checks and the final answer follow. */
  lemma Closed(cfg: Config, s: State) returns (s': State)
    requires Valid(cfg) && CountFits(cfg) && Reachable(cfg, s) && Delivered(cfg, s, Total(cfg.src))
    ensures Reachable(cfg, s') && s'.smain == SenderOk
  {
    var s1, s2, s3 := DoneSent(cfg, s);
    hide Apply;
    Further(cfg, s, Finish(0), s1);
    Further(cfg, s1, SenderClose(0), s2);
    Further(cfg, s2, Take(0), s3);
    CompleteTransferPassesChecks(cfg, s3);
    SenderCompleteMeansDelivered(cfg, s3);
    var s4, s5, s6 := FinalSent(cfg, s3);
    Further(cfg, s3, ReceiverJoin, s4);
    Further(cfg, s4, FinalReply(0), s5);
    Further(cfg, s5, ReadFinal, s6);
    s' := s6;
  }

  /** For every source whose chunk count fits its field there is a run, over a single
      stream, in which the sender reports success. */
  lemma TransferCanSucceed(cfg: Config) returns (s: State)
    requires Valid(cfg) && CountFits(cfg)
    ensures Reachable(cfg, s) && s.smain == SenderOk && s.disk.file == cfg.src.bytes
  {
    var n := Total(cfg.src);
    var s0 := State(Upto(n), 0, 0, [CALM], Disk(seq(|cfg.src.bytes|, i => 0), seq(n, i => false), 0), false,
                    Sending, Receiving, [], []);
    assert Run(cfg, s0, []) == Some(s0);
    assert Reachable(cfg, s0);
    s := AllChunks(cfg, s0, 0);
    s := Closed(cfg, s);
    SenderOkMeansFileArrived(cfg, s);
  }
}
