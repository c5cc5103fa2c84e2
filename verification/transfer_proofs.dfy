/** The invariant of the transfer holds in every reachable state, and what follows. */
module TransferProofs {
  import opened Wrappers
  import opened TransferProtocol
  import opened ChunkPlan
  import opened Receiver
  import opened TransferSystem

  // ---------- one link replaced ----------

  lemma {:induction false} HoldersUpdate(links: seq<Link>, w: nat, l: Link, id: nat)
    requires w < |links|
    ensures Holders(links[w := l], id) + (if Holds(links[w], id) then 1 else 0)
            == Holders(links, id) + if Holds(l, id) then 1 else 0
  {
    var last := |links| - 1;
    if w < last {
      HoldersUpdate(links[..last], w, l, id);
      assert links[w := l][..last] == links[..last][w := l];
    } else {
      assert links[w := l][..last] == links[..last];
    }
  }

  lemma {:induction false} UncountedUpdate(links: seq<Link>, w: nat, l: Link)
    requires w < |links|
    ensures Uncounted(links[w := l]) + (if links[w].rcv.Flagged? then 1 else 0)
            == Uncounted(links) + if l.rcv.Flagged? then 1 else 0
  {
    var last := |links| - 1;
    if w < last {
      UncountedUpdate(links[..last], w, l);
      assert links[w := l][..last] == links[..last][w := l];
    } else {
      assert links[w := l][..last] == links[..last];
    }
  }

  ghost predicate Grows(src: Source, v: View, v': View) {
    && |v.disk.flags| == |v'.disk.flags|
    && (forall id :: 0 <= id < |v.disk.flags| && v.disk.flags[id] ==> v'.disk.flags[id])
    && (forall id :: Correct(src, v.disk.file, id) ==> Correct(src, v'.disk.file, id))
    && (v.closing ==> v'.closing) && (v.complete ==> v'.complete) && (v.final ==> v'.final)
  }

  lemma LinkInvGrows(src: Source, v: View, v': View, l: Link)
    requires ValidSource(src) && LinkInv(src, v, l) && Grows(src, v, v')
    requires v'.closing ==> SenderFinished(l)
    ensures LinkInv(src, v', l)
  {
    forall i | 0 <= i < |l.fwd|
      ensures DataOk(src, v', l.fwd[i])
    {
      assert DataOk(src, v, l.fwd[i]);
    }
    forall i | 0 <= i < |l.back|
      ensures AnswerOk(v', l.back[i])
    {
      assert AnswerOk(v, l.back[i]);
    }
  }

  /** A step that replaces one link and lets the shared state grow keeps all links right. */
  lemma LinksKept(cfg: Config, s: State, s': State, w: nat)
    requires Valid(cfg) && w < |s.links| == |s'.links| && s'.links == s.links[w := s'.links[w]]
    requires forall i :: 0 <= i < |s.links| ==> LinkInv(cfg.src, ViewOf(cfg, s), s.links[i])
    requires Grows(cfg.src, ViewOf(cfg, s), ViewOf(cfg, s')) && s.smain == s'.smain
    requires LinkInv(cfg.src, ViewOf(cfg, s'), s'.links[w])
    ensures forall i :: 0 <= i < |s'.links| ==> LinkInv(cfg.src, ViewOf(cfg, s'), s'.links[i])
  {
    forall i | 0 <= i < |s'.links|
      ensures LinkInv(cfg.src, ViewOf(cfg, s'), s'.links[i])
    {
      if i != w {
        assert s'.links[i] == s.links[i];
        LinkInvGrows(cfg.src, ViewOf(cfg, s), ViewOf(cfg, s'), s.links[i]);
      }
    }
  }

  // ---------- conservation ----------

  lemma OccurrencesSnoc(ids: seq<nat>, x: nat, id: nat)
    ensures Occurrences(ids + [x], id) == Occurrences(ids, id) + if x == id then 1 else 0
  {
    assert (ids + [x])[..|ids|] == ids;
  }

  lemma {:induction false} OccurrencesHead(ids: seq<nat>, id: nat)
    requires ids != []
    ensures Occurrences(ids, id) == Occurrences(ids[1..], id) + if ids[0] == id then 1 else 0
  {
    var last := |ids| - 1;
    if last > 0 {
      OccurrencesHead(ids[..last], id);
      assert ids[1..][..last - 1] == ids[..last][1..];
    }
  }

  lemma {:induction false} OccurrencesRemove(ids: seq<nat>, i: nat, id: nat)
    requires i < |ids|
    ensures Occurrences(ids, id) == Occurrences(ids[..i] + ids[i + 1..], id) + if ids[i] == id then 1 else 0
  {
    var last := |ids| - 1;
    if i < last {
      OccurrencesRemove(ids[..last], i, id);
      RemoveLast(ids, i);
      OccurrencesSnoc(ids[..last][..i] + ids[..last][i + 1..], ids[last], id);
    } else {
      assert ids[..i] + ids[i + 1..] == ids[..last];
    }
  }

  lemma RemoveLast(ids: seq<nat>, i: nat)
    requires i < |ids| - 1
    ensures ids[..i] + ids[i + 1..]
            == (ids[..|ids| - 1][..i] + ids[..|ids| - 1][i + 1..]) + [ids[|ids| - 1]]
  {
    assert ids[i + 1..] == ids[..|ids| - 1][i + 1..] + [ids[|ids| - 1]];
  }

  lemma {:induction false} OccursIn(ids: seq<nat>, id: nat)
    ensures Occurrences(ids, id) > 0 <==> id in ids
  {
    if ids != [] {
      OccursIn(ids[..|ids| - 1], id);
      assert ids == ids[..|ids| - 1] + [ids[|ids| - 1]];
    }
  }

  /** Every number below n exactly once. */
  ghost predicate AllOnce(ids: seq<nat>, n: nat) {
    forall id: nat :: Occurrences(ids, id) == if id < n then 1 else 0
  }

  /** Distinct numbers below n: at most n of them, and n only if none is missing. */
  lemma {:induction false} DistinctBelow(ids: seq<nat>, n: nat)
    requires forall id: nat :: Occurrences(ids, id) <= if id < n then 1 else 0
    ensures |ids| <= n && (|ids| == n ==> AllOnce(ids, n))
  {
    if n == 0 {
      if ids != [] {
        OccursIn(ids, ids[0]);
      }
    } else {
      var top: nat := n - 1;
      OccursIn(ids, top);
      var rest := ids;
      if top in ids {
        var i :| 0 <= i < |ids| && ids[i] == top;
        rest := ids[..i] + ids[i + 1..];
        forall id: nat
          ensures Occurrences(ids, id) == Occurrences(rest, id) + if id == top then 1 else 0
        {
          OccurrencesRemove(ids, i, id);
        }
      }
      forall id: nat
        ensures Occurrences(rest, id) <= if id < top then 1 else 0
      {
        assert Occurrences(ids, id) <= if id < n then 1 else 0;
      }
      DistinctBelow(rest, top);
    }
  }

  lemma AckedAreDistinct(cfg: Config, s: State)
    requires Valid(cfg) && Conserved(cfg, s)
    ensures forall id: nat :: Occurrences(s.acked, id) <= if id < Total(cfg.src) then 1 else 0
  {
    forall id: nat
      ensures Occurrences(s.acked, id) <= if id < Total(cfg.src) then 1 else 0
    {
      assert Places(s, id) == if id < Total(cfg.src) then 1 else 0;
    }
  }

  /** Counted everything means: all numbers acknowledged, none queued, held or
      lost, and the byte counter has reached the sum over all chunks. */
  lemma CompleteMeansAllAcked(cfg: Config, s: State)
    requires Valid(cfg) && Conserved(cfg, s) && s.completed == Total(cfg.src)
    ensures AllOnce(s.acked, Total(cfg.src))
    ensures s.pending == [] && s.lost == [] && forall id: nat :: Holders(s.links, id) == 0
    ensures s.completedBytes == SumLengths(Total(cfg.src), cfg.src.chunkSize, |cfg.src.bytes|)
  {
    AckedAreDistinct(cfg, s);
    DistinctBelow(s.acked, Total(cfg.src));
    forall id: nat
      ensures Occurrences(s.pending, id) == Holders(s.links, id) == Occurrences(s.lost, id) == 0
    {
      assert Places(s, id) == if id < Total(cfg.src) then 1 else 0;
    }
    if s.pending != [] {
      OccursIn(s.pending, s.pending[0]);
    }
    if s.lost != [] {
      OccursIn(s.lost, s.lost[0]);
    }
    SumOfPermutation(cfg.src, s.acked, Total(cfg.src));
  }

  lemma SumSnoc(src: Source, ids: seq<nat>, id: nat)
    ensures SumOf(src, ids + [id]) == SumOf(src, ids) + Length(id, src.chunkSize, |src.bytes|)
  {
    assert (ids + [id])[..|ids|] == ids;
  }

  lemma {:induction false} SumRemove(src: Source, ids: seq<nat>, i: nat)
    requires i < |ids|
    ensures SumOf(src, ids) == SumOf(src, ids[..i] + ids[i + 1..]) + Length(ids[i], src.chunkSize, |src.bytes|)
  {
    var last := |ids| - 1;
    if i < last {
      SumRemove(src, ids[..last], i);
      RemoveLast(ids, i);
      SumSnoc(src, ids[..last][..i] + ids[..last][i + 1..], ids[last]);
    } else {
      assert ids[..i] + ids[i + 1..] == ids[..last];
    }
  }

  lemma {:induction false} SumOfPermutation(src: Source, ids: seq<nat>, n: nat)
    requires AllOnce(ids, n)
    ensures SumOf(src, ids) == SumLengths(n, src.chunkSize, |src.bytes|)
  {
    if n == 0 {
      if ids != [] {
        OccursIn(ids, ids[0]);
      }
    } else {
      var top: nat := n - 1;
      OccursIn(ids, top);
      var i :| 0 <= i < |ids| && ids[i] == top;
      var rest := ids[..i] + ids[i + 1..];
      forall id: nat
        ensures Occurrences(rest, id) == if id < top then 1 else 0
      {
        OccurrencesRemove(ids, i, id);
      }
      SumRemove(src, ids, i);
      SumOfPermutation(src, rest, top);
    }
  }

  /** The number a sender worker holds, if any. */
  function HeldNumber(snd: SenderWorker): nat {
    match snd
    case Holding(n) => n
    case Awaiting(n) => n
    case Returning(n, _) => n
    case _ => 0
  }

  /** The three lists after a sender step, by the number its worker held. */
  lemma ListsAfter(cfg: Config, s: State, step: Step, w: nat, s': State)
    requires Valid(cfg) && w < |s.links| && SenderStep(cfg, s, step, w) == Some(s')
    ensures s'.links == s.links[w := s'.links[w]]
    ensures var n := HeldNumber(s.links[w].snd);
            && s'.pending == (if step.Pop? then s.pending[1..]
                              else if step.Requeue? then s.pending + [n] else s.pending)
            && s'.lost == (if step.SendFail? then s.lost + [n] else s.lost)
            && (s'.acked == s.acked || (step.ReadAnswer? && s'.acked == s.acked + [n]))
  {
  }

  /** Whether the worker holds the number before and after. */
  lemma HoldsAfter(cfg: Config, s: State, step: Step, w: nat, s': State, id: nat)
    requires Valid(cfg) && w < |s.links| && SenderStep(cfg, s, step, w) == Some(s')
    ensures var n := HeldNumber(s.links[w].snd);
            && Holds(s.links[w], id) == (!step.Pop? && !step.Finish? && n == id)
            && Holds(s'.links[w], id) ==
                 if step.Pop? then s.pending[0] == id
                 else if step.Finish? || step.SendFail? || step.Requeue? || s'.acked != s.acked then false
                 else n == id
  {
    assert |s.acked + [HeldNumber(s.links[w].snd)]| != |s.acked|;
  }

  /** What a sender step does to the lists, seen from its own link. */
  lemma SenderStepMoves(cfg: Config, s: State, step: Step, w: nat, s': State, id: nat)
    requires Valid(cfg) && w < |s.links| && SenderStep(cfg, s, step, w) == Some(s')
    ensures s'.links == s.links[w := s'.links[w]]
    ensures Listed(s', id) + (if Holds(s'.links[w], id) then 1 else 0)
            == Listed(s, id) + if Holds(s.links[w], id) then 1 else 0
  {
    var n := HeldNumber(s.links[w].snd);
    ListsAfter(cfg, s, step, w, s');
    HoldsAfter(cfg, s, step, w, s', id);
    OccurrencesSnoc(s.pending, n, id);
    OccurrencesSnoc(s.acked, n, id);
    OccurrencesSnoc(s.lost, n, id);
    if step.Pop? {
      OccurrencesHead(s.pending, id);
    }
  }

  /** Queue, workers, counter and losses after a sender step. */
  lemma SenderStepConserves(cfg: Config, s: State, step: Step, w: nat, s': State)
    requires Valid(cfg) && Conserved(cfg, s) && w < |s.links| && SenderStep(cfg, s, step, w) == Some(s')
    ensures Conserved(cfg, s')
  {
    forall id: nat
      ensures Places(s', id) == Places(s, id)
    {
      SenderStepMoves(cfg, s, step, w, s', id);
      HoldersUpdate(s.links, w, s'.links[w], id);
    }
    SumSnoc(cfg.src, s.acked, HeldNumber(s.links[w].snd));
  }

  // ---------- sender steps ----------

  lemma CountStaysInRange(cfg: Config, s: State)
    requires Valid(cfg) && Conserved(cfg, s)
    ensures s.completed <= Total(cfg.src)
  {
    AckedAreDistinct(cfg, s);
    DistinctBelow(s.acked, Total(cfg.src));
  }

  lemma SenderStepGrows(cfg: Config, s: State, step: Step, w: nat, s': State)
    requires Valid(cfg) && Conserved(cfg, s) && w < |s.links| && SenderStep(cfg, s, step, w) == Some(s')
    ensures Grows(cfg.src, ViewOf(cfg, s), ViewOf(cfg, s'))
    ensures s'.disk == s.disk && s'.smain == s.smain && s'.rmain == s.rmain && s'.done == s.done
    ensures s'.links[w].rcv == s.links[w].rcv
  {
    SenderStepConserves(cfg, s, step, w, s');
    CountStaysInRange(cfg, s');
  }

  lemma GenuineChunk(src: Source, id: nat)
    requires ValidSource(src) && id < Total(src)
    ensures Genuine(src, ChunkOf(src, id))
  {
  }

  lemma SenderStepLink(cfg: Config, s: State, step: Step, w: nat, s': State)
    requires Valid(cfg) && Conserved(cfg, s) && w < |s.links| && SenderStep(cfg, s, step, w) == Some(s')
    requires LinkInv(cfg.src, ViewOf(cfg, s), s.links[w])
    ensures LinkInv(cfg.src, ViewOf(cfg, s'), s'.links[w])
  {
    SenderStepGrows(cfg, s, step, w, s');
    CountStaysInRange(cfg, s);
    var v, v' := ViewOf(cfg, s), ViewOf(cfg, s');
    var l, l' := s.links[w], s'.links[w];
    assert !v'.closing;
    forall i | 0 <= i < |l'.fwd|
      ensures DataOk(cfg.src, v', l'.fwd[i])
    {
      if i < |l.fwd| {
        assert l'.fwd[i] == l.fwd[i] && DataOk(cfg.src, v, l.fwd[i]);
      } else {
        GenuineChunk(cfg.src, l.snd.id);
      }
    }
    forall i | 0 <= i < |l'.back|
      ensures AnswerOk(v', l'.back[i])
    {
      var k := if |l'.back| < |l.back| then i + 1 else i;
      assert l'.back[i] == l.back[k] && AnswerOk(v, l.back[k]);
    }
  }

  lemma AnswerConcernsHeld(src: Source, v: View, l: Link)
    requires ValidSource(src) && LinkInv(src, v, l) && l.snd.Awaiting? && l.back != []
    ensures l.back[0].Answer? && l.back[0].ack.chunkId == l.snd.id
    ensures !l.back[0].ack.isNack ==> l.snd.id < |v.disk.flags| && v.disk.flags[l.snd.id]
  {
    assert AnswerOk(v, l.back[0]);
  }

  lemma SenderStepCounts(cfg: Config, s: State, step: Step, w: nat, s': State)
    requires Valid(cfg) && Conserved(cfg, s) && DiskAndCounts(cfg, s)
    requires w < |s.links| && SenderStep(cfg, s, step, w) == Some(s')
    requires LinkInv(cfg.src, ViewOf(cfg, s), s.links[w])
    ensures DiskAndCounts(cfg, s')
  {
    SenderStepGrows(cfg, s, step, w, s');
    ListsAfter(cfg, s, step, w, s');
    UncountedUpdate(s.links, w, s'.links[w]);
    if step.ReadAnswer? {
      AnswerConcernsHeld(cfg.src, ViewOf(cfg, s), s.links[w]);
    }
  }

  // ---------- receiver steps ----------

  lemma GenuineWrite(src: Source, d: Disk, c: Chunk, written: nat)
    requires ValidSource(src) && DiskInv(src, d) && c.header.chunkId < Total(src)
    requires c == ChunkOf(src, c.header.chunkId) && written <= |c.payload|
    ensures c.header.offset + |c.payload| <= |d.file|
    ensures var d' := d.(file := WriteAt(d.file, c.header.offset, c.payload[..written]));
            && DiskInv(src, d')
            && (forall id :: Correct(src, d.file, id) ==> Correct(src, d'.file, id))
            && (written == |c.payload| ==> Correct(src, d'.file, c.header.chunkId))
  {
    WritingIsHarmless(src, d.file, c.header.chunkId, written);
  }

  /** A step on the file or the flags keeps them right and leaves its worker right. */
  lemma DiskStepKeeps(src: Source, v: View, x: Local, step: Step, y: Local)
    requires ValidSource(src) && DiskStep(x, step) == Some(y)
    requires DiskInv(src, x.disk) && v.disk == x.disk && LinkInv(src, v, x.link)
    ensures DiskInv(src, y.disk) && Grows(src, v, v.(disk := y.disk))
    ensures LinkInv(src, v.(disk := y.disk), y.link)
  {
    var v' := v.(disk := y.disk);
    var r := x.link.rcv;
    if r.Got? {
      var written := if step.WriteFail? then step.written else |r.chunk.payload|;
      assert r.chunk.payload[..|r.chunk.payload|] == r.chunk.payload;
      GenuineWrite(src, x.disk, r.chunk, written);
    }
    assert Grows(src, v, v');
    LinkInvGrows(src, v, v', x.link);
  }

  /** Only genuine frames travel, so no header is ever refused. */
  lemma GenuineAccepted(src: Source, d: Disk, c: Chunk)
    requires ValidSource(src) && DiskInv(src, d) && Genuine(src, c)
    ensures WellFormed(c) && Accepts(d, c.header)
  {
  }

  lemma MessagesStayRight(cfg: Config, v: View, x: Local, step: Step, y: Local)
    requires Valid(cfg) && MessageStep(cfg, x, step) == Some(y) && LinkInv(cfg.src, v, x.link)
    ensures forall i :: 0 <= i < |y.link.fwd| ==> DataOk(cfg.src, v, y.link.fwd[i])
    ensures forall i :: 0 <= i < |y.link.back| ==> AnswerOk(v, y.link.back[i])
  {
    hide Correct, ChunkOf, Protocol;
    var l, l' := x.link, y.link;
    if l.fwd != [] {
      assert DataOk(cfg.src, v, l.fwd[0]);
    }
    forall i | 0 <= i < |l'.fwd|
      ensures DataOk(cfg.src, v, l'.fwd[i])
    {
      var k := if |l'.fwd| < |l.fwd| then i + 1 else i;
      assert DataOk(cfg.src, v, l.fwd[k]);
    }
    forall i | 0 <= i < |l'.back|
      ensures AnswerOk(v, l'.back[i])
    {
      assert i < |l.back| ==> AnswerOk(v, l.back[i]);
    }
  }

  /** A step on the messages keeps its link right; the DONE flag is only raised
      by a DONE message. */
  lemma MessageStepKeeps(cfg: Config, v: View, x: Local, step: Step, y: Local)
    requires Valid(cfg) && MessageStep(cfg, x, step) == Some(y)
    requires DiskInv(cfg.src, x.disk) && v.disk == x.disk && LinkInv(cfg.src, v, x.link)
    requires x.done ==> v.closing && v.complete
    ensures y.disk == x.disk && (y.done ==> v.closing && v.complete)
    ensures LinkInv(cfg.src, v, y.link)
  {
    hide Correct, ChunkOf, DiskInv;
    MessagesStayRight(cfg, v, x, step, y);
    if x.link.fwd != [] {
      assert DataOk(cfg.src, v, x.link.fwd[0]);
    }
    hide AnswerOk;
  }

  lemma LocalStepKeeps(cfg: Config, v: View, x: Local, step: Step, y: Local)
    requires Valid(cfg) && LocalStep(cfg, x, step) == Some(y)
    requires DiskInv(cfg.src, x.disk) && v.disk == x.disk && LinkInv(cfg.src, v, x.link)
    requires x.done ==> v.closing && v.complete
    ensures DiskInv(cfg.src, y.disk) && Grows(cfg.src, v, v.(disk := y.disk))
    ensures LinkInv(cfg.src, v.(disk := y.disk), y.link)
    ensures y.done ==> v.closing && v.complete
  {
    if step.Write? || step.WriteFail? || step.Swap? || step.Count? {
      DiskStepKeeps(cfg.src, v, x, step, y);
    } else {
      MessageStepKeeps(cfg, v, x, step, y);
      assert v.(disk := y.disk) == v;
    }
  }

  /** The flag set and the counter move together, one worker step apart. */
  lemma LocalStepCounts(cfg: Config, x: Local, step: Step, y: Local)
    requires LocalStep(cfg, x, step) == Some(y)
    ensures y.link.snd == x.link.snd && |y.disk.flags| == |x.disk.flags|
    ensures y.disk.count + (if y.link.rcv.Flagged? then 1 else 0) + CountTrue(x.disk.flags)
            == x.disk.count + (if x.link.rcv.Flagged? then 1 else 0) + CountTrue(y.disk.flags)
    ensures ReceiverFinished(x.link) ==> y.link.rcv == x.link.rcv && y.disk == x.disk
    ensures forall id :: 0 <= id < |x.disk.flags| && x.disk.flags[id] ==> y.disk.flags[id]
  {
    if step.Swap? {
      CountTrueUpdate(x.disk.flags, x.link.rcv.id);
    }
  }

  lemma ReceiverStepConserves(cfg: Config, s: State, step: Step, w: nat, s': State)
    requires Valid(cfg) && Conserved(cfg, s) && w < |s.links| && ReceiverStep(cfg, s, step, w) == Some(s')
    ensures Conserved(cfg, s')
  {
    var y := LocalStep(cfg, LocalOf(s, w), step).value;
    LocalStepCounts(cfg, LocalOf(s, w), step, y);
    forall id: nat
      ensures Places(s', id) == Places(s, id)
    {
      HoldersUpdate(s.links, w, y.link, id);
    }
  }

  lemma ReceiverStepKeeps(cfg: Config, s: State, step: Step, w: nat, s': State)
    requires Valid(cfg) && Inv(cfg, s) && w < |s.links| && ReceiverStep(cfg, s, step, w) == Some(s')
    ensures Inv(cfg, s')
  {
    hide LocalStep, LinkInv, Grows, Correct;
    var x := LocalOf(s, w);
    var y := LocalStep(cfg, x, step).value;
    LocalStepKeeps(cfg, ViewOf(cfg, s), x, step, y);
    LocalStepCounts(cfg, x, step, y);
    assert s' == s.(links := s.links[w := y.link], disk := y.disk, done := y.done);
    LinksKept(cfg, s, s', w);
    UncountedUpdate(s.links, w, y.link);
    ReceiverStepConserves(cfg, s, step, w, s');
    assert s.links[w] in s.links;
  }

  lemma SenderStepKeeps(cfg: Config, s: State, step: Step, w: nat, s': State)
    requires Valid(cfg) && Inv(cfg, s) && w < |s.links| && SenderStep(cfg, s, step, w) == Some(s')
    ensures Inv(cfg, s')
  {
    SenderStepConserves(cfg, s, step, w, s');
    SenderStepGrows(cfg, s, step, w, s');
    SenderStepLink(cfg, s, step, w, s');
    SenderStepCounts(cfg, s, step, w, s');
    ListsAfter(cfg, s, step, w, s');
    LinksKept(cfg, s, s', w);
    assert !SenderFinished(s.links[w]);
    assert s.rmain != Receiving ==> ReceiverFinished(s.links[w]);
  }

  // ---------- the two callers ----------

  /** Links stay right when only the callers' part of the view grows. */
  lemma AllLinksGrow(cfg: Config, s: State, v': View)
    requires Valid(cfg) && Inv(cfg, s) && Grows(cfg.src, ViewOf(cfg, s), v')
    requires v'.closing ==> forall l :: l in s.links ==> SenderFinished(l)
    ensures forall i :: 0 <= i < |s.links| ==> LinkInv(cfg.src, v', s.links[i])
  {
    forall i | 0 <= i < |s.links|
      ensures LinkInv(cfg.src, v', s.links[i])
    {
      assert s.links[i] in s.links;
      LinkInvGrows(cfg.src, ViewOf(cfg, s), v', s.links[i]);
    }
  }

  lemma ClosingMeansFinished(cfg: Config, s: State)
    requires Valid(cfg) && Inv(cfg, s)
    ensures s.smain != Sending ==> forall l :: l in s.links ==> SenderFinished(l)
  {
  }

  /** One message appended to one finished link, nothing else about links. */
  lemma AppendKeeps(cfg: Config, s: State, s': State, w: nat)
    requires Valid(cfg) && Inv(cfg, s) && w < |s.links| == |s'.links|
    requires s'.links == s.links[w := s'.links[w]] && s'.links[w].snd == s.links[w].snd
    requires s'.links[w].rcv == s.links[w].rcv
    requires s'.pending == s.pending && s'.acked == s.acked && s'.lost == s.lost && s'.disk == s.disk
    requires s'.completed == s.completed && s'.completedBytes == s.completedBytes
    ensures Conserved(cfg, s') && DiskAndCounts(cfg, s')
  {
    forall id: nat
      ensures Places(s', id) == Places(s, id)
    {
      HoldersUpdate(s.links, w, s'.links[w], id);
    }
    UncountedUpdate(s.links, w, s'.links[w]);
  }

  lemma SenderCloseKeeps(cfg: Config, s: State, w: nat, s': State)
    requires Valid(cfg) && Inv(cfg, s) && MainStep(cfg, s, SenderClose(w)) == Some(s')
    ensures Inv(cfg, s')
  {
    AppendKeeps(cfg, s, s', w);
    var v' := ViewOf(cfg, s');
    AllLinksGrow(cfg, s, v');
    assert LinkInv(cfg.src, ViewOf(cfg, s), s.links[w]);
    assert s.links[w].fwd != [] ==> DataOk(cfg.src, ViewOf(cfg, s), s.links[w].fwd[0]);
    assert s.links[w] in s.links;
    assert LinkInv(cfg.src, v', s'.links[w]);
  }

  lemma FinalReplyKeeps(cfg: Config, s: State, w: nat, s': State)
    requires Valid(cfg) && Inv(cfg, s) && MainStep(cfg, s, FinalReply(w)) == Some(s')
    ensures Inv(cfg, s')
  {
    AppendKeeps(cfg, s, s', w);
    ClosingMeansFinished(cfg, s);
    var v' := ViewOf(cfg, s');
    AllLinksGrow(cfg, s, v');
    var l, l' := s.links[w], s'.links[w];
    assert LinkInv(cfg.src, ViewOf(cfg, s), l);
    forall i | 0 <= i < |l'.back|
      ensures AnswerOk(v', l'.back[i])
    {
      assert i < |l.back| ==> AnswerOk(ViewOf(cfg, s), l.back[i]);
    }
    assert l.back != [] ==> AnswerOk(ViewOf(cfg, s), l.back[0]);
    assert LinkInv(cfg.src, v', l');
  }

  lemma OtherMainKeeps(cfg: Config, s: State, step: Step, s': State)
    requires Valid(cfg) && Inv(cfg, s) && MainStep(cfg, s, step) == Some(s')
    requires !step.SenderClose? && !step.FinalReply?
    ensures Inv(cfg, s')
  {
    assert s' == s.(smain := s'.smain, rmain := s'.rmain);
    ClosingMeansFinished(cfg, s);
    AllLinksGrow(cfg, s, ViewOf(cfg, s'));
    assert forall id: nat :: Places(s', id) == Places(s, id);
    if step.ReadFinal? {
      assert AnswerOk(ViewOf(cfg, s), s.links[s.smain.stream].back[0]);
    }
  }

  lemma MainStepKeeps(cfg: Config, s: State, step: Step, s': State)
    requires Valid(cfg) && Inv(cfg, s) && MainStep(cfg, s, step) == Some(s')
    ensures Inv(cfg, s')
  {
    if step.SenderClose? {
      SenderCloseKeeps(cfg, s, step.w, s');
    } else if step.FinalReply? {
      FinalReplyKeeps(cfg, s, step.w, s');
    } else {
      OtherMainKeeps(cfg, s, step, s');
    }
  }

  // ---------- every reachable state ----------

  /** Every step of every task keeps the invariant. */
  lemma StepKeeps(cfg: Config, s: State, step: Step, s': State)
    requires Valid(cfg) && Inv(cfg, s) && Apply(cfg, s, step) == Some(s')
    ensures Inv(cfg, s')
  {
    match Worker(step)
    case None => MainStepKeeps(cfg, s, step, s');
    case Some(w) =>
      if IsSenderStep(step) {
        SenderStepKeeps(cfg, s, step, w, s');
      } else {
        ReceiverStepKeeps(cfg, s, step, w, s');
      }
  }

  lemma {:induction false} NobodyHolds(links: seq<Link>, id: nat)
    requires forall l :: l in links ==> (l.snd.Idle? || l.snd.Dead?) && (l.rcv.Listening? || l.rcv.Failed?)
    ensures Holders(links, id) == 0 && Uncounted(links) == 0
  {
    if links != [] {
      NobodyHolds(links[..|links| - 1], id);
    }
  }

  lemma {:induction false} UptoOnce(n: nat, id: nat)
    ensures Occurrences(Upto(n), id) == if id < n then 1 else 0
  {
    if n > 0 {
      UptoOnce(n - 1, id);
      assert Upto(n)[..n - 1] == Upto(n - 1);
    }
  }

  lemma InitEstablishes(cfg: Config, s: State)
    requires Valid(cfg) && Init(cfg, s)
    ensures Inv(cfg, s)
  {
    forall id: nat
      ensures Places(s, id) == if id < Total(cfg.src) then 1 else 0
    {
      NobodyHolds(s.links, id);
      UptoOnce(Total(cfg.src), id);
    }
    NobodyHolds(s.links, 0);
    CountTrueNone(s.disk.flags);
    forall i | 0 <= i < |s.links|
      ensures LinkInv(cfg.src, ViewOf(cfg, s), s.links[i])
    {
      assert s.links[i] in s.links;
    }
  }

  lemma {:induction false} RunKeeps(cfg: Config, s0: State, steps: seq<Step>, s: State)
    requires Valid(cfg) && Init(cfg, s0) && Run(cfg, s0, steps) == Some(s)
    ensures Inv(cfg, s)
    decreases |steps|
  {
    if steps == [] {
      InitEstablishes(cfg, s0);
    } else {
      var s1 := Run(cfg, s0, steps[..|steps| - 1]).value;
      RunKeeps(cfg, s0, steps[..|steps| - 1], s1);
      StepKeeps(cfg, s1, steps[|steps| - 1], s);
    }
  }

  lemma ReachableInv(cfg: Config, s: State)
    requires Valid(cfg) && Reachable(cfg, s)
    ensures Inv(cfg, s)
  {
    var s0: State, steps: seq<Step> :| Init(cfg, s0) && Run(cfg, s0, steps) == Some(s);
    RunKeeps(cfg, s0, steps, s);
  }

  // ---------- what a transfer guarantees ----------

  /** The chunk count survived its cast to u32 (at most 2^32 - 1 chunks). */
  predicate CountFits(cfg: Config)
    requires Valid(cfg)
  {
    CeilDiv(|cfg.src.bytes|, cfg.src.chunkSize) < U32_RANGE
  }

  /** Whenever the sender's counter has reached the total, every chunk is flagged
      at the receiver, nothing was lost, the byte counter stands at the sum of all
      chunk lengths, and the receiver's file is the source. */
  lemma SenderCompleteMeansDelivered(cfg: Config, s: State)
    requires Valid(cfg) && Reachable(cfg, s) && s.completed == Total(cfg.src)
    ensures forall id :: 0 <= id < Total(cfg.src) ==> id < |s.disk.flags| && s.disk.flags[id]
    ensures s.pending == [] && s.lost == []
    ensures s.completedBytes == |cfg.src.bytes| <==> CountFits(cfg)
    ensures CountFits(cfg) ==> s.disk.file == cfg.src.bytes
  {
    ReachableInv(cfg, s);
    CompleteMeansAllAcked(cfg, s);
    SumOfAllLengths(|cfg.src.bytes|, cfg.src.chunkSize);
    forall id | 0 <= id < Total(cfg.src)
      ensures s.disk.flags[id]
    {
      OccursIn(s.acked, id);
      var i :| 0 <= i < |s.acked| && s.acked[i] == id;
    }
    if CountFits(cfg) {
      AllCorrectIsSource(cfg.src, s.disk.file);
    }
  }

  lemma {:induction false} NoneUncounted(links: seq<Link>)
    requires forall l :: l in links ==> ReceiverFinished(l)
    ensures Uncounted(links) == 0
  {
    if links != [] {
      NoneUncounted(links[..|links| - 1]);
      assert links[|links| - 1] in links;
    }
  }

  /** Once the receiver's workers are joined, its counter is the number of flags,
      so a transfer the sender saw complete can fail neither the count check nor
      the digest check. */
  lemma CompleteTransferPassesChecks(cfg: Config, s: State)
    requires Valid(cfg) && Reachable(cfg, s) && s.completed == Total(cfg.src)
    ensures (forall l :: l in s.links ==> ReceiverFinished(l)) ==> s.disk.count == Total(cfg.src)
    ensures s.rmain != Incomplete
    ensures CountFits(cfg) ==> s.rmain != Mismatch
  {
    ReachableInv(cfg, s);
    SenderCompleteMeansDelivered(cfg, s);
    CountTrueFull(s.disk.flags);
    if forall l :: l in s.links ==> ReceiverFinished(l) {
      NoneUncounted(s.links);
    }
  }

  /** The receiver keeps a file only after both checks, and then it is the source,
      whether or not the sender ever learns of it. */
  lemma KeptFileIsSource(cfg: Config, s: State)
    requires Valid(cfg) && Reachable(cfg, s)
    requires s.rmain == Renamed || s.rmain == Acked || s.rmain == NoStream
    ensures s.disk.count == Total(cfg.src)
    ensures cfg.digest(s.disk.file) == cfg.digest(cfg.src.bytes)
    ensures CountFits(cfg) ==> s.disk.file == cfg.src.bytes
  {
    ReachableInv(cfg, s);
    NoneUncounted(s.links);
    CountTrueFull(s.disk.flags);
    if CountFits(cfg) {
      AllCorrectIsSource(cfg.src, s.disk.file);
    }
  }

  /** End to end: the sender reports success only after the receiver counted every
      chunk, compared the digest and kept a file equal to the source. */
  lemma SenderOkMeansFileArrived(cfg: Config, s: State)
    requires Valid(cfg) && Reachable(cfg, s) && s.smain == SenderOk
    ensures s.rmain == Acked && s.completed == Total(cfg.src) == s.disk.count
    ensures cfg.digest(s.disk.file) == cfg.digest(cfg.src.bytes)
    ensures CountFits(cfg) ==> s.disk.file == cfg.src.bytes
  {
    ReachableInv(cfg, s);
    KeptFileIsSource(cfg, s);
  }

  /** Stop-and-wait: in every reachable state the answer a worker is about to read names the
      chunk it holds, although the code never compares the two, and an acknowledged chunk has
      its flag. */
  lemma AnswerNamesHeldChunk(cfg: Config, s: State, w: nat)
    requires Valid(cfg) && Reachable(cfg, s) && w < |s.links|
    requires s.links[w].snd.Awaiting? && s.links[w].back != []
    ensures var l := s.links[w];
            l.back[0].Answer? && l.back[0].ack.chunkId == l.snd.id
            && (!l.back[0].ack.isNack ==> l.snd.id < |s.disk.flags| && s.disk.flags[l.snd.id])
  {
    ReachableInv(cfg, s);
    AnswerConcernsHeld(cfg.src, ViewOf(cfg, s), s.links[w]);
  }

  /** A worker that dies between popping a number and getting an answer to wait
      for takes the number with it: from then on the transfer never completes, DONE
      is never sent and success is never reported, in any continuation. */
  lemma {:induction false} LostChunkBlocksSuccess(cfg: Config, s: State, later: seq<Step>, s': State)
    requires Valid(cfg) && Reachable(cfg, s) && s.lost != []
    requires Run(cfg, s, later) == Some(s')
    ensures s'.lost != [] && s'.completed < Total(cfg.src)
    ensures !s'.smain.AwaitingFinal? && !s'.smain.SenderOk? && !s'.done
    decreases |later|
  {
    ExtendReachable(cfg, s, later, s');
    ReachableInv(cfg, s');
    CountStaysInRange(cfg, s');
    LostOnlyGrows(cfg, s, later, s');
    if s'.completed == Total(cfg.src) {
      SenderCompleteMeansDelivered(cfg, s');
    }
  }

  lemma {:induction false} LostOnlyGrows(cfg: Config, s: State, later: seq<Step>, s': State)
    requires Valid(cfg) && Run(cfg, s, later) == Some(s')
    ensures |s.lost| <= |s'.lost|
    decreases |later|
  {
    if later != [] {
      var s1 := Run(cfg, s, later[..|later| - 1]).value;
      LostOnlyGrows(cfg, s, later[..|later| - 1], s1);
    }
  }

  lemma {:induction false} RunConcat(cfg: Config, s: State, a: seq<Step>, b: seq<Step>)
    requires Valid(cfg) && Run(cfg, s, a).Some?
    ensures Run(cfg, s, a + b) == Run(cfg, Run(cfg, s, a).value, b)
    decreases |b|
  {
    if b == [] {
      assert a + b == a;
    } else {
      RunConcat(cfg, s, a, b[..|b| - 1]);
      assert (a + b)[..|a + b| - 1] == a + b[..|b| - 1];
    }
  }

  lemma ExtendReachable(cfg: Config, s: State, later: seq<Step>, s': State)
    requires Valid(cfg) && Reachable(cfg, s) && Run(cfg, s, later) == Some(s')
    ensures Reachable(cfg, s')
  {
    var s0: State, steps: seq<Step> :| Init(cfg, s0) && Run(cfg, s0, steps) == Some(s);
    RunConcat(cfg, s0, steps, later);
    assert Run(cfg, s0, steps + later) == Some(s');
  }

  /** In every reachable state a number is in exactly one place: queued once, held
      by one live worker, counted once, or lost once. */
  lemma OnePlacePerChunk(cfg: Config, s: State, id: nat)
    requires Valid(cfg) && Reachable(cfg, s)
    ensures Occurrences(s.pending, id) + Holders(s.links, id) + Occurrences(s.acked, id) + Occurrences(s.lost, id)
            == if id < Total(cfg.src) then 1 else 0
    ensures s.completed == |s.acked| <= Total(cfg.src)
  {
    ReachableInv(cfg, s);
    CountStaysInRange(cfg, s);
    assert Places(s, id) == if id < Total(cfg.src) then 1 else 0;
  }

  lemma {:induction false} HolderCounts(links: seq<Link>, w: nat, id: nat)
    requires w < |links| && Holds(links[w], id)
    ensures Holders(links, id) >= 1
  {
    if w < |links| - 1 {
      HolderCounts(links[..|links| - 1], w, id);
    }
  }

  /** Whatever a worker is about to do with the number or chunk in its hands is
      within bounds: numbers are announced, headers are never refused, writes end
      inside the file, and every answer read names the chunk held. */
  lemma HandsAreInBounds(cfg: Config, s: State, w: nat)
    requires Valid(cfg) && Reachable(cfg, s) && w < |s.links|
    ensures s.links[w].snd.Holding? ==> s.links[w].snd.id < Total(cfg.src)
    ensures s.links[w].snd.Awaiting? && s.links[w].back != [] ==>
              s.links[w].back[0].Answer? && s.links[w].back[0].ack.chunkId == s.links[w].snd.id
    ensures forall i :: 0 <= i < |s.links[w].fwd| && s.links[w].fwd[i].Frame? ==>
              Accepts(s.disk, s.links[w].fwd[i].chunk.header)
    ensures s.links[w].rcv.Got? ==>
              OffsetOf(s.links[w].rcv) + |s.links[w].rcv.chunk.payload| <= |s.disk.file|
    ensures s.links[w].rcv.Written? ==> s.links[w].rcv.id < |s.disk.flags|
  {
    ReachableInv(cfg, s);
    var l := s.links[w];
    assert LinkInv(cfg.src, ViewOf(cfg, s), l);
    if l.snd.Holding? {
      HolderCounts(s.links, w, l.snd.id);
      OnePlacePerChunk(cfg, s, l.snd.id);
    }
    if l.snd.Awaiting? && l.back != [] {
      AnswerNamesHeldChunk(cfg, s, w);
    }
    forall i | 0 <= i < |l.fwd| && l.fwd[i].Frame?
      ensures Accepts(s.disk, l.fwd[i].chunk.header)
    {
      assert DataOk(cfg.src, ViewOf(cfg, s), l.fwd[i]);
      GenuineAccepted(cfg.src, s.disk, l.fwd[i].chunk);
    }
    if l.rcv.Got? {
      GenuineAccepted(cfg.src, s.disk, l.rcv.chunk);
    }
  }
}
