/** When a transfer under way can still succeed. The sender says DONE on the first stream its
    workers hand back, so a usable stream alone is not enough. */
module TransferOutlook {
  import opened Wrappers
  import opened TransferProtocol
  import opened ChunkPlan
  import opened Receiver
  import opened TransferSystem
  import opened TransferProofs
  import opened TransferSuccess
  import opened TransferRecovery

  // ---------- the condition ----------

  /** Stream `w` can bring the transfer home: it is usable, and every sender before it has left,
      or can be made to leave because a number is queued, in another's hand, or put back by `w`. */
  ghost predicate CanFinish(cfg: Config, s: State, w: nat)
    requires Valid(cfg)
  {
    && w < |s.links| && Usable(s.links[w])
    && ((forall i :: 0 <= i < w ==> Gone(s.links[i])) || Spare(s, w) || MayReturn(cfg, s.links[w]))
  }

  ghost predicate Promising(cfg: Config, s: State)
    requires Valid(cfg)
  {
    s.lost == [] && exists w :: CanFinish(cfg, s, w)
  }

  // ---------- it is sufficient ----------

  lemma PromiseKept(cfg: Config, s: State) returns (s': State)
    requires Valid(cfg) && CountFits(cfg) && Reachable(cfg, s) && s.smain == Sending && Promising(cfg, s)
    ensures Leads(cfg, s, s') && s'.smain == SenderOk
  {
    var w: nat :| CanFinish(cfg, s, w);
    hide Usable, Spare, MayReturn, Reachable;
    if Spare(s, w) { s' := RecoverWithSpare(cfg, s, w); }
    else if MayReturn(cfg, s.links[w]) { s' := RecoverByRefusal(cfg, s, w); }
    else { s' := RecoverAsFirst(cfg, s, w); }
  }

  // ---------- it is necessary ----------

  /** What success still needs, by where the sender's caller stands. */
  ghost predicate Open(cfg: Config, s: State)
    requires Valid(cfg)
  {
    match s.smain
    case Sending => Promising(cfg, s)
    case AwaitingFinal(d) => d < |s.links| && !s.links[d].rcv.Failed?
    case SenderOk => true
    case SenderErr => false
  }

  /** A stream found usable was usable before. */
  lemma UsableBefore(cfg: Config, s: State, step: Step, k: nat, s': State)
    requires Valid(cfg) && k < |s.links| && Apply(cfg, s, step) == Some(s') && Worker(step) == Some(k)
    ensures |s'.links| == |s.links| && s'.links == s.links[k := s'.links[k]] && s'.smain == s.smain
    ensures Gone(s.links[k]) ==> Gone(s'.links[k])
    ensures s.links[k].rcv.Failed? ==> s'.links[k].rcv.Failed?
  {
    if !IsSenderStep(step) {
      var y := LocalStep(cfg, LocalOf(s, k), step).value;
      LocalStepCounts(cfg, LocalOf(s, k), step, y);
      hide LocalStep;
    }
  }

  /** Nothing goes round but through `w`: another stream's step changes nothing about that. */
  lemma OthersCannotHelp(cfg: Config, s: State, step: Step, k: nat, s': State, w: nat)
    requires Valid(cfg) && k < |s.links| && Apply(cfg, s, step) == Some(s') && Worker(step) == Some(k)
    requires k != w && w < |s.links| && !Spare(s, w)
    ensures |s'.links| == |s.links| && s'.links[w] == s.links[w] && !Spare(s', w)
    ensures forall i :: 0 <= i < |s.links| ==> Gone(s'.links[i]) == Gone(s.links[i])
  {
    assert !InHand(s.links[k]);
    if !IsSenderStep(step) {
      var y := LocalStep(cfg, LocalOf(s, k), step).value;
      LocalStepCounts(cfg, LocalOf(s, k), step, y);
      hide LocalStep;
    }
  }

  /** A number that cannot be refused any more is acknowledged, lost, or goes down with its stream. */
  lemma SenderCannotReturn(cfg: Config, s: State, step: Step, w: nat, s': State)
    requires Valid(cfg) && w < |s.links| && IsSenderStep(step) && SenderStep(cfg, s, step, w) == Some(s')
    requires Protocol(s.links[w]) && s.pending == [] && !MayReturn(cfg, s.links[w])
    requires Usable(s'.links[w]) && s'.lost == s.lost
    ensures s'.pending == [] && !MayReturn(cfg, s'.links[w])
  {
    hide ChunkOf, Damageable;
    assert |s.lost + [HeldNumber(s.links[w].snd)]| != |s.lost|;
  }

  lemma ReceiverCannotRefuse(cfg: Config, s: State, step: Step, w: nat, s': State)
    requires Valid(cfg) && w < |s.links| && ReceiverStep(cfg, s, step, w) == Some(s')
    requires Protocol(s.links[w]) && !MayReturn(cfg, s.links[w]) && !s.done
    requires Usable(s'.links[w])
    ensures s'.pending == s.pending && s'.lost == s.lost && !MayReturn(cfg, s'.links[w])
  {
    var l := s.links[w];
    if l.snd.Awaiting? && l.fwd != [] {
      var c := l.fwd[0].chunk;
      assert l.fwd[0].Frame? && !Damageable(cfg.src, c);
      assert |c.payload| == |c.payload|;
    }
    hide WriteAt, WellFormed, Accepts;
  }

  lemma LinkProtocol(cfg: Config, s: State, w: nat)
    requires Valid(cfg) && Inv(cfg, s) && w < |s.links|
    ensures Protocol(s.links[w]) && (s.smain == Sending ==> !s.done && !s.links[w].rcv.Left?)
  {
    assert LinkInv(cfg.src, ViewOf(cfg, s), s.links[w]);
  }

  lemma LossesStay(cfg: Config, s: State, step: Step, s': State)
    requires Valid(cfg) && Apply(cfg, s, step) == Some(s') && s'.lost == []
    ensures s.lost == []
  {
  }

  /** What can finish after a worker's step could finish before it. */
  lemma WorkerStepBefore(cfg: Config, s: State, step: Step, k: nat, s': State, w: nat)
    requires Valid(cfg) && Inv(cfg, s) && s.smain == Sending && s.lost == [] && s'.lost == []
    requires k < |s.links| && Worker(step) == Some(k) && Apply(cfg, s, step) == Some(s') && CanFinish(cfg, s', w)
    ensures CanFinish(cfg, s, w)
  {
    UsableBefore(cfg, s, step, k, s');
    assert w < |s.links| && Usable(s.links[w]);
    if !Spare(s, w) && !MayReturn(cfg, s.links[w]) {
      if k != w {
        OthersCannotHelp(cfg, s, step, k, s', w);
        hide *;
        CanFinishMeans(cfg, s', w);
        WaysToFinish(cfg, s, w);
      } else {
        LinkProtocol(cfg, s, w);
        OwnStepBefore(cfg, s, step, w, s');
      }
    }
  }

  lemma CanFinishMeans(cfg: Config, s: State, w: nat)
    requires Valid(cfg) && CanFinish(cfg, s, w)
    ensures w < |s.links|
    ensures (forall i :: 0 <= i < w ==> Gone(s.links[i])) || Spare(s, w) || MayReturn(cfg, s.links[w])
  {
  }

  lemma WaysToFinish(cfg: Config, s: State, w: nat)
    requires Valid(cfg) && w < |s.links| && Usable(s.links[w]) && forall i :: 0 <= i < w ==> Gone(s.links[i])
    ensures CanFinish(cfg, s, w)
  {
  }

  lemma OwnStepBefore(cfg: Config, s: State, step: Step, w: nat, s': State)
    requires Valid(cfg) && w < |s.links| && Worker(step) == Some(w) && Apply(cfg, s, step) == Some(s')
    requires Protocol(s.links[w]) && !s.done && s.lost == [] && s'.lost == [] && Usable(s.links[w])
    requires !Spare(s, w) && !MayReturn(cfg, s.links[w])
    requires CanFinish(cfg, s', w) && |s'.links| == |s.links| && s'.links == s.links[w := s'.links[w]]
    ensures CanFinish(cfg, s, w)
  {
    if IsSenderStep(step) { SenderCannotReturn(cfg, s, step, w, s'); }
    else { ReceiverCannotRefuse(cfg, s, step, w, s'); }
    hide Apply, MayReturn, Usable, Gone, Protocol;
    assert forall h :: 0 <= h < |s.links| && h != w ==> s'.links[h] == s.links[h];
    assert !Spare(s', w);
    assert forall i :: 0 <= i < w ==> s'.links[i] == s.links[i];
  }

  /** The caller's close takes the first stream handed back, so those before it are gone. */
  lemma CloseNeedsFirst(cfg: Config, s: State, w: nat, s': State)
    requires Valid(cfg) && Reachable(cfg, s) && MainStep(cfg, s, SenderClose(w)) == Some(s') && !s'.links[w].rcv.Failed?
    ensures Promising(cfg, s)
  {
    SenderCompleteMeansDelivered(cfg, s);
    forall i | 0 <= i < w ensures Gone(s.links[i]) {
      assert s.links[i] in s.links;
    }
    assert CanFinish(cfg, s, w);
  }

  lemma CallerStepBefore(cfg: Config, s: State, step: Step, s': State)
    requires Valid(cfg) && Reachable(cfg, s) && MainStep(cfg, s, step) == Some(s') && Open(cfg, s')
    ensures Open(cfg, s)
  {
    ReachableInv(cfg, s);
    match step
    case SenderClose(w) => CloseNeedsFirst(cfg, s, w, s');
    case ReadFinal => FinalMeansUsable(cfg, s);
    case FinalReply(w) =>
      LinkProtocol(cfg, s, w);
      hide Reachable, Inv, Promising;
    case ReceiverJoin => SamePromise(cfg, s, s');
    case FinalReplyFail => SamePromise(cfg, s, s');
    case _ =>
  }

  lemma SamePromise(cfg: Config, s: State, s': State)
    requires Valid(cfg) && s'.links == s.links && s'.pending == s.pending && s'.lost == s.lost
    ensures Promising(cfg, s') ==> Promising(cfg, s)
  {
    if Promising(cfg, s') {
      var w: nat :| CanFinish(cfg, s', w);
      assert Spare(s', w) == Spare(s, w);
      assert CanFinish(cfg, s, w);
    }
  }

  /** The final answer is read from a stream whose workers have both come to an orderly end. */
  lemma FinalMeansUsable(cfg: Config, s: State)
    requires Valid(cfg) && Inv(cfg, s) && s.smain.AwaitingFinal?
    ensures s.smain.stream < |s.links|
    ensures var l := s.links[s.smain.stream]; l.back != [] && l.back[0].FinalAck? ==> !l.rcv.Failed?
  {
    assert LinkInv(cfg.src, ViewOf(cfg, s), s.links[s.smain.stream]);
  }

  lemma StepBefore(cfg: Config, s: State, step: Step, s': State)
    requires Valid(cfg) && Reachable(cfg, s) && Apply(cfg, s, step) == Some(s') && Open(cfg, s')
    ensures Open(cfg, s)
  {
    match Worker(step)
    case None => CallerStepBefore(cfg, s, step, s');
    case Some(k) =>
      ReachableInv(cfg, s);
      UsableBefore(cfg, s, step, k, s');
      if s.smain == Sending {
        LossesStay(cfg, s, step, s');
        var w: nat :| CanFinish(cfg, s', w);
        hide Apply, Reachable, CanFinish, Inv;
        WorkerStepBefore(cfg, s, step, k, s', w);
      }
  }

  /** A state from which a run leads to an open one is open. */
  lemma {:induction false} OpenBefore(cfg: Config, s: State, later: seq<Step>, s': State)
    requires Valid(cfg) && Reachable(cfg, s) && Run(cfg, s, later) == Some(s') && Open(cfg, s')
    ensures Open(cfg, s)
    decreases |later|
  {
    if later != [] {
      var init := later[..|later| - 1];
      var s1 := Run(cfg, s, init).value;
      ExtendReachable(cfg, s, init, s1);
      hide Reachable, Apply, Open;
      StepBefore(cfg, s1, later[|later| - 1], s');
      OpenBefore(cfg, s, init, s1);
    }
  }

  lemma SuccessNeedsPromise(cfg: Config, s: State, s': State)
    requires Valid(cfg) && Reachable(cfg, s) && s.smain == Sending && Leads(cfg, s, s') && s'.smain == SenderOk
    ensures Promising(cfg, s)
  {
    var later: seq<Step> :| Run(cfg, s, later) == Some(s');
    hide Reachable, Run;
    OpenBefore(cfg, s, later, s');
  }

  // ---------- the results ----------

  /** A transfer under way can still end in success exactly if no number was lost and some usable
      stream has every sender before it gone, or a number to send them away with. */
  lemma SuccessStaysPossible(cfg: Config, s: State)
    requires Valid(cfg) && CountFits(cfg) && Reachable(cfg, s) && s.smain == Sending
    ensures (exists s' :: Leads(cfg, s, s') && s'.smain == SenderOk) <==> Promising(cfg, s)
  {
    hide Reachable, Leads, Promising;
    if Promising(cfg, s) {
      var s' := PromiseKept(cfg, s);
    } else {
      forall s' | Leads(cfg, s, s') ensures s'.smain != SenderOk {
        if s'.smain == SenderOk { SuccessNeedsPromise(cfg, s, s'); }
      }
    }
  }

  /** A usable stream whose sender is the first one that has not left with an error. */
  predicate FirstThere(s: State, w: nat)
    requires w < |s.links|
  {
    Usable(s.links[w]) && forall i :: 0 <= i < w ==> s.links[i].snd.Dead?
  }

  /** With everything counted the first sender still there decides; with a number queued any usable
      stream will do. */
  lemma PromiseByStage(cfg: Config, s: State)
    requires Valid(cfg) && Reachable(cfg, s) && s.smain == Sending && s.lost == []
    ensures s.completed == Total(cfg.src) ==>
              (Promising(cfg, s) <==> exists w :: 0 <= w < |s.links| && FirstThere(s, w))
    ensures s.pending != [] ==> (Promising(cfg, s) <==> exists w :: 0 <= w < |s.links| && Usable(s.links[w]))
  {
    if s.completed == Total(cfg.src) {
      SenderCompleteMeansDelivered(cfg, s);
      forall i | 0 <= i < |s.links| ensures !InHand(s.links[i]) { NothingInHand(cfg, s, i); }
      forall w | 0 <= w < |s.links| ensures !Spare(s, w) && !MayReturn(cfg, s.links[w]) {}
      forall i | 0 <= i < |s.links| ensures Gone(s.links[i]) == s.links[i].snd.Dead? {}
      hide Reachable, MayReturn, Spare;
      if Promising(cfg, s) {
        var w: nat :| CanFinish(cfg, s, w);
        assert FirstThere(s, w);
      }
      if exists w :: 0 <= w < |s.links| && FirstThere(s, w) {
        var w: nat :| w < |s.links| && FirstThere(s, w);
        assert CanFinish(cfg, s, w);
      }
    }
    if s.pending != [] {
      if exists w :: 0 <= w < |s.links| && Usable(s.links[w]) {
        var w: nat :| w < |s.links| && Usable(s.links[w]);
        assert CanFinish(cfg, s, w);
      }
    }
  }

  /** Nothing queued, the last numbers in hand: two streams that hold one can help each other; of a
      single one either another stream is usable, or it is the first one there, or its number can
      still be refused. */
  lemma PromiseInBetween(cfg: Config, s: State, h: nat)
    requires Valid(cfg) && s.lost == [] && s.pending == [] && h < |s.links| && InHand(s.links[h])
    ensures (exists k :: 0 <= k < |s.links| && k != h && InHand(s.links[k])) ==>
              (Promising(cfg, s) <==> exists w :: 0 <= w < |s.links| && Usable(s.links[w]))
    ensures (forall k :: 0 <= k < |s.links| && k != h ==> !InHand(s.links[k])) ==>
              (Promising(cfg, s) <==>
                 || (exists w :: 0 <= w < |s.links| && w != h && Usable(s.links[w]))
                 || FirstThere(s, h) || (Usable(s.links[h]) && MayReturn(cfg, s.links[h])))
  {
    hide Usable, MayReturn;
    if exists w :: 0 <= w < |s.links| && w != h && Usable(s.links[w]) {
      var w: nat :| w < |s.links| && w != h && Usable(s.links[w]);
      assert Spare(s, w) && CanFinish(cfg, s, w);
    }
    assert Usable(s.links[h]) && (Spare(s, h) || MayReturn(cfg, s.links[h])) ==> CanFinish(cfg, s, h);
    assert FirstThere(s, h) ==> CanFinish(cfg, s, h);
    assert (forall k :: 0 <= k < |s.links| && k != h ==> !InHand(s.links[k])) ==>
             forall i :: 0 <= i < h ==> Gone(s.links[i]) == s.links[i].snd.Dead?;
  }

  lemma NothingInHand(cfg: Config, s: State, i: nat)
    requires Valid(cfg) && Reachable(cfg, s) && s.completed == Total(cfg.src) && i < |s.links|
    ensures !InHand(s.links[i])
  {
    ReachableInv(cfg, s);
    CompleteMeansAllAcked(cfg, s);
    if InHand(s.links[i]) { HolderCounts(s.links, i, HeldNumber(s.links[i].snd)); }
  }

  // ---------- inputs that end badly ----------

  const DEAF: Link := Link(Idle, Failed, [], [])

  /** A start in which the first stream's receiver is broken. */
  function DeafStart(cfg: Config): State
    requires Valid(cfg)
  {
    State(Upto(Total(cfg.src)), 0, 0, [DEAF, CALM],
          Disk(seq(|cfg.src.bytes|, i => 0), seq(Total(cfg.src), i => false), 0), false,
          Sending, Receiving, [], [])
  }

  /** For every source there is a run in which the second stream delivers everything, nothing is lost
      and that stream is sound at both ends, and yet no continuation succeeds: the first sender had
      nothing to write, never noticed that its receiver is gone, and its stream gets DONE. */
  lemma UsableStreamIsNotEnough(cfg: Config) returns (s: State)
    requires Valid(cfg)
    ensures Reachable(cfg, s) && s.smain == Sending && s.lost == [] && s.pending == []
    ensures s.completed == Total(cfg.src) && |s.links| == 2 && Usable(s.links[1])
    ensures !exists s' :: Leads(cfg, s, s') && s'.smain == SenderOk
  {
    var s0 := DeafStart(cfg);
    assert Run(cfg, s0, []) == Some(s0) && Reachable(cfg, s0);
    assert Alone(cfg, s0, 1);
    s := Deliver(cfg, s0, 1);
    assert s.links[0] == DEAF;
    SenderCompleteMeansDelivered(cfg, s);
    PromiseByStage(cfg, s);
    forall s' | Leads(cfg, s, s') ensures s'.smain != SenderOk {
      if s'.smain == SenderOk { SuccessNeedsPromise(cfg, s, s'); }
    }
  }

  /** Losses do occur: a worker that fails at its first write takes chunk 0 with it. */
  lemma ChunksCanBeLost(cfg: Config) returns (s: State)
    requires Valid(cfg) && Total(cfg.src) > 0
    ensures Reachable(cfg, s) && s.lost == [0]
    ensures !exists s' :: Leads(cfg, s, s') && s'.smain == SenderOk
  {
    var s0 := State(Upto(Total(cfg.src)), 0, 0, [CALM],
                    Disk(seq(|cfg.src.bytes|, i => 0), seq(Total(cfg.src), i => false), 0), false,
                    Sending, Receiving, [], []);
    assert Run(cfg, s0, []) == Some(s0) && Reachable(cfg, s0);
    var s1 := At(s0, CALM.(snd := Holding(0))).(pending := s0.pending[1..]);
    OneLink(CALM, s1.links[0], ChunkOf(cfg.src, 0), FinalAck);
    Further(cfg, s0, Pop(0), s1);
    s := At(s1, CALM.(snd := Dead)).(lost := [0]);
    assert CALM.fwd + [] == [] && [] + [0] == [0];
    OneLink(s1.links[0], s.links[0], ChunkOf(cfg.src, 0), FinalAck);
    Further(cfg, s1, SendFail(0, false), s);
    forall s' | Leads(cfg, s, s') ensures s'.smain != SenderOk {
      var later: seq<Step> :| Run(cfg, s, later) == Some(s');
      LostChunkBlocksSuccess(cfg, s, later, s');
    }
  }
}
