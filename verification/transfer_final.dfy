/** The last answer: each end picks a stream for it on its own, the sender the first its workers
    handed back, the receiver the first of its own. Success needs the two to be the same one. */
module TransferFinal {
  import opened Wrappers
  import opened TransferProtocol
  import opened Receiver
  import opened TransferSystem
  import opened TransferProofs

  ghost predicate HasFinal(l: Link) {
    exists i :: 0 <= i < |l.back| && l.back[i].FinalAck?
  }

  /** Where the two choices have been made, and where the last answer lies if it is on its way. */
  ghost predicate Placed(s: State) {
    && (s.rmain != Receiving ==> forall l :: l in s.links ==> ReceiverFinished(l))
    && (s.smain.AwaitingFinal? ==> s.smain.stream < |s.links| && FirstReturned(s, s.smain.stream))
    && forall w: nat :: w < |s.links| && HasFinal(s.links[w]) ==> s.rmain != Receiving && FirstLeft(s, w)
  }

  /** The same ends on the same streams, with no last answer added. */
  lemma SameEnds(s: State, s': State)
    requires Placed(s) && |s'.links| == |s.links| && s'.smain == s.smain && s'.rmain == s.rmain
    requires s.rmain != Receiving ==> forall w :: 0 <= w < |s.links| ==> s'.links[w].rcv == s.links[w].rcv
    requires s.smain.AwaitingFinal? ==> forall w :: 0 <= w < |s.links| ==> s'.links[w].snd == s.links[w].snd
    requires forall w :: 0 <= w < |s.links| && HasFinal(s'.links[w]) ==> HasFinal(s.links[w])
    ensures Placed(s')
  {
    hide HasFinal;
    if s.rmain != Receiving {
      forall l | l in s'.links ensures ReceiverFinished(l) {
        var w :| 0 <= w < |s'.links| && s'.links[w] == l;
        assert ReceiverFinished(s.links[w]);
      }
    }
  }

  lemma SenderAddsNone(cfg: Config, s: State, step: Step, w: nat, s': State)
    requires Valid(cfg) && w < |s.links| && SenderStep(cfg, s, step, w) == Some(s')
    ensures |s'.links| == |s.links| && s'.links == s.links[w := s'.links[w]] && s'.links[w].rcv == s.links[w].rcv
    ensures HasFinal(s'.links[w]) ==> HasFinal(s.links[w])
    ensures !SenderFinished(s.links[w]) && s'.smain == s.smain && s'.rmain == s.rmain
  {
    var l, l' := s.links[w], s'.links[w];
    assert l'.back == l.back || (l.back != [] && l'.back == l.back[1..]);
    if HasFinal(l') {
      var i :| 0 <= i < |l'.back| && l'.back[i].FinalAck?;
      assert l'.back[i] == if |l'.back| == |l.back| then l.back[i] else l.back[i + 1];
    }
  }

  lemma ReceiverAddsNone(cfg: Config, x: Local, step: Step, y: Local)
    requires LocalStep(cfg, x, step) == Some(y)
    ensures y.link.snd == x.link.snd && (HasFinal(y.link) ==> HasFinal(x.link))
  {
    var l, l' := x.link, y.link;
    hide WriteAt, WellFormed, Accepts;
    assert |l'.back| >= |l.back| && l'.back[..|l.back|] == l.back
        && forall i :: |l.back| <= i < |l'.back| ==> l'.back[i].Answer?;
    if HasFinal(l') {
      var i :| 0 <= i < |l'.back| && l'.back[i].FinalAck?;
      assert l.back[i] == l'.back[..|l.back|][i];
    }
  }

  lemma WorkerKeeps(cfg: Config, s: State, step: Step, w: nat, s': State)
    requires Valid(cfg) && Inv(cfg, s) && Placed(s) && Worker(step) == Some(w) && Apply(cfg, s, step) == Some(s')
    ensures Placed(s')
  {
    ClosingMeansFinished(cfg, s);
    assert s.links[w] in s.links;
    hide Inv, Placed, SenderStep, ReceiverStep, HasFinal, SenderFinished;
    if IsSenderStep(step) { SenderKeeps(cfg, s, step, w, s'); } else { ReceiverKeeps(cfg, s, step, w, s'); }
  }

  lemma SenderKeeps(cfg: Config, s: State, step: Step, w: nat, s': State)
    requires Valid(cfg) && Placed(s) && w < |s.links| && SenderStep(cfg, s, step, w) == Some(s')
    requires s.smain != Sending ==> SenderFinished(s.links[w])
    ensures Placed(s')
  {
    SenderAddsNone(cfg, s, step, w, s');
    hide SenderStep, HasFinal;
    SameEnds(s, s');
  }

  lemma ReceiverKeeps(cfg: Config, s: State, step: Step, w: nat, s': State)
    requires Valid(cfg) && Placed(s) && w < |s.links| && ReceiverStep(cfg, s, step, w) == Some(s')
    ensures Placed(s')
  {
    var y := LocalStep(cfg, LocalOf(s, w), step).value;
    ReceiverAddsNone(cfg, LocalOf(s, w), step, y);
    LocalStepCounts(cfg, LocalOf(s, w), step, y);
    assert s.links[w] in s.links;
    hide LocalStep, HasFinal;
    SameEnds(s, s');
  }

  lemma CallerKeeps(cfg: Config, s: State, step: Step, s': State)
    requires Valid(cfg) && Placed(s) && MainStep(cfg, s, step) == Some(s')
    ensures Placed(s')
  {
    match step
    case SenderClose(w) =>
      var l := s.links[w];
      assert HasFinal(s'.links[w]) == HasFinal(l);
      SameEndsClosed(s, w, s');
    case FinalReply(w) =>
      hide HasFinal;
      forall l | l in s'.links ensures ReceiverFinished(l) {
        var i :| 0 <= i < |s'.links| && s'.links[i] == l;
        assert ReceiverFinished(s.links[i]);
      }
    case ReceiverJoin => hide HasFinal;
    case ReadFinal => hide HasFinal;
    case _ => hide HasFinal;
  }

  lemma SameEndsClosed(s: State, w: nat, s': State)
    requires Placed(s) && w < |s.links| && FirstReturned(s, w)
    requires s' == SetLink(s, w, s.links[w].(fwd := s.links[w].fwd + [DoneMsg])).(smain := AwaitingFinal(w))
    requires HasFinal(s'.links[w]) == HasFinal(s.links[w])
    ensures Placed(s')
  {
    hide HasFinal;
    if s.rmain != Receiving {
      forall l | l in s'.links ensures ReceiverFinished(l) {
        var i :| 0 <= i < |s'.links| && s'.links[i] == l;
        assert ReceiverFinished(s.links[i]);
      }
    }
  }

  lemma {:induction false} RunPlaced(cfg: Config, s: State, steps: seq<Step>, s': State)
    requires Valid(cfg) && Inv(cfg, s) && Placed(s) && Run(cfg, s, steps) == Some(s')
    ensures Inv(cfg, s') && Placed(s')
    decreases |steps|
  {
    if steps != [] {
      var init, step := steps[..|steps| - 1], steps[|steps| - 1];
      var s1 := Run(cfg, s, init).value;
      RunPlaced(cfg, s, init, s1);
      StepKeeps(cfg, s1, step, s');
      if Worker(step).Some? {
        assert Worker(step).value < |s1.links|;
        WorkerKeeps(cfg, s1, step, Worker(step).value, s');
      } else {
        CallerKeeps(cfg, s1, step, s');
      }
    }
  }

  lemma ReachablePlaced(cfg: Config, s: State)
    requires Valid(cfg) && Reachable(cfg, s)
    ensures Placed(s)
  {
    var s0, steps :| Init(cfg, s0) && Run(cfg, s0, steps) == Some(s);
    assert forall w :: 0 <= w < |s0.links| ==> s0.links[w] in s0.links;
    assert Placed(s0);
    InitEstablishes(cfg, s0);
    hide Init, Inv, Placed, Apply;
    RunPlaced(cfg, s0, steps, s);
  }

  /** The sender is told of success only if the stream it said DONE on, the first that came back to
      it, is also the first that came back to the receiver. */
  lemma SuccessOnOneStream(cfg: Config, s: State, s': State)
    requires Valid(cfg) && Reachable(cfg, s) && Apply(cfg, s, ReadFinal) == Some(s') && s'.smain == SenderOk
    ensures s.smain.AwaitingFinal? && s.smain.stream < |s.links|
    ensures FirstReturned(s, s.smain.stream) && FirstLeft(s, s.smain.stream)
  {
    ReachablePlaced(cfg, s);
    assert HasFinal(s.links[s.smain.stream]);
  }
}
