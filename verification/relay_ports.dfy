/** What one `add_ports` does to the list of the peer's ports, from its arrival to the end of
    its handler (server/relay/handlers.py): the section under the lock and the part after it,
    with any steps of others between. */
module RelayPorts {
  import opened Wrappers
  import opened RelaySession
  import opened RelayRetry
  import W = RelayWaiting

  /** The list after the whole handler, decided in state `d`: the slot of the oldest grant still
      lacking this role is replaced, or there is none and all the ports go to the end. */
  ghost predicate ListAfter(d: Relay, role: Role, was: seq<nat>, ports: seq<nat>, now: seq<nat>)
    requires ports != []
  {
    if d.alive && exists p :: p in d.retryPending && !p.Has(role) then
      exists i :: 0 <= i < |d.retryPending| && OldestOpen(d.retryPending, role, i)
        && OneSlot(was, d.retryPending[i].conn, ports[0], now)
    else now == was + ports
  }

  predicate OldestOpen(ps: seq<Pending>, role: Role, i: nat)
    requires i < |ps|
  {
    !ps[i].Has(role) && forall k :: 0 <= k < i ==> ps[k].Has(role)
  }

  predicate TakingPorts(h: Handler) {
    h.PortsWaiting? || h.PortsTail?
  }

  // ---------- steps of others ----------

  lemma OtherHandler(s: Relay, role: Role, s': Relay)
    requires HandlerSection(s, role) == Some(s')
    ensures SamePorts(PeerOf(s, Other(role)), PeerOf(s', Other(role)))
  {
    match PeerOf(s, role).hand
    case RetryWaiting(conn) =>
      DecisionBound(s, role, conn);
      HandOfOne(DecideRetry(s, role, conn), role, Free);
      hide DecideRetry, SetHand;
    case PortsWaiting(ports) =>
      PortsBound(s, role, ports);
      var r := DecidePorts(s, role, ports);
      HandOfOne(r.0, role, PortsTail(ports, r.1));
      hide DecidePorts, SetHand;
    case ResultWaiting(conn, result) => ResultBound(s, role, s');
    case PortsTail(_, _) => TailBound(s, role, s');
    case Gone =>
    case Free =>
  }

  predicate SamePorts(p: Peer, p': Peer) {
    p'.bound == p.bound && p'.hand == p.hand
  }

  lemma HandOfOne(s: Relay, role: Role, h: Handler)
    ensures PeerOf(SetHand(s, role, h), Other(role)) == PeerOf(s, Other(role))
  {
  }

  lemma ResultBound(s: Relay, role: Role, s': Relay)
    requires HandlerSection(s, role) == Some(s') && PeerOf(s, role).hand.ResultWaiting?
    ensures PeerOf(s', Other(role)) == PeerOf(s, Other(role))
  {
  }

  lemma TailBound(s: Relay, role: Role, s': Relay)
    requires HandlerSection(s, role) == Some(s') && PeerOf(s, role).hand.PortsTail?
    ensures PeerOf(s', Other(role)) == PeerOf(s, Other(role))
  {
  }

  lemma DecisionBound(s: Relay, role: Role, conn: nat)
    ensures var d := DecideRetry(s, role, conn);
            SamePorts(s.sender, d.sender) && SamePorts(s.receiver, d.receiver)
  {
    hide PutPending, Cancelled;
  }

  lemma PortsBound(s: Relay, role: Role, ports: seq<nat>)
    requires ports != []
    ensures var d := DecidePorts(s, role, ports).0;
            PeerOf(d, Other(role)) == PeerOf(s, Other(role)) && PeerOf(d, role).hand == PeerOf(s, role).hand
  {
    hide FirstOpen, MapPort;
  }

  lemma TimeoutBound(s: Relay, conn: nat)
    ensures var d := DecideTimeout(s, conn);
            SamePorts(s.sender, d.sender) && SamePorts(s.receiver, d.receiver)
  {
    RejectBound(s, SenderRole, conn);
    RejectBound(s, ReceiverRole, conn);
    hide Reject;
  }

  lemma RejectBound(s: Relay, role: Role, conn: nat)
    ensures var d := Reject(s, role, conn); SamePorts(s.sender, d.sender) && SamePorts(s.receiver, d.receiver)
  {
  }

  lemma TaskBound(s: Relay, t: Task, now: real)
    requires TaskSection(s, t, now).Some?
    ensures var d := TaskSection(s, t, now).value.0;
            SamePorts(s.sender, d.sender) && SamePorts(s.receiver, d.receiver)
  {
    if t.pc.WaitResult? {
      SettleBound(s, SenderRole, t.conn);
      SettleBound(Settle(s, SenderRole, t.conn), ReceiverRole, t.conn);
    }
    hide Settle, ResultSeen;
  }

  lemma SettleBound(s: Relay, role: Role, conn: nat)
    ensures Settle(s, role, conn).sender == s.sender && Settle(s, role, conn).receiver == s.receiver
  {
  }

  lemma ReceiptBound(s: Relay, step: Step, s': Relay, role: Role)
    requires step.RetryRequest? || step.AddPorts? || step.Ready? || step.Report?
    requires Receive(s, step) == Some(s') && TakingPorts(PeerOf(s, role).hand)
    ensures PeerOf(s', role) == PeerOf(s, role)
  {
    assert step.role == Other(role);
  }

  lemma ComingBound(s: Relay, step: Step, s': Relay, role: Role)
    requires (step.Register? || step.Disconnect?) && Apply(s, step) == Some(s') && TakingPorts(PeerOf(s, role).hand)
    ensures PeerOf(s', role) == PeerOf(s, role)
  {
    assert step.role == Other(role);
  }

  /** While a peer's handler is at `add_ports` only that handler touches its list. */
  lemma OthersLeaveList(s: Relay, step: Step, s': Relay, role: Role)
    requires Apply(s, step) == Some(s') && TakingPorts(PeerOf(s, role).hand) && step != HandlerGoesOn(role)
    ensures SamePorts(PeerOf(s, role), PeerOf(s', role))
  {
    hide HandlerSection, TaskSection, DecideTimeout, Receive;
    match step
    case HandlerGoesOn(r) =>
      assert role == Other(r);
      OtherHandler(s, r, s');
    case TimerDecides(id) => TimeoutBound(TimerOver(s, id), s.timers[id].conn);
    case TaskGoesOn(k, now) => TaskBound(s, s.tasks[k], now);
    case RetryRequest(_, _) => ReceiptBound(s, step, s', role);
    case AddPorts(_, _) => ReceiptBound(s, step, s', role);
    case Ready(_, _) => ReceiptBound(s, step, s', role);
    case Report(_, _, _) => ReceiptBound(s, step, s', role);
    case Register(_) => ComingBound(s, step, s', role);
    case Disconnect(_) => ComingBound(s, step, s', role);
    case _ =>
  }

  // ---------- the handler's own two parts ----------

  /** Where the handler stands between arrival and end. */
  ghost predicate Underway(was: seq<nat>, role: Role, ports: seq<nat>, d: Relay, cur: Relay)
    requires ports != []
  {
    || (PeerOf(cur, role).hand == PortsWaiting(ports) && PeerOf(cur, role).bound == was)
    || (PeerOf(cur, role).hand == PortsTail(ports, true) && ListAfter(d, role, was, ports, PeerOf(cur, role).bound))
    || (PeerOf(cur, role).hand == PortsTail(ports, false) && PeerOf(cur, role).bound == was
        && ListAfter(d, role, was, ports, was + ports))
  }

  lemma FirstIsOldest(ps: seq<Pending>, role: Role)
    ensures FirstOpen(ps, role) < |ps| <==> exists p :: p in ps && !p.Has(role)
    ensures FirstOpen(ps, role) < |ps| ==> OldestOpen(ps, role, FirstOpen(ps, role))
  {
    var i := FirstOpen(ps, role);
    if i == |ps| {
      forall p | p in ps ensures p.Has(role) {
        var k :| 0 <= k < |ps| && ps[k] == p;
      }
    } else {
      assert ps[i] in ps && !ps[i].Has(role);
    }
  }

  lemma DecisionSettles(s: Relay, role: Role, ports: seq<nat>)
    requires ports != []
    ensures var r := DecidePorts(s, role, ports);
            var was, now := PeerOf(s, role).bound, PeerOf(r.0, role).bound;
            if r.1 then ListAfter(s, role, was, ports, now)
            else now == was && ListAfter(s, role, was, ports, was + ports)
  {
    var i := FirstOpen(s.retryPending, role);
    FirstIsOldest(s.retryPending, role);
    if s.alive && i < |s.retryPending| {
      PortsTakeOneSlot(s, role, ports, s.retryPending[i]);
      hide FirstOpen, DecidePorts;
    }
  }

  lemma OwnStep(s: Relay, role: Role, ports: seq<nat>, s': Relay)
    requires ports != [] && Apply(s, HandlerGoesOn(role)) == Some(s') && PeerOf(s, role).hand == PortsWaiting(ports)
    ensures Underway(PeerOf(s, role).bound, role, ports, s, s')
  {
    DecisionSettles(s, role, ports);
    hide DecidePorts, ListAfter;
  }

  lemma LastStep(s: Relay, role: Role, was: seq<nat>, ports: seq<nat>, d: Relay, s': Relay)
    requires ports != [] && Apply(s, HandlerGoesOn(role)) == Some(s') && PeerOf(s, role).hand.PortsTail?
    requires Underway(was, role, ports, d, s)
    ensures PeerOf(s', role).hand.Free? && ListAfter(d, role, was, ports, PeerOf(s', role).bound)
  {
    hide ListAfter;
  }

  // ---------- from arrival to end ----------

  /** The handler is not done before the last of these steps. */
  ghost predicate Busy(s: Relay, role: Role, steps: seq<Step>) {
    forall j :: 0 <= j < |steps| ==>
      Run(s, steps[..j]).Some? && !PeerOf(Run(s, steps[..j]).value, role).hand.Free?
  }

  /** The state in which the `i`-th step is taken. */
  function At(s: Relay, steps: seq<Step>, i: nat): Relay
    requires i < |steps| && Run(s, steps[..i]).Some?
  {
    Run(s, steps[..i]).value
  }

  lemma {:induction false} Progress(s: Relay, role: Role, ports: seq<nat>, steps: seq<Step>, cur: Relay)
    returns (i: nat, d: Relay)
    requires ports != [] && PeerOf(s, role).hand == PortsWaiting(ports)
    requires Run(s, steps) == Some(cur) && Busy(s, role, steps) && !PeerOf(cur, role).hand.Free?
    ensures Underway(PeerOf(s, role).bound, role, ports, d, cur)
    ensures PeerOf(cur, role).hand != PortsWaiting(ports) ==>
              i < |steps| && Run(s, steps[..i]) == Some(d) && steps[i] == HandlerGoesOn(role)
              && PeerOf(d, role).hand == PortsWaiting(ports)
    decreases |steps|
  {
    i, d := 0, s;
    if steps != [] {
      var n := |steps| - 1;
      var prev := Run(s, steps[..n]).value;
      assert forall j :: 0 <= j < n ==> steps[..n][..j] == steps[..j];
      i, d := Progress(s, role, ports, steps[..n], prev);
      assert PeerOf(prev, role).hand != PortsWaiting(ports) ==> steps[..n][..i] == steps[..i];
      if steps[n] == HandlerGoesOn(role) {
        if PeerOf(prev, role).hand == PortsWaiting(ports) {
          OwnStep(prev, role, ports, cur);
          i, d := n, prev;
        } else {
          LastStep(prev, role, PeerOf(s, role).bound, ports, d, cur);
        }
      } else {
        hide Apply, ListAfter;
        OthersLeaveList(prev, steps[n], cur, role);
      }
    }
  }

  /** From the arrival of new ports to the end of their handler, whatever others do meanwhile, the
      peer's list changes exactly as the state at the handler's section says: one slot is replaced,
      or the ports are appended. */
  lemma AddPortsTakesEffect(s: Relay, role: Role, ports: seq<nat>, steps: seq<Step>, s': Relay) returns (i: nat)
    requires ports != [] && PeerOf(s, role).hand == PortsWaiting(ports)
    requires Run(s, steps) == Some(s') && Busy(s, role, steps) && PeerOf(s', role).hand.Free?
    ensures i < |steps| && steps[i] == HandlerGoesOn(role) && Run(s, steps[..i]).Some?
    ensures PeerOf(At(s, steps, i), role).hand == PortsWaiting(ports)
    ensures ListAfter(At(s, steps, i), role, PeerOf(s, role).bound, ports, PeerOf(s', role).bound)
  {
    var n := |steps| - 1;
    var prev := Run(s, steps[..n]).value;
    assert forall j :: 0 <= j < n ==> steps[..n][..j] == steps[..j];
    var d: Relay;
    i, d := Progress(s, role, ports, steps[..n], prev);
    assert PeerOf(prev, role).hand != PortsWaiting(ports) ==> steps[..n][..i] == steps[..i];
    if steps[n] == HandlerGoesOn(role) {
      if PeerOf(prev, role).hand == PortsWaiting(ports) { OwnStep(prev, role, ports, s'); }
      else { LastStep(prev, role, PeerOf(s, role).bound, ports, d, s'); }
    } else {
      hide Apply, ListAfter;
      OthersLeaveList(prev, steps[n], s', role);
    }
  }
}
