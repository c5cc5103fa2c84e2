/** The peers' lists of ports never get shorter, so what a coordination task found in them when it
    began a connection is there for all it sends about that connection (server/relay/coordinator.py). */
module RelayLists {
  import opened Wrappers
  import opened RelaySession
  import R = RelayRetry

  predicate ListsGrow(s: Relay, s': Relay) {
    |s.sender.bound| <= |s'.sender.bound| && |s.receiver.bound| <= |s'.receiver.bound|
  }

  lemma HandGrows(s: Relay, d: Relay, role: Role, h: Handler)
    requires ListsGrow(s, d)
    ensures ListsGrow(s, SetHand(d, role, h)) && SetHand(d, role, h).tasks == d.tasks
  {
  }

  lemma DecisionGrows(s: Relay, role: Role, conn: nat)
    ensures ListsGrow(s, DecideRetry(s, role, conn)) && DecideRetry(s, role, conn).tasks == s.tasks
  {
    hide PutPending, Cancelled;
  }

  lemma MapGrows(bound: seq<nat>, conn: nat, port: nat)
    ensures |bound| <= |MapPort(bound, conn, port)|
  {
  }

  lemma AcceptGrows(s: Relay, role: Role, conn: nat, port: nat)
    ensures ListsGrow(s, Accept(s, role, conn, port)) && Accept(s, role, conn, port).tasks == s.tasks
  {
    MapGrows(PeerOf(s, role).bound, conn, port);
    hide MapPort;
  }

  lemma PortsGrow(s: Relay, role: Role, ports: seq<nat>)
    requires ports != []
    ensures ListsGrow(s, DecidePorts(s, role, ports).0)
    ensures var d := DecidePorts(s, role, ports).0;
            d.tasks == s.tasks || exists conn :: d.tasks == s.tasks + [RetryTask(conn)]
  {
    var i := FirstOpen(s.retryPending, role);
    if s.alive && i < |s.retryPending| { AcceptGrows(s, role, s.retryPending[i].With(role).conn, ports[0]); }
    hide FirstOpen, Accept;
  }

  lemma RestGrows(s: Relay, role: Role, s': Relay)
    requires HandlerSection(s, role) == Some(s')
    requires PeerOf(s, role).hand.PortsTail? || PeerOf(s, role).hand.ResultWaiting?
    ensures ListsGrow(s, s') && s'.tasks == s.tasks
  {
  }

  lemma HandlerGrows(s: Relay, role: Role, s': Relay)
    requires HandlerSection(s, role) == Some(s')
    ensures ListsGrow(s, s') && (s'.tasks == s.tasks || exists conn :: s'.tasks == s.tasks + [RetryTask(conn)])
  {
    match PeerOf(s, role).hand
    case RetryWaiting(conn) =>
      DecisionGrows(s, role, conn);
      HandGrows(s, DecideRetry(s, role, conn), role, Free);
      hide DecideRetry, ListsGrow, SetHand;
    case PortsWaiting(ports) =>
      PortsGrow(s, role, ports);
      hide DecidePorts, ListsGrow, SetHand;
      var r := DecidePorts(s, role, ports);
      HandGrows(s, r.0, role, PortsTail(ports, r.1));
    case PortsTail(_, _) => RestGrows(s, role, s');
    case ResultWaiting(_, _) => RestGrows(s, role, s');
    case Gone =>
    case Free =>
  }

  lemma RejectGrows(s: Relay, role: Role, conn: nat)
    ensures ListsGrow(s, Reject(s, role, conn)) && Reject(s, role, conn).tasks == s.tasks
  {
  }

  lemma TimeoutGrows(s: Relay, conn: nat)
    ensures ListsGrow(s, DecideTimeout(s, conn)) && DecideTimeout(s, conn).tasks == s.tasks
  {
    RejectGrows(s, SenderRole, conn);
    RejectGrows(s, ReceiverRole, conn);
    hide Reject;
  }

  lemma ReceiptGrows(s: Relay, step: Step, s': Relay)
    requires step.RetryRequest? || step.AddPorts? || step.Ready? || step.Report?
    requires Receive(s, step) == Some(s')
    ensures ListsGrow(s, s') && s'.tasks == s.tasks
  {
    var p := PeerOf(s, step.role);
    hide SetPeer, ListsGrow;
    match step
    case RetryRequest(role, conn) =>
      SameList(s, role, p.(requested := p.requested + {conn}, hand := RetryWaiting(conn)), [Requested(role, conn)]);
    case AddPorts(role, ports) =>
      SameList(s, role, p.(hand := PortsWaiting(ports)), []);
    case Ready(role, conn) =>
      SameList(s, role, p.(ready := p.ready + {conn}), [ReadyReceived(role, conn)]);
    case Report(role, conn, result) =>
      SameList(s, role, p.(hand := ResultWaiting(conn, result)), [Reported(role, conn, result)]);
  }

  lemma SameList(s: Relay, role: Role, p: Peer, more: seq<Event>)
    requires p.bound == PeerOf(s, role).bound
    ensures ListsGrow(s, s) && ListsGrow(s, SetPeer(s, role, p)) && SetPeer(s, role, p).tasks == s.tasks
    ensures var s' := SetPeer(s, role, p).(log := s.log + more); ListsGrow(s, s') && s'.tasks == s.tasks
  {
  }

  lemma SettleLeaves(s: Relay, role: Role, conn: nat)
    ensures Settle(s, role, conn).sender == s.sender && Settle(s, role, conn).receiver == s.receiver
    ensures Settle(s, role, conn).tasks == s.tasks
  {
  }

  /** A coordination task past its look at the lists. */
  predicate Under(t: Task) {
    !t.retry && !t.pc.Starting? && !t.pc.CheckResolved? && !t.pc.Ended?
  }

  predicate Ported(s: Relay, t: Task) {
    Under(t) ==> t.conn < |s.sender.bound| && t.conn < |s.receiver.bound|
  }

  ghost predicate AllPorted(s: Relay) {
    forall k :: 0 <= k < |s.tasks| ==> Ported(s, s.tasks[k])
  }

  lemma SectionPorted(s: Relay, t: Task, now: real)
    requires Ported(s, t) && TaskSection(s, t, now).Some?
    ensures var r := TaskSection(s, t, now).value;
            && r.0.tasks == s.tasks && Ported(r.0, r.1)
            && r.0.sender.bound == s.sender.bound && r.0.receiver.bound == s.receiver.bound
  {
    SectionLeavesLists(s, t, now);
    SectionMoves(s, t, now);
    hide TaskSection;
  }

  lemma SectionMoves(s: Relay, t: Task, now: real)
    requires TaskSection(s, t, now).Some?
    ensures var t' := TaskSection(s, t, now).value.1;
            Under(t') ==>
              t'.conn == t.conn && (Under(t) || (t.conn < |s.sender.bound| && t.conn < |s.receiver.bound|))
  {
    hide Settle, ResultSeen, DropResult;
  }

  lemma SectionLeavesLists(s: Relay, t: Task, now: real)
    requires TaskSection(s, t, now).Some?
    ensures var r := TaskSection(s, t, now).value;
            && r.0.tasks == s.tasks && r.0.sender.bound == s.sender.bound && r.0.receiver.bound == s.receiver.bound
  {
    if t.pc.WaitResult? {
      SettleLeaves(s, SenderRole, t.conn);
      SettleLeaves(Settle(s, SenderRole, t.conn), ReceiverRole, t.conn);
    }
    hide Settle, ResultSeen;
  }

  lemma Grown(s: Relay, s': Relay)
    requires AllPorted(s) && ListsGrow(s, s')
    requires s'.tasks == s.tasks || exists t: Task :: !Under(t) && s'.tasks == s.tasks + [t]
    ensures AllPorted(s')
  {
    forall k | 0 <= k < |s'.tasks| ensures Ported(s', s'.tasks[k]) {
      if k < |s.tasks| { assert s'.tasks[k] == s.tasks[k] && Ported(s, s.tasks[k]); }
    }
  }

  lemma Replaced(s: Relay, s': Relay, k: nat, t: Task)
    requires AllPorted(s) && k < |s.tasks| && s'.tasks == s.tasks[k := t] && Ported(s, t)
    requires s'.sender.bound == s.sender.bound && s'.receiver.bound == s.receiver.bound
    ensures AllPorted(s')
  {
    forall h | 0 <= h < |s'.tasks| ensures Ported(s', s'.tasks[h]) {
      assert h != k ==> Ported(s, s.tasks[h]);
    }
  }

  lemma HandlerPorted(s: Relay, role: Role, s': Relay)
    requires AllPorted(s) && HandlerSection(s, role) == Some(s')
    ensures AllPorted(s')
  {
    HandlerGrows(s, role, s');
    hide HandlerSection, AllPorted, ListsGrow;
    if s'.tasks != s.tasks {
      var conn :| s'.tasks == s.tasks + [RetryTask(conn)];
      assert !Under(RetryTask(conn));
    }
    Grown(s, s');
  }

  lemma StepPorted(s: Relay, step: Step, s': Relay)
    requires AllPorted(s) && Apply(s, step) == Some(s')
    ensures AllPorted(s')
  {
    hide HandlerSection, TaskSection, DecideTimeout, Receive, AllPorted;
    match step
    case HandlerGoesOn(role) => HandlerPorted(s, role, s');
    case TimerDecides(id) =>
      TimeoutGrows(R.TimerOver(s, id), s.timers[id].conn);
      Grown(s, s');
    case TaskGoesOn(k, now) => TaskPorted(s, k, now, s');
    case TaskFails(k) => Replaced(s, s', k, s.tasks[k].(pc := Ended, failed := true));
    case StartCoordination(n) =>
      assert !Under(Task(false, n, 0, Starting, [], false));
      Grown(s, s');
    case RetryRequest(_, _) => ReceiptGrows(s, step, s'); Grown(s, s');
    case AddPorts(_, _) => ReceiptGrows(s, step, s'); Grown(s, s');
    case Ready(_, _) => ReceiptGrows(s, step, s'); Grown(s, s');
    case Report(_, _, _) => ReceiptGrows(s, step, s'); Grown(s, s');
    case _ => Grown(s, s');
  }

  lemma TaskPorted(s: Relay, k: nat, now: real, s': Relay)
    requires AllPorted(s) && Apply(s, TaskGoesOn(k, now)) == Some(s')
    ensures AllPorted(s')
  {
    SectionPorted(s, s.tasks[k], now);
    hide TaskSection;
    Replaced(s, s', k, TaskSection(s, s.tasks[k], now).value.1);
  }

  lemma {:induction false} RunPorted(s: Relay, steps: seq<Step>, s': Relay)
    requires AllPorted(s) && Run(s, steps) == Some(s')
    ensures AllPorted(s')
    decreases |steps|
  {
    if steps != [] {
      var s1 := Run(s, steps[..|steps| - 1]).value;
      RunPorted(s, steps[..|steps| - 1], s1);
      hide Apply, AllPorted;
      StepPorted(s1, steps[|steps| - 1], s');
    }
  }

  /** Whatever a coordination task sends about a connection, both peers have a port for it. */
  lemma InfoNeedsPorts(s: Relay, k: nat)
    requires Reachable(s) && k < |s.tasks| && Under(s.tasks[k])
    ensures s.tasks[k].conn < |s.sender.bound| && s.tasks[k].conn < |s.receiver.bound|
  {
    var s0, steps :| Init(s0) && Run(s0, steps) == Some(s);
    assert AllPorted(s0);
    RunPorted(s0, steps, s);
  }
}
