/** What a peer's READY is good for: one GO. Once GO has gone out for a connection, the next one
    for it waits until both peers have said again that they are ready (server/relay/coordinator.py,
    server/relay/handlers.py). */
module RelayReady {
  import opened Wrappers
  import opened RelaySession
  import R = RelayRetry

  /** No flag is raised. */
  predicate FlagsFall(s: Relay, s': Relay) {
    s'.sender.ready <= s.sender.ready && s'.receiver.ready <= s.receiver.ready
  }

  lemma HandFalls(s: Relay, d: Relay, role: Role, h: Handler)
    requires FlagsFall(s, d)
    ensures FlagsFall(s, SetHand(d, role, h))
  {
  }

  lemma DecisionFalls(s: Relay, role: Role, conn: nat)
    ensures FlagsFall(s, DecideRetry(s, role, conn))
  {
    hide PutPending, Cancelled;
  }

  lemma PortsFall(s: Relay, role: Role, ports: seq<nat>)
    requires ports != []
    ensures FlagsFall(s, DecidePorts(s, role, ports).0)
  {
    hide FirstOpen, MapPort;
  }

  lemma RestFalls(s: Relay, role: Role, s': Relay)
    requires HandlerSection(s, role) == Some(s')
    requires PeerOf(s, role).hand.PortsTail? || PeerOf(s, role).hand.ResultWaiting?
    ensures FlagsFall(s, s')
  {
  }

  lemma HandlerFalls(s: Relay, role: Role, s': Relay)
    requires HandlerSection(s, role) == Some(s')
    ensures FlagsFall(s, s')
  {
    match PeerOf(s, role).hand
    case RetryWaiting(conn) =>
      DecisionFalls(s, role, conn);
      HandFalls(s, DecideRetry(s, role, conn), role, Free);
      hide DecideRetry, FlagsFall;
    case PortsWaiting(ports) =>
      PortsFall(s, role, ports);
      hide DecidePorts, FlagsFall;
      var r := DecidePorts(s, role, ports);
      HandFalls(s, r.0, role, PortsTail(ports, r.1));
    case PortsTail(_, _) => RestFalls(s, role, s');
    case ResultWaiting(_, _) => RestFalls(s, role, s');
    case Gone =>
    case Free =>
  }

  lemma TimeoutFalls(s: Relay, conn: nat)
    ensures FlagsFall(s, DecideTimeout(s, conn))
  {
    assert FlagsFall(s, Reject(s, SenderRole, conn)) && FlagsFall(s, Reject(s, ReceiverRole, conn));
    hide Reject;
  }

  lemma SettleFalls(s: Relay, role: Role, conn: nat)
    ensures Settle(s, role, conn).sender == s.sender && Settle(s, role, conn).receiver == s.receiver
  {
  }

  lemma TaskFalls(s: Relay, t: Task, now: real)
    requires TaskSection(s, t, now).Some?
    ensures FlagsFall(s, TaskSection(s, t, now).value.0)
  {
    if t.pc.WaitResult? {
      SettleFalls(s, SenderRole, t.conn);
      SettleFalls(Settle(s, SenderRole, t.conn), ReceiverRole, t.conn);
    }
    hide Settle, ResultSeen;
  }

  lemma ReceiptFalls(s: Relay, step: Step, s': Relay)
    requires (step.RetryRequest? || step.AddPorts? || step.Report?) && Receive(s, step) == Some(s')
    ensures FlagsFall(s, s')
  {
  }

  lemma ReadyRaises(s: Relay, role: Role, conn: nat, s': Relay)
    requires Receive(s, Ready(role, conn)) == Some(s')
    ensures PeerOf(s', role).ready == PeerOf(s, role).ready + {conn}
    ensures PeerOf(s', Other(role)).ready == PeerOf(s, Other(role)).ready
  {
  }

  /** Only a peer's own READY for it raises its flag for a connection. */
  lemma OnlyReadyRaises(s: Relay, step: Step, s': Relay, role: Role, conn: nat)
    requires Apply(s, step) == Some(s') && conn !in PeerOf(s, role).ready && conn in PeerOf(s', role).ready
    ensures step == Ready(role, conn)
  {
    hide HandlerSection, TaskSection, DecideTimeout, Receive;
    match step
    case HandlerGoesOn(r) => HandlerFalls(s, r, s');
    case TimerDecides(id) => TimeoutFalls(R.TimerOver(s, id), s.timers[id].conn);
    case TaskGoesOn(k, now) => TaskFalls(s, s.tasks[k], now);
    case RetryRequest(_, _) => ReceiptFalls(s, step, s');
    case AddPorts(_, _) => ReceiptFalls(s, step, s');
    case Report(_, _, _) => ReceiptFalls(s, step, s');
    case Ready(r, c) => ReadyRaises(s, r, c, s');
    case _ =>
  }

  lemma {:induction false} FlagNeedsReady(s: Relay, steps: seq<Step>, s': Relay, role: Role, conn: nat)
    requires Run(s, steps) == Some(s') && conn !in PeerOf(s, role).ready && conn in PeerOf(s', role).ready
    ensures Ready(role, conn) in steps
    decreases |steps|
  {
    var n := |steps| - 1;
    var s1 := Run(s, steps[..n]).value;
    hide Apply;
    if conn in PeerOf(s1, role).ready {
      FlagNeedsReady(s, steps[..n], s1, role, conn);
    } else {
      OnlyReadyRaises(s1, steps[n], s', role, conn);
    }
  }

  /** Behind its GO a task takes both flags down. */
  lemma GoSpendsReady(s: Relay, k: nat, now: real, s': Relay)
    requires Apply(s, TaskGoesOn(k, now)) == Some(s') && s.tasks[k].pc.ResetReady?
    ensures s.tasks[k].conn !in s'.sender.ready && s.tasks[k].conn !in s'.receiver.ready
  {
  }

  lemma WaitNeedsFlags(s: Relay, k: nat, now: real)
    requires Apply(s, TaskGoesOn(k, now)).Some? && s.tasks[k].pc.WaitReady?
    ensures s.tasks[k].conn in s.sender.ready && s.tasks[k].conn in s.receiver.ready
  {
  }

  /** In any run: between one GO for a connection and the next, of whatever task, both peers send
      READY for it. */
  lemma NextGoNeedsReady(
    s: Relay, k: nat, now: real, s1: Relay, steps: seq<Step>, s2: Relay, l: nat, later: real)
    requires Apply(s, TaskGoesOn(k, now)) == Some(s1) && s.tasks[k].pc.ResetReady?
    requires Run(s1, steps) == Some(s2) && Apply(s2, TaskGoesOn(l, later)).Some?
    requires s2.tasks[l].pc.WaitReady? && s2.tasks[l].conn == s.tasks[k].conn
    ensures Ready(SenderRole, s.tasks[k].conn) in steps && Ready(ReceiverRole, s.tasks[k].conn) in steps
  {
    GoSpendsReady(s, k, now, s1);
    WaitNeedsFlags(s2, l, later);
    hide Apply;
    FlagNeedsReady(s1, steps, s2, SenderRole, s.tasks[k].conn);
    FlagNeedsReady(s1, steps, s2, ReceiverRole, s.tasks[k].conn);
  }
}
