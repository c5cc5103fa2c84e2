/** What a coordination or retry task has done once it has come to its end: nothing it was
    started for is left out (server/relay/coordinator.py). */
module RelayCompletion {
  import opened Wrappers
  import opened RelaySession
  import R = RelayRetry
  import W = RelayWaiting
  import opened RelayCoordination

  // ---------- what a trace has seen through ----------

  ghost predicate ResolvedIn(trace: seq<TaskEvent>, c: nat) {
    exists j :: 0 <= j < |trace| && trace[j].Resolved? && trace[j].conn == c
  }

  ghost predicate GoIn(trace: seq<TaskEvent>, role: Role, c: nat) {
    exists j :: 0 <= j < |trace| && trace[j].GoSent? && trace[j].role == role && trace[j].conn == c
  }

  /** In a legal trace every connection before the present one has been resolved. */
  lemma {:induction false} PastIsResolved(first: nat, trace: seq<TaskEvent>, c: nat)
    requires LegalTrace(false, first, trace) && first <= c < PhaseAfter(first, trace).conn
    ensures ResolvedIn(trace, c)
    decreases |trace|
  {
    var init, e := trace[..|trace| - 1], trace[|trace| - 1];
    if e.Resolved? && e.conn == c {
      assert trace[|trace| - 1].conn == c;
    } else {
      PastIsResolved(first, init, c);
      var j :| 0 <= j < |init| && init[j].Resolved? && init[j].conn == c;
      assert trace[j] == init[j];
    }
  }

  /** After GO has gone out, it has gone to both. */
  lemma {:induction false} GoneToBoth(retry: bool, first: nat, trace: seq<TaskEvent>)
    requires LegalTrace(retry, first, trace) && PhaseAfter(first, trace).stage.GoneOff?
    ensures GoIn(trace, SenderRole, PhaseAfter(first, trace).conn)
    ensures GoIn(trace, ReceiverRole, PhaseAfter(first, trace).conn)
  {
    var i := |trace| - 1;
    assert trace[i].GoSent? && trace[i].role.ReceiverRole?;
    GoIsPaired(retry, first, trace, i);
  }

  // ---------- the invariant ----------

  predicate SeenThrough(t: Task)
    requires t.n > 0 || !t.retry
  {
    var p := PhaseAfter(First(t), t.trace);
    if t.retry then p == Phase(First(t), GoneOff) else p.conn >= t.n
  }

  /** A task that ended of itself has seen everything through; one under way has a connection to treat. */
  predicate Thorough(t: Task) {
    && (t.retry ==> t.n > 0)
    && (t.n > 0 && t.pc.Ended? && !t.failed ==> SeenThrough(t))
    && (!t.retry && t.pc.Starting? ==> t.conn == 0)
    && (!t.retry && Running(t) ==> t.conn < t.n)
  }

  ghost predicate AllThorough(s: Relay) {
    s.alive ==> (s.tasks != [] ==> BothIn(s)) && forall k :: 0 <= k < |s.tasks| ==> Thorough(s.tasks[k])
  }

  /** The task goes on to the next connection, or has none left. */
  lemma NextIsThorough(t: Task, e: TaskEvent)
    requires Stands(t) && Thorough(t) && Running(t) && !t.retry && e.Resolved?
    requires StandsAt(t, PhaseAfter(First(t), t.trace))
    requires t.pc.CheckResolved? || t.pc.WaitResult?
    ensures Thorough(NextConn(t, e))
  {
    OneMore(t.retry, First(t), t.trace, e);
    hide LegalTrace, PhaseAfter, Stands;
  }

  lemma OtherwiseThorough(t: Task, t': Task)
    requires Thorough(t) && t'.retry == t.retry && t'.n == t.n && t'.conn == t.conn && !t'.pc.Ended? && !t'.pc.Starting?
    requires t.pc.Starting? ==> t.n > 0
    requires !t.pc.Ended?
    ensures Thorough(t')
  {
    hide PhaseAfter;
  }

  lemma ResetThorough(t: Task)
    requires Stands(t) && Thorough(t) && t.pc.ResetReady?
    ensures Thorough(t.(pc := if t.retry then Ended else WaitResult))
  {
    StandsMeans(t);
    hide LegalTrace, PhaseAfter, Stands;
  }

  lemma SectionThorough(s: Relay, t: Task, now: real)
    requires s.alive && BothIn(s) && Stands(t) && Thorough(t) && TaskSection(s, t, now).Some?
    ensures Thorough(TaskSection(s, t, now).value.1)
  {
    var t' := TaskSection(s, t, now).value.1;
    StandsMeans(t);
    hide Settle, ResultSeen, Stands, NextConn, SeenThrough, PhaseAfter;
    match t.pc
    case Starting => if t.n > 0 { OtherwiseThorough(t, t'); }
    case CheckResolved =>
      var a, b := ResultSeen(s, SenderRole, t.conn), ResultSeen(s, ReceiverRole, t.conn);
      if a.Some? && b.Some? { NextIsThorough(t, Resolved(t.conn, a.value, b.value)); }
      else { OtherwiseThorough(t, t'); }
    case WaitResult =>
      var s1 := Settle(Settle(s, SenderRole, t.conn), ReceiverRole, t.conn);
      if t.conn in s1.senderResults && t.conn in s1.receiverResults {
        NextIsThorough(t, Resolved(t.conn, s1.senderResults[t.conn], s1.receiverResults[t.conn]));
      }
    case ResetReady => ResetThorough(t);
    case Ended =>
    case _ => OtherwiseThorough(t, t');
  }

  // ---------- every step ----------

  predicate SameMembers(s: Relay, d: Relay) {
    d.alive == s.alive && d.senderIn == s.senderIn && d.receiverIn == s.receiverIn
  }

  /** The list of tasks as it was, or with a new one, started while both peers were in. */
  predicate TasksGrow(s: Relay, d: Relay) {
    d.tasks == s.tasks ||
    (s.alive && BothIn(s) && |d.tasks| == |s.tasks| + 1 && d.tasks[..|s.tasks|] == s.tasks
     && d.tasks[|s.tasks|].pc.Starting?
     && if d.tasks[|s.tasks|].retry then d.tasks[|s.tasks|].n > 0 else d.tasks[|s.tasks|].conn == 0)
  }

  lemma DecisionMembers(s: Relay, role: Role, conn: nat)
    ensures SameMembers(s, DecideRetry(s, role, conn)) && DecideRetry(s, role, conn).tasks == s.tasks
  {
    assert SameMembers(s, Grant(s, conn)) && Grant(s, conn).tasks == s.tasks by { hide PutPending, Cancelled; }
    hide Grant;
  }

  lemma PortsMembers(s: Relay, role: Role, ports: seq<nat>)
    requires ports != []
    ensures var d := DecidePorts(s, role, ports).0; SameMembers(s, d) && TasksGrow(s, d)
  {
    W.PortsLogged(s, role, ports);
    R.PortsQuiet(s, role, ports);
    assert |W.PortsNews(s, role)| == 2 ==> s.alive && BothIn(s) by { hide FirstOpen; }
    hide DecidePorts, W.PortsNews;
  }

  lemma OtherMembers(s: Relay, role: Role, s': Relay)
    requires HandlerSection(s, role) == Some(s')
    requires PeerOf(s, role).hand.PortsTail? || PeerOf(s, role).hand.ResultWaiting?
    ensures SameMembers(s, s') && s'.tasks == s.tasks
  {
    W.OtherHandlersStartNothing(s, role, s', 0);
  }

  lemma HandMembers(s: Relay, d: Relay, role: Role, h: Handler)
    requires SameMembers(s, d) && TasksGrow(s, d)
    ensures SameMembers(s, SetHand(d, role, h)) && TasksGrow(s, SetHand(d, role, h))
  {
  }

  lemma HandlerMembers(s: Relay, role: Role, s': Relay)
    requires HandlerSection(s, role) == Some(s')
    ensures SameMembers(s, s') && TasksGrow(s, s')
  {
    match PeerOf(s, role).hand
    case RetryWaiting(conn) =>
      DecisionMembers(s, role, conn);
      HandMembers(s, DecideRetry(s, role, conn), role, Free);
      hide DecideRetry;
    case PortsWaiting(ports) =>
      PortsMembers(s, role, ports);
      hide DecidePorts, TasksGrow;
      var r := DecidePorts(s, role, ports);
      HandMembers(s, r.0, role, PortsTail(ports, r.1));
    case PortsTail(_, _) => OtherMembers(s, role, s');
    case ResultWaiting(_, _) => OtherMembers(s, role, s');
    case Gone =>
    case Free =>
  }

  lemma TimeoutMembers(s: Relay, conn: nat)
    ensures SameMembers(s, DecideTimeout(s, conn)) && DecideTimeout(s, conn).tasks == s.tasks
  {
  }

  lemma ReceiptMembers(s: Relay, step: Step, s': Relay)
    requires step.RetryRequest? || step.AddPorts? || step.Ready? || step.Report?
    requires Receive(s, step) == Some(s')
    ensures SameMembers(s, s') && s'.tasks == s.tasks
  {
    W.ReceiptStartsNothing(s, step, s');
    var p := PeerOf(s, step.role);
    hide SetPeer;
    match step
    case RetryRequest(role, conn) =>
      PeerMembers(s, role, p.(requested := p.requested + {conn}, hand := RetryWaiting(conn)));
    case AddPorts(role, ports) => PeerMembers(s, role, p.(hand := PortsWaiting(ports)));
    case Ready(role, conn) => PeerMembers(s, role, p.(ready := p.ready + {conn}));
    case Report(role, conn, result) => PeerMembers(s, role, p.(hand := ResultWaiting(conn, result)));
  }

  lemma PeerMembers(s: Relay, role: Role, p: Peer)
    ensures SameMembers(s, SetPeer(s, role, p))
  {
  }

  lemma GrowKeeps(s: Relay, s': Relay)
    requires AllThorough(s) && TasksGrow(s, s')
    requires s'.alive ==> s.alive && (s.senderIn ==> s'.senderIn) && (s.receiverIn ==> s'.receiverIn)
    ensures AllThorough(s')
  {
    if s'.alive {
      forall k | 0 <= k < |s'.tasks| ensures Thorough(s'.tasks[k]) {
        if k < |s.tasks| { assert s'.tasks[k] == s.tasks[k]; }
      }
    }
  }

  lemma ReplaceKeeps(s: Relay, s': Relay, k: nat, t: Task)
    requires AllThorough(s) && SameMembers(s, s') && k < |s.tasks| && s'.tasks == s.tasks[k := t]
    requires s.alive ==> Thorough(t)
    ensures AllThorough(s')
  {
    hide Thorough;
  }

  lemma TaskKeepsAll(s: Relay, k: nat, now: real, s': Relay)
    requires AllThorough(s) && Inv(s) && Apply(s, TaskGoesOn(k, now)) == Some(s')
    ensures AllThorough(s')
  {
    R.TaskIsQuiet(s, s.tasks[k], now);
    if s.alive { SectionThorough(s, s.tasks[k], now); }
    hide TaskSection, Thorough;
    ReplaceKeeps(s, s', k, TaskSection(s, s.tasks[k], now).value.1);
  }

  lemma StepKeepsAll(s: Relay, step: Step, s': Relay)
    requires AllThorough(s) && Inv(s) && Apply(s, step) == Some(s')
    ensures AllThorough(s')
  {
    hide HandlerSection, TaskSection, DecideTimeout, Receive, AllThorough, Inv;
    match step
    case HandlerGoesOn(role) => HandlerMembers(s, role, s'); GrowKeeps(s, s');
    case TimerDecides(id) => TimeoutMembers(R.TimerOver(s, id), s.timers[id].conn); GrowKeeps(s, s');
    case TaskGoesOn(k, now) => TaskKeepsAll(s, k, now, s');
    case TaskFails(k) => FailKeeps(s, k, s');
    case RetryRequest(_, _) => ReceiptMembers(s, step, s'); GrowKeeps(s, s');
    case AddPorts(_, _) => ReceiptMembers(s, step, s'); GrowKeeps(s, s');
    case Ready(_, _) => ReceiptMembers(s, step, s'); GrowKeeps(s, s');
    case Report(_, _, _) => ReceiptMembers(s, step, s'); GrowKeeps(s, s');
    case _ => GrowKeeps(s, s');
  }

  lemma FailKeeps(s: Relay, k: nat, s': Relay)
    requires AllThorough(s) && Apply(s, TaskFails(k)) == Some(s')
    ensures AllThorough(s')
  {
    ReplaceKeeps(s, s', k, s.tasks[k].(pc := Ended, failed := true));
  }

  lemma {:induction false} RunKeepsAll(s: Relay, steps: seq<Step>, s': Relay)
    requires AllThorough(s) && Inv(s) && Run(s, steps) == Some(s')
    ensures AllThorough(s') && Inv(s')
    decreases |steps|
  {
    if steps != [] {
      var s1 := Run(s, steps[..|steps| - 1]).value;
      RunKeepsAll(s, steps[..|steps| - 1], s1);
      hide AllThorough, Inv, Apply;
      StepKeeps(s1, steps[|steps| - 1], s');
      StepKeepsAll(s1, steps[|steps| - 1], s');
    }
  }

  lemma ReachableThorough(s: Relay)
    requires Reachable(s)
    ensures AllThorough(s) && Inv(s)
  {
    var s0, steps :| Init(s0) && Run(s0, steps) == Some(s);
    assert Inv(s0) && AllThorough(s0);
    hide Inv, AllThorough;
    RunKeepsAll(s0, steps, s);
  }

  // ---------- what the peers are promised ----------

  /** While the session lives, a coordination task that has ended without giving up or failing
      has resolved each of its connections. */
  lemma EveryConnectionIsTreated(s: Relay, k: nat, c: nat)
    requires Reachable(s) && s.alive && k < |s.tasks| && !s.tasks[k].retry
    requires s.tasks[k].pc.Ended? && !s.tasks[k].failed && c < s.tasks[k].n
    ensures ResolvedIn(s.tasks[k].trace, c)
  {
    ReachableThorough(s);
    TasksAreLegal(s, k);
    assert Thorough(s.tasks[k]);
    hide Reachable, Inv, AllThorough;
    PastIsResolved(0, s.tasks[k].trace, c);
  }

  /** And a retry task that has ended so has sent GO to both. */
  lemma RetrySendsGo(s: Relay, k: nat)
    requires Reachable(s) && s.alive && k < |s.tasks| && s.tasks[k].retry
    requires s.tasks[k].pc.Ended? && !s.tasks[k].failed
    ensures s.tasks[k].n > 0
    ensures GoIn(s.tasks[k].trace, SenderRole, s.tasks[k].n - 1)
    ensures GoIn(s.tasks[k].trace, ReceiverRole, s.tasks[k].n - 1)
  {
    ReachableThorough(s);
    TasksAreLegal(s, k);
    var t := s.tasks[k];
    assert Thorough(t) && SeenThrough(t);
    hide Reachable, Inv, AllThorough;
    GoneToBoth(true, First(t), t.trace);
  }

  // ---------- nothing holds a task up but what it waits for ----------

  function Place(pc: TaskPc): nat {
    match pc
    case Starting => 0
    case CheckResolved => 1
    case ClearStale => 2
    case InfoSender => 3
    case InfoReceiver => 4
    case WaitReady => 5
    case GoSender(_) => 6
    case GoReceiver(_) => 7
    case ResetReady => 8
    case WaitResult => 9
    case Ended => 10
  }

  /** What the section waits for has come. */
  predicate Awaited(s: Relay, t: Task) {
    match t.pc
    case CheckResolved =>
      || (ResultSeen(s, SenderRole, t.conn).Some? && ResultSeen(s, ReceiverRole, t.conn).Some?)
      || (t.conn < |s.sender.bound| && t.conn < |s.receiver.bound|)
    case WaitReady => t.conn in s.sender.ready && t.conn in s.receiver.ready
    case WaitResult => ResultSeen(s, SenderRole, t.conn).Some? && ResultSeen(s, ReceiverRole, t.conn).Some?
    case Ended => false
    case _ => true
  }

  lemma SettleKnows(s: Relay, role: Role, conn: nat)
    requires s.alive && In(s, role)
    ensures ResultSeen(s, role, conn).Some? ==> conn in ResultsOf(Settle(s, role, conn), role)
    ensures var d := Settle(s, role, conn);
            d.alive && In(d, Other(role)) == In(s, Other(role))
            && ResultSeen(d, Other(role), conn) == ResultSeen(s, Other(role), conn)
    ensures ResultsOf(Settle(s, role, conn), Other(role)) == ResultsOf(s, Other(role))
  {
  }

  /** Free lock, and what it waits for is there: the task goes on, to a later place or connection. */
  lemma TaskMoves(s: Relay, t: Task, now: real)
    requires s.alive && BothIn(s) && !s.lockHeld && Awaited(s, t)
    ensures TaskSection(s, t, now).Some?
    ensures var t' := TaskSection(s, t, now).value.1;
            t'.conn == t.conn + 1 || (t'.conn == t.conn && Place(t'.pc) > Place(t.pc))
  {
    if t.pc.WaitResult? {
      var s1 := Settle(s, SenderRole, t.conn);
      SettleKnows(s, SenderRole, t.conn);
      SettleKnows(s1, ReceiverRole, t.conn);
      hide Settle, ResultSeen;
    } else {
      hide Settle, ResultSeen;
    }
  }
}
