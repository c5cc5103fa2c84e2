/** What becomes of a retry request that is not granted at once (server/relay/handlers.py):
    when it gets a timer, what happens to it without one, and how the retries a history
    tells of stand in the list of tasks. */
module RelayWaiting {
  import opened Wrappers
  import opened RelaySession
  import opened RelayRetry

  // ---------- when a request is followed ----------

  /** A timeout task for this connection is registered and not over. */
  predicate HasTimer(s: Relay, conn: nat) {
    && conn in s.retryTasks && s.retryTasks[conn] < |s.timers|
    && s.timers[s.retryTasks[conn]].conn == conn && Live(s.timers[s.retryTasks[conn]])
  }

  lemma NoTimerBeforeBoth(s: Relay, conn: nat)
    requires Inv(s) && s.alive && !BothIn(s)
    ensures conn !in s.retryTasks
  {
    assert s.timers == [];
  }

  lemma FollowedOnceBoth(s: Relay, role: Role, conn: nat)
    requires Inv(s) && s.alive && BothIn(s)
    ensures conn !in PeerOf(DecideRetry(s, role, conn), role).requested || HasTimer(DecideRetry(s, role, conn), conn)
  {
    assert Spent(s.timers, s.retryTasks, conn) ==> BothRequested(s, conn);
    if BothRequested(s, conn) { GrantEffect(s, conn); }
  }

  /** Once its handler is done with it, a request is answered or has a running timer exactly
      if both peers were in the session. */
  lemma DecidedRequestIsFollowed(s: Relay, role: Role, conn: nat, s': Relay)
    requires Reachable(s) && s.alive && PeerOf(s, role).hand == RetryWaiting(conn)
    requires Apply(s, HandlerGoesOn(role)) == Some(s')
    ensures conn !in PeerOf(s', role).requested || HasTimer(s', conn) <==> BothIn(s)
  {
    ReachableInv(s);
    hide Inv, Reachable;
    if BothIn(s) {
      FollowedOnceBoth(s, role, conn);
      hide DecideRetry;
      assert s' == SetHand(DecideRetry(s, role, conn), role, Free);
    } else {
      NoTimerBeforeBoth(s, conn);
      assert PeerPresent(s, role) by { assert Control(s) by { assert Inv(s); } }
    }
  }

  // ---------- what a step adds to the history ----------

  function DecisionNews(s: Relay, conn: nat): seq<Event> {
    if s.alive && BothIn(s) && BothRequested(s, conn) then [Granted(SenderRole, conn), Granted(ReceiverRole, conn)]
    else []
  }

  function PortsNews(s: Relay, role: Role): seq<Event> {
    var i := FirstOpen(s.retryPending, role);
    if !s.alive || i == |s.retryPending| then []
    else if s.retryPending[i].Has(Other(role)) && BothIn(s) then
      [PortsAccepted(role, s.retryPending[i].conn), RetryStarted(s.retryPending[i].conn)]
    else [PortsAccepted(role, s.retryPending[i].conn)]
  }

  function HandlerNews(s: Relay, role: Role): seq<Event> {
    match PeerOf(s, role).hand
    case RetryWaiting(conn) => DecisionNews(s, conn)
    case PortsWaiting(_) => PortsNews(s, role)
    case ResultWaiting(conn, result) => [Recorded(role, conn, result)]
    case _ => []
  }

  function TimeoutNews(s: Relay, conn: nat): seq<Event> {
    if !s.alive || !BothIn(s) || BothRequested(s, conn) then []
    else if conn in s.sender.requested then [Rejected(SenderRole, conn)]
    else if conn in s.receiver.requested then [Rejected(ReceiverRole, conn)]
    else []
  }

  function News(s: Relay, step: Step): seq<Event> {
    match step
    case RetryRequest(role, conn) => [Requested(role, conn)]
    case Ready(role, conn) => [ReadyReceived(role, conn)]
    case Report(role, conn, result) => [Reported(role, conn, result)]
    case HandlerGoesOn(role) => HandlerNews(s, role)
    case TimerDecides(id) => if id < |s.timers| then TimeoutNews(s, s.timers[id].conn) else []
    case TaskGoesOn(k, _) =>
      if k < |s.tasks| && s.tasks[k].pc.ClearStale? then [Cleared(s.tasks[k].conn)] else []
    case _ => []
  }

  lemma DecisionTold(s: Relay, role: Role, conn: nat)
    ensures DecideRetry(s, role, conn).log == s.log + DecisionNews(s, conn)
  {
    GrantEffect(s, conn);
    hide Grant;
  }

  lemma PortsLogged(s: Relay, role: Role, ports: seq<nat>)
    requires ports != []
    ensures DecidePorts(s, role, ports).0.log == s.log + PortsNews(s, role)
    ensures DecidePorts(s, role, ports).0.tasks
         == s.tasks + if |PortsNews(s, role)| == 2 then [RetryTask(PortsNews(s, role)[1].conn)] else []
  {
    var i := FirstOpen(s.retryPending, role);
    if s.alive && i < |s.retryPending| {
      hide FirstOpen;
      var p := s.retryPending[i].With(role);
      var s1 := Accept(s, role, p.conn, ports[0]);
      assert s1.log == s.log + [PortsAccepted(role, p.conn)] && s1.tasks == s.tasks;
      hide Accept;
    }
  }

  lemma LogGrows(s: Relay, step: Step, s': Relay)
    requires Apply(s, step) == Some(s')
    ensures s'.log == s.log + News(s, step)
  {
    hide HandlerSection, HandlerNews, TaskSection, DecideTimeout, TimeoutNews;
    match step
    case HandlerGoesOn(role) => HandlerLogged(s, role, s');
    case TimerDecides(id) => TimeoutLogged(s, id);
    case TaskGoesOn(k, now) => TaskIsQuiet(s, s.tasks[k], now);
    case _ =>
  }

  lemma HandlerLogged(s: Relay, role: Role, s': Relay)
    requires HandlerSection(s, role) == Some(s')
    ensures s'.log == s.log + HandlerNews(s, role)
  {
    hide DecideRetry, DecidePorts, DecisionNews, PortsNews;
    match PeerOf(s, role).hand
    case RetryWaiting(conn) => DecisionTold(s, role, conn);
    case PortsWaiting(ports) => PortsLogged(s, role, ports);
    case _ =>
  }

  lemma TimeoutLogged(s: Relay, id: nat)
    requires id < |s.timers|
    ensures DecideTimeout(TimerOver(s, id), s.timers[id].conn).log == s.log + TimeoutNews(s, s.timers[id].conn)
  {
  }

  lemma {:induction false} OccurrencesAdd(log: seq<Event>, more: seq<Event>, e: Event)
    ensures Occurrences(log + more, e) == Occurrences(log, e) + Occurrences(more, e)
    decreases |more|
  {
    if more == [] {
      assert log + more == log;
    } else {
      assert (log + more)[..|log + more| - 1] == log + more[..|more| - 1];
      OccurrencesAdd(log, more[..|more| - 1], e);
    }
  }

  // ---------- a request without a timer ----------

  /** A request of `role` alone, with no handler and no timer to decide it. */
  predicate Forgotten(s: Relay, role: Role, conn: nat) {
    && conn in PeerOf(s, role).requested && conn !in PeerOf(s, Other(role)).requested
    && !Waits(s, conn) && conn !in s.retryTasks
  }

  /** Flags as they were, and nobody new to decide the request. */
  predicate LeftAlone(s: Relay, s': Relay, conn: nat) {
    && (conn in s'.sender.requested <==> conn in s.sender.requested)
    && (conn in s'.receiver.requested <==> conn in s.receiver.requested)
    && (Waits(s', conn) ==> Waits(s, conn)) && (conn in s'.retryTasks ==> conn in s.retryTasks)
  }

  predicate AnswersNone(news: seq<Event>, conn: nat) {
    forall i :: 0 <= i < |news| ==> (news[i].Granted? || news[i].Rejected?) ==> news[i].conn != conn
  }

  lemma QuietLeavesAlone(s: Relay, s': Relay, conn: nat)
    requires Quiet(s, s')
    ensures LeftAlone(s, s', conn)
  {
  }

  lemma HandLeavesAlone(s: Relay, d: Relay, role: Role, h: Handler, conn: nat)
    requires LeftAlone(s, d, conn) && !h.RetryWaiting?
    ensures LeftAlone(s, SetHand(d, role, h), conn)
  {
  }

  lemma GrantLeavesAlone(s: Relay, c: nat, conn: nat)
    requires c != conn
    ensures LeftAlone(s, Grant(s, c), conn)
  {
    hide PutPending, Cancelled;
  }

  lemma StartLeavesAlone(s: Relay, c: nat, conn: nat)
    requires c != conn
    ensures LeftAlone(s, StartTimer(s, c), conn)
  {
  }

  lemma DecisionLeavesAlone(s: Relay, role: Role, c: nat, conn: nat)
    requires c != conn
    ensures LeftAlone(s, SetHand(DecideRetry(s, role, c), role, Free), conn)
  {
    GrantLeavesAlone(s, c, conn);
    StartLeavesAlone(s, c, conn);
    assert LeftAlone(s, DecideRetry(s, role, c), conn) by { hide Grant, StartTimer; }
    hide DecideRetry, LeftAlone;
    HandLeavesAlone(s, DecideRetry(s, role, c), role, Free, conn);
  }

  lemma PortsLeaveAlone(s: Relay, role: Role, ports: seq<nat>, conn: nat)
    requires ports != []
    ensures LeftAlone(s, DecidePorts(s, role, ports).0, conn)
  {
    var d := DecidePorts(s, role, ports).0;
    PortsQuiet(s, role, ports);
    hide DecidePorts;
    QuietLeavesAlone(s, d.(retryPending := s.retryPending), conn);
    hide Quiet;
  }

  lemma TimeoutLeavesAlone(s: Relay, id: nat, conn: nat)
    requires id < |s.timers| && s.timers[id].conn != conn
    ensures LeftAlone(s, DecideTimeout(TimerOver(s, id), s.timers[id].conn), conn)
  {
  }

  lemma PortsAnswerNone(s: Relay, role: Role, conn: nat)
    ensures AnswersNone(PortsNews(s, role), conn)
  {
    hide FirstOpen;
  }

  lemma HandlerLeavesAlone(s: Relay, role: Role, conn: nat, s': Relay)
    requires HandlerSection(s, role) == Some(s') && !Waits(s, conn)
    ensures LeftAlone(s, s', conn) && AnswersNone(HandlerNews(s, role), conn)
  {
    match PeerOf(s, role).hand
    case RetryWaiting(c) =>
      DecisionLeavesAlone(s, role, c, conn);
      hide DecideRetry, LeftAlone;
    case PortsWaiting(ports) =>
      var r := DecidePorts(s, role, ports);
      PortsLeaveAlone(s, role, ports, conn);
      PortsAnswerNone(s, role, conn);
      hide DecidePorts, PortsNews, LeftAlone;
      HandLeavesAlone(s, r.0, role, PortsTail(ports, r.1), conn);
    case _ => OtherHandlersLeaveAlone(s, role, conn, s');
  }

  lemma OtherHandlersLeaveAlone(s: Relay, role: Role, conn: nat, s': Relay)
    requires HandlerSection(s, role) == Some(s')
    requires PeerOf(s, role).hand.PortsTail? || PeerOf(s, role).hand.ResultWaiting?
    ensures LeftAlone(s, s', conn)
  {
  }

  lemma PeerLeavesAlone(s: Relay, role: Role, p: Peer, log: seq<Event>, conn: nat)
    requires (conn in p.requested <==> conn in PeerOf(s, role).requested) && p.hand != RetryWaiting(conn)
    ensures LeftAlone(s, SetPeer(s, role, p).(log := log), conn)
  {
  }

  lemma ReceiptLeavesAlone(s: Relay, step: Step, s': Relay, conn: nat)
    requires step.RetryRequest? || step.AddPorts? || step.Ready? || step.Report?
    requires Receive(s, step) == Some(s') && !(step.RetryRequest? && step.conn == conn)
    ensures LeftAlone(s, s', conn)
  {
    var p := PeerOf(s, step.role);
    hide SetPeer, LeftAlone;
    match step
    case RetryRequest(role, c) =>
      PeerLeavesAlone(s, role, p.(requested := p.requested + {c}, hand := RetryWaiting(c)), s'.log, conn);
    case AddPorts(role, ports) =>
      if ports == [] { SamePeersLeftAlone(s, s', conn); }
      else { PeerLeavesAlone(s, role, p.(hand := PortsWaiting(ports)), s.log, conn); SameLog(s, role, ports, s'); }
    case Ready(role, c) => PeerLeavesAlone(s, role, p.(ready := p.ready + {c}), s'.log, conn);
    case Report(role, c, result) => PeerLeavesAlone(s, role, p.(hand := ResultWaiting(c, result)), s'.log, conn);
  }

  lemma SameLog(s: Relay, role: Role, ports: seq<nat>, s': Relay)
    requires Receive(s, AddPorts(role, ports)) == Some(s')
    ensures s' == s'.(log := s.log)
  {
  }

  lemma ComingLeavesAlone(s: Relay, step: Step, s': Relay, conn: nat)
    requires (step.Register? || step.Disconnect?) && Apply(s, step) == Some(s')
    ensures LeftAlone(s, s', conn)
  {
    hide LeftAlone, SetHand;
    if step.Register? {
      var s1 := if step.role.SenderRole? then s.(senderIn := true) else s.(receiverIn := true);
      SamePeersLeftAlone(s, s1, conn);
      HandLeavesAlone(s, s1, step.role, Free, conn);
    } else {
      var s1 := if s.alive then s.(alive := false, senderIn := false, receiverIn := false) else s;
      SamePeersLeftAlone(s, s1, conn);
      HandLeavesAlone(s, s1, step.role, Gone, conn);
    }
  }

  lemma TaskLeavesAlone(s: Relay, k: nat, now: real, s': Relay, conn: nat)
    requires Apply(s, TaskGoesOn(k, now)) == Some(s')
    ensures LeftAlone(s, s', conn)
  {
    TaskIsQuiet(s, s.tasks[k], now);
    hide TaskSection;
  }

  lemma SamePeersLeftAlone(s: Relay, s': Relay, conn: nat)
    requires s'.sender == s.sender && s'.receiver == s.receiver && s'.retryTasks == s.retryTasks
    ensures LeftAlone(s, s', conn)
  {
  }

  /** No step but another request for the connection touches its flags or brings a handler or a
      timer for it, as long as it has none. */
  lemma StepLeavesAlone(s: Relay, step: Step, s': Relay, conn: nat)
    requires TimersRegistered(s) && Apply(s, step) == Some(s') && !Waits(s, conn) && conn !in s.retryTasks
    requires !(step.RetryRequest? && step.conn == conn)
    ensures LeftAlone(s, s', conn) && AnswersNone(News(s, step), conn)
  {
    hide HandlerSection, HandlerNews, TaskSection, DecideTimeout, Receive, LeftAlone;
    match step
    case HandlerGoesOn(r) => HandlerLeavesAlone(s, r, conn, s');
    case TimerDecides(id) =>
      assert Live(s.timers[id]);
      TimeoutLeavesAlone(s, id, conn);
    case TaskGoesOn(k, now) => TaskLeavesAlone(s, k, now, s', conn);
    case RetryRequest(_, _) => ReceiptLeavesAlone(s, step, s', conn);
    case AddPorts(_, _) => ReceiptLeavesAlone(s, step, s', conn);
    case Ready(_, _) => ReceiptLeavesAlone(s, step, s', conn);
    case Report(_, _, _) => ReceiptLeavesAlone(s, step, s', conn);
    case Register(_) => ComingLeavesAlone(s, step, s', conn);
    case Disconnect(_) => ComingLeavesAlone(s, step, s', conn);
    case _ => SamePeersLeftAlone(s, s', conn);
  }

  lemma NoAnswer(log: seq<Event>, news: seq<Event>, role: Role, conn: nat)
    requires AnswersNone(news, conn)
    ensures Answers(log + news, role, conn) == Answers(log, role, conn)
  {
    OccurrencesAdd(log, news, Granted(role, conn));
    OccurrencesAdd(log, news, Rejected(role, conn));
    NotThere(news, Granted(role, conn));
    NotThere(news, Rejected(role, conn));
  }

  lemma {:induction false} NotThere(news: seq<Event>, e: Event)
    requires e !in news
    ensures Occurrences(news, e) == 0
    decreases |news|
  {
    if news != [] { NotThere(news[..|news| - 1], e); }
  }

  ghost predicate NoFurtherRequest(steps: seq<Step>, conn: nat) {
    forall i :: 0 <= i < |steps| ==> !(steps[i].RetryRequest? && steps[i].conn == conn)
  }

  lemma {:induction false} RunForgets(s: Relay, steps: seq<Step>, s': Relay, role: Role, conn: nat)
    requires Inv(s) && Run(s, steps) == Some(s') && Forgotten(s, role, conn) && NoFurtherRequest(steps, conn)
    ensures Inv(s') && Forgotten(s', role, conn) && Answers(s'.log, role, conn) == Answers(s.log, role, conn)
    decreases |steps|
  {
    if steps != [] {
      var init, last := steps[..|steps| - 1], steps[|steps| - 1];
      var s1 := Run(s, init).value;
      RunForgets(s, init, s1, role, conn);
      hide Inv, Apply;
      RetryRelayStep(s1, last, s', role, conn);
    }
  }

  lemma RetryRelayStep(s: Relay, step: Step, s': Relay, role: Role, conn: nat)
    requires Inv(s) && Apply(s, step) == Some(s') && Forgotten(s, role, conn)
    requires !(step.RetryRequest? && step.conn == conn)
    ensures Inv(s') && Forgotten(s', role, conn) && Answers(s'.log, role, conn) == Answers(s.log, role, conn)
  {
    StepKeeps(s, step, s');
    StepLeavesAlone(s, step, s', conn);
    LogGrows(s, step, s');
    NoAnswer(s.log, News(s, step), role, conn);
    hide Inv, Apply, News;
  }

  /** A request decided before the other peer had joined stays open: until one of the two asks
      again for this connection no continuation grants or rejects it. */
  lemma EarlyRequestStaysOpen(s: Relay, role: Role, conn: nat, s1: Relay, steps: seq<Step>, s': Relay)
    requires Reachable(s) && s.alive && !BothIn(s) && PeerOf(s, role).hand == RetryWaiting(conn)
    requires Apply(s, HandlerGoesOn(role)) == Some(s1) && Run(s1, steps) == Some(s') && NoFurtherRequest(steps, conn)
    ensures conn in PeerOf(s', role).requested && !HasTimer(s', conn)
    ensures Answers(s'.log, role, conn) == Answers(s.log, role, conn)
  {
    ReachableInv(s);
    RetryRelayKeeps(s, role, s1);
    ForgottenAtOnce(s, role, conn, s1);
    hide Inv, Apply, Reachable;
    RunForgets(s1, steps, s', role, conn);
  }

  lemma RetryRelayKeeps(s: Relay, role: Role, s1: Relay)
    requires Inv(s) && Apply(s, HandlerGoesOn(role)) == Some(s1)
    ensures Inv(s1)
  {
    StepKeeps(s, HandlerGoesOn(role), s1);
  }

  lemma ForgottenAtOnce(s: Relay, role: Role, conn: nat, s1: Relay)
    requires Inv(s) && s.alive && !BothIn(s) && PeerOf(s, role).hand == RetryWaiting(conn)
    requires Apply(s, HandlerGoesOn(role)) == Some(s1)
    ensures Forgotten(s1, role, conn) && s1.log == s.log
  {
    NoTimerBeforeBoth(s, conn);
    assert PeerPresent(s, role) && PeerPresent(s, Other(role));
  }

  // ---------- retries of the history and of the list of tasks ----------

  /** How many retry tasks for this connection the session has started. */
  function Retries(tasks: seq<Task>, conn: nat): nat
    decreases |tasks|
  {
    if tasks == [] then 0
    else
      var t := tasks[|tasks| - 1];
      Retries(tasks[..|tasks| - 1], conn) + if t.retry && t.n == conn + 1 then 1 else 0
  }

  lemma RetriesAdd(tasks: seq<Task>, t: Task, conn: nat)
    ensures Retries(tasks + [t], conn) == Retries(tasks, conn) + if t.retry && t.n == conn + 1 then 1 else 0
  {
    assert (tasks + [t])[..|tasks|] == tasks;
  }

  lemma {:induction false} RetriesStay(tasks: seq<Task>, k: nat, t: Task, conn: nat)
    requires k < |tasks| && t.retry == tasks[k].retry && t.n == tasks[k].n
    ensures Retries(tasks[k := t], conn) == Retries(tasks, conn)
    decreases |tasks|
  {
    var init := tasks[..|tasks| - 1];
    if k < |init| {
      RetriesStay(init, k, t, conn);
      assert tasks[k := t][..|tasks| - 1] == init[k := t];
    } else {
      assert tasks[k := t][..|tasks| - 1] == init;
    }
  }

  lemma SectionKeepsKind(s: Relay, t: Task, now: real)
    requires TaskSection(s, t, now).Some?
    ensures var t' := TaskSection(s, t, now).value.1; t'.retry == t.retry && t'.n == t.n
  {
    hide Settle, ResultSeen;
  }

  lemma RetriesGrow(s: Relay, step: Step, s': Relay, conn: nat)
    requires Apply(s, step) == Some(s')
    ensures Retries(s'.tasks, conn) == Retries(s.tasks, conn) + Occurrences(News(s, step), RetryStarted(conn))
  {
    hide HandlerSection, HandlerNews, TaskSection, DecideTimeout, TimeoutNews, Receive, Retries;
    match step
    case HandlerGoesOn(role) => HandlerRetries(s, role, s', conn);
    case TaskGoesOn(k, now) =>
      SectionKeepsKind(s, s.tasks[k], now);
      RetriesStay(s.tasks, k, TaskSection(s, s.tasks[k], now).value.1, conn);
    case TaskFails(k) => RetriesStay(s.tasks, k, s.tasks[k].(pc := Ended, failed := true), conn);
    case StartCoordination(n) => RetriesAdd(s.tasks, Task(false, n, 0, Starting, [], false), conn);
    case TimerDecides(id) =>
      TimeoutStartsNothing(TimerOver(s, id), s.timers[id].conn, conn);
      TimeoutStartsNothing(s, s.timers[id].conn, conn);
    case RetryRequest(_, _) => assert s'.tasks == s.tasks by { ReceiptStartsNothing(s, step, s'); }
    case AddPorts(_, _) => assert s'.tasks == s.tasks by { ReceiptStartsNothing(s, step, s'); }
    case Ready(_, _) => assert s'.tasks == s.tasks by { ReceiptStartsNothing(s, step, s'); }
    case Report(_, _, _) => assert s'.tasks == s.tasks by { ReceiptStartsNothing(s, step, s'); }
    case _ =>
  }

  lemma ReceiptStartsNothing(s: Relay, step: Step, s': Relay)
    requires step.RetryRequest? || step.AddPorts? || step.Ready? || step.Report?
    requires Receive(s, step) == Some(s')
    ensures s'.tasks == s.tasks
  {
    var p := PeerOf(s, step.role);
    hide SetPeer;
    match step
    case RetryRequest(role, conn) =>
      PeerKeepsTasks(s, role, p.(requested := p.requested + {conn}, hand := RetryWaiting(conn)));
    case AddPorts(role, ports) => PeerKeepsTasks(s, role, p.(hand := PortsWaiting(ports)));
    case Ready(role, conn) => PeerKeepsTasks(s, role, p.(ready := p.ready + {conn}));
    case Report(role, conn, result) => PeerKeepsTasks(s, role, p.(hand := ResultWaiting(conn, result)));
  }

  lemma PeerKeepsTasks(s: Relay, role: Role, p: Peer)
    ensures SetPeer(s, role, p).tasks == s.tasks
  {
  }

  lemma TimeoutStartsNothing(s: Relay, c: nat, conn: nat)
    ensures DecideTimeout(s, c).tasks == s.tasks
    ensures Occurrences(TimeoutNews(s, c), RetryStarted(conn)) == 0
  {
    assert forall role: Role :: Reject(s, role, c).tasks == s.tasks;
    hide Reject;
    NotThere(TimeoutNews(s, c), RetryStarted(conn));
  }

  lemma PortsRetries(s: Relay, role: Role, ports: seq<nat>, conn: nat)
    requires ports != []
    ensures Retries(DecidePorts(s, role, ports).0.tasks, conn)
         == Retries(s.tasks, conn) + Occurrences(PortsNews(s, role), RetryStarted(conn))
  {
    PortsLogged(s, role, ports);
    var news := PortsNews(s, role);
    assert |news| <= 2 && (|news| == 2 ==> news[1].RetryStarted?) by { hide FirstOpen; }
    assert |news| >= 1 ==> news[0].PortsAccepted? by { hide FirstOpen; }
    hide DecidePorts, PortsNews;
    if |news| == 2 {
      NotThere(news[..1], RetryStarted(conn));
      RetriesAdd(s.tasks, RetryTask(news[1].conn), conn);
    } else {
      NotThere(news, RetryStarted(conn));
    }
  }

  lemma DecisionRetries(s: Relay, role: Role, c: nat, conn: nat)
    ensures DecideRetry(s, role, c).tasks == s.tasks
    ensures Occurrences(DecisionNews(s, c), RetryStarted(conn)) == 0
  {
    assert Grant(s, c).tasks == s.tasks by { hide PutPending, Cancelled; }
    hide Grant;
    NotThere(DecisionNews(s, c), RetryStarted(conn));
  }

  lemma HandlerRetries(s: Relay, role: Role, s': Relay, conn: nat)
    requires HandlerSection(s, role) == Some(s')
    ensures Retries(s'.tasks, conn) == Retries(s.tasks, conn) + Occurrences(HandlerNews(s, role), RetryStarted(conn))
  {
    hide DecidePorts, DecideRetry, PortsNews, DecisionNews, Retries, Occurrences;
    match PeerOf(s, role).hand
    case RetryWaiting(c) => DecisionRetries(s, role, c, conn);
    case PortsWaiting(ports) => PortsRetries(s, role, ports, conn);
    case _ => OtherHandlersStartNothing(s, role, s', conn);
  }

  lemma OtherHandlersStartNothing(s: Relay, role: Role, s': Relay, conn: nat)
    requires HandlerSection(s, role) == Some(s')
    requires PeerOf(s, role).hand.PortsTail? || PeerOf(s, role).hand.ResultWaiting?
    ensures s'.tasks == s.tasks && Occurrences(HandlerNews(s, role), RetryStarted(conn)) == 0
  {
    NotThere(HandlerNews(s, role), RetryStarted(conn));
  }

  ghost predicate RetriesTold(s: Relay) {
    forall c: nat :: Occurrences(s.log, RetryStarted(c)) == Retries(s.tasks, c)
  }

  lemma {:induction false} RunTellsRetries(s: Relay, steps: seq<Step>, s': Relay)
    requires RetriesTold(s) && Run(s, steps) == Some(s')
    ensures RetriesTold(s')
    decreases |steps|
  {
    if steps != [] {
      var init, last := steps[..|steps| - 1], steps[|steps| - 1];
      var s1 := Run(s, init).value;
      RunTellsRetries(s, init, s1);
      LogGrows(s1, last, s');
      forall c: nat ensures Occurrences(s'.log, RetryStarted(c)) == Retries(s'.tasks, c) {
        RetriesGrow(s1, last, s', c);
        OccurrencesAdd(s1.log, News(s1, last), RetryStarted(c));
      }
    }
  }

  /** The retries a run tells of are the retry tasks it has started, and for each connection
      there are no more of them than grants, a grant waiting for ports counted in. */
  lemma RetriesAreTasks(s: Relay, conn: nat)
    requires Reachable(s)
    ensures Occurrences(s.log, RetryStarted(conn)) == Retries(s.tasks, conn)
    ensures Retries(s.tasks, conn) + (if Find(s.retryPending, conn).Some? then 1 else 0)
         <= Occurrences(s.log, Granted(SenderRole, conn))
  {
    var s0, steps :| Init(s0) && Run(s0, steps) == Some(s);
    assert RetriesTold(s0);
    RunTellsRetries(s0, steps, s);
    StartsBounded(s, conn);
  }
}
