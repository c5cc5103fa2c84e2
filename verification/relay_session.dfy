/** One session of the relay: server/relay/handlers.py, server/relay/coordinator.py,
    server/models.py. The message handlers of the two peers, the timeout tasks, the
    coordination tasks and the retry tasks run between each other's `await`s and
    share one lock. A step is what one of them does from one `await` to the next;
    a section under the lock is one step, possible only while nobody holds it. */
module RelaySession {
  import opened Wrappers

  datatype Role = SenderRole | ReceiverRole

  function Other(role: Role): Role {
    if role.SenderRole? then ReceiverRole else SenderRole
  }

  datatype ConnResult = Established | Abandoned

  /** Where a peer's message handler stands. */
  datatype Handler =
    | Gone                                       // not registered, or disconnected
    | Free
    | RetryWaiting(conn: nat)                    // flag set, waiting for the lock
    | PortsWaiting(ports: seq<nat>)
    | PortsTail(ports: seq<nat>, mapped: bool)   // past the lock, notifying the other peer
    | ResultWaiting(conn: nat, result: ConnResult)

  datatype Peer = Peer(
    requested: set<nat>,             // retry_requested
    ready: set<nat>,                 // ready_for_connection
    results: map<nat, ConnResult>,   // conn_results
    bound: seq<nat>,                 // bound_ports
    hand: Handler)

  /** An entry of `retry_pending`: who has sent new ports since the grant. */
  datatype Pending = Pending(conn: nat, sender: bool, receiver: bool) {
    predicate Has(role: Role) {
      if role.SenderRole? then sender else receiver
    }

    function With(role: Role): Pending {
      if role.SenderRole? then this.(sender := true) else this.(receiver := true)
    }
  }

  /** A timeout task: asleep, awake and waiting for the lock, or over. */
  datatype Timer = Timer(conn: nat, pc: TimerPc)

  datatype TimerPc = Sleeping | Awake | Over

  /** A coordination task over `n` connections, or a retry task for one. `failed` is history:
      it gave up waiting, or an exception ended it. */
  datatype Task = Task(retry: bool, n: nat, conn: nat, pc: TaskPc, trace: seq<TaskEvent>, failed: bool)

  datatype TaskPc =
    | Starting | CheckResolved | ClearStale | InfoSender | InfoReceiver | WaitReady
    | GoSender(startAt: real) | GoReceiver(startAt: real) | ResetReady | WaitResult | Ended

  datatype TaskEvent =
    | StaleCleared(conn: nat, at: nat)   // `at` is the place of this section in the session's log
    | PeerInfoSent(role: Role, conn: nat)
    | BothReady(conn: nat)
    | GoSent(role: Role, conn: nat, startAt: real)
    | Resolved(conn: nat, sender: ConnResult, receiver: ConnResult)

  datatype Event =
    | Requested(role: Role, conn: nat)
    | Granted(role: Role, conn: nat)
    | Rejected(role: Role, conn: nat)
    | PortsAccepted(role: Role, conn: nat)
    | RetryStarted(conn: nat)
    | ReadyReceived(role: Role, conn: nat)
    | Reported(role: Role, conn: nat, result: ConnResult)
    | Recorded(role: Role, conn: nat, result: ConnResult)
    | Cleared(conn: nat)

  datatype Relay = Relay(
    alive: bool, senderIn: bool, receiverIn: bool, lockHeld: bool,
    sender: Peer, receiver: Peer,
    senderResults: map<nat, ConnResult>, receiverResults: map<nat, ConnResult>,
    retryPending: seq<Pending>, retryTasks: map<nat, nat>, timers: seq<Timer>,
    tasks: seq<Task>,
    log: seq<Event>, early: set<(Role, nat)>)   // history

  function PeerOf(s: Relay, role: Role): Peer {
    if role.SenderRole? then s.sender else s.receiver
  }

  function SetPeer(s: Relay, role: Role, p: Peer): (s': Relay)
    ensures PeerOf(s', role) == p && PeerOf(s', Other(role)) == PeerOf(s, Other(role))
  {
    if role.SenderRole? then s.(sender := p) else s.(receiver := p)
  }

  predicate In(s: Relay, role: Role) {
    if role.SenderRole? then s.senderIn else s.receiverIn
  }

  predicate BothIn(s: Relay) {
    s.senderIn && s.receiverIn
  }

  function ResultsOf(s: Relay, role: Role): map<nat, ConnResult> {
    if role.SenderRole? then s.senderResults else s.receiverResults
  }

  function SetResults(s: Relay, role: Role, m: map<nat, ConnResult>): Relay {
    if role.SenderRole? then s.(senderResults := m) else s.(receiverResults := m)
  }

  predicate BothRequested(s: Relay, conn: nat) {
    conn in s.sender.requested && conn in s.receiver.requested
  }

  predicate Live(t: Timer) {
    !t.pc.Over?
  }

  // ---------- retry requests ----------

  /** dict assignment: an existing key keeps its place, a new one goes to the end. */
  function PutPending(ps: seq<Pending>, p: Pending): (r: seq<Pending>)
    decreases |ps|
  {
    if ps == [] then [p]
    else if ps[0].conn == p.conn then [p] + ps[1..]
    else [ps[0]] + PutPending(ps[1..], p)
  }

  /** `cancel` on a task that is over does nothing. */
  function Cancelled(timers: seq<Timer>, tasks: map<nat, nat>, conn: nat): seq<Timer> {
    if conn in tasks && tasks[conn] < |timers| then timers[tasks[conn] := timers[tasks[conn]].(pc := Over)]
    else timers
  }

  function ClearRetry(p: Peer, conn: nat): Peer {
    p.(requested := p.requested - {conn}, ready := p.ready - {conn})
  }

  function Grant(s: Relay, conn: nat): Relay {
    s.(sender := ClearRetry(s.sender, conn), receiver := ClearRetry(s.receiver, conn),
       timers := Cancelled(s.timers, s.retryTasks, conn), retryTasks := s.retryTasks - {conn},
       retryPending := PutPending(s.retryPending, Pending(conn, false, false)),
       log := s.log + [Granted(SenderRole, conn), Granted(ReceiverRole, conn)])
  }

  function StartTimer(s: Relay, conn: nat): Relay {
    if conn in s.retryTasks then s
    else s.(timers := s.timers + [Timer(conn, Sleeping)], retryTasks := s.retryTasks[conn := |s.timers|])
  }

  /** The section of `handle_retry_request` under the lock. */
  function DecideRetry(s: Relay, role: Role, conn: nat): Relay {
    if !s.alive then s
    else if !BothIn(s) then s.(early := s.early + {(role, conn)})
    else if BothRequested(s, conn) then Grant(s, conn)
    else StartTimer(s, conn)
  }

  function Reject(s: Relay, role: Role, conn: nat): Relay {
    var p := PeerOf(s, role);
    SetPeer(s, role, p.(requested := p.requested - {conn})).(log := s.log + [Rejected(role, conn)])
  }

  /** The section of `retry_coordination_timeout` under the lock. */
  function DecideTimeout(s: Relay, conn: nat): Relay {
    if !s.alive || !BothIn(s) || BothRequested(s, conn) then s
    else
      var s1 := if conn in s.sender.requested then Reject(s, SenderRole, conn)
                else if conn in s.receiver.requested then Reject(s, ReceiverRole, conn)
                else s;
      s1.(retryTasks := s1.retryTasks - {conn})
  }

  // ---------- new ports for a retry ----------

  /** The first grant this role has not sent ports for yet. */
  function FirstOpen(ps: seq<Pending>, role: Role): (i: nat)
    ensures i <= |ps|
    ensures i < |ps| ==> !ps[i].Has(role)
    ensures forall k :: 0 <= k < i ==> ps[k].Has(role)
    decreases |ps|
  {
    if ps == [] || !ps[0].Has(role) then 0 else 1 + FirstOpen(ps[1..], role)
  }

  /** The new port takes the connection's slot; without such a slot it goes to the end. */
  function MapPort(bound: seq<nat>, conn: nat, port: nat): seq<nat> {
    if conn < |bound| then bound[conn := port] else bound + [port]
  }

  function Accept(s: Relay, role: Role, conn: nat, port: nat): Relay {
    var peer := PeerOf(s, role);
    SetPeer(s, role, peer.(bound := MapPort(peer.bound, conn, port))).(log := s.log + [PortsAccepted(role, conn)])
  }

  function RetryTask(conn: nat): Task {
    Task(true, conn + 1, conn, Starting, [], false)
  }

  /** The section of `handle_add_ports` under the lock. */
  function DecidePorts(s: Relay, role: Role, ports: seq<nat>): (r: (Relay, bool))
    requires ports != []
  {
    var i := FirstOpen(s.retryPending, role);
    if !s.alive || i == |s.retryPending| then (s, false)
    else
      var p := s.retryPending[i].With(role);
      var s1 := Accept(s, role, p.conn, ports[0]);
      if p.sender && p.receiver && BothIn(s) then
        (s1.(retryPending := s.retryPending[..i] + s.retryPending[i + 1..],
             tasks := s1.tasks + [RetryTask(p.conn)],
             log := s1.log + [RetryStarted(p.conn)]), true)
      else (s1.(retryPending := s.retryPending[i := p]), true)
  }

  // ---------- coordination ----------

  function ResultSeen(s: Relay, role: Role, conn: nat): Option<ConnResult> {
    if s.alive && conn in ResultsOf(s, role) then Some(ResultsOf(s, role)[conn])
    else if conn in PeerOf(s, role).results then Some(PeerOf(s, role).results[conn])
    else None
  }

  function NextConn(t: Task, e: TaskEvent): Task {
    t.(conn := t.conn + 1, trace := t.trace + [e], pc := if t.conn + 1 < t.n then CheckResolved else Ended)
  }

  function DropResult(m: map<nat, ConnResult>, conn: nat): map<nat, ConnResult> {
    m - {conn}
  }

  /** `wait_for_connection_result`: a peer's own record is copied into the session,
      and a peer no longer in the session counts as abandoned. */
  function Settle(s: Relay, role: Role, conn: nat): Relay {
    var m := ResultsOf(s, role);
    if conn in m then s
    else if In(s, role) then
      if conn in PeerOf(s, role).results then SetResults(s, role, m[conn := PeerOf(s, role).results[conn]]) else s
    else SetResults(s, role, m[conn := Abandoned])
  }

  /** One section of a task; `now` is the clock. None where it has to wait. */
  function TaskSection(s: Relay, t: Task, now: real): Option<(Relay, Task)> {
    match t.pc
    case Starting =>
      if s.lockHeld then None
      else if !s.alive || !BothIn(s) || t.n == 0 then Some((s, t.(pc := Ended)))
      else Some((s, t.(pc := if t.retry then InfoSender else CheckResolved)))
    case CheckResolved =>
      if s.lockHeld then None
      else
        var a, b := ResultSeen(s, SenderRole, t.conn), ResultSeen(s, ReceiverRole, t.conn);
        if a.Some? && b.Some? then Some((s, NextConn(t, Resolved(t.conn, a.value, b.value))))
        else if t.conn < |s.sender.bound| && t.conn < |s.receiver.bound| then Some((s, t.(pc := ClearStale)))
        else None
    case ClearStale =>
      if s.lockHeld then None
      else
        var s1 := s.(sender := s.sender.(results := DropResult(s.sender.results, t.conn)),
                     receiver := s.receiver.(results := DropResult(s.receiver.results, t.conn)),
                     log := s.log + [Cleared(t.conn)]);
        var s2 := if !s.alive then s1
                  else s1.(senderResults := DropResult(s.senderResults, t.conn),
                           receiverResults := DropResult(s.receiverResults, t.conn));
        Some((s2, t.(pc := InfoSender, trace := t.trace + [StaleCleared(t.conn, |s.log|)])))
    case InfoSender => Some((s, t.(pc := InfoReceiver, trace := t.trace + [PeerInfoSent(SenderRole, t.conn)])))
    case InfoReceiver => Some((s, t.(pc := WaitReady, trace := t.trace + [PeerInfoSent(ReceiverRole, t.conn)])))
    case WaitReady =>
      if s.lockHeld || t.conn !in s.sender.ready || t.conn !in s.receiver.ready then None
      else Some((s, t.(pc := GoSender(now), trace := t.trace + [BothReady(t.conn)])))
    case GoSender(at) =>
      Some((s, t.(pc := GoReceiver(at), trace := t.trace + [GoSent(SenderRole, t.conn, at)])))
    case GoReceiver(at) =>
      Some((s, t.(pc := ResetReady, trace := t.trace + [GoSent(ReceiverRole, t.conn, at)])))
    case ResetReady =>
      if s.lockHeld then None
      else
        var s1 := s.(sender := s.sender.(ready := s.sender.ready - {t.conn}),
                     receiver := s.receiver.(ready := s.receiver.ready - {t.conn}));
        Some((s1, t.(pc := if t.retry then Ended else WaitResult)))
    case WaitResult =>
      if s.lockHeld then None
      else if !s.alive then Some((s, t.(pc := Ended)))
      else
        var s1 := Settle(Settle(s, SenderRole, t.conn), ReceiverRole, t.conn);
        if t.conn in s1.senderResults && t.conn in s1.receiverResults then
          Some((s1, NextConn(t, Resolved(t.conn, s1.senderResults[t.conn], s1.receiverResults[t.conn]))))
        else Some((s1, t))
    case Ended => None
  }

  // ---------- steps ----------

  datatype Step =
    | Register(role: Role)
    | Disconnect(role: Role)
    | HoldLock            // a rejected second registration sends its error under the lock
    | ReleaseLock
    | RetryRequest(role: Role, conn: nat)
    | AddPorts(role: Role, ports: seq<nat>)
    | Ready(role: Role, conn: nat)
    | Report(role: Role, conn: nat, result: ConnResult)
    | HandlerGoesOn(role: Role)
    | TimerWakes(id: nat)
    | TimerDecides(id: nat)
    | StartCoordination(n: nat)
    | TaskGoesOn(k: nat, now: real)
    | TaskFails(k: nat)   // timeout, or an exception while sending

  function Receive(s: Relay, step: Step): Option<Relay>
    requires step.RetryRequest? || step.AddPorts? || step.Ready? || step.Report?
  {
    var p := PeerOf(s, step.role);
    if !p.hand.Free? then None
    else
      match step
      case RetryRequest(role, conn) =>
        Some(SetPeer(s, role, p.(requested := p.requested + {conn}, hand := RetryWaiting(conn)))
             .(log := s.log + [Requested(role, conn)]))
      case AddPorts(role, ports) =>
        Some(if ports == [] then s else SetPeer(s, role, p.(hand := PortsWaiting(ports))))
      case Ready(role, conn) =>
        Some(SetPeer(s, role, p.(ready := p.ready + {conn})).(log := s.log + [ReadyReceived(role, conn)]))
      case Report(role, conn, result) =>
        Some(SetPeer(s, role, p.(hand := ResultWaiting(conn, result))).(log := s.log + [Reported(role, conn, result)]))
  }

  function SetHand(s: Relay, role: Role, h: Handler): Relay {
    SetPeer(s, role, PeerOf(s, role).(hand := h))
  }

  function HandlerSection(s: Relay, role: Role): Option<Relay> {
    match PeerOf(s, role).hand
    case Gone => None
    case Free => None
    case RetryWaiting(conn) =>
      if s.lockHeld then None else Some(SetHand(DecideRetry(s, role, conn), role, Free))
    case PortsWaiting(ports) =>
      if s.lockHeld || ports == [] then None
      else
        var r := DecidePorts(s, role, ports);
        Some(SetHand(r.0, role, PortsTail(ports, r.1)))
    case PortsTail(ports, mapped) =>
      var p := PeerOf(s, role);
      Some(SetPeer(s, role, p.(hand := Free, bound := if mapped then p.bound else p.bound + ports)))
    case ResultWaiting(conn, result) =>
      if s.lockHeld then None
      else
        var p := PeerOf(s, role);
        var s1 := SetPeer(s, role, p.(hand := Free, results := p.results[conn := result]))
                  .(log := s.log + [Recorded(role, conn, result)]);
        Some(if s.alive then SetResults(s1, role, ResultsOf(s, role)[conn := result]) else s1)
  }

  function Apply(s: Relay, step: Step): Option<Relay> {
    match step
    case Register(role) =>
      if s.lockHeld || !s.alive || In(s, role) || !PeerOf(s, role).hand.Gone? then None
      else Some(SetHand(if role.SenderRole? then s.(senderIn := true) else s.(receiverIn := true), role, Free))
    case Disconnect(role) =>
      // cleanup_peer: both places emptied and the session removed in one section
      if s.lockHeld || !PeerOf(s, role).hand.Free? then None
      else Some(SetHand(if s.alive then s.(alive := false, senderIn := false, receiverIn := false) else s, role, Gone))
    case HoldLock => if s.lockHeld then None else Some(s.(lockHeld := true))
    case ReleaseLock => if !s.lockHeld then None else Some(s.(lockHeld := false))
    case RetryRequest(_, _) => Receive(s, step)
    case AddPorts(_, _) => Receive(s, step)
    case Ready(_, _) => Receive(s, step)
    case Report(_, _, _) => Receive(s, step)
    case HandlerGoesOn(role) => HandlerSection(s, role)
    case TimerWakes(id) =>
      if id >= |s.timers| || !s.timers[id].pc.Sleeping? then None
      else Some(s.(timers := s.timers[id := s.timers[id].(pc := Awake)]))
    case TimerDecides(id) =>
      if id >= |s.timers| || !s.timers[id].pc.Awake? || s.lockHeld then None
      else
        var conn := s.timers[id].conn;
        Some(DecideTimeout(s.(timers := s.timers[id := Timer(conn, Over)]), conn))
    case StartCoordination(n) =>
      // handle_probes_complete, once both peers are in
      if s.lockHeld || !s.alive || !BothIn(s) then None
      else Some(s.(tasks := s.tasks + [Task(false, n, 0, Starting, [], false)]))
    case TaskGoesOn(k, now) =>
      if k >= |s.tasks| then None
      else (
        match TaskSection(s, s.tasks[k], now)
        case None => None
        case Some(r) => Some(r.0.(tasks := s.tasks[k := r.1])))
    case TaskFails(k) =>
      if k >= |s.tasks| || s.tasks[k].pc.Ended? then None
      else Some(s.(tasks := s.tasks[k := s.tasks[k].(pc := Ended, failed := true)]))
  }

  const NEW_PEER: Peer := Peer({}, {}, map[], [], Gone)

  /** A fresh session; the peers may bring ports along when they register. */
  predicate Init(s: Relay) {
    && s.alive && !s.senderIn && !s.receiverIn && !s.lockHeld
    && s.sender == NEW_PEER.(bound := s.sender.bound) && s.receiver == NEW_PEER.(bound := s.receiver.bound)
    && s.senderResults == map[] && s.receiverResults == map[]
    && s.retryPending == [] && s.retryTasks == map[] && s.timers == [] && s.tasks == []
    && s.log == [] && s.early == {}
  }

  function Run(s: Relay, steps: seq<Step>): Option<Relay> {
    if steps == [] then Some(s)
    else
      match Run(s, steps[..|steps| - 1])
      case None => None
      case Some(s1) => Apply(s1, steps[|steps| - 1])
  }

  ghost predicate Reachable(s: Relay) {
    exists s0: Relay, steps: seq<Step> :: Init(s0) && Run(s0, steps) == Some(s)
  }
}
