/** The sections that run under a session's lock, as the handlers and tasks execute
    them: they look at and assign the fields of the session and of its peers one by
    one. Each is proved to be the step of `RelaySession` that stands for it. */
module RelayHandlers {
  import opened Wrappers
  import opened RelaySession

  /** The part of a peer that the sections touch. */
  class PeerRecord {
    var requested: set<nat>
    var ready: set<nat>
    var results: map<nat, ConnResult>
    var bound: seq<nat>
    ghost var hand: Handler

    ghost function View(): Peer
      reads this
    {
      Peer(requested, ready, results, bound, hand)
    }

    constructor (ports: seq<nat>)
      ensures View() == NEW_PEER.(bound := ports)
    {
      requested, ready, results, bound, hand := {}, {}, map[], ports, Gone;
    }

    method ForgetRetry(conn: nat)
      modifies this
      ensures View() == ClearRetry(old(View()), conn)
    {
      requested := requested - {conn};
      ready := ready - {conn};
    }

    method TakePort(conn: nat, port: nat)
      modifies this`bound
      ensures bound == MapPort(old(bound), conn, port)
    {
      if conn < |bound| {
        bound := bound[conn := port];
      } else {
        bound := bound + [port];
      }
    }
  }

  class SessionRecord {
    const sender: PeerRecord
    const receiver: PeerRecord
    var alive: bool         // still listed in `sessions`
    var senderIn: bool
    var receiverIn: bool
    var senderResults: map<nat, ConnResult>
    var receiverResults: map<nat, ConnResult>
    var retryPending: seq<Pending>
    var retryTasks: map<nat, nat>
    var timers: seq<Timer>
    var tasks: seq<Task>
    ghost var lockHeld: bool
    ghost var log: seq<Event>
    ghost var early: set<(Role, nat)>

    ghost function View(): Relay
      reads this, sender, receiver
    {
      Relay(alive, senderIn, receiverIn, lockHeld, sender.View(), receiver.View(), senderResults, receiverResults,
            retryPending, retryTasks, timers, tasks, log, early)
    }

    constructor (s: PeerRecord, r: PeerRecord)
      requires s != r && s.View() == NEW_PEER.(bound := s.bound) && r.View() == NEW_PEER.(bound := r.bound)
      ensures sender == s && receiver == r && Init(View())
    {
      sender, receiver := s, r;
      alive, senderIn, receiverIn := true, false, false;
      senderResults, receiverResults := map[], map[];
      retryPending, retryTasks, timers, tasks := [], map[], [], [];
      lockHeld, log, early := false, [], {};
    }

    function Of(role: Role): PeerRecord {
      if role.SenderRole? then sender else receiver
    }

    /** `retry_pending[conn] = {...}`. */
    method PutRetry(conn: nat)
      modifies this`retryPending
      ensures retryPending == PutPending(old(retryPending), Pending(conn, false, false))
    {
      var p := Pending(conn, false, false);
      var i := 0;
      while i < |retryPending| && retryPending[i].conn != conn
        invariant i <= |retryPending| && retryPending == old(retryPending)
        invariant forall k :: 0 <= k < i ==> retryPending[k].conn != conn
      {
        i := i + 1;
      }
      PutAt(retryPending, i, p);
      retryPending := if i < |retryPending| then retryPending[i := p] else retryPending + [p];
    }

    /** `retry_tasks.pop(conn)`, and `cancel` on what was there. */
    method CancelTimer(conn: nat)
      modifies this`timers, this`retryTasks
      ensures timers == Cancelled(old(timers), old(retryTasks), conn) && retryTasks == old(retryTasks) - {conn}
    {
      if conn in retryTasks && retryTasks[conn] < |timers| {
        timers := timers[retryTasks[conn] := timers[retryTasks[conn]].(pc := Over)];
      }
      retryTasks := retryTasks - {conn};
    }

    /** The part of `handle_retry_request` where both want the retry. */
    method GrantBoth(conn: nat) returns (told: seq<Role>)
      requires sender != receiver
      modifies this, sender, receiver
      ensures View() == Grant(old(View()), conn) && told == [SenderRole, ReceiverRole]
    {
      hide PutPending, Cancelled;
      CancelTimer(conn);
      told := [SenderRole] + [ReceiverRole];
      log := log + [Granted(SenderRole, conn), Granted(ReceiverRole, conn)];
      sender.ForgetRetry(conn);
      receiver.ForgetRetry(conn);
      PutRetry(conn);
    }

    /** `handle_retry_request`: whom to tell that the retry is granted. */
    method DecideRetryRequest(role: Role, conn: nat) returns (told: seq<Role>)
      requires sender != receiver
      modifies this, sender, receiver
      ensures View() == DecideRetry(old(View()), role, conn)
      ensures told == if old(alive) && BothIn(old(View())) && BothRequested(old(View()), conn)
                      then [SenderRole, ReceiverRole] else []
    {
      hide Grant;
      told := [];
      if !alive { return; }
      if !senderIn || !receiverIn {
        early := early + {(role, conn)};
        return;
      }
      if conn in sender.requested && conn in receiver.requested {
        told := GrantBoth(conn);
      } else if conn !in retryTasks {
        retryTasks := retryTasks[conn := |timers|];
        timers := timers + [Timer(conn, Sleeping)];
      }
    }

    /** `retry_coordination_timeout` after its sleep: whose request is rejected. */
    method DecideRetryTimeout(conn: nat) returns (rejected: Option<Role>)
      requires sender != receiver
      modifies this, sender, receiver
      ensures View() == DecideTimeout(old(View()), conn)
      ensures rejected == None ==> log == old(log)
      ensures rejected.Some? ==> log == old(log) + [Rejected(rejected.value, conn)]
    {
      rejected := None;
      if !alive || !senderIn || !receiverIn { return; }
      var senderWaits, receiverWaits := conn in sender.requested, conn in receiver.requested;
      if senderWaits && receiverWaits { return; }
      if senderWaits {
        rejected := Some(SenderRole);
        sender.requested := sender.requested - {conn};
        log := log + [Rejected(SenderRole, conn)];
      } else if receiverWaits {
        rejected := Some(ReceiverRole);
        receiver.requested := receiver.requested - {conn};
        log := log + [Rejected(ReceiverRole, conn)];
      }
      retryTasks := retryTasks - {conn};
    }

    /** The loop over `retry_pending`, up to its `break`. */
    method LookForOpen(role: Role) returns (i: nat)
      ensures i == FirstOpen(retryPending, role)
    {
      i := 0;
      while i < |retryPending| && retryPending[i].Has(role)
        invariant i <= |retryPending|
        invariant FirstOpen(retryPending, role) == i + FirstOpen(retryPending[i..], role)
      {
        i := i + 1;
      }
    }

    /** `handle_add_ports`: take the first port for the first grant still without one of
        this role, and start the retry once both have sent theirs. */
    method TakePorts(role: Role, ports: seq<nat>) returns (mapped: bool)
      requires sender != receiver && ports != []
      modifies this, sender, receiver
      ensures (View(), mapped) == DecidePorts(old(View()), role, ports)
    {
      hide FirstOpen, MapPort;
      mapped := false;
      if !alive { return; }
      var i := LookForOpen(role);
      if i < |retryPending| {
        var p := retryPending[i].With(role);
        var peer := Of(role);
        peer.TakePort(p.conn, ports[0]);
        mapped := true;
        log := log + [PortsAccepted(role, p.conn)];
        if senderIn && receiverIn && p.sender && p.receiver {
          tasks := tasks + [RetryTask(p.conn)];
          log := log + [RetryStarted(p.conn)];
          retryPending := retryPending[..i] + retryPending[i + 1..];
        } else {
          retryPending := retryPending[i := p];
        }
      }
    }

    /** The end of `handle_add_ports`, past the lock: ports that replaced none are appended. */
    method FinishPorts(role: Role, ports: seq<nat>, mapped: bool)
      requires sender != receiver && Of(role).hand == PortsTail(ports, mapped)
      modifies sender, receiver
      ensures HandlerSection(old(View()), role) == Some(View())
    {
      var peer := Of(role);
      if !mapped {
        peer.bound := peer.bound + ports;
      }
      peer.hand := Free;
    }

    /** `handle_conn_result`. */
    method TakeResult(role: Role, conn: nat, result: ConnResult)
      requires sender != receiver && Of(role).hand == ResultWaiting(conn, result)
      modifies this, sender, receiver
      ensures !old(lockHeld) ==> HandlerSection(old(View()), role) == Some(View())
    {
      var peer := Of(role);
      peer.results := peer.results[conn := result];
      peer.hand := Free;
      log := log + [Recorded(role, conn, result)];
      if alive {
        if role.SenderRole? {
          senderResults := senderResults[conn := result];
        } else {
          receiverResults := receiverResults[conn := result];
        }
      }
    }

    /** One round of `wait_for_connection_result`. */
    method LookForResults(conn: nat) returns (found: Option<(ConnResult, ConnResult)>)
      requires sender != receiver && alive
      modifies this
      ensures View() == Settle(Settle(old(View()), SenderRole, conn), ReceiverRole, conn)
      ensures found == if conn in senderResults && conn in receiverResults
                       then Some((senderResults[conn], receiverResults[conn])) else None
    {
      if senderIn && conn !in senderResults {
        if conn in sender.results { senderResults := senderResults[conn := sender.results[conn]]; }
      }
      if receiverIn && conn !in receiverResults {
        if conn in receiver.results { receiverResults := receiverResults[conn := receiver.results[conn]]; }
      }
      if conn in senderResults && conn in receiverResults {
        return Some((senderResults[conn], receiverResults[conn]));
      }
      if !senderIn && conn !in senderResults { senderResults := senderResults[conn := Abandoned]; }
      if !receiverIn && conn !in receiverResults { receiverResults := receiverResults[conn := Abandoned]; }
      if conn in senderResults && conn in receiverResults {
        return Some((senderResults[conn], receiverResults[conn]));
      }
      return None;
    }
  }

  lemma {:induction false} PutAt(ps: seq<Pending>, i: nat, p: Pending)
    requires i <= |ps| && (forall k :: 0 <= k < i ==> ps[k].conn != p.conn) && (i < |ps| ==> ps[i].conn == p.conn)
    ensures PutPending(ps, p) == if i < |ps| then ps[i := p] else ps + [p]
    decreases |ps|
  {
    if i > 0 { PutAt(ps[1..], i - 1, p); }
  }
}
