/** What one coordination task sends, over any run of the relay
    (server/relay/coordinator.py): the order of its messages, the GO of a connection,
    and the results it goes by. */
module RelayCoordination {
  import opened Wrappers
  import opened RelaySession

  // ---------- the promised order ----------

  datatype Stage = Idle | Clean | InfoHalf | InfoSent | ReadySeen | GoHalf(startAt: real) | GoneOff

  datatype Phase = Phase(conn: nat, stage: Stage)

  function NextPhase(p: Phase, e: TaskEvent): Phase {
    match e
    case StaleCleared(_, _) => p.(stage := Clean)
    case PeerInfoSent(role, _) => p.(stage := if role.SenderRole? then InfoHalf else InfoSent)
    case BothReady(_) => p.(stage := ReadySeen)
    case GoSent(role, _, at) => p.(stage := if role.SenderRole? then GoHalf(at) else GoneOff)
    case Resolved(_, _, _) => Phase(p.conn + 1, Idle)
  }

  /** A retry task runs one connection, clears no results and does not wait for one. */
  predicate MayFollow(retry: bool, p: Phase, e: TaskEvent) {
    && e.conn == p.conn
    && match e
       case StaleCleared(_, _) => !retry && p.stage.Idle?
       case PeerInfoSent(role, _) =>
         if role.ReceiverRole? then p.stage.InfoHalf? else if retry then p.stage.Idle? else p.stage.Clean?
       case BothReady(_) => p.stage.InfoSent?
       case GoSent(role, _, at) => if role.SenderRole? then p.stage.ReadySeen? else p.stage == GoHalf(at)
       case Resolved(_, _, _) => !retry && (p.stage.Idle? || p.stage.GoneOff?)
  }

  function PhaseAfter(first: nat, trace: seq<TaskEvent>): Phase
    decreases |trace|
  {
    if trace == [] then Phase(first, Idle)
    else NextPhase(PhaseAfter(first, trace[..|trace| - 1]), trace[|trace| - 1])
  }

  predicate LegalTrace(retry: bool, first: nat, trace: seq<TaskEvent>)
    decreases |trace|
  {
    trace == [] ||
    (LegalTrace(retry, first, trace[..|trace| - 1]) &&
     MayFollow(retry, PhaseAfter(first, trace[..|trace| - 1]), trace[|trace| - 1]))
  }

  lemma {:induction false} PrefixLegal(retry: bool, first: nat, trace: seq<TaskEvent>, i: nat)
    requires LegalTrace(retry, first, trace) && i <= |trace|
    ensures LegalTrace(retry, first, trace[..i])
    decreases |trace|
  {
    if i < |trace| {
      PrefixLegal(retry, first, trace[..|trace| - 1], i);
      assert trace[..|trace| - 1][..i] == trace[..i];
    } else {
      assert trace[..i] == trace;
    }
  }

  /** The sender's GO follows directly on the section that saw both peers ready. */
  lemma GoNeedsReady(retry: bool, first: nat, trace: seq<TaskEvent>, i: nat)
    requires LegalTrace(retry, first, trace) && i < |trace| && trace[i].GoSent? && trace[i].role.SenderRole?
    ensures i >= 1 && trace[i - 1] == BothReady(trace[i].conn)
  {
    PrefixLegal(retry, first, trace, i + 1);
    assert trace[..i + 1][..i] == trace[..i];
    if i >= 1 { assert trace[..i][..i - 1] == trace[..i - 1]; }
  }

  /** The receiver's GO follows directly on the sender's, with the same start time, and
      that directly on `BothReady`. */
  lemma GoIsPaired(retry: bool, first: nat, trace: seq<TaskEvent>, i: nat)
    requires LegalTrace(retry, first, trace) && i < |trace| && trace[i].GoSent? && trace[i].role.ReceiverRole?
    ensures i >= 2
    ensures trace[i - 1] == GoSent(SenderRole, trace[i].conn, trace[i].startAt)
    ensures trace[i - 2] == BothReady(trace[i].conn)
  {
    PrefixLegal(retry, first, trace, i + 1);
    assert trace[..i + 1][..i] == trace[..i];
    if i >= 1 {
      assert trace[..i][..i - 1] == trace[..i - 1];
      GoNeedsReady(retry, first, trace, i - 1);
    }
  }

  function Rank(p: Phase): nat {
    p.conn * 7 + match p.stage
                 case Idle => 0
                 case Clean => 1
                 case InfoHalf => 2
                 case InfoSent => 3
                 case ReadySeen => 4
                 case GoHalf(_) => 5
                 case GoneOff => 6
  }

  lemma {:induction false} RankGrows(retry: bool, first: nat, trace: seq<TaskEvent>, i: nat)
    requires LegalTrace(retry, first, trace) && i < |trace|
    ensures Rank(PhaseAfter(first, trace[..i])) < Rank(PhaseAfter(first, trace))
    decreases |trace|
  {
    var prefix := trace[..|trace| - 1];
    assert Rank(PhaseAfter(first, prefix)) < Rank(PhaseAfter(first, trace));
    if i < |prefix| {
      assert prefix[..i] == trace[..i];
      RankGrows(retry, first, prefix, i);
    } else {
      assert trace[..i] == prefix;
    }
  }

  /** No task sends the same role GO, or peer information, twice for a connection. */
  lemma SentOnce(retry: bool, first: nat, trace: seq<TaskEvent>, i: nat, j: nat)
    requires LegalTrace(retry, first, trace) && i < j < |trace|
    requires trace[i].GoSent? || trace[i].PeerInfoSent?
    ensures trace[j].GoSent? && trace[i].GoSent? && trace[j].role == trace[i].role ==> trace[j].conn > trace[i].conn
    ensures trace[j].PeerInfoSent? && trace[i].PeerInfoSent? && trace[j].role == trace[i].role
        ==> trace[j].conn > trace[i].conn
  {
    PrefixLegal(retry, first, trace, i + 1);
    PrefixLegal(retry, first, trace, j + 1);
    assert trace[..i + 1][..i] == trace[..i];
    assert trace[..j + 1][..j] == trace[..j];
    assert trace[..j + 1][..i + 1] == trace[..i + 1];
    RankGrows(retry, first, trace[..j + 1], i + 1);
  }

  /** Peer information for a later connection only after the one before was resolved. */
  lemma InfoNeedsResult(retry: bool, first: nat, trace: seq<TaskEvent>, i: nat)
    requires LegalTrace(retry, first, trace) && i < |trace| && trace[i].PeerInfoSent? && trace[i].conn > first
    ensures exists j :: 0 <= j < i && trace[j].Resolved? && trace[j].conn == trace[i].conn - 1
  {
    PrefixLegal(retry, first, trace, i + 1);
    assert trace[..i + 1][..i] == trace[..i];
    var j := LaterNeedsResult(retry, first, trace[..i]);
    assert trace[..i][j] == trace[j];
  }

  lemma {:induction false} LaterNeedsResult(retry: bool, first: nat, trace: seq<TaskEvent>) returns (j: nat)
    requires LegalTrace(retry, first, trace) && PhaseAfter(first, trace).conn > first
    ensures j < |trace| && trace[j].Resolved? && trace[j].conn == PhaseAfter(first, trace).conn - 1
    decreases |trace|
  {
    j := |trace| - 1;
    if !trace[j].Resolved? { j := LaterNeedsResult(retry, first, trace[..j]); }
  }

  /** Before its GO for a connection a coordination task has cleared the older results for it. */
  lemma {:induction false} InfoNeedsClearing(first: nat, trace: seq<TaskEvent>) returns (h: nat)
    requires LegalTrace(false, first, trace) && !PhaseAfter(first, trace).stage.Idle?
    ensures h < |trace| && trace[h].StaleCleared? && trace[h].conn == PhaseAfter(first, trace).conn
    decreases |trace|
  {
    h := |trace| - 1;
    if !trace[h].StaleCleared? { h := InfoNeedsClearing(first, trace[..h]); }
  }

  lemma GoNeedsClearing(retry: bool, first: nat, trace: seq<TaskEvent>, i: nat, j: nat) returns (h: nat)
    requires LegalTrace(retry, first, trace) && i < j < |trace| && trace[i].GoSent? && trace[j].Resolved?
    ensures h < i && trace[h].StaleCleared? && trace[h].conn == trace[i].conn
  {
    PrefixLegal(retry, first, trace, j + 1);
    assert trace[..j + 1][..j] == trace[..j];
    PrefixLegal(retry, first, trace, i + 1);
    assert trace[..i + 1][..i] == trace[..i];
    h := InfoNeedsClearing(first, trace[..i]);
    assert trace[..i][h] == trace[h];
  }

  // ---------- a task keeps to it ----------

  function First(t: Task): nat
    requires t.n > 0 || !t.retry
  {
    if t.retry then t.n - 1 else 0
  }

  predicate StandsAt(t: Task, p: Phase) {
    match t.pc
    case Starting => p == Phase(t.conn, Idle)
    case CheckResolved => p == Phase(t.conn, Idle) && !t.retry
    case ClearStale => p == Phase(t.conn, Idle) && !t.retry
    case InfoSender => p == Phase(t.conn, if t.retry then Idle else Clean)
    case InfoReceiver => p == Phase(t.conn, InfoHalf)
    case WaitReady => p == Phase(t.conn, InfoSent)
    case GoSender(_) => p == Phase(t.conn, ReadySeen)
    case GoReceiver(at) => p == Phase(t.conn, GoHalf(at))
    case ResetReady => p == Phase(t.conn, GoneOff)
    case WaitResult => p == Phase(t.conn, GoneOff) && !t.retry
    case Ended => true
  }

  /** Where the task stands in its trace. */
  predicate Stands(t: Task) {
    && (t.retry ==> t.pc.Ended? || t.n == t.conn + 1) && (t.retry ==> t.n > 0)
    && LegalTrace(t.retry, First(t), t.trace)
    && StandsAt(t, PhaseAfter(First(t), t.trace))
  }

  lemma OneMore(retry: bool, first: nat, trace: seq<TaskEvent>, e: TaskEvent)
    ensures PhaseAfter(first, trace + [e]) == NextPhase(PhaseAfter(first, trace), e)
    ensures LegalTrace(retry, first, trace + [e])
        <==> LegalTrace(retry, first, trace) && MayFollow(retry, PhaseAfter(first, trace), e)
  {
    assert (trace + [e])[..|trace|] == trace;
  }

  lemma Extended(t: Task, e: TaskEvent, t': Task)
    requires Stands(t) && !t.pc.Ended? && MayFollow(t.retry, PhaseAfter(First(t), t.trace), e)
    requires t'.retry == t.retry && t'.n == t.n && t'.trace == t.trace + [e]
    requires t.retry ==> t'.conn == t.conn
    requires StandsAt(t', NextPhase(PhaseAfter(First(t), t.trace), e))
    ensures Stands(t')
  {
    OneMore(t.retry, First(t), t.trace, e);
  }

  lemma SectionStands(s: Relay, t: Task, now: real)
    requires Stands(t) && TaskSection(s, t, now).Some?
    ensures Stands(TaskSection(s, t, now).value.1)
  {
    hide Settle, LegalTrace, PhaseAfter, ResultSeen, Stands;
    var t' := TaskSection(s, t, now).value.1;
    StandsMeans(t);
    match t.pc
    case CheckResolved =>
      var a, b := ResultSeen(s, SenderRole, t.conn), ResultSeen(s, ReceiverRole, t.conn);
      if a.Some? && b.Some? { Extended(t, Resolved(t.conn, a.value, b.value), t'); } else { MovedOn(t, t'); }
    case InfoSender => Extended(t, PeerInfoSent(SenderRole, t.conn), t');
    case InfoReceiver => Extended(t, PeerInfoSent(ReceiverRole, t.conn), t');
    case WaitReady => Extended(t, BothReady(t.conn), t');
    case GoSender(at) => Extended(t, GoSent(SenderRole, t.conn, at), t');
    case GoReceiver(at) => Extended(t, GoSent(ReceiverRole, t.conn, at), t');
    case WaitResult =>
      var s1 := Settle(Settle(s, SenderRole, t.conn), ReceiverRole, t.conn);
      if s.alive && t.conn in s1.senderResults && t.conn in s1.receiverResults {
        Extended(t, Resolved(t.conn, s1.senderResults[t.conn], s1.receiverResults[t.conn]), t');
      } else {
        MovedOn(t, t');
      }
    case Starting => MovedOn(t, t');
    case ClearStale => Extended(t, StaleCleared(t.conn, |s.log|), t');
    case ResetReady => MovedOn(t, t');
    case Ended =>
  }

  lemma StandsMeans(t: Task)
    requires Stands(t)
    ensures (t.retry ==> t.pc.Ended? || t.n == t.conn + 1) && (t.retry ==> t.n > 0)
    ensures StandsAt(t, PhaseAfter(First(t), t.trace))
  {
  }

  lemma MovedOn(t: Task, t': Task)
    requires Stands(t) && t'.retry == t.retry && t'.n == t.n && t'.conn == t.conn && t'.trace == t.trace
    requires StandsAt(t, PhaseAfter(First(t), t.trace)) ==> StandsAt(t', PhaseAfter(First(t), t.trace))
    requires t.pc.Ended? ==> t'.pc.Ended?
    ensures Stands(t')
  {
  }

  // ---------- the invariant ----------

  predicate Running(t: Task) {
    !t.pc.Starting? && !t.pc.Ended?
  }

  ghost predicate TasksStand(s: Relay) {
    forall k :: 0 <= k < |s.tasks| ==> Stands(s.tasks[k]) && (s.alive && Running(s.tasks[k]) ==> BothIn(s))
  }

  /** The peer has reported this result. */
  predicate Told(log: seq<Event>, role: Role, conn: nat, result: ConnResult) {
    Reported(role, conn, result) in log
  }

  ghost predicate MapTold(log: seq<Event>, role: Role, m: map<nat, ConnResult>) {
    forall c :: c in m ==> Told(log, role, c, m[c])
  }

  ghost predicate PeerTold(log: seq<Event>, role: Role, p: Peer) {
    && MapTold(log, role, p.results)
    && (p.hand.ResultWaiting? ==> Told(log, role, p.hand.conn, p.hand.result))
  }

  ghost predicate ResultsTold(s: Relay) {
    && PeerTold(s.log, SenderRole, s.sender) && PeerTold(s.log, ReceiverRole, s.receiver)
    && MapTold(s.log, SenderRole, s.senderResults) && MapTold(s.log, ReceiverRole, s.receiverResults)
  }

  /** This result is the last thing recorded for the peer since the latest clearing. */
  predicate FreshRecord(log: seq<Event>, role: Role, conn: nat, result: ConnResult)
    decreases |log|
  {
    log != [] &&
    var e := log[|log| - 1];
    (e == Recorded(role, conn, result) || (e != Cleared(conn) && FreshRecord(log[..|log| - 1], role, conn, result)))
  }

  ghost predicate MapFresh(log: seq<Event>, role: Role, m: map<nat, ConnResult>) {
    forall c :: c in m ==> FreshRecord(log, role, c, m[c])
  }

  ghost predicate ResultsFresh(s: Relay) {
    && MapFresh(s.log, SenderRole, s.sender.results) && MapFresh(s.log, ReceiverRole, s.receiver.results)
    && (s.alive ==> MapFresh(s.log, SenderRole, s.senderResults) && MapFresh(s.log, ReceiverRole, s.receiverResults))
  }

  ghost predicate RecordedAfter(log: seq<Event>, at: nat, role: Role, conn: nat, result: ConnResult) {
    exists k :: at < k < |log| && log[k] == Recorded(role, conn, result)
  }

  ghost predicate BothTold(log: seq<Event>, e: TaskEvent)
    requires e.Resolved?
  {
    Told(log, SenderRole, e.conn, e.sender) && Told(log, ReceiverRole, e.conn, e.receiver)
  }

  ghost predicate BothAfter(log: seq<Event>, at: nat, e: TaskEvent)
    requires e.Resolved?
  {
    RecordedAfter(log, at, SenderRole, e.conn, e.sender) && RecordedAfter(log, at, ReceiverRole, e.conn, e.receiver)
  }

  /** What a task resolved was told, and recorded after it had cleared older results. */
  ghost predicate TraceTold(log: seq<Event>, trace: seq<TaskEvent>) {
    && (forall i :: 0 <= i < |trace| && trace[i].Resolved? ==> BothTold(log, trace[i]))
    && (forall i :: 0 <= i < |trace| && trace[i].StaleCleared? ==>
          trace[i].at < |log| && log[trace[i].at] == Cleared(trace[i].conn))
    && (forall i, j :: 0 <= i < j < |trace| && trace[i].StaleCleared? && trace[j].Resolved? ==>
          trace[i].conn == trace[j].conn ==> BothAfter(log, trace[i].at, trace[j]))
  }

  ghost predicate TracesTold(s: Relay) {
    forall k :: 0 <= k < |s.tasks| ==> TraceTold(s.log, s.tasks[k].trace)
  }

  /** The peer has said it is ready since the last grant for this connection. */
  predicate FreshReady(log: seq<Event>, role: Role, conn: nat)
    decreases |log|
  {
    log != [] &&
    var e := log[|log| - 1];
    (e == ReadyReceived(role, conn) || (e != Granted(role, conn) && FreshReady(log[..|log| - 1], role, conn)))
  }

  ghost predicate ReadyFresh(s: Relay) {
    forall role: Role, c :: c in PeerOf(s, role).ready ==> FreshReady(s.log, role, c)
  }

  ghost predicate Inv(s: Relay) {
    TasksStand(s) && ResultsTold(s) && ResultsFresh(s) && TracesTold(s) && ReadyFresh(s)
  }

  // ---------- steps that add nothing ----------

  lemma MoreTold(log: seq<Event>, more: seq<Event>)
    ensures forall role, c, v :: Told(log, role, c, v) ==> Told(log + more, role, c, v)
    ensures forall role, m :: MapTold(log, role, m) ==> MapTold(log + more, role, m)
    ensures forall trace :: TraceTold(log, trace) ==> TraceTold(log + more, trace)
  {
    forall role, c, v | Told(log, role, c, v) ensures Told(log + more, role, c, v) {
      var i :| 0 <= i < |log| && log[i] == Reported(role, c, v);
      assert (log + more)[i] == Reported(role, c, v);
    }
    forall role, m | MapTold(log, role, m) ensures MapTold(log + more, role, m) {
      assert forall c :: c in m ==> Told(log, role, c, m[c]);
    }
    forall trace | TraceTold(log, trace) ensures TraceTold(log + more, trace) { MoreTraceTold(log, more, trace); }
  }

  lemma MoreTraceTold(log: seq<Event>, more: seq<Event>, trace: seq<TaskEvent>)
    requires TraceTold(log, trace)
    ensures TraceTold(log + more, trace)
  {
    forall role, c, v | Told(log, role, c, v) ensures Told(log + more, role, c, v) {
      var i :| 0 <= i < |log| && log[i] == Reported(role, c, v);
      assert (log + more)[i] == Reported(role, c, v);
    }
    forall at: nat, role, c, v | RecordedAfter(log, at, role, c, v) ensures RecordedAfter(log + more, at, role, c, v) {
      var k :| at < k < |log| && log[k] == Recorded(role, c, v);
      assert (log + more)[k] == Recorded(role, c, v);
    }
    hide Told, RecordedAfter;
  }

  lemma {:induction false} RecordIsAfter(log: seq<Event>, at: nat, role: Role, conn: nat, result: ConnResult)
    requires FreshRecord(log, role, conn, result) && at < |log| && log[at] == Cleared(conn)
    ensures RecordedAfter(log, at, role, conn, result)
    decreases |log|
  {
    var last := |log| - 1;
    if log[last] != Recorded(role, conn, result) {
      RecordIsAfter(log[..last], at, role, conn, result);
      var k :| at < k < last && log[..last][k] == Recorded(role, conn, result);
      assert log[k] == Recorded(role, conn, result);
    }
  }

  /** What a task resolves with is fresh, so it was recorded after the task's own clearing. */
  lemma ResolvedTold(log: seq<Event>, trace: seq<TaskEvent>, e: TaskEvent)
    requires TraceTold(log, trace) && e.Resolved? && BothTold(log, e)
    requires FreshRecord(log, SenderRole, e.conn, e.sender) && FreshRecord(log, ReceiverRole, e.conn, e.receiver)
    ensures TraceTold(log, trace + [e])
  {
    forall i | 0 <= i < |trace| && trace[i].StaleCleared? && trace[i].conn == e.conn
      ensures BothAfter(log, trace[i].at, e)
    {
      RecordIsAfter(log, trace[i].at, SenderRole, e.conn, e.sender);
      RecordIsAfter(log, trace[i].at, ReceiverRole, e.conn, e.receiver);
    }
    hide Told, RecordedAfter, FreshRecord, BothAfter, BothTold;
  }

  lemma OtherTold(log: seq<Event>, trace: seq<TaskEvent>, e: TaskEvent)
    requires TraceTold(log, trace) && !e.Resolved?
    requires e.StaleCleared? ==> e.at < |log| && log[e.at] == Cleared(e.conn)
    ensures TraceTold(log, trace + [e])
  {
    hide BothAfter, BothTold;
  }

  /** Handlers' and timers' steps: results stay, ready flags only fall, the log only grows
      by grants for which the flags are down, or by events that touch neither. */
  ghost predicate Lesser(p: Peer, p': Peer) {
    p'.results == p.results && p'.ready <= p.ready && (p'.hand.ResultWaiting? ==> p'.hand == p.hand)
  }

  ghost predicate Calm(s: Relay, s': Relay, more: seq<Event>) {
    && s'.log == s.log + more
    && Lesser(s.sender, s'.sender) && Lesser(s.receiver, s'.receiver)
    && s'.senderResults == s.senderResults && s'.receiverResults == s.receiverResults
    && (forall i, role: Role :: 0 <= i < |more| && more[i].Granted? && more[i].role == role ==>
          more[i].conn !in PeerOf(s', role).ready)
    && (forall i :: 0 <= i < |more| ==> !more[i].Cleared?)
  }

  lemma {:induction false} StaysFresh(log: seq<Event>, more: seq<Event>, role: Role, conn: nat)
    requires FreshReady(log, role, conn) && Granted(role, conn) !in more
    ensures FreshReady(log + more, role, conn)
    decreases |more|
  {
    if more == [] {
      assert log + more == log;
    } else {
      var rest := more[..|more| - 1];
      assert (log + more)[..|log + more| - 1] == log + rest;
      StaysFresh(log, rest, role, conn);
    }
  }

  lemma {:induction false} StaysRecorded(log: seq<Event>, more: seq<Event>, role: Role, conn: nat, result: ConnResult)
    requires FreshRecord(log, role, conn, result) && Cleared(conn) !in more
    ensures FreshRecord(log + more, role, conn, result)
    decreases |more|
  {
    if more == [] {
      assert log + more == log;
    } else {
      var rest := more[..|more| - 1];
      assert (log + more)[..|log + more| - 1] == log + rest;
      StaysRecorded(log, rest, role, conn, result);
    }
  }

  lemma MapStaysFresh(log: seq<Event>, more: seq<Event>, role: Role, m: map<nat, ConnResult>)
    requires MapFresh(log, role, m) && forall c :: c in m ==> Cleared(c) !in more
    ensures MapFresh(log + more, role, m)
  {
    forall c | c in m ensures FreshRecord(log + more, role, c, m[c]) { StaysRecorded(log, more, role, c, m[c]); }
  }

  lemma RecordsKept(s: Relay, s': Relay, more: seq<Event>)
    requires ResultsFresh(s) && s'.log == s.log + more && (s'.alive ==> s.alive)
    requires forall i :: 0 <= i < |more| ==> !more[i].Cleared?
    requires s'.sender.results == s.sender.results && s'.receiver.results == s.receiver.results
    requires s'.senderResults == s.senderResults && s'.receiverResults == s.receiverResults
    ensures ResultsFresh(s')
  {
    MapStaysFresh(s.log, more, SenderRole, s.sender.results);
    MapStaysFresh(s.log, more, ReceiverRole, s.receiver.results);
    if s.alive {
      MapStaysFresh(s.log, more, SenderRole, s.senderResults);
      MapStaysFresh(s.log, more, ReceiverRole, s.receiverResults);
    }
    hide MapFresh;
  }

  lemma CalmKeeps(s: Relay, s': Relay, more: seq<Event>)
    requires ResultsTold(s) && ResultsFresh(s) && ReadyFresh(s) && Calm(s, s', more) && (s'.alive ==> s.alive)
    ensures ResultsTold(s') && ResultsFresh(s') && ReadyFresh(s')
  {
    RecordsKept(s, s', more);
    hide FreshRecord, TraceTold;
    MoreTold(s.log, more);
    forall role: Role, c | c in PeerOf(s', role).ready ensures FreshReady(s'.log, role, c) {
      assert c in PeerOf(s, role).ready;
      StaysFresh(s.log, more, role, c);
    }
  }

  lemma TasksKept(s: Relay, s': Relay, more: seq<Event>)
    requires TasksStand(s) && TracesTold(s) && s'.tasks == s.tasks && s'.log == s.log + more
    requires s'.alive ==> s.alive && (s.senderIn ==> s'.senderIn) && (s.receiverIn ==> s'.receiverIn)
    ensures TasksStand(s') && TracesTold(s')
  {
    MoreTold(s.log, more);
  }

  // ---------- every step ----------

  /** Neither peers' results nor tasks are touched beyond what `Calm` allows. */
  lemma CalmStep(s: Relay, s': Relay, more: seq<Event>)
    requires Inv(s) && Calm(s, s', more) && s'.tasks == s.tasks
    requires s'.alive ==> s.alive && (s.senderIn ==> s'.senderIn) && (s.receiverIn ==> s'.receiverIn)
    ensures Inv(s')
  {
    CalmKeeps(s, s', more);
    TasksKept(s, s', more);
  }

  lemma RetryStep(s: Relay, role: Role, conn: nat)
    requires Inv(s) && PeerOf(s, role).hand == RetryWaiting(conn)
    ensures Inv(SetHand(DecideRetry(s, role, conn), role, Free))
  {
    var s' := SetHand(DecideRetry(s, role, conn), role, Free);
    var more := if s.alive && BothIn(s) && BothRequested(s, conn)
                then [Granted(SenderRole, conn), Granted(ReceiverRole, conn)] else [];
    hide PutPending, Cancelled;
    assert s'.log == s.log + more;
    hide Inv;
    CalmStep(s, s', more);
  }

  lemma RejectStep(s: Relay, role: Role, conn: nat)
    requires Inv(s)
    ensures Inv(Reject(s, role, conn)) && Reject(s, role, conn).alive == s.alive
  {
    hide Inv;
    CalmStep(s, Reject(s, role, conn), [Rejected(role, conn)]);
  }

  lemma TimeoutStep(s: Relay, conn: nat)
    requires Inv(s)
    ensures Inv(DecideTimeout(s, conn))
  {
    hide Inv, Reject;
    RejectStep(s, SenderRole, conn);
    RejectStep(s, ReceiverRole, conn);
    if s.alive && BothIn(s) && !BothRequested(s, conn) {
      var s1 := if conn in s.sender.requested then Reject(s, SenderRole, conn)
                else if conn in s.receiver.requested then Reject(s, ReceiverRole, conn)
                else s;
      CalmStep(s1, DecideTimeout(s, conn), []);
    }
  }

  lemma AcceptStep(s: Relay, role: Role, conn: nat, port: nat)
    requires Inv(s)
    ensures Inv(Accept(s, role, conn, port))
  {
    hide MapPort, Inv;
    var s' := Accept(s, role, conn, port);
    assert Calm(s, s', [PortsAccepted(role, conn)]);
    CalmStep(s, s', [PortsAccepted(role, conn)]);
  }

  lemma HandStep(s: Relay, role: Role, h: Handler)
    requires Inv(s) && !h.ResultWaiting?
    ensures Inv(SetHand(s, role, h))
  {
    hide Inv;
    CalmStep(s, SetHand(s, role, h), []);
  }

  lemma PortsStep(s: Relay, role: Role, ports: seq<nat>)
    requires Inv(s) && ports != []
    ensures Inv(DecidePorts(s, role, ports).0)
  {
    var i := FirstOpen(s.retryPending, role);
    if s.alive && i < |s.retryPending| {
      var p := s.retryPending[i].With(role);
      var s1 := Accept(s, role, p.conn, ports[0]);
      AcceptStep(s, role, p.conn, ports[0]);
      hide Inv, FirstOpen, Accept;
      var d := DecidePorts(s, role, ports).0;
      if p.sender && p.receiver && BothIn(s) {
        var s2 := d.(tasks := s1.tasks);
        CalmStep(s1, s2, [RetryStarted(p.conn)]);
        TaskAdded(s2, RetryTask(p.conn));
        assert d == s2.(tasks := s2.tasks + [RetryTask(p.conn)]);
      } else {
        CalmStep(s1, d, []);
      }
    }
  }

  lemma TaskAdded(s: Relay, t: Task)
    requires Inv(s) && Stands(t) && t.trace == [] && t.pc.Starting?
    ensures Inv(s.(tasks := s.tasks + [t]))
  {
    var s' := s.(tasks := s.tasks + [t]);
    assert forall role: Role :: PeerOf(s', role) == PeerOf(s, role);
  }

  /** A report is taken into the records of its own role. */
  lemma ResultStep(s: Relay, role: Role, s': Relay)
    requires Inv(s) && PeerOf(s, role).hand.ResultWaiting? && HandlerSection(s, role) == Some(s')
    ensures Inv(s')
  {
    var conn, result := PeerOf(s, role).hand.conn, PeerOf(s, role).hand.result;
    var e := Recorded(role, conn, result);
    var s1 := s.(log := s.log + [e]);
    assert s1.log[..|s.log|] == s.log && FreshRecord(s1.log, role, conn, result);
    assert Told(s.log, role, conn, result);
    assert Inv(s1) && Told(s1.log, role, conn, result) by {
      hide Inv, FreshRecord;
      CalmStep(s, s1, [e]);
      MoreTold(s.log, [e]);
    }
    hide FreshRecord, TraceTold, Told, FreshReady, Stands;
    RecordTaken(s1, role, conn, result, s');
  }

  lemma RecordTaken(s: Relay, role: Role, conn: nat, result: ConnResult, s': Relay)
    requires Inv(s) && FreshRecord(s.log, role, conn, result) && Told(s.log, role, conn, result)
    requires var p := PeerOf(s, role);
             var s1 := SetPeer(s, role, p.(hand := Free, results := p.results[conn := result]));
             s' == if s.alive then SetResults(s1, role, ResultsOf(s, role)[conn := result]) else s1
    ensures Inv(s')
  {
    hide FreshRecord, TraceTold, Told, FreshReady, Stands;
    assert ResultsTold(s');
    assert ResultsFresh(s');
    assert forall r: Role :: PeerOf(s', r).ready == PeerOf(s, r).ready;
  }

  lemma ReportStep(s: Relay, role: Role, conn: nat, result: ConnResult, s': Relay)
    requires Inv(s) && Receive(s, Report(role, conn, result)) == Some(s')
    ensures Inv(s')
  {
    var e := Reported(role, conn, result);
    var s1 := s'.(sender := s'.sender.(hand := s.sender.hand), receiver := s'.receiver.(hand := s.receiver.hand));
    assert Calm(s, s1, [e]);
    hide Inv;
    CalmStep(s, s1, [e]);
    assert s1.log[|s.log|] == e;
    HandTold(s1, role, conn, result, s');
  }

  lemma HandTold(s: Relay, role: Role, conn: nat, result: ConnResult, s': Relay)
    requires Inv(s) && Told(s.log, role, conn, result)
    requires s' == SetHand(s, role, ResultWaiting(conn, result))
    ensures Inv(s')
  {
    assert forall r: Role :: PeerOf(s', r).ready == PeerOf(s, r).ready;
  }

  lemma ReadyStep(s: Relay, role: Role, conn: nat, s': Relay)
    requires Inv(s) && Receive(s, Ready(role, conn)) == Some(s')
    ensures Inv(s')
  {
    var e := ReadyReceived(role, conn);
    var s1 := s.(log := s.log + [e]);
    assert Calm(s, s1, [e]);
    assert s1.log[..|s1.log| - 1] == s.log;
    assert FreshReady(s1.log, role, conn);
    hide Inv, FreshReady;
    CalmStep(s, s1, [e]);
    FlagRaised(s1, role, conn);
  }

  lemma FlagRaised(s: Relay, role: Role, conn: nat)
    requires Inv(s) && FreshReady(s.log, role, conn)
    ensures Inv(SetPeer(s, role, PeerOf(s, role).(ready := PeerOf(s, role).ready + {conn})))
  {
    var s' := SetPeer(s, role, PeerOf(s, role).(ready := PeerOf(s, role).ready + {conn}));
    hide FreshReady, Stands, TraceTold, Told;
    forall r: Role, c | c in PeerOf(s', r).ready ensures FreshReady(s'.log, r, c) {
      assert c in PeerOf(s, r).ready || (r == role && c == conn);
    }
  }

  /** Results and ready flags fall, or a told result is added. */
  lemma ResultsChanged(s: Relay, s': Relay)
    requires Inv(s) && s'.log == s.log && s'.tasks == s.tasks
    requires s'.alive == s.alive && s'.senderIn == s.senderIn && s'.receiverIn == s.receiverIn
    requires ResultsTold(s') && ResultsFresh(s')
    requires s'.sender.ready <= s.sender.ready && s'.receiver.ready <= s.receiver.ready
    ensures Inv(s')
  {
    assert forall role: Role :: PeerOf(s', role).ready <= PeerOf(s, role).ready;
  }

  lemma SettleStep(s: Relay, role: Role, conn: nat)
    requires Inv(s) && In(s, role)
    ensures Inv(Settle(s, role, conn)) && Settle(s, role, conn).tasks == s.tasks && Settle(s, role, conn).log == s.log
    ensures Settle(s, role, conn).senderIn == s.senderIn && Settle(s, role, conn).receiverIn == s.receiverIn
  {
    var s' := Settle(s, role, conn);
    hide FreshRecord, Told;
    assert ResultsTold(s') && ResultsFresh(s');
    hide ResultsTold, ResultsFresh;
    ResultsChanged(s, s');
  }

  lemma ResetStep(s: Relay, conn: nat, now: real, t: Task)
    requires Inv(s) && t.pc.ResetReady? && TaskSection(s, t, now).Some?
    ensures Inv(TaskSection(s, t, now).value.0)
    ensures TaskSection(s, t, now).value.0.tasks == s.tasks && TaskSection(s, t, now).value.0.log == s.log
  {
    var s' := TaskSection(s, t, now).value.0;
    hide FreshRecord, Told;
    assert ResultsTold(s') && ResultsFresh(s');
    hide ResultsTold, ResultsFresh;
    ResultsChanged(s, s');
  }

  lemma DropIsFresh(log: seq<Event>, role: Role, m: map<nat, ConnResult>, conn: nat)
    requires MapFresh(log, role, m)
    ensures MapFresh(log + [Cleared(conn)], role, DropResult(m, conn))
  {
    hide FreshRecord;
    MapStaysFresh(log, [Cleared(conn)], role, DropResult(m, conn));
  }

  /** After the clearing nothing recorded before it is left for this connection. */
  lemma ClearStep(s: Relay, now: real, t: Task)
    requires Inv(s) && t.pc.ClearStale? && TaskSection(s, t, now).Some?
    ensures var s' := TaskSection(s, t, now).value.0;
            Inv(s') && s'.tasks == s.tasks && s'.log == s.log + [Cleared(t.conn)]
  {
    var s' := TaskSection(s, t, now).value.0;
    var conn := t.conn;
    DropIsFresh(s.log, SenderRole, s.sender.results, conn);
    DropIsFresh(s.log, ReceiverRole, s.receiver.results, conn);
    if s.alive {
      DropIsFresh(s.log, SenderRole, s.senderResults, conn);
      DropIsFresh(s.log, ReceiverRole, s.receiverResults, conn);
    }
    assert ResultsFresh(s') by { hide MapFresh; }
    hide MapFresh, FreshRecord;
    MoreTold(s.log, [Cleared(conn)]);
    hide Told, TraceTold, DropResult;
    TasksKept(s, s', [Cleared(conn)]);
    assert ResultsTold(s') by { ClearTold(s.log, SenderRole, s.sender.results, conn); }
    forall role: Role, c | c in PeerOf(s', role).ready ensures FreshReady(s'.log, role, c) {
      assert c in PeerOf(s, role).ready;
      StaysFresh(s.log, [Cleared(conn)], role, c);
    }
  }

  lemma ClearTold(log: seq<Event>, role: Role, m: map<nat, ConnResult>, conn: nat)
    requires MapTold(log, role, m)
    ensures MapTold(log + [Cleared(conn)], role, DropResult(m, conn))
  {
    MoreTold(log, [Cleared(conn)]);
    hide Told;
  }

  lemma SeenIsFresh(s: Relay, role: Role, conn: nat)
    requires Inv(s) && ResultSeen(s, role, conn).Some?
    ensures var v := ResultSeen(s, role, conn).value; Told(s.log, role, conn, v) && FreshRecord(s.log, role, conn, v)
  {
    hide FreshRecord, Told;
  }

  /** Where a section resolves a connection, both results are told and fresh. */
  lemma SectionResolves(s: Relay, t: Task, now: real)
    requires Inv(s) && (t.pc.CheckResolved? || t.pc.WaitResult?) && TaskSection(s, t, now).Some?
    requires s.alive && t.pc.WaitResult? ==> BothIn(s)
    ensures var r := TaskSection(s, t, now).value;
            Inv(r.0) && r.0.tasks == s.tasks && r.0.log == s.log && BothIn(r.0) == BothIn(s)
    ensures TraceTold(s.log, t.trace) ==> TraceTold(s.log, TaskSection(s, t, now).value.1.trace)
  {
    var r := TaskSection(s, t, now).value;
    if t.pc.CheckResolved? {
      var a, b := ResultSeen(s, SenderRole, t.conn), ResultSeen(s, ReceiverRole, t.conn);
      if a.Some? && b.Some? {
        SeenIsFresh(s, SenderRole, t.conn);
        SeenIsFresh(s, ReceiverRole, t.conn);
        hide Inv, ResultSeen, TraceTold, FreshRecord, Told;
        Resolving(s.log, t.trace, Resolved(t.conn, a.value, b.value));
      }
    } else if s.alive {
      var s1 := Settle(s, SenderRole, t.conn);
      SettleStep(s, SenderRole, t.conn);
      SettleStep(s1, ReceiverRole, t.conn);
      var s2 := Settle(s1, ReceiverRole, t.conn);
      hide Settle, TraceTold, FreshRecord, Told;
      assert s2.alive == s.alive by { SettleLives(s, SenderRole, t.conn); SettleLives(s1, ReceiverRole, t.conn); }
      if t.conn in s2.senderResults && t.conn in s2.receiverResults {
        assert ResultsTold(s2) && ResultsFresh(s2);
        hide Inv;
        Resolving(s.log, t.trace, Resolved(t.conn, s2.senderResults[t.conn], s2.receiverResults[t.conn]));
      }
    }
  }

  lemma SettleLives(s: Relay, role: Role, conn: nat)
    ensures Settle(s, role, conn).alive == s.alive
  {
  }

  lemma Resolving(log: seq<Event>, trace: seq<TaskEvent>, e: TaskEvent)
    requires e.Resolved? && BothTold(log, e)
    requires FreshRecord(log, SenderRole, e.conn, e.sender) && FreshRecord(log, ReceiverRole, e.conn, e.receiver)
    ensures TraceTold(log, trace) ==> TraceTold(log, trace + [e])
  {
    hide FreshRecord, Told;
    if TraceTold(log, trace) { ResolvedTold(log, trace, e); }
  }

  /** A section that sends, or waits to. */
  lemma SectionSends(s: Relay, t: Task, now: real)
    requires TaskSection(s, t, now).Some? && TraceTold(s.log, t.trace)
    requires !t.pc.CheckResolved? && !t.pc.WaitResult? && !t.pc.ClearStale? && !t.pc.ResetReady?
    ensures TaskSection(s, t, now).value.0 == s
    ensures TraceTold(s.log, TaskSection(s, t, now).value.1.trace)
    ensures Running(TaskSection(s, t, now).value.1) ==> Running(t) || (s.alive && BothIn(s))
  {
    hide TraceTold;
    match t.pc
    case InfoSender => OtherTold(s.log, t.trace, PeerInfoSent(SenderRole, t.conn));
    case InfoReceiver => OtherTold(s.log, t.trace, PeerInfoSent(ReceiverRole, t.conn));
    case WaitReady => OtherTold(s.log, t.trace, BothReady(t.conn));
    case GoSender(at) => OtherTold(s.log, t.trace, GoSent(SenderRole, t.conn, at));
    case GoReceiver(at) => OtherTold(s.log, t.trace, GoSent(ReceiverRole, t.conn, at));
    case _ =>
  }

  lemma SectionClears(s: Relay, t: Task, now: real)
    requires Inv(s) && t.pc.ClearStale? && TaskSection(s, t, now).Some? && TraceTold(s.log, t.trace)
    ensures var r := TaskSection(s, t, now).value;
            Inv(r.0) && r.0.tasks == s.tasks && BothIn(r.0) == BothIn(s) && r.0.alive == s.alive
            && TraceTold(r.0.log, r.1.trace)
  {
    ClearStep(s, now, t);
    hide Inv, TraceTold;
    MoreTraceTold(s.log, [Cleared(t.conn)], t.trace);
    OtherTold(s.log + [Cleared(t.conn)], t.trace, StaleCleared(t.conn, |s.log|));
  }

  /** The state after a task's section, and what the section resolved. */
  lemma SectionStep(s: Relay, k: nat, now: real)
    requires Inv(s) && k < |s.tasks| && TaskSection(s, s.tasks[k], now).Some?
    ensures var r := TaskSection(s, s.tasks[k], now).value;
            Inv(r.0) && r.0.tasks == s.tasks && TraceTold(r.0.log, r.1.trace)
    ensures var r := TaskSection(s, s.tasks[k], now).value;
            r.0.alive && Running(r.1) ==> BothIn(r.0)
  {
    var t := s.tasks[k];
    assert TraceTold(s.log, t.trace) && (s.alive && Running(t) ==> BothIn(s));
    hide Inv, TraceTold;
    if t.pc.WaitResult? || t.pc.CheckResolved? {
      SectionResolves(s, t, now);
      hide Settle, ResultSeen;
    } else if t.pc.ClearStale? {
      SectionClears(s, t, now);
      hide DropResult;
    } else if t.pc.ResetReady? {
      ResetStep(s, t.conn, now, t);
    } else {
      SectionSends(s, t, now);
      hide TaskSection;
    }
  }

  lemma TaskStep(s: Relay, k: nat, now: real, s': Relay)
    requires Inv(s) && Apply(s, TaskGoesOn(k, now)) == Some(s')
    ensures Inv(s')
  {
    var r := TaskSection(s, s.tasks[k], now).value;
    SectionStep(s, k, now);
    SectionStands(s, s.tasks[k], now);
    hide TaskSection;
    assert forall role: Role :: PeerOf(s', role) == PeerOf(r.0, role);
  }

  lemma HandlerStep(s: Relay, role: Role, s': Relay)
    requires Inv(s) && HandlerSection(s, role) == Some(s')
    ensures Inv(s')
  {
    var p := PeerOf(s, role);
    match p.hand
    case RetryWaiting(conn) =>
      RetryStep(s, role, conn);
    case PortsWaiting(ports) =>
      var r := DecidePorts(s, role, ports);
      PortsStep(s, role, ports);
      HandStep(r.0, role, PortsTail(ports, r.1));
    case ResultWaiting(_, _) =>
      ResultStep(s, role, s');
    case PortsTail(_, _) =>
      hide Inv;
      CalmStep(s, s', []);
    case Gone =>
    case Free =>
  }

  lemma StepKeeps(s: Relay, step: Step, s': Relay)
    requires Inv(s) && Apply(s, step) == Some(s')
    ensures Inv(s')
  {
    hide Inv, HandlerSection, TaskSection, DecideTimeout, Receive;
    match step
    case HandlerGoesOn(role) => HandlerStep(s, role, s');
    case RetryRequest(role, conn) => RequestStep(s, role, conn, s');
    case AddPorts(role, ports) => AddPortsStep(s, role, ports, s');
    case Ready(role, conn) => ReadyStep(s, role, conn, s');
    case Report(role, conn, result) => ReportStep(s, role, conn, result, s');
    case TimerDecides(id) => TimerStep(s, id, s');
    case StartCoordination(n) => TaskAdded(s, Task(false, n, 0, Starting, [], false));
    case TaskGoesOn(k, now) => TaskStep(s, k, now, s');
    case TaskFails(k) => FailStep(s, k);
    case Register(role) => JoinStep(s, role, s');
    case Disconnect(role) => LeaveStep(s, role, s');
    case _ => CalmStep(s, s', []);
  }

  lemma JoinStep(s: Relay, role: Role, s': Relay)
    requires Inv(s) && Apply(s, Register(role)) == Some(s')
    ensures Inv(s')
  {
    hide Inv;
    var s1 := if role.SenderRole? then s.(senderIn := true) else s.(receiverIn := true);
    CalmStep(s, s1, []);
    HandStep(s1, role, Free);
  }

  lemma LeaveStep(s: Relay, role: Role, s': Relay)
    requires Inv(s) && Apply(s, Disconnect(role)) == Some(s')
    ensures Inv(s')
  {
    hide Inv;
    var s1 := if s.alive then s.(alive := false, senderIn := false, receiverIn := false) else s;
    CalmStep(s, s1, []);
    HandStep(s1, role, Gone);
  }

  lemma TimerStep(s: Relay, id: nat, s': Relay)
    requires Inv(s) && Apply(s, TimerDecides(id)) == Some(s')
    ensures Inv(s')
  {
    hide Inv, DecideTimeout;
    var s1 := s.(timers := s.timers[id := Timer(s.timers[id].conn, Over)]);
    CalmStep(s, s1, []);
    TimeoutStep(s1, s.timers[id].conn);
  }

  lemma RequestStep(s: Relay, role: Role, conn: nat, s': Relay)
    requires Inv(s) && Receive(s, RetryRequest(role, conn)) == Some(s')
    ensures Inv(s')
  {
    hide Inv;
    CalmStep(s, s', [Requested(role, conn)]);
  }

  lemma AddPortsStep(s: Relay, role: Role, ports: seq<nat>, s': Relay)
    requires Inv(s) && Receive(s, AddPorts(role, ports)) == Some(s')
    ensures Inv(s')
  {
    hide Inv, SetPeer;
    HandStep(s, role, PortsWaiting(ports));
  }

  lemma FailStep(s: Relay, k: nat)
    requires Inv(s) && k < |s.tasks|
    ensures Inv(s.(tasks := s.tasks[k := s.tasks[k].(pc := Ended, failed := true)]))
  {
    var t := s.tasks[k].(pc := Ended, failed := true);
    MovedOn(s.tasks[k], t);
    hide Stands;
    assert forall role: Role :: PeerOf(s.(tasks := s.tasks[k := t]), role) == PeerOf(s, role);
  }

  lemma {:induction false} RunKeeps(s: Relay, steps: seq<Step>, s': Relay)
    requires Inv(s) && Run(s, steps) == Some(s')
    ensures Inv(s')
    decreases |steps|
  {
    if steps != [] {
      var s1 := Run(s, steps[..|steps| - 1]).value;
      RunKeeps(s, steps[..|steps| - 1], s1);
      StepKeeps(s1, steps[|steps| - 1], s');
    }
  }

  lemma ReachableInv(s: Relay)
    requires Reachable(s)
    ensures Inv(s)
  {
    var s0, steps :| Init(s0) && Run(s0, steps) == Some(s);
    assert Inv(s0);
    RunKeeps(s0, steps, s);
  }

  // ---------- what the peers are promised ----------

  /** Every task of every run keeps to the promised order. */
  lemma TasksAreLegal(s: Relay, k: nat)
    requires Reachable(s) && k < |s.tasks|
    ensures var t := s.tasks[k]; (t.retry ==> t.n > 0) && LegalTrace(t.retry, First(t), t.trace)
  {
    ReachableInv(s);
    assert Stands(s.tasks[k]);
  }

  /** GO for a connection: one start time for both peers, sent right after both ready
      flags were seen in one section. */
  lemma OneStartTime(s: Relay, k: nat, i: nat)
    requires Reachable(s) && k < |s.tasks| && i < |s.tasks[k].trace|
    requires s.tasks[k].trace[i].GoSent? && s.tasks[k].trace[i].role.ReceiverRole?
    ensures var trace := s.tasks[k].trace;
            && i >= 2 && trace[i - 1] == GoSent(SenderRole, trace[i].conn, trace[i].startAt)
            && trace[i - 2] == BothReady(trace[i].conn)
  {
    TasksAreLegal(s, k);
    GoIsPaired(s.tasks[k].retry, First(s.tasks[k]), s.tasks[k].trace, i);
  }

  /** That section holds the lock, and since the latest grant for this connection both
      peers have said anew that they are ready. */
  lemma BothWereReady(s: Relay, k: nat, now: real, s': Relay)
    requires Reachable(s) && Apply(s, TaskGoesOn(k, now)) == Some(s')
    requires s'.tasks[k].trace == s.tasks[k].trace + [BothReady(s.tasks[k].conn)]
    ensures var conn := s.tasks[k].conn;
            && !s.lockHeld && conn in s.sender.ready && conn in s.receiver.ready
            && FreshReady(s.log, SenderRole, conn) && FreshReady(s.log, ReceiverRole, conn)
  {
    var t := s.tasks[k];
    ReachableInv(s);
    assert ReadyFresh(s);
    hide Inv, FreshReady, Reachable;
    OnlySeenReady(s, t, now);
    assert t.conn in PeerOf(s, SenderRole).ready && t.conn in PeerOf(s, ReceiverRole).ready;
  }

  lemma OnlySeenReady(s: Relay, t: Task, now: real)
    requires TaskSection(s, t, now).Some? && TaskSection(s, t, now).value.1.trace == t.trace + [BothReady(t.conn)]
    ensures !s.lockHeld && t.conn in s.sender.ready && t.conn in s.receiver.ready
  {
    var t' := TaskSection(s, t, now).value.1;
    assert t'.trace[|t.trace|] == BothReady(t.conn);
    hide Settle, ResultSeen;
  }

  /** Peer information for the next connection is sent only after both roles' results for
      this one, and each of them is a result that peer has reported. */
  lemma InfoAfterReports(s: Relay, k: nat, i: nat)
    requires Reachable(s) && k < |s.tasks| && i < |s.tasks[k].trace|
    requires !s.tasks[k].retry && s.tasks[k].trace[i].PeerInfoSent? && s.tasks[k].trace[i].conn > 0
    ensures var trace := s.tasks[k].trace;
            exists j :: 0 <= j < i && trace[j].Resolved? && trace[j].conn == trace[i].conn - 1
              && Reported(SenderRole, trace[j].conn, trace[j].sender) in s.log
              && Reported(ReceiverRole, trace[j].conn, trace[j].receiver) in s.log
  {
    TasksAreLegal(s, k);
    ReachableInv(s);
    var trace := s.tasks[k].trace;
    InfoNeedsResult(false, 0, trace, i);
    var j :| 0 <= j < i && trace[j].Resolved? && trace[j].conn == trace[i].conn - 1;
    assert TraceTold(s.log, trace);
    assert Told(s.log, SenderRole, trace[j].conn, trace[j].sender);
  }

  /** The results a task goes by after its GO for a connection were recorded, for both roles,
      after that same task had cleared all older ones for it. */
  lemma ResultsAreFresh(s: Relay, k: nat, i: nat, j: nat)
    requires Reachable(s) && k < |s.tasks| && i < j < |s.tasks[k].trace|
    requires s.tasks[k].trace[i].GoSent? && s.tasks[k].trace[j].Resolved?
    requires s.tasks[k].trace[j].conn == s.tasks[k].trace[i].conn
    ensures var trace := s.tasks[k].trace;
            exists h :: 0 <= h < i && trace[h].StaleCleared? && trace[h].conn == trace[i].conn
              && trace[h].at < |s.log| && s.log[trace[h].at] == Cleared(trace[i].conn)
              && BothAfter(s.log, trace[h].at, trace[j])
  {
    TasksAreLegal(s, k);
    ReachableInv(s);
    var t := s.tasks[k];
    assert TraceTold(s.log, t.trace);
    hide *;
    var h := GoNeedsClearing(t.retry, First(t), t.trace, i, j);
    ClearedBefore(s.log, t.trace, h, j);
  }

  lemma ClearedBefore(log: seq<Event>, trace: seq<TaskEvent>, h: nat, j: nat)
    requires TraceTold(log, trace) && h < j < |trace| && trace[h].StaleCleared? && trace[j].Resolved?
    requires trace[h].conn == trace[j].conn
    ensures trace[h].at < |log| && log[trace[h].at] == Cleared(trace[h].conn) && BothAfter(log, trace[h].at, trace[j])
  {
    hide BothAfter, BothTold;
  }

  /** While the session lives, a task waiting for results finds both peers in it: the
      branch that abandons a connection for a missing peer is never taken. */
  lemma NoPeerMissing(s: Relay, k: nat)
    requires Reachable(s) && s.alive && k < |s.tasks| && s.tasks[k].pc.WaitResult?
    ensures BothIn(s)
  {
    ReachableInv(s);
    assert Running(s.tasks[k]);
  }
}
