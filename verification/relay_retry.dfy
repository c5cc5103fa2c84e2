/** Retry requests, grants, rejections and retry tasks over any run of the relay:
    what server/relay/handlers.py promises the two peers. The history of a session
    is checked against an automaton per connection that knows nothing of flags,
    dictionaries or tasks. */
module RelayRetry {
  import opened Wrappers
  import opened RelaySession

  // ---------- the promised histories ----------

  /** One connection as the history tells it: open requests, a grant under way, and
      the new ports taken in and the retry started since the latest grant. */
  datatype Story = Story(
    openS: bool, openR: bool, half: bool,
    granted: bool, portsS: nat, portsR: nat, started: bool)
  {
    predicate Open(role: Role) {
      if role.SenderRole? then openS else openR
    }

    function Ports(role: Role): nat {
      if role.SenderRole? then portsS else portsR
    }
  }

  const BLANK: Story := Story(false, false, false, false, 0, 0, false)

  function Advance(st: Story, e: Event): Story {
    match e
    case Requested(role, _) => if role.SenderRole? then st.(openS := true) else st.(openR := true)
    case Rejected(role, _) => if role.SenderRole? then st.(openS := false) else st.(openR := false)
    case Granted(role, _) =>
      if role.SenderRole? then st.(openS := false, half := true)
      else Story(st.openS, false, false, true, 0, 0, false)
    case PortsAccepted(role, _) =>
      if role.SenderRole? then st.(portsS := st.portsS + 1) else st.(portsR := st.portsR + 1)
    case RetryStarted(_) => st.(started := true)
    case _ => st
  }

  /** What may come next for a connection. Both grants of a pair follow each other. */
  predicate Allowed(st: Story, e: Event) {
    match e
    case Granted(role, _) => if role.SenderRole? then st.openS && st.openR && !st.half else st.half && st.openR
    case Rejected(role, _) => !st.half && st.Open(role) && !st.Open(Other(role))
    case PortsAccepted(role, _) => !st.half && st.granted && !st.started && st.Ports(role) == 0
    case RetryStarted(_) => !st.half && st.granted && !st.started && st.portsS == 1 && st.portsR == 1
    case _ => !st.half
  }

  function StoryOf(log: seq<Event>, conn: nat): Story
    decreases |log|
  {
    if log == [] then BLANK
    else
      var e := log[|log| - 1];
      var st := StoryOf(log[..|log| - 1], conn);
      if e.conn == conn then Advance(st, e) else st
  }

  predicate Legal(log: seq<Event>)
    decreases |log|
  {
    log == [] ||
    (Legal(log[..|log| - 1]) && Allowed(StoryOf(log[..|log| - 1], log[|log| - 1].conn), log[|log| - 1]))
  }

  lemma Appended(log: seq<Event>, e: Event, conn: nat)
    ensures StoryOf(log + [e], conn) == if e.conn == conn then Advance(StoryOf(log, conn), e) else StoryOf(log, conn)
    ensures Legal(log + [e]) == (Legal(log) && Allowed(StoryOf(log, e.conn), e))
  {
    assert (log + [e])[..|log|] == log;
  }

  function Occurrences(log: seq<Event>, e: Event): nat
    decreases |log|
  {
    if log == [] then 0
    else Occurrences(log[..|log| - 1], e) + if log[|log| - 1] == e then 1 else 0
  }

  function Answers(log: seq<Event>, role: Role, conn: nat): nat {
    Occurrences(log, Granted(role, conn)) + Occurrences(log, Rejected(role, conn))
  }

  /** In a legal history every answer uses up a request, so none is answered twice,
      let alone both granted and rejected. */
  lemma {:induction false} LegalAnswers(log: seq<Event>, role: Role, conn: nat)
    requires Legal(log)
    ensures Answers(log, role, conn) + (if StoryOf(log, conn).Open(role) then 1 else 0)
         <= Occurrences(log, Requested(role, conn))
    decreases |log|
  {
    if log != [] {
      LegalAnswers(log[..|log| - 1], role, conn);
      if !StoryOf(log[..|log| - 1], conn).Open(role) { HalfIsOpen(log[..|log| - 1], conn); }
    }
  }

  lemma {:induction false} HalfIsOpen(log: seq<Event>, conn: nat)
    requires Legal(log)
    ensures StoryOf(log, conn).half ==> StoryOf(log, conn).openR
    decreases |log|
  {
    if log != [] { HalfIsOpen(log[..|log| - 1], conn); }
  }

  /** Grants come in pairs, and each pair carries at most one retry. */
  lemma {:induction false} LegalGrants(log: seq<Event>, conn: nat)
    requires Legal(log)
    ensures Occurrences(log, Granted(SenderRole, conn))
         == Occurrences(log, Granted(ReceiverRole, conn)) + (if StoryOf(log, conn).half then 1 else 0)
    ensures Occurrences(log, RetryStarted(conn))
          + (if StoryOf(log, conn).granted && !StoryOf(log, conn).started then 1 else 0)
         <= Occurrences(log, Granted(ReceiverRole, conn))
    decreases |log|
  {
    if log != [] { LegalGrants(log[..|log| - 1], conn); }
  }

  // ---------- the invariant ----------

  predicate PeerPresent(s: Relay, role: Role) {
    && (PeerOf(s, role).hand.Gone? <==> !In(s, role))
    && (PeerOf(s, role).requested != {} ==> In(s, role))
    && (!BothIn(s) && PeerOf(s, role).hand.RetryWaiting? ==>
          PeerOf(s, role).hand.conn in PeerOf(s, role).requested)
  }

  /** While the session lives, a peer with a handler or a flag is in it; no flag falls before
      both are. */
  predicate Presence(s: Relay) {
    s.alive ==>
      && PeerPresent(s, SenderRole) && PeerPresent(s, ReceiverRole)
      && (s.retryPending != [] || s.timers != [] ==> BothIn(s))
  }

  /** `tasks` names every timer that is not over, under its connection. */
  ghost predicate Registered(timers: seq<Timer>, tasks: map<nat, nat>) {
    && (forall c :: c in tasks ==> tasks[c] < |timers| && timers[tasks[c]].conn == c)
    && (forall i :: 0 <= i < |timers| && Live(timers[i]) ==>
          timers[i].conn in tasks && tasks[timers[i].conn] == i)
  }

  ghost predicate TimersRegistered(s: Relay) {
    Registered(s.timers, s.retryTasks)
  }

  predicate Spent(timers: seq<Timer>, tasks: map<nat, nat>, c: nat) {
    c in tasks && tasks[c] < |timers| && !Live(timers[tasks[c]])
  }

  /** A registered timer that is over found both flags set. */
  ghost predicate SpentTimers(s: Relay) {
    s.alive ==> forall c :: Spent(s.timers, s.retryTasks, c) ==> BothRequested(s, c)
  }

  predicate Waits(s: Relay, conn: nat) {
    s.sender.hand == RetryWaiting(conn) || s.receiver.hand == RetryWaiting(conn)
  }

  ghost predicate BothFlagsWait(s: Relay) {
    s.alive ==> forall c :: BothRequested(s, c) ==> Waits(s, c)
  }

  predicate Followed(s: Relay, role: Role, conn: nat) {
    PeerOf(s, role).hand == RetryWaiting(conn) || conn in s.retryTasks || (role, conn) in s.early
  }

  ghost predicate FlagsFollowed(s: Relay) {
    s.alive ==> forall role: Role, c :: c in PeerOf(s, role).requested ==> Followed(s, role, c)
  }

  function Find(ps: seq<Pending>, conn: nat): Option<Pending>
    decreases |ps|
  {
    if ps == [] then None else if ps[0].conn == conn then Some(ps[0]) else Find(ps[1..], conn)
  }

  ghost predicate Unique(ps: seq<Pending>) {
    forall i, j :: 0 <= i < j < |ps| ==> ps[i].conn != ps[j].conn
  }

  predicate Tells(s: Relay, conn: nat, st: Story) {
    && !st.half
    && st.openS == (conn in s.sender.requested)
    && st.openR == (conn in s.receiver.requested)
    && match Find(s.retryPending, conn)
       case None => st.granted ==> st.started
       case Some(p) =>
         && st.granted && !st.started
         && st.portsS == (if p.sender then 1 else 0)
         && st.portsR == (if p.receiver then 1 else 0)
  }

  ghost predicate HistoryTells(s: Relay) {
    Unique(s.retryPending) && Legal(s.log) && forall c: nat :: Tells(s, c, StoryOf(s.log, c))
  }

  predicate NoneOverdue(s: Relay) {
    s.alive ==> forall i :: 0 <= i < |s.retryPending| ==> !(s.retryPending[i].sender && s.retryPending[i].receiver)
  }

  /** Who waits for whom; speaks of no history. */
  ghost predicate Control(s: Relay) {
    && Presence(s) && TimersRegistered(s) && SpentTimers(s) && BothFlagsWait(s) && FlagsFollowed(s)
    && NoneOverdue(s)
  }

  ghost predicate Inv(s: Relay) {
    Control(s) && HistoryTells(s)
  }

  // ---------- history: one event at a time ----------

  /** Flags and grants as they were. */
  predicate SameFlags(s: Relay, s': Relay) {
    && s'.sender.requested == s.sender.requested && s'.receiver.requested == s.receiver.requested
    && s'.retryPending == s.retryPending
  }

  lemma HistoryUntouched(s: Relay, s': Relay)
    requires HistoryTells(s) && SameFlags(s, s') && s'.log == s.log
    ensures HistoryTells(s')
  {
    forall c: nat ensures Tells(s', c, StoryOf(s'.log, c)) {
      assert Tells(s, c, StoryOf(s.log, c));
    }
  }

  /** An event that fits its connection's story, with the state changed to match. */
  lemma HistoryGoesOn(s: Relay, e: Event, s': Relay)
    requires HistoryTells(s) && s'.log == s.log + [e] && Unique(s'.retryPending)
    requires Tells(s, e.conn, StoryOf(s.log, e.conn)) && Allowed(StoryOf(s.log, e.conn), e)
    requires Tells(s', e.conn, Advance(StoryOf(s.log, e.conn), e))
    requires forall c: nat :: c != e.conn ==> SameFor(s, s', c)
    ensures HistoryTells(s')
  {
    Appended(s.log, e, e.conn);
    forall c: nat ensures Tells(s', c, StoryOf(s'.log, c)) {
      Appended(s.log, e, c);
      if c != e.conn { assert SameFor(s, s', c) && Tells(s, c, StoryOf(s.log, c)); }
    }
  }

  /** The same for two events of one connection in a row. */
  lemma HistoryGoesOnTwice(s: Relay, e: Event, f: Event, s': Relay)
    requires HistoryTells(s) && s'.log == s.log + [e, f] && f.conn == e.conn && Unique(s'.retryPending)
    requires Tells(s, e.conn, StoryOf(s.log, e.conn)) && Allowed(StoryOf(s.log, e.conn), e)
    requires Allowed(Advance(StoryOf(s.log, e.conn), e), f)
    requires Tells(s', e.conn, Advance(Advance(StoryOf(s.log, e.conn), e), f))
    requires forall c: nat :: c != e.conn ==> SameFor(s, s', c)
    ensures HistoryTells(s')
  {
    assert s'.log == (s.log + [e]) + [f];
    Appended(s.log, e, e.conn);
    Appended(s.log + [e], f, e.conn);
    forall c: nat ensures Tells(s', c, StoryOf(s'.log, c)) {
      Appended(s.log, e, c);
      Appended(s.log + [e], f, c);
      if c != e.conn { assert SameFor(s, s', c) && Tells(s, c, StoryOf(s.log, c)); }
    }
  }

  predicate SameFor(s: Relay, s': Relay, c: nat) {
    && (c in s'.sender.requested <==> c in s.sender.requested)
    && (c in s'.receiver.requested <==> c in s.receiver.requested)
    && Find(s'.retryPending, c) == Find(s.retryPending, c)
  }

  lemma StoryKnown(s: Relay, c: nat)
    requires HistoryTells(s)
    ensures Tells(s, c, StoryOf(s.log, c))
  {
  }

  // ---------- steps that leave retries alone ----------

  /** Nothing the retry protocol looks at changes, except a handler that is not
      waiting to decide a request. */
  predicate Quiet(s: Relay, s': Relay) {
    && s'.alive == s.alive && s'.senderIn == s.senderIn && s'.receiverIn == s.receiverIn
    && SameFlags(s, s') && s'.retryTasks == s.retryTasks && s'.timers == s.timers && s'.early == s.early
    && HandKept(s.sender.hand, s'.sender.hand) && HandKept(s.receiver.hand, s'.receiver.hand)
  }

  lemma QuietParts(s: Relay, s': Relay)
    requires BothFlagsWait(s) && FlagsFollowed(s)
    requires s'.alive == s.alive && s'.early == s.early && s'.retryTasks == s.retryTasks
    requires s'.sender.requested == s.sender.requested && s'.receiver.requested == s.receiver.requested
    requires HandKept(s.sender.hand, s'.sender.hand) && HandKept(s.receiver.hand, s'.receiver.hand)
    ensures BothFlagsWait(s') && FlagsFollowed(s')
  {
    assert forall c :: Waits(s, c) ==> Waits(s', c);
    if s'.alive {
      forall role: Role, c | c in PeerOf(s', role).requested ensures Followed(s', role, c) {
        assert c in PeerOf(s, role).requested && Followed(s, role, c);
      }
    }
  }

  predicate HandKept(h: Handler, h': Handler) {
    (h.Gone? <==> h'.Gone?) && (h.RetryWaiting? || h'.RetryWaiting? ==> h' == h)
  }

  lemma QuietKeeps(s: Relay, s': Relay)
    requires Control(s) && Quiet(s, s')
    ensures Control(s')
  {
    QuietParts(s, s');
  }

  lemma JoinKeeps(s: Relay, role: Role, s': Relay)
    requires Control(s) && s.alive && !In(s, role) && PeerOf(s, role).hand.Gone?
    requires s' == SetHand(if role.SenderRole? then s.(senderIn := true) else s.(receiverIn := true), role, Free)
    ensures Control(s')
  {
    assert forall c :: Waits(s, c) ==> Waits(s', c);
    forall r: Role, c | c in PeerOf(s', r).requested ensures Followed(s', r, c) {
      assert c in PeerOf(s, r).requested && Followed(s, r, c);
    }
  }

  lemma DeadKeeps(s: Relay, s': Relay)
    requires Control(s) && !s'.alive && s'.retryTasks == s.retryTasks && s'.timers == s.timers
    ensures Control(s')
  {
  }

  // ---------- a request comes in ----------

  lemma RequestKeeps(s: Relay, role: Role, conn: nat, s': Relay)
    requires Control(s) && PeerOf(s, role).hand.Free?
    requires SetPeer(s, role, PeerOf(s, role).(requested := PeerOf(s, role).requested + {conn},
                                              hand := RetryWaiting(conn))) == s'
    ensures Control(s')
  {
    if s'.alive {
      forall c | BothRequested(s', c) ensures Waits(s', c) {
        if c != conn { assert BothRequested(s, c) && Waits(s, c); }
      }
      forall r: Role, c | c in PeerOf(s', r).requested ensures Followed(s', r, c) {
        if r != role || c != conn { assert c in PeerOf(s, r).requested && Followed(s, r, c); }
      }
    }
  }

  lemma RequestTold(s: Relay, role: Role, conn: nat, s': Relay)
    requires HistoryTells(s)
    requires SetPeer(s, role, PeerOf(s, role).(requested := PeerOf(s, role).requested + {conn},
                                              hand := RetryWaiting(conn)))
             .(log := s.log + [Requested(role, conn)]) == s'
    ensures HistoryTells(s')
  {
    StoryKnown(s, conn);
    HistoryGoesOn(s, Requested(role, conn), s');
  }

  /** Events that retries do not depend on. */
  predicate IsNote(e: Event) {
    e.ReadyReceived? || e.Reported? || e.Recorded? || e.Cleared?
  }

  lemma NoteTold(s: Relay, e: Event, s': Relay)
    requires HistoryTells(s) && IsNote(e) && SameFlags(s, s') && s'.log == s.log + [e]
    ensures HistoryTells(s')
  {
    StoryKnown(s, e.conn);
    HistoryGoesOn(s, e, s');
  }

  // ---------- a request is decided ----------

  lemma PutPendingFinds(ps: seq<Pending>, p: Pending, c: nat)
    ensures Find(PutPending(ps, p), c) == if c == p.conn then Some(p) else Find(ps, c)
    decreases |ps|
  {
    if ps != [] && ps[0].conn != p.conn {
      PutPendingFinds(ps[1..], p, c);
      assert ([ps[0]] + PutPending(ps[1..], p))[1..] == PutPending(ps[1..], p);
    } else if ps != [] {
      assert ([p] + ps[1..])[1..] == ps[1..];
    }
  }

  lemma PutPendingMembers(ps: seq<Pending>, p: Pending, q: Pending)
    requires q in PutPending(ps, p)
    ensures q == p || (q in ps && q.conn != p.conn) || !Unique(ps)
    decreases |ps|
  {
    if ps != [] && ps[0].conn != p.conn && q != ps[0] {
      PutPendingMembers(ps[1..], p, q);
      if Unique(ps) { assert Unique(ps[1..]); }
    }
  }

  lemma PutPendingUnique(ps: seq<Pending>, p: Pending)
    requires Unique(ps)
    ensures Unique(PutPending(ps, p))
    decreases |ps|
  {
    if ps != [] && ps[0].conn != p.conn {
      assert Unique(ps[1..]);
      var rest := PutPending(ps[1..], p);
      PutPendingUnique(ps[1..], p);
      forall j | 0 <= j < |rest| ensures rest[j].conn != ps[0].conn {
        PutPendingMembers(ps[1..], p, rest[j]);
      }
    }
  }

  lemma GrantEffect(s: Relay, conn: nat)
    ensures var s' := Grant(s, conn);
            && s'.retryPending == PutPending(s.retryPending, Pending(conn, false, false))
            && s'.sender.requested == s.sender.requested - {conn}
            && s'.receiver.requested == s.receiver.requested - {conn}
            && s'.log == s.log + [Granted(SenderRole, conn), Granted(ReceiverRole, conn)]
  {
    hide PutPending, Cancelled;
  }

  lemma GrantTold(s: Relay, conn: nat)
    requires HistoryTells(s) && BothRequested(s, conn)
    ensures HistoryTells(Grant(s, conn))
  {
    var s' := Grant(s, conn);
    var p := Pending(conn, false, false);
    GrantEffect(s, conn);
    hide Grant, PutPending;
    PutPendingUnique(s.retryPending, p);
    StoryKnown(s, conn);
    PutPendingFinds(s.retryPending, p, conn);
    forall c: nat | c != conn ensures SameFor(s, s', c) { PutPendingFinds(s.retryPending, p, c); }
    HistoryGoesOnTwice(s, Granted(SenderRole, conn), Granted(ReceiverRole, conn), s');
  }

  /** Flags only fall, and whoever stops waiting for `conn` leaves it followed. */
  predicate Settled(s: Relay, s': Relay, conn: nat) {
    && s'.alive == s.alive && s.early <= s'.early
    && s'.sender.requested <= s.sender.requested && s'.receiver.requested <= s.receiver.requested
    && (s'.sender.hand == s.sender.hand || s.sender.hand == RetryWaiting(conn))
    && (s'.receiver.hand == s.receiver.hand || s.receiver.hand == RetryWaiting(conn))
    && s.retryTasks.Keys - {conn} <= s'.retryTasks.Keys
    && (BothRequested(s', conn) ==> Waits(s', conn))
    && (conn in s'.sender.requested ==> Followed(s', SenderRole, conn))
    && (conn in s'.receiver.requested ==> Followed(s', ReceiverRole, conn))
  }

  lemma SettledFollowed(s: Relay, s': Relay, conn: nat)
    requires BothFlagsWait(s) && FlagsFollowed(s) && Settled(s, s', conn)
    ensures BothFlagsWait(s') && FlagsFollowed(s')
  {
    if s'.alive {
      forall c | BothRequested(s', c) ensures Waits(s', c) {
        assert BothRequested(s, c) && Waits(s, c);
      }
      forall r: Role, c | c in PeerOf(s', r).requested ensures Followed(s', r, c) {
        assert c in PeerOf(s, r).requested && Followed(s, r, c);
        if c != conn && c in s.retryTasks { assert c in s'.retryTasks.Keys; }
      }
    }
  }

  lemma TimerEnds(timers: seq<Timer>, tasks: map<nat, nat>, id: nat)
    requires Registered(timers, tasks) && id < |timers| && Live(timers[id])
    ensures Registered(timers[id := Timer(timers[id].conn, Over)], tasks - {timers[id].conn})
    ensures forall c :: Spent(timers[id := Timer(timers[id].conn, Over)], tasks - {timers[id].conn}, c)
                    ==> Spent(timers, tasks, c) && c != timers[id].conn
    ensures Registered(timers[id := Timer(timers[id].conn, Over)], tasks)
    ensures forall c :: Spent(timers[id := Timer(timers[id].conn, Over)], tasks, c)
                    ==> Spent(timers, tasks, c) || c == timers[id].conn
  {
    var conn := timers[id].conn;
    var timers', tasks' := timers[id := Timer(conn, Over)], tasks - {conn};
    forall c | Spent(timers', tasks', c) ensures Spent(timers, tasks, c) && c != conn {
      assert tasks'[c] == tasks[c];
      assert c != conn;
      assert tasks[c] != id;
    }
  }

  lemma GrantTimers(s: Relay, conn: nat)
    requires TimersRegistered(s) && SpentTimers(s)
    ensures TimersRegistered(Grant(s, conn)) && SpentTimers(Grant(s, conn))
  {
    var timers, tasks := Cancelled(s.timers, s.retryTasks, conn), s.retryTasks - {conn};
    if conn in s.retryTasks {
      var id := s.retryTasks[conn];
      if Live(s.timers[id]) { TimerEnds(s.timers, s.retryTasks, id); }
      else { assert s.timers[id := Timer(conn, Over)] == s.timers; }
    }
    var s' := Grant(s, conn);
    assert s'.timers == timers && s'.retryTasks == tasks by { hide PutPending, Cancelled; }
    hide Grant;
    forall c | s.alive && Spent(timers, tasks, c) ensures BothRequested(s', c) {
      assert tasks[c] == s.retryTasks[c] && c != conn;
      assert Spent(s.timers, s.retryTasks, c);
      GrantEffect(s, conn);
    }
  }

  lemma PendingChanged(s: Relay, ps: seq<Pending>)
    requires Control(s)
    requires s.alive ==> BothIn(s) && forall i :: 0 <= i < |ps| ==> !(ps[i].sender && ps[i].receiver)
    ensures Control(s.(retryPending := ps))
  {
    QuietParts(s, s.(retryPending := ps));
  }

  lemma GrantSettles(s: Relay, role: Role, conn: nat)
    requires PeerOf(s, role).hand == RetryWaiting(conn)
    ensures Settled(s, SetHand(Grant(s, conn), role, Free), conn)
  {
    hide PutPending, Cancelled;
    assert Grant(s, conn).retryTasks.Keys == s.retryTasks.Keys - {conn};
  }

  /** After a grant no timer for this connection is left, and no flag. */
  lemma GrantKeeps(s: Relay, role: Role, conn: nat)
    requires Control(s) && s.alive && BothIn(s) && BothRequested(s, conn)
    requires PeerOf(s, role).hand == RetryWaiting(conn)
    ensures Control(SetHand(Grant(s, conn), role, Free))
  {
    var s1 := Grant(s, conn);
    var s' := SetHand(s1, role, Free);
    GrantTimers(s, conn);
    GrantSettles(s, role, conn);
    assert TimersRegistered(s') && SpentTimers(s');
    hide Registered, Spent, Settled;
    SettledFollowed(s, s', conn);
    var ps := PutPending(s.retryPending, Pending(conn, false, false));
    forall i | 0 <= i < |ps| ensures !(ps[i].sender && ps[i].receiver) {
      FromPutPending(s.retryPending, Pending(conn, false, false), i);
    }
    assert Presence(s');
  }

  lemma FromPutPending(ps: seq<Pending>, p: Pending, i: nat)
    requires i < |PutPending(ps, p)|
    ensures PutPending(ps, p)[i] == p || PutPending(ps, p)[i] in ps
    decreases |ps|
  {
    if ps != [] && ps[0].conn != p.conn && i > 0 { FromPutPending(ps[1..], p, i - 1); }
  }

  lemma StartKeepsTimers(s: Relay, conn: nat)
    requires TimersRegistered(s) && SpentTimers(s)
    ensures TimersRegistered(StartTimer(s, conn)) && SpentTimers(StartTimer(s, conn))
  {
    var s' := StartTimer(s, conn);
    forall c | s.alive && Spent(s'.timers, s'.retryTasks, c) ensures BothRequested(s', c) {
      assert c in s.retryTasks && s'.retryTasks[c] == s.retryTasks[c];
      assert Spent(s.timers, s.retryTasks, c);
    }
  }

  lemma WaitSettles(s: Relay, role: Role, conn: nat)
    requires !BothRequested(s, conn) && PeerOf(s, role).hand == RetryWaiting(conn)
    ensures Settled(s, SetHand(StartTimer(s, conn), role, Free), conn)
    ensures var s' := StartTimer(s, conn);
            SameFlags(s, s') && s'.alive == s.alive && s'.senderIn == s.senderIn && s'.receiverIn == s.receiverIn
  {
    assert s.retryTasks.Keys <= StartTimer(s, conn).retryTasks.Keys;
  }

  lemma WaitKeeps(s: Relay, role: Role, conn: nat)
    requires Control(s) && s.alive && BothIn(s) && !BothRequested(s, conn)
    requires PeerOf(s, role).hand == RetryWaiting(conn)
    ensures Control(SetHand(StartTimer(s, conn), role, Free))
  {
    StartKeepsTimers(s, conn);
    var s1 := StartTimer(s, conn);
    var s' := SetHand(s1, role, Free);
    WaitSettles(s, role, conn);
    hide StartTimer, Registered, Spent, Settled;
    SettledFollowed(s, s', conn);
  }

  lemma EarlyKeeps(s: Relay, role: Role, conn: nat)
    requires Control(s) && s.alive && !BothIn(s) && PeerOf(s, role).hand == RetryWaiting(conn)
    ensures Control(SetHand(s.(early := s.early + {(role, conn)}), role, Free))
  {
    var s' := SetHand(s.(early := s.early + {(role, conn)}), role, Free);
    assert PeerPresent(s, SenderRole) && PeerPresent(s, ReceiverRole);
    SettledFollowed(s, s', conn);
    assert SpentTimers(s');
  }

  // ---------- a timer decides ----------

  lemma RejectTold(s: Relay, role: Role, conn: nat)
    requires HistoryTells(s) && conn in PeerOf(s, role).requested && conn !in PeerOf(s, Other(role)).requested
    ensures HistoryTells(Reject(s, role, conn))
  {
    StoryKnown(s, conn);
    HistoryGoesOn(s, Rejected(role, conn), Reject(s, role, conn));
  }

  lemma TimeoutTold(s: Relay, conn: nat)
    requires HistoryTells(s)
    ensures HistoryTells(DecideTimeout(s, conn))
  {
    if s.alive && BothIn(s) && !BothRequested(s, conn) {
      var s1 := if conn in s.sender.requested then Reject(s, SenderRole, conn)
                else if conn in s.receiver.requested then Reject(s, ReceiverRole, conn)
                else s;
      if conn in s.sender.requested { RejectTold(s, SenderRole, conn); }
      else if conn in s.receiver.requested { RejectTold(s, ReceiverRole, conn); }
      HistoryUntouched(s1, DecideTimeout(s, conn));
    }
  }

  lemma TimeoutTimers(s: Relay, id: nat)
    requires TimersRegistered(s) && SpentTimers(s) && BothIn(s) && id < |s.timers| && s.timers[id].pc.Awake?
    ensures TimersRegistered(DecideTimeout(TimerOver(s, id), s.timers[id].conn))
    ensures SpentTimers(DecideTimeout(TimerOver(s, id), s.timers[id].conn))
  {
    var conn := s.timers[id].conn;
    var s' := DecideTimeout(TimerOver(s, id), conn);
    TimerEnds(s.timers, s.retryTasks, id);
    hide Registered;
    forall c | s.alive && Spent(s'.timers, s'.retryTasks, c) ensures BothRequested(s', c) {
      if c != conn { assert BothRequested(s, c); }
    }
  }

  function TimerOver(s: Relay, id: nat): Relay
    requires id < |s.timers|
  {
    s.(timers := s.timers[id := Timer(s.timers[id].conn, Over)])
  }

  lemma TimeoutKeeps(s: Relay, id: nat)
    requires Control(s) && id < |s.timers| && s.timers[id].pc.Awake?
    ensures Control(DecideTimeout(TimerOver(s, id), s.timers[id].conn))
  {
    var conn := s.timers[id].conn;
    var s' := DecideTimeout(TimerOver(s, id), conn);
    if s.alive {
      TimeoutTimers(s, id);
      assert conn in s.retryTasks by { assert Live(s.timers[id]); }
      hide TimersRegistered;
      if BothRequested(s, conn) { assert Waits(s, conn); }
      SettledFollowed(s, s', conn);
    } else {
      assert Live(s.timers[id]);
      DeadKeepsTimers(s, id);
    }
  }

  lemma DeadKeepsTimers(s: Relay, id: nat)
    requires Control(s) && !s.alive && id < |s.timers|
    ensures Control(TimerOver(s, id))
  {
  }

  lemma WakeKeeps(s: Relay, id: nat)
    requires Control(s) && id < |s.timers| && s.timers[id].pc.Sleeping?
    ensures Control(s.(timers := s.timers[id := s.timers[id].(pc := Awake)]))
  {
    var s' := s.(timers := s.timers[id := s.timers[id].(pc := Awake)]);
    QuietParts(s, s');
    assert Live(s.timers[id]);
    forall c | s.alive && Spent(s'.timers, s'.retryTasks, c) ensures BothRequested(s', c) {
      assert Spent(s.timers, s.retryTasks, c);
    }
  }

  // ---------- new ports ----------

  lemma FindAt(ps: seq<Pending>, i: nat)
    requires Unique(ps) && i < |ps|
    ensures Find(ps, ps[i].conn) == Some(ps[i])
    decreases |ps|
  {
    if i > 0 {
      assert Unique(ps[1..]);
      FindAt(ps[1..], i - 1);
    }
  }

  lemma FindAfterUpdate(ps: seq<Pending>, i: nat, p: Pending, c: nat)
    requires i < |ps| && p.conn == ps[i].conn && c != p.conn
    ensures Find(ps[i := p], c) == Find(ps, c)
    decreases |ps|
  {
    if i > 0 {
      assert ps[i := p][1..] == ps[1..][i - 1 := p];
      FindAfterUpdate(ps[1..], i - 1, p, c);
    } else {
      assert ps[i := p][1..] == ps[1..];
    }
  }

  lemma FindAfterRemoval(ps: seq<Pending>, i: nat, c: nat)
    requires Unique(ps) && i < |ps|
    ensures Find(ps[..i] + ps[i + 1..], c) == if c == ps[i].conn then None else Find(ps, c)
    decreases |ps|
  {
    var r := ps[..i] + ps[i + 1..];
    if i > 0 {
      assert Unique(ps[1..]);
      assert r[1..] == ps[1..][..i - 1] + ps[1..][i..];
      FindAfterRemoval(ps[1..], i - 1, c);
    } else {
      assert r == ps[1..];
      if c == ps[0].conn { FindNone(ps[1..], c); }
    }
  }

  lemma FindNone(ps: seq<Pending>, c: nat)
    requires forall i :: 0 <= i < |ps| ==> ps[i].conn != c
    ensures Find(ps, c) == None
    decreases |ps|
  {
    if ps != [] { FindNone(ps[1..], c); }
  }

  lemma AcceptTold(s: Relay, role: Role, i: nat, s': Relay)
    requires HistoryTells(s) && i < |s.retryPending| && !s.retryPending[i].Has(role)
    requires s'.sender.requested == s.sender.requested && s'.receiver.requested == s.receiver.requested
    requires s'.retryPending == s.retryPending[i := s.retryPending[i].With(role)]
    requires s'.log == s.log + [PortsAccepted(role, s.retryPending[i].conn)]
    ensures HistoryTells(s')
  {
    var ps := s.retryPending;
    var p := ps[i].With(role);
    StoryKnown(s, p.conn);
    FindAt(ps, i);
    forall c: nat | c != p.conn ensures SameFor(s, s', c) { FindAfterUpdate(ps, i, p, c); }
    assert Unique(s'.retryPending);
    FindAt(s'.retryPending, i);
    HistoryGoesOn(s, PortsAccepted(role, p.conn), s');
  }

  lemma StartTold(s: Relay, role: Role, i: nat, s': Relay)
    requires HistoryTells(s) && i < |s.retryPending|
    requires !s.retryPending[i].Has(role) && s.retryPending[i].Has(Other(role))
    requires s'.sender.requested == s.sender.requested && s'.receiver.requested == s.receiver.requested
    requires s'.retryPending == s.retryPending[..i] + s.retryPending[i + 1..]
    requires s'.log == s.log + [PortsAccepted(role, s.retryPending[i].conn), RetryStarted(s.retryPending[i].conn)]
    ensures HistoryTells(s')
  {
    var ps := s.retryPending;
    var conn := ps[i].conn;
    StoryKnown(s, conn);
    FindAt(ps, i);
    forall c: nat ensures c != conn ==> SameFor(s, s', c) { FindAfterRemoval(ps, i, c); }
    FindAfterRemoval(ps, i, conn);
    HistoryGoesOnTwice(s, PortsAccepted(role, conn), RetryStarted(conn), s');
  }

  lemma PortsTold(s: Relay, role: Role, ports: seq<nat>)
    requires HistoryTells(s) && ports != []
    ensures HistoryTells(DecidePorts(s, role, ports).0)
  {
    var i := FirstOpen(s.retryPending, role);
    if s.alive && i < |s.retryPending| {
      hide HistoryTells, FirstOpen;
      var p := s.retryPending[i].With(role);
      var s1 := Accept(s, role, p.conn, ports[0]);
      var s' := DecidePorts(s, role, ports).0;
      assert SameFlags(s, s1.(retryPending := s.retryPending)) && s1.log == s.log + [PortsAccepted(role, p.conn)];
      hide Accept;
      if p.sender && p.receiver && BothIn(s) {
        StartTold(s, role, i, s');
      } else {
        AcceptTold(s, role, i, s');
      }
    }
  }

  /** What taking in new ports does to the grants. */
  function PendingAfter(s: Relay, role: Role): seq<Pending> {
    var ps := s.retryPending;
    var i := FirstOpen(ps, role);
    if !s.alive || i == |ps| then ps
    else if ps[i].Has(Other(role)) && BothIn(s) then ps[..i] + ps[i + 1..]
    else ps[i := ps[i].With(role)]
  }

  lemma PortsPending(s: Relay, role: Role, ports: seq<nat>)
    requires ports != []
    ensures DecidePorts(s, role, ports).0.retryPending == PendingAfter(s, role)
  {
    hide FirstOpen, Accept;
  }

  lemma PortsQuiet(s: Relay, role: Role, ports: seq<nat>)
    requires ports != []
    ensures var d := DecidePorts(s, role, ports).0; Quiet(s, d.(retryPending := s.retryPending))
  {
    var i := FirstOpen(s.retryPending, role);
    if s.alive && i < |s.retryPending| {
      var conn := s.retryPending[i].With(role).conn;
      var peer := PeerOf(s, role);
      OnePeerIsQuiet(s, role, peer.(bound := MapPort(peer.bound, conn, ports[0])));
      var s1 := Accept(s, role, conn, ports[0]);
      assert Quiet(s, s1);
      hide FirstOpen, Accept, Quiet;
      var d := DecidePorts(s, role, ports).0;
      BookkeepingIsQuiet(s, s1, d.retryPending, d.tasks, d.log);
    } else {
      QuietSelf(s);
    }
  }

  lemma BookkeepingIsQuiet(s: Relay, s1: Relay, ps: seq<Pending>, tasks: seq<Task>, log: seq<Event>)
    requires Quiet(s, s1)
    ensures Quiet(s, s1.(retryPending := ps, tasks := tasks, log := log).(retryPending := s.retryPending))
  {
  }

  lemma NothingPending(s: Relay, role: Role)
    requires !s.alive || s.retryPending == []
    ensures PendingAfter(s, role) == s.retryPending
  {
  }

  lemma PendingAfterTimely(s: Relay, role: Role)
    requires s.alive && BothIn(s) && NoneOverdue(s)
    ensures NoneOverdue(s.(retryPending := PendingAfter(s, role)))
  {
  }

  lemma PortsKeeps(s: Relay, role: Role, ports: seq<nat>, h: Handler)
    requires Control(s) && ports != [] && PeerOf(s, role).hand.PortsWaiting? && h.PortsTail?
    ensures Control(SetHand(DecidePorts(s, role, ports).0, role, h))
  {
    var s' := SetHand(DecidePorts(s, role, ports).0, role, h);
    var s1 := s'.(retryPending := s.retryPending);
    var ps := PendingAfter(s, role);
    PortsPending(s, role, ports);
    PortsQuiet(s, role, ports);
    hide DecidePorts, PendingAfter;
    assert Quiet(s, s1) by { hide Control; }
    QuietKeeps(s, s1);
    assert s' == s1.(retryPending := ps);
    if s.alive && s.retryPending != [] {
      assert BothIn(s) && NoneOverdue(s);
      PendingAfterTimely(s, role);
      hide Control;
      PendingChanged(s1, ps);
    } else {
      assert ps == s.retryPending by { NothingPending(s, role); }
    }
  }

  // ---------- every step, every run ----------

  lemma TaskIsQuiet(s: Relay, t: Task, now: real)
    requires TaskSection(s, t, now).Some?
    ensures var s' := TaskSection(s, t, now).value.0;
            Quiet(s, s') && s'.log == s.log + if t.pc.ClearStale? then [Cleared(t.conn)] else []
  {
    hide Settle, Quiet, NextConn;
    match t.pc
    case WaitResult =>
      if s.alive {
        SettleIsQuiet(s, SenderRole, t.conn);
        SettleIsQuiet(Settle(s, SenderRole, t.conn), ReceiverRole, t.conn);
        QuietTwice(s, Settle(s, SenderRole, t.conn), Settle(Settle(s, SenderRole, t.conn), ReceiverRole, t.conn));
      } else {
        QuietSelf(s);
      }
    case ClearStale =>
      var s' := TaskSection(s, t, now).value.0;
      ClearIsQuiet(s, t.conn, s'.(log := s.log));
      assert Quiet(s, s'.(log := s.log)) ==> Quiet(s, s') by { LogIsQuiet(s, s', s.log); }
    case ResetReady => ClearIsQuiet(s, t.conn, TaskSection(s, t, now).value.0);
    case _ => QuietSelf(s);
  }

  lemma LogIsQuiet(s: Relay, s': Relay, log: seq<Event>)
    ensures Quiet(s, s'.(log := log)) == Quiet(s, s')
  {
  }

  lemma QuietSelf(s: Relay)
    ensures Quiet(s, s)
  {
  }

  lemma QuietTwice(s: Relay, s1: Relay, s2: Relay)
    requires Quiet(s, s1) && Quiet(s1, s2)
    ensures Quiet(s, s2)
  {
  }

  lemma ClearIsQuiet(s: Relay, conn: nat, s': Relay)
    requires s'.sender.(ready := {}, results := map[]) == s.sender.(ready := {}, results := map[])
    requires s'.receiver.(ready := {}, results := map[]) == s.receiver.(ready := {}, results := map[])
    requires s'.(sender := s.sender, receiver := s.receiver, senderResults := map[], receiverResults := map[])
          == s.(senderResults := map[], receiverResults := map[])
    ensures Quiet(s, s')
  {
  }

  lemma SettleIsQuiet(s: Relay, role: Role, conn: nat)
    ensures Quiet(s, Settle(s, role, conn)) && Settle(s, role, conn).log == s.log
  {
    hide Quiet, SetResults;
    QuietSelf(s);
    ResultsAreQuiet(s, role, ResultsOf(s, role)[conn := Abandoned]);
    if conn in PeerOf(s, role).results {
      ResultsAreQuiet(s, role, ResultsOf(s, role)[conn := PeerOf(s, role).results[conn]]);
    }
  }

  lemma ResultsAreQuiet(s: Relay, role: Role, m: map<nat, ConnResult>)
    ensures Quiet(s, SetResults(s, role, m)) && SetResults(s, role, m).log == s.log
  {
  }

  /** One peer's record changes, but not its requests nor a waiting handler. */
  lemma OnePeerIsQuiet(s: Relay, role: Role, p: Peer)
    requires p.requested == PeerOf(s, role).requested && HandKept(PeerOf(s, role).hand, p.hand)
    ensures Quiet(s, SetPeer(s, role, p)) && SetPeer(s, role, p).log == s.log
  {
  }

  lemma OnePeerKeeps(s: Relay, role: Role, p: Peer)
    requires Inv(s) && p.requested == PeerOf(s, role).requested && HandKept(PeerOf(s, role).hand, p.hand)
    ensures Inv(SetPeer(s, role, p))
  {
    hide Control, HistoryTells;
    OnePeerIsQuiet(s, role, p);
    var s1 := SetPeer(s, role, p);
    hide SetPeer;
    QuietKeeps(s, s1);
    HistoryUntouched(s, s1);
  }

  lemma ResultKeeps(s: Relay, role: Role, conn: nat, result: ConnResult, s': Relay)
    requires Inv(s) && PeerOf(s, role).hand == ResultWaiting(conn, result)
    requires HandlerSection(s, role) == Some(s')
    ensures Inv(s')
  {
    var p := PeerOf(s, role).(hand := Free, results := PeerOf(s, role).results[conn := result]);
    var s1 := SetPeer(s, role, p).(log := s.log + [Recorded(role, conn, result)]);
    NotedWithPeer(s, role, p, Recorded(role, conn, result));
    assert s' == if s.alive then SetResults(s1, role, ResultsOf(s, role)[conn := result]) else s1;
    hide Control, HistoryTells, HandlerSection, SetPeer;
    QuietKeeps(s1, s');
    HistoryUntouched(s1, s');
  }

  lemma PortsDecided(s: Relay, role: Role, ports: seq<nat>, s': Relay)
    requires Inv(s) && PeerOf(s, role).hand == PortsWaiting(ports)
    requires HandlerSection(s, role) == Some(s')
    ensures Inv(s')
  {
    hide Control, HistoryTells, DecidePorts;
    var r := DecidePorts(s, role, ports);
    PortsTold(s, role, ports);
    PortsKeeps(s, role, ports, PortsTail(ports, r.1));
    HistoryUntouched(r.0, s');
  }

  lemma HandlerKeeps(s: Relay, role: Role, s': Relay)
    requires Inv(s) && HandlerSection(s, role) == Some(s')
    ensures Inv(s')
  {
    var p := PeerOf(s, role);
    hide Inv, DecideRetry, DecidePorts;
    match p.hand
    case RetryWaiting(conn) => RetryDecided(s, role, conn);
    case PortsWaiting(ports) => PortsDecided(s, role, ports, s');
    case ResultWaiting(conn, result) => ResultKeeps(s, role, conn, result, s');
    case PortsTail(ports, mapped) =>
      OnePeerKeeps(s, role, p.(hand := Free, bound := if mapped then p.bound else p.bound + ports));
    case Gone =>
    case Free =>
  }

  lemma RetryDecided(s: Relay, role: Role, conn: nat)
    requires Inv(s) && PeerOf(s, role).hand == RetryWaiting(conn)
    ensures Inv(SetHand(DecideRetry(s, role, conn), role, Free))
  {
    var s1 := DecideRetry(s, role, conn);
    var s' := SetHand(s1, role, Free);
    hide Control, HistoryTells, Grant, StartTimer;
    if !s.alive {
      DeadKeeps(s, s');
      HistoryUntouched(s, s');
    } else if !BothIn(s) {
      EarlyKeeps(s, role, conn);
      HistoryUntouched(s, s');
    } else if BothRequested(s, conn) {
      GrantKeeps(s, role, conn);
      GrantTold(s, conn);
      HistoryUntouched(s1, s');
    } else {
      WaitKeeps(s, role, conn);
      WaitLeavesFlags(s, conn);
      HistoryUntouched(s, s');
    }
  }

  lemma WaitLeavesFlags(s: Relay, conn: nat)
    ensures SameFlags(s, StartTimer(s, conn)) && StartTimer(s, conn).log == s.log
  {
  }

  lemma ReceiveKeeps(s: Relay, step: Step, s': Relay)
    requires step.RetryRequest? || step.AddPorts? || step.Ready? || step.Report?
    requires Inv(s) && Receive(s, step) == Some(s')
    ensures Inv(s')
  {
    hide Inv;
    var p := PeerOf(s, step.role);
    match step
    case RetryRequest(role, conn) => RequestReceived(s, role, conn, s');
    case Report(role, conn, result) =>
      NotedWithPeer(s, role, p.(hand := ResultWaiting(conn, result)), Reported(role, conn, result));
    case AddPorts(role, ports) => if ports != [] { OnePeerKeeps(s, role, p.(hand := PortsWaiting(ports))); }
    case Ready(role, conn) =>
      NotedWithPeer(s, role, p.(ready := p.ready + {conn}), ReadyReceived(role, conn));
  }

  lemma NotedWithPeer(s: Relay, role: Role, p: Peer, e: Event)
    requires Inv(s) && p.requested == PeerOf(s, role).requested && HandKept(PeerOf(s, role).hand, p.hand)
    requires IsNote(e)
    ensures Inv(SetPeer(s, role, p).(log := s.log + [e]))
  {
    var s1 := SetPeer(s, role, p);
    var s' := s1.(log := s.log + [e]);
    OnePeerKeeps(s, role, p);
    assert s' == s1.(log := s1.log + [e]);
    hide Control, HistoryTells, SetPeer;
    NoteTold(s1, e, s');
    QuietKeeps(s1, s');
  }

  lemma RequestReceived(s: Relay, role: Role, conn: nat, s': Relay)
    requires Inv(s) && Receive(s, RetryRequest(role, conn)) == Some(s')
    ensures Inv(s')
  {
    hide Control, HistoryTells;
    var s1 := s'.(log := s.log);
    RequestKeeps(s, role, conn, s1);
    RequestTold(s, role, conn, s');
    QuietKeeps(s1, s');
  }

  lemma TimerKeeps(s: Relay, step: Step, s': Relay)
    requires step.TimerWakes? || step.TimerDecides?
    requires Inv(s) && Apply(s, step) == Some(s')
    ensures Inv(s')
  {
    hide Control, HistoryTells, DecideTimeout;
    if step.TimerWakes? {
      WakeKeeps(s, step.id);
      HistoryUntouched(s, s');
    } else {
      var s1 := TimerOver(s, step.id);
      TimeoutKeeps(s, step.id);
      HistoryUntouched(s, s1);
      TimeoutTold(s1, s.timers[step.id].conn);
    }
  }

  lemma TaskKeeps(s: Relay, k: nat, now: real, s': Relay)
    requires Inv(s) && Apply(s, TaskGoesOn(k, now)) == Some(s')
    ensures Inv(s')
  {
    hide Control, HistoryTells, TaskSection;
    TaskIsQuiet(s, s.tasks[k], now);
    QuietKeeps(s, s');
    if s.tasks[k].pc.ClearStale? {
      NoteTold(s, Cleared(s.tasks[k].conn), s');
    } else {
      HistoryUntouched(s, s');
    }
  }

  lemma LeaveKeeps(s: Relay, role: Role, s': Relay)
    requires Inv(s) && Apply(s, Disconnect(role)) == Some(s')
    ensures Inv(s')
  {
    hide Control, HistoryTells;
    DeadKeeps(s, s');
    HistoryUntouched(s, s');
  }

  lemma StepKeeps(s: Relay, step: Step, s': Relay)
    requires Inv(s) && Apply(s, step) == Some(s')
    ensures Inv(s')
  {
    hide Control, HistoryTells, HandlerSection, Receive, TaskSection, DecideTimeout;
    match step
    case Register(role) =>
      JoinKeeps(s, role, s');
      HistoryUntouched(s, s');
    case Disconnect(role) =>
      LeaveKeeps(s, role, s');
    case HandlerGoesOn(role) => HandlerKeeps(s, role, s');
    case RetryRequest(_, _) => ReceiveKeeps(s, step, s');
    case AddPorts(_, _) => ReceiveKeeps(s, step, s');
    case Ready(_, _) => ReceiveKeeps(s, step, s');
    case Report(_, _, _) => ReceiveKeeps(s, step, s');
    case TimerWakes(_) => TimerKeeps(s, step, s');
    case TimerDecides(_) => TimerKeeps(s, step, s');
    case TaskGoesOn(k, now) => TaskKeeps(s, k, now, s');
    case _ =>
      QuietKeeps(s, s');
      HistoryUntouched(s, s');
  }

  lemma {:induction false} RunKeeps(s: Relay, steps: seq<Step>, s': Relay)
    requires Inv(s) && Run(s, steps) == Some(s')
    ensures Inv(s')
    decreases |steps|
  {
    if steps != [] {
      var s1 := Run(s, steps[..|steps| - 1]).value;
      RunKeeps(s, steps[..|steps| - 1], s1);
      StepKeeps(s1, steps[|steps| - 1], s');
    }
  }

  lemma ReachableInv(s: Relay)
    requires Reachable(s)
    ensures Inv(s)
  {
    var s0, steps :| Init(s0) && Run(s0, steps) == Some(s);
    assert Inv(s0);
    RunKeeps(s0, steps, s);
  }

  // ---------- what the peers are promised ----------

  /** Every run of the relay tells a legal history, and the flags say what is open in it. */
  lemma HistoriesAreLegal(s: Relay)
    requires Reachable(s)
    ensures Legal(s.log)
    ensures forall role: Role, c: nat :: c in PeerOf(s, role).requested <==> StoryOf(s.log, c).Open(role)
  {
    ReachableInv(s);
    forall role: Role, c: nat
      ensures c in PeerOf(s, role).requested <==> StoryOf(s.log, c).Open(role)
    {
      StoryKnown(s, c);
    }
  }

  /** Per role and connection no more answers than requests; grants reach both roles. */
  lemma AnswersBounded(s: Relay, role: Role, conn: nat)
    requires Reachable(s)
    ensures Answers(s.log, role, conn) + (if conn in PeerOf(s, role).requested then 1 else 0)
         <= Occurrences(s.log, Requested(role, conn))
    ensures Occurrences(s.log, Granted(SenderRole, conn)) == Occurrences(s.log, Granted(ReceiverRole, conn))
  {
    HistoriesAreLegal(s);
    LegalAnswers(s.log, role, conn);
    LegalGrants(s.log, conn);
    ReachableInv(s);
    StoryKnown(s, conn);
  }

  /** Never more retries started than granted, counting grants still waiting for ports. */
  lemma StartsBounded(s: Relay, conn: nat)
    requires Reachable(s)
    ensures Occurrences(s.log, RetryStarted(conn)) + (if Find(s.retryPending, conn).Some? then 1 else 0)
         <= Occurrences(s.log, Granted(SenderRole, conn))
  {
    AnswersBounded(s, SenderRole, conn);
    HistoriesAreLegal(s);
    LegalGrants(s.log, conn);
    ReachableInv(s);
    StoryKnown(s, conn);
  }

  /** A retry starts only on exactly one accepted `add_ports` of each role since the
      latest grant, and only once for it. */
  lemma {:induction false} StartsFollowPorts(log: seq<Event>, i: nat)
    requires Legal(log) && i < |log| && log[i].RetryStarted?
    ensures var st := StoryOf(log[..i], log[i].conn);
            st.granted && st.portsS == 1 && st.portsR == 1 && !st.started
    decreases |log|
  {
    if i < |log| - 1 {
      assert log[..|log| - 1][..i] == log[..i];
      StartsFollowPorts(log[..|log| - 1], i);
    }
  }

  /** Both flags are up only while a handler that raised one still waits for the lock,
      which grants as soon as it gets it: no grant is lost. */
  lemma BothFlagsMeanGrantComing(s: Relay, conn: nat)
    requires Reachable(s) && s.alive && BothRequested(s, conn)
    ensures exists role: Role ::
      PeerOf(s, role).hand == RetryWaiting(conn) && GrantedBy(DecideRetry(s, role, conn), s, conn)
  {
    ReachableInv(s);
    assert Waits(s, conn);
    var role := if s.sender.hand == RetryWaiting(conn) then SenderRole else ReceiverRole;
    GrantAnswers(s, role, conn);
  }

  predicate GrantedBy(s': Relay, s: Relay, conn: nat) {
    && s'.log == s.log + [Granted(SenderRole, conn), Granted(ReceiverRole, conn)]
    && conn !in s'.sender.requested && conn !in s'.receiver.requested
    && conn !in s'.sender.ready && conn !in s'.receiver.ready
    && Find(s'.retryPending, conn) == Some(Pending(conn, false, false))
  }

  lemma GrantAnswers(s: Relay, role: Role, conn: nat)
    requires s.alive && BothIn(s) && BothRequested(s, conn)
    ensures GrantedBy(DecideRetry(s, role, conn), s, conn)
  {
    PutPendingFinds(s.retryPending, Pending(conn, false, false), conn);
    assert Grant(s, conn).retryPending == PutPending(s.retryPending, Pending(conn, false, false));
  }

  /** An open request is never forgotten: a handler is about to decide it, or a timer
      will, unless it came before the other peer had joined. */
  lemma OpenRequestsAreFollowed(s: Relay, role: Role, conn: nat)
    requires Reachable(s) && s.alive && conn in PeerOf(s, role).requested
    ensures || Waits(s, conn)
            || (conn in s.retryTasks && s.retryTasks[conn] < |s.timers|
                && s.timers[s.retryTasks[conn]].conn == conn && Live(s.timers[s.retryTasks[conn]]))
            || (role, conn) in s.early
  {
    ReachableInv(s);
    assert Followed(s, role, conn);
    if conn in s.retryTasks && !Live(s.timers[s.retryTasks[conn]]) {
      assert Spent(s.timers, s.retryTasks, conn);
      assert BothRequested(s, conn);
    }
  }

  /** While the session lives, a grant both peers have sent ports for is already under way. */
  lemma NoRetryOverdue(s: Relay, p: Pending)
    requires Reachable(s) && s.alive && p in s.retryPending
    ensures !(p.sender && p.receiver)
    ensures Find(s.retryPending, p.conn) == Some(p)
  {
    ReachableInv(s);
    var i :| 0 <= i < |s.retryPending| && s.retryPending[i] == p;
    FindAt(s.retryPending, i);
  }

  /** Accepted ports take exactly the slot of the oldest grant still lacking this role,
      and nothing else of the list; the other peer's list is left alone. */
  lemma PortsTakeOneSlot(s: Relay, role: Role, ports: seq<nat>, p: Pending)
    requires ports != [] && s.alive && p in s.retryPending && !p.Has(role)
    ensures var i := FirstOpen(s.retryPending, role);
            var s' := DecidePorts(s, role, ports).0;
            && DecidePorts(s, role, ports).1
            && i < |s.retryPending| && (forall k :: 0 <= k < i ==> s.retryPending[k].Has(role))
            && PeerOf(s', Other(role)).bound == PeerOf(s, Other(role)).bound
            && OneSlot(PeerOf(s, role).bound, s.retryPending[i].conn, ports[0], PeerOf(s', role).bound)
  {
    var i := FirstOpen(s.retryPending, role);
    var j :| 0 <= j < |s.retryPending| && s.retryPending[j] == p;
    assert i <= j;
    var s' := DecidePorts(s, role, ports).0;
    var s1 := Accept(s, role, s.retryPending[i].conn, ports[0]);
    assert PeerOf(s1, role).bound == MapPort(PeerOf(s, role).bound, s.retryPending[i].conn, ports[0])
        && PeerOf(s1, Other(role)).bound == PeerOf(s, Other(role)).bound;
    hide Accept, FirstOpen;
    assert s'.sender == s1.sender && s'.receiver == s1.receiver;
  }

  predicate OneSlot(was: seq<nat>, conn: nat, port: nat, now: seq<nat>) {
    if conn < |was| then
      |now| == |was| && now[conn] == port && forall k :: 0 <= k < |was| && k != conn ==> now[k] == was[k]
    else now == was + [port]
  }

  /** A request that comes before the other peer has joined gets no timer: here the
      handler is done with it and nothing is left to answer it. */
  lemma EarlyRequestHasNoTimer()
    ensures exists s: Relay ::
      Reachable(s) && s.alive && 0 in s.sender.requested && !Waits(s, 0) && 0 !in s.retryTasks
  {
    var s0 := Relay(true, false, false, false, NEW_PEER, NEW_PEER, map[], map[], [], map[], [], [], [], {});
    var a, b, c := Register(SenderRole), RetryRequest(SenderRole, 0), HandlerGoesOn(SenderRole);
    var s1, s2 := Apply(s0, a).value, Apply(Apply(s0, a).value, b).value;
    var s3 := Apply(s2, c).value;
    assert [a][..0] == [] && [a, b][..1] == [a] && [a, b, c][..2] == [a, b];
    assert Run(s0, []) == Some(s0);
    assert Run(s0, [a]) == Some(s1);
    assert Run(s0, [a, b]) == Some(s2);
    assert Run(s0, [a, b, c]) == Some(s3);
    assert Init(s0);
    assert Reachable(s3);
  }
}
