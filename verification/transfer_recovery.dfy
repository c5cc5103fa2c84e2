/** How a transfer under way can be brought to success: the runs behind `TransferOutlook`. One
    usable stream does the work, the others get out of its way without losing a number. */
module TransferRecovery {
  import opened Wrappers
  import opened TransferProtocol
  import opened ChunkPlan
  import opened Receiver
  import opened TransferSystem
  import opened TransferProofs
  import opened TransferSuccess

  // ---------- runs ----------

  ghost predicate Leads(cfg: Config, s: State, s': State)
    requires Valid(cfg)
  {
    exists later: seq<Step> :: Run(cfg, s, later) == Some(s')
  }

  lemma Stays(cfg: Config, s: State)
    requires Valid(cfg)
    ensures Leads(cfg, s, s)
  {
    assert Run(cfg, s, []) == Some(s);
  }

  lemma LeadsOn(cfg: Config, s: State, s1: State, s2: State)
    requires Valid(cfg) && Leads(cfg, s, s1) && Leads(cfg, s1, s2)
    ensures Leads(cfg, s, s2)
  {
    var a: seq<Step> :| Run(cfg, s, a) == Some(s1);
    var b: seq<Step> :| Run(cfg, s1, b) == Some(s2);
    RunConcat(cfg, s, a, b);
    assert Run(cfg, s, a + b) == Some(s2);
  }

  lemma OneStep(cfg: Config, s: State, step: Step, s': State)
    requires Valid(cfg) && Apply(cfg, s, step) == Some(s')
    ensures Leads(cfg, s, s')
  {
    assert Run(cfg, s, []) == Some(s);
    Onward(cfg, s, [], s, step, s');
  }

  // ---------- streams ----------

  /** The sender's worker has left with an error or is about to. */
  predicate Gone(l: Link) {
    l.snd.Dead? || (l.snd.Returning? && l.snd.dying)
  }

  predicate Usable(l: Link) {
    !Gone(l) && !l.rcv.Failed?
  }

  predicate InHand(l: Link) {
    l.snd.Holding? || l.snd.Awaiting? || l.snd.Returning?
  }

  /** A number is queued, or can be put back by another stream than `w`. */
  predicate Spare(s: State, w: nat) {
    s.pending != [] || exists h :: 0 <= h < |s.links| && h != w && InHand(s.links[h])
  }

  // ---------- the other streams are shut ----------

  /** Under way, nothing lost, and stream `w` usable. */
  ghost predicate Hopeful(cfg: Config, s: State, w: nat)
    requires Valid(cfg)
  {
    Reachable(cfg, s) && s.lost == [] && s.smain == Sending && w < |s.links| && Usable(s.links[w])
  }

  /** The stream takes no further part: its sender holds nothing, its receiver is gone. */
  predicate Shut(l: Link) {
    (l.snd.Idle? || SenderFinished(l)) && ReceiverFinished(l)
  }

  function StepsToShut(l: Link): nat {
    (match l.snd
     case Holding(_) => 3
     case Awaiting(_) => 2
     case Returning(_, _) => 1
     case _ => 0) +
    match l.rcv
    case Written(_) => 3
    case Flagged(_) => 2
    case Left => 0
    case Failed => 0
    case _ => 1
  }

  /** What shuts a stream without losing a number: a failed answer puts it back. */
  function ShutMove(l: Link, i: nat): Step {
    match l.snd
    case Holding(_) => Send(i)
    case Awaiting(_) => AnswerFail(i)
    case Returning(_, _) => Requeue(i)
    case _ =>
      match l.rcv
      case Got(_) => WriteFail(i, 0)
      case Written(_) => Swap(i)
      case Flagged(_) => Count(i)
      case Answering(_) => ReplyFail(i, false)
      case _ => ListenFail(i)
  }

  /** A worker that will not be idle again if its answer fails. */
  predicate Leaving(l: Link) {
    l.snd.Holding? || l.snd.Awaiting? || Gone(l)
  }

  /** What a step of one stream leaves alone. */
  ghost predicate OnlyLink(s: State, s': State, i: nat) {
    && |s'.links| == |s.links| && i < |s.links| && s'.links == s.links[i := s'.links[i]]
    && s'.lost == s.lost && s'.smain == s.smain && s'.completed >= s.completed
  }

  /** No number vanishes, and who leaves does not come back. */
  predicate Sheds(s: State, s': State, i: nat)
    requires i < |s.links| && i < |s'.links|
  {
    && (s.pending != [] || InHand(s.links[i]) ==> s'.pending != [] || InHand(s'.links[i]))
    && (s.pending != [] ==> s'.pending != [])
    && (Leaving(s.links[i]) ==> Leaving(s'.links[i])) && (Gone(s.links[i]) ==> Gone(s'.links[i]))
  }

  lemma CanShut(cfg: Config, s: State, i: nat) returns (s': State)
    requires Valid(cfg) && Reachable(cfg, s) && i < |s.links| && !Shut(s.links[i])
    ensures Apply(cfg, s, ShutMove(s.links[i], i)) == Some(s') && OnlyLink(s, s', i)
    ensures StepsToShut(s'.links[i]) < StepsToShut(s.links[i])
    ensures Sheds(s, s', i)
  {
    HandsAreInBounds(cfg, s, i);
    FlagsInBounds(cfg, s, i);
    hide Reachable;
    var step := ShutMove(s.links[i], i);
    if IsSenderStep(step) {
      s' := SenderCanShut(cfg, s, i);
    } else {
      s' := ReceiverCanShut(cfg, s, i);
    }
  }

  lemma SenderCanShut(cfg: Config, s: State, i: nat) returns (s': State)
    requires Valid(cfg) && i < |s.links| && IsSenderStep(ShutMove(s.links[i], i))
    requires s.links[i].snd.Holding? ==> s.links[i].snd.id < Total(cfg.src)
    ensures SenderStep(cfg, s, ShutMove(s.links[i], i), i) == Some(s') && OnlyLink(s, s', i)
    ensures StepsToShut(s'.links[i]) < StepsToShut(s.links[i])
    ensures Sheds(s, s', i)
  {
    hide ChunkOf;
    s' := SenderStep(cfg, s, ShutMove(s.links[i], i), i).value;
  }

  lemma ReceiverCanShut(cfg: Config, s: State, i: nat) returns (s': State)
    requires Valid(cfg) && i < |s.links| && !IsSenderStep(ShutMove(s.links[i], i)) && !Shut(s.links[i])
    requires |s.disk.flags| == Total(cfg.src)
    requires s.links[i].rcv.Got? ==> OffsetOf(s.links[i].rcv) + |s.links[i].rcv.chunk.payload| <= |s.disk.file|
    requires s.links[i].rcv.Written? ==> s.links[i].rcv.id < |s.disk.flags|
    requires s.links[i].rcv.Flagged? ==> s.links[i].rcv.id < Total(cfg.src)
    ensures ReceiverStep(cfg, s, ShutMove(s.links[i], i), i) == Some(s') && OnlyLink(s, s', i)
    ensures StepsToShut(s'.links[i]) < StepsToShut(s.links[i])
    ensures Sheds(s, s', i)
  {
    hide WriteAt;
    s' := ReceiverStep(cfg, s, ShutMove(s.links[i], i), i).value;
  }

  lemma FlagsInBounds(cfg: Config, s: State, i: nat)
    requires Valid(cfg) && Reachable(cfg, s) && i < |s.links|
    ensures |s.disk.flags| == Total(cfg.src)
    ensures s.links[i].rcv.Flagged? ==> s.links[i].rcv.id < Total(cfg.src)
    ensures !s.smain.Sending? || !s.links[i].rcv.Left?
    ensures s.links[i].rcv.Left? ==> s.completed == Total(cfg.src)
  {
    ReachableInv(cfg, s);
    assert LinkInv(cfg.src, ViewOf(cfg, s), s.links[i]);
  }

  lemma {:induction false} ShutLink(cfg: Config, s: State, w: nat, i: nat) returns (s': State)
    requires Valid(cfg) && Hopeful(cfg, s, w) && i < |s.links| && i != w
    ensures Leads(cfg, s, s') && Hopeful(cfg, s', w) && |s'.links| == |s.links|
    ensures s'.links == s.links[i := s'.links[i]] && Shut(s'.links[i]) && Sheds(s, s', i)
    decreases StepsToShut(s.links[i])
  {
    s' := s;
    Stays(cfg, s);
    if !Shut(s.links[i]) {
      var s1 := CanShut(cfg, s, i);
      var step := ShutMove(s.links[i], i);
      hide Apply, ShutMove, Shut, StepsToShut, Reachable, Leads, Leaving, Gone, InHand;
      Further(cfg, s, step, s1);
      OneStep(cfg, s, step, s1);
      s' := ShutLink(cfg, s1, w, i);
      LeadsOn(cfg, s, s1, s');
    }
  }

  lemma SpareStays(s: State, s': State, w: nat, i: nat)
    requires i < |s.links| == |s'.links| && i != w && s'.links == s.links[i := s'.links[i]] && Sheds(s, s', i)
    ensures Spare(s, w) ==> Spare(s', w)
  {
    if Spare(s, w) && s'.pending == [] {
      var h :| 0 <= h < |s.links| && h != w && InHand(s.links[h]);
      assert InHand(s'.links[h]);
    }
  }

  lemma {:induction false} ShutOthers(cfg: Config, s: State, w: nat, n: nat) returns (s': State)
    requires Valid(cfg) && Hopeful(cfg, s, w) && n <= |s.links|
    ensures Leads(cfg, s, s') && Hopeful(cfg, s', w) && |s'.links| == |s.links|
    ensures forall i :: 0 <= i < n && i != w ==> Shut(s'.links[i])
    ensures forall i :: 0 <= i < |s.links| && Gone(s.links[i]) ==> Gone(s'.links[i])
    ensures Spare(s, w) ==> Spare(s', w)
  {
    s' := s;
    Stays(cfg, s);
    if n > 0 {
      var s1 := ShutOthers(cfg, s, w, n - 1);
      s' := s1;
      if n - 1 != w {
        s' := ShutLink(cfg, s1, w, n - 1);
        SpareStays(s1, s', w, n - 1);
        hide Shut, Leads, Reachable, Spare, Gone;
        LeadsOn(cfg, s, s1, s');
      }
    }
  }

  // ---------- the one stream goes on ----------

  /** Only stream `w` is left to work. */
  ghost predicate Alone(cfg: Config, s: State, w: nat)
    requires Valid(cfg)
  {
    Hopeful(cfg, s, w) && forall i :: 0 <= i < |s.links| && i != w ==> Shut(s.links[i])
  }

  lemma SpareIsQueued(cfg: Config, s: State, w: nat)
    requires Valid(cfg) && Alone(cfg, s, w) && Spare(s, w)
    ensures s.pending != [] && s.completed < Total(cfg.src)
    ensures forall i :: 0 <= i < |s.links| ==> !s.links[i].snd.Returned?
  {
    OnePlacePerChunk(cfg, s, 0);
    if s.completed == Total(cfg.src) { SenderCompleteMeansDelivered(cfg, s); }
    forall i | 0 <= i < |s.links| ensures !s.links[i].snd.Returned? {
      ReachableInv(cfg, s);
      assert LinkInv(cfg.src, ViewOf(cfg, s), s.links[i]);
    }
  }

  /** An idle worker with a broken receiver takes a number, waits in vain, puts it back and dies. */
  lemma KillOne(cfg: Config, s: State, w: nat, j: nat) returns (s': State)
    requires Valid(cfg) && Alone(cfg, s, w) && Spare(s, w) && j < |s.links| && j != w
    ensures Leads(cfg, s, s') && Alone(cfg, s', w) && Spare(s', w) && |s'.links| == |s.links|
    ensures s'.links == s.links[j := s'.links[j]] && s'.links[j].snd.Dead?
  {
    SpareIsQueued(cfg, s, w);
    if s.links[j].snd.Dead? {
      Stays(cfg, s);
      s' := s;
    } else {
      var s1 := SetLink(s, j, s.links[j].(snd := Holding(s.pending[0]))).(pending := s.pending[1..]);
      assert Apply(cfg, s, Pop(j)) == Some(s1);
      hide Apply, Reachable, Leads;
      Further(cfg, s, Pop(j), s1);
      OneStep(cfg, s, Pop(j), s1);
      s' := ShutLink(cfg, s1, w, j);
      LeadsOn(cfg, s, s1, s');
      assert InHand(s1.links[j]) && Leaving(s1.links[j]);
    }
  }

  lemma {:induction false} KillBelow(cfg: Config, s: State, w: nat, n: nat) returns (s': State)
    requires Valid(cfg) && Alone(cfg, s, w) && Spare(s, w) && n <= w
    ensures Leads(cfg, s, s') && Alone(cfg, s', w) && |s'.links| == |s.links|
    ensures Spare(s', w) && forall i :: 0 <= i < n ==> s'.links[i].snd.Dead?
  {
    hide *;
    s' := s;
    Stays(cfg, s);
    if n > 0 {
      var s1 := KillBelow(cfg, s, w, n - 1);
      AloneInRange(cfg, s1, w);
      s' := KillOne(cfg, s1, w, n - 1);
      LeadsOn(cfg, s, s1, s');
    }
  }

  lemma AloneInRange(cfg: Config, s: State, w: nat)
    requires Valid(cfg) && Alone(cfg, s, w)
    ensures w < |s.links|
  {
  }

  // ---------- a number is refused ----------

  /** The chunk can arrive with a payload that does not fit its checksum. */
  ghost predicate Damageable(src: Source, c: Chunk) {
    exists p: seq<Byte> :: |p| == |c.payload| && src.crc(p) != c.header.hash32
  }

  /** The stream can put its number back and go on. */
  ghost predicate MayReturn(cfg: Config, l: Link)
    requires Valid(cfg)
  {
    match l.snd
    case Returning(_, dying) => !dying
    case Holding(id) => id < Total(cfg.src) && Damageable(cfg.src, ChunkOf(cfg.src, id))
    case Awaiting(_) =>
      if l.fwd != [] then l.fwd[0].Frame? && Damageable(cfg.src, l.fwd[0].chunk)
      else if l.back != [] then l.back[0].Answer? && l.back[0].ack.isNack
      else l.rcv.Answering? && l.rcv.ack.isNack
    case _ => false
  }

  predicate Damaged(src: Source, m: DataMsg) {
    m.Frame? && src.crc(m.chunk.payload) != m.chunk.header.hash32
  }

  function StepsToReturn(src: Source, l: Link): nat {
    match l.snd
    case Holding(_) => 6
    case Awaiting(_) =>
      if l.fwd != [] then if Damaged(src, l.fwd[0]) then 4 else 5
      else if l.back != [] then 2
      else 3
    case Returning(_, _) => 1
    case _ => 0
  }

  /** One step nearer to a number in the queue. */
  ghost predicate Nearer(cfg: Config, s: State, s': State, w: nat)
    requires Valid(cfg)
  {
    && OnlyLink(s, s', w) && Usable(s'.links[w])
    && (s'.pending != [] ||
        (MayReturn(cfg, s'.links[w])
         && StepsToReturn(cfg.src, s'.links[w]) < StepsToReturn(cfg.src, s.links[w])))
  }

  lemma DamageStep(cfg: Config, s: State, w: nat) returns (step: Step, s': State)
    requires Valid(cfg) && w < |s.links| && Usable(s.links[w]) && MayReturn(cfg, s.links[w])
    requires s.links[w].snd.Awaiting? && s.links[w].fwd != [] && !Damaged(cfg.src, s.links[w].fwd[0])
    ensures Apply(cfg, s, step) == Some(s') && Nearer(cfg, s, s', w)
  {
    var l := s.links[w];
    var c := l.fwd[0].chunk;
    var p :| |p| == |c.payload| && cfg.src.crc(p) != c.header.hash32;
    step := Corrupt(w, p);
    var c' := c.(payload := p);
    var l' := l.(fwd := [Frame(c')] + l.fwd[1..]);
    s' := Apply(cfg, s, step).value;
    assert s'.links == s.links[w := l'] && l'.fwd[0] == Frame(c');
    assert Damageable(cfg.src, c');
  }

  lemma RefuseStep(cfg: Config, s: State, w: nat) returns (step: Step, s': State)
    requires Valid(cfg) && Hopeful(cfg, s, w) && MayReturn(cfg, s.links[w])
    ensures Apply(cfg, s, step) == Some(s') && Nearer(cfg, s, s', w)
  {
    MessagesExpected(cfg, s, w);
    HandsAreInBounds(cfg, s, w);
    FlagsInBounds(cfg, s, w);
    hide Reachable;
    var l := s.links[w];
    if l.snd.Awaiting? && l.fwd != [] && !Damaged(cfg.src, l.fwd[0]) {
      step, s' := DamageStep(cfg, s, w);
    } else {
      step := NextMove(l, w);
      hide Damageable;
      if IsSenderStep(step) { s' := SenderRefuses(cfg, s, w); } else { s' := ReceiverRefuses(cfg, s, w); }
    }
  }

  lemma SenderRefuses(cfg: Config, s: State, w: nat) returns (s': State)
    requires Valid(cfg) && w < |s.links| && IsSenderStep(NextMove(s.links[w], w))
    requires Usable(s.links[w]) && Protocol(s.links[w]) && MayReturn(cfg, s.links[w])
    ensures SenderStep(cfg, s, NextMove(s.links[w], w), w) == Some(s') && Nearer(cfg, s, s', w)
  {
    hide ChunkOf, Damageable;
    s' := SenderStep(cfg, s, NextMove(s.links[w], w), w).value;
  }

  lemma ReceiverRefuses(cfg: Config, s: State, w: nat) returns (s': State)
    requires Valid(cfg) && w < |s.links| && !IsSenderStep(NextMove(s.links[w], w))
    requires Usable(s.links[w]) && Protocol(s.links[w]) && MayReturn(cfg, s.links[w]) && !s.links[w].rcv.Left?
    requires s.links[w].fwd != [] ==> Damaged(cfg.src, s.links[w].fwd[0])
    requires forall i :: 0 <= i < |s.links[w].fwd| ==>
               && s.links[w].fwd[i].Frame? && WellFormed(s.links[w].fwd[i].chunk)
               && Accepts(s.disk, s.links[w].fwd[i].chunk.header)
    ensures ReceiverStep(cfg, s, NextMove(s.links[w], w), w) == Some(s') && Nearer(cfg, s, s', w)
  {
    hide WellFormed, Accepts, Damageable;
    s' := ReceiverStep(cfg, s, NextMove(s.links[w], w), w).value;
  }

  lemma {:induction false} Refused(cfg: Config, s: State, w: nat) returns (s': State)
    requires Valid(cfg) && Hopeful(cfg, s, w) && MayReturn(cfg, s.links[w])
    ensures Leads(cfg, s, s') && Hopeful(cfg, s', w) && s'.pending != []
    decreases StepsToReturn(cfg.src, s.links[w])
  {
    var step, s1 := RefuseStep(cfg, s, w);
    hide Apply, MayReturn, StepsToReturn, Reachable, Leads, Usable;
    Further(cfg, s, step, s1);
    OneStep(cfg, s, step, s1);
    s' := s1;
    if s1.pending == [] {
      s' := Refused(cfg, s1, w);
      LeadsOn(cfg, s, s1, s');
    }
  }

  // ---------- the work is done ----------

  /** What the stream does next while its sender has a number in hand. */
  function NextMove(l: Link, w: nat): Step {
    match l.snd
    case Holding(_) => Send(w)
    case Returning(_, _) => Requeue(w)
    case _ =>
      if l.fwd != [] then Take(w)
      else if l.back != [] then ReadAnswer(w)
      else
        match l.rcv
        case Got(_) => Write(w)
        case Written(_) => Swap(w)
        case Flagged(_) => Count(w)
        case _ => Reply(w)
  }

  function StepsToIdle(l: Link): nat {
    match l.snd
    case Holding(_) => 8
    case Awaiting(_) =>
      if l.fwd != [] then 7
      else if l.back != [] then 2
      else (
        match l.rcv
        case Got(_) => 6
        case Written(_) => 5
        case Flagged(_) => 4
        case _ => 3)
    case Returning(_, _) => 1
    case _ => 0
  }

  /** The chunk in hand is on its way to be acknowledged: neither damaged nor refused. */
  predicate OnCourse(cfg: Config, l: Link) {
    && (l.snd.Holding? || l.snd.Awaiting?)
    && (forall i :: 0 <= i < |l.fwd| && l.fwd[i].Frame? ==>
          cfg.src.crc(l.fwd[i].chunk.payload) == l.fwd[i].chunk.header.hash32)
    && (l.rcv.Answering? ==> !l.rcv.ack.isNack)
    && (forall i :: 0 <= i < |l.back| && l.back[i].Answer? ==> !l.back[i].ack.isNack)
  }

  /** The work in hand is never stuck: its next step is possible and brings it nearer its end. */
  lemma CanMove(cfg: Config, s: State, w: nat) returns (s': State)
    requires Valid(cfg) && Hopeful(cfg, s, w) && StepsToIdle(s.links[w]) > 0
    ensures Apply(cfg, s, NextMove(s.links[w], w)) == Some(s') && OnlyLink(s, s', w)
    ensures StepsToIdle(s'.links[w]) < StepsToIdle(s.links[w]) && Usable(s'.links[w])
    ensures OnCourse(cfg, s.links[w]) ==> OnCourse(cfg, s'.links[w]) || s'.completed > s.completed
  {
    HandsAreInBounds(cfg, s, w);
    FlagsInBounds(cfg, s, w);
    MessagesExpected(cfg, s, w);
    hide Reachable, OnCourse;
    var step := NextMove(s.links[w], w);
    if IsSenderStep(step) {
      s' := SenderCanMove(cfg, s, w);
    } else {
      s' := ReceiverCanMove(cfg, s, w);
    }
  }

  lemma SenderCanMove(cfg: Config, s: State, w: nat) returns (s': State)
    requires Valid(cfg) && w < |s.links| && IsSenderStep(NextMove(s.links[w], w)) && StepsToIdle(s.links[w]) > 0
    requires Usable(s.links[w]) && Protocol(s.links[w])
    requires s.links[w].snd.Holding? ==> s.links[w].snd.id < Total(cfg.src)
    ensures SenderStep(cfg, s, NextMove(s.links[w], w), w) == Some(s') && OnlyLink(s, s', w)
    ensures StepsToIdle(s'.links[w]) < StepsToIdle(s.links[w]) && Usable(s'.links[w])
    ensures OnCourse(cfg, s.links[w]) ==> OnCourse(cfg, s'.links[w]) || s'.completed > s.completed
  {
    s' := SenderStep(cfg, s, NextMove(s.links[w], w), w).value;
  }

  lemma ReceiverCanMove(cfg: Config, s: State, w: nat) returns (s': State)
    requires Valid(cfg) && w < |s.links| && !IsSenderStep(NextMove(s.links[w], w)) && StepsToIdle(s.links[w]) > 0
    requires Usable(s.links[w]) && Protocol(s.links[w]) && !s.links[w].rcv.Left?
    requires |s.disk.flags| == Total(cfg.src)
    requires forall i :: 0 <= i < |s.links[w].fwd| ==>
               && s.links[w].fwd[i].Frame? && WellFormed(s.links[w].fwd[i].chunk)
               && Accepts(s.disk, s.links[w].fwd[i].chunk.header)
    requires s.links[w].rcv.Got? ==> OffsetOf(s.links[w].rcv) + |s.links[w].rcv.chunk.payload| <= |s.disk.file|
    requires s.links[w].rcv.Written? ==> s.links[w].rcv.id < |s.disk.flags|
    requires s.links[w].rcv.Flagged? ==> s.links[w].rcv.id < Total(cfg.src)
    ensures ReceiverStep(cfg, s, NextMove(s.links[w], w), w) == Some(s') && OnlyLink(s, s', w)
    ensures StepsToIdle(s'.links[w]) < StepsToIdle(s.links[w]) && Usable(s'.links[w])
    ensures OnCourse(cfg, s.links[w]) ==> OnCourse(cfg, s'.links[w])
  {
    hide WriteAt, WellFormed, Accepts;
    s' := ReceiverStep(cfg, s, NextMove(s.links[w], w), w).value;
  }

  lemma MessagesExpected(cfg: Config, s: State, w: nat)
    requires Valid(cfg) && Hopeful(cfg, s, w)
    ensures Protocol(s.links[w])
    ensures forall i :: 0 <= i < |s.links[w].fwd| ==>
              s.links[w].fwd[i].Frame? && WellFormed(s.links[w].fwd[i].chunk)
    ensures s.links[w].snd.Returned? ==> s.completed == Total(cfg.src) && s.links[w].fwd == []
  {
    ReachableInv(cfg, s);
    assert LinkInv(cfg.src, ViewOf(cfg, s), s.links[w]) && DiskInv(cfg.src, s.disk);
    hide Inv, Reachable, DiskInv;
    OnlyFrames(cfg.src, ViewOf(cfg, s), s.disk, s.links[w]);
    hide LinkInv, DataOk, AnswerOk;
  }

  /** Before the sender closes nothing but genuine frames travels towards the receiver. */
  lemma OnlyFrames(src: Source, v: View, d: Disk, l: Link)
    requires ValidSource(src) && LinkInv(src, v, l) && !v.closing && DiskInv(src, d)
    ensures forall i :: 0 <= i < |l.fwd| ==> l.fwd[i].Frame? && WellFormed(l.fwd[i].chunk)
    ensures Protocol(l) && (l.snd.Returned? ==> v.complete && l.fwd == [])
  {
    forall i | 0 <= i < |l.fwd| ensures l.fwd[i].Frame? && WellFormed(l.fwd[i].chunk) {
      assert DataOk(src, v, l.fwd[i]);
      GenuineAccepted(src, d, l.fwd[i].chunk);
    }
    assert l.fwd != [] ==> l.fwd[0].Frame?;
    hide DataOk, AnswerOk, ReceiverOk, WellFormed;
  }

  lemma {:induction false} ToIdle(cfg: Config, s: State, w: nat) returns (s': State)
    requires Valid(cfg) && Alone(cfg, s, w)
    ensures Leads(cfg, s, s') && Alone(cfg, s', w) && |s'.links| == |s.links|
    ensures StepsToIdle(s'.links[w]) == 0 && s'.completed >= s.completed
    ensures OnCourse(cfg, s.links[w]) ==> s'.completed > s.completed
    ensures s'.links == s.links[w := s'.links[w]]
    decreases StepsToIdle(s.links[w])
  {
    s' := s;
    Stays(cfg, s);
    if StepsToIdle(s.links[w]) > 0 {
      var s1 := CanMove(cfg, s, w);
      var step := NextMove(s.links[w], w);
      hide Apply, NextMove, Shut, StepsToIdle, Reachable, Leads, OnCourse, Usable;
      Further(cfg, s, step, s1);
      OneStep(cfg, s, step, s1);
      s' := ToIdle(cfg, s1, w);
      LeadsOn(cfg, s, s1, s');
    }
  }

  // ---------- chunk by chunk ----------

  lemma {:induction false} AllOnceLength(ids: seq<nat>, n: nat)
    requires AllOnce(ids, n)
    ensures |ids| == n
  {
    if n == 0 {
      if ids != [] { OccursIn(ids, ids[0]); }
    } else {
      var top: nat := n - 1;
      OccursIn(ids, top);
      var i :| 0 <= i < |ids| && ids[i] == top;
      var rest := ids[..i] + ids[i + 1..];
      forall id: nat ensures Occurrences(rest, id) == if id < top then 1 else 0 {
        OccurrencesRemove(ids, i, id);
      }
      AllOnceLength(rest, top);
    }
  }

  lemma {:induction false} NoneHeld(links: seq<Link>, id: nat)
    requires forall i :: 0 <= i < |links| ==> links[i].snd.Idle? || SenderFinished(links[i])
    ensures Holders(links, id) == 0
  {
    if links != [] { NoneHeld(links[..|links| - 1], id); }
  }

  /** With nothing lost and nothing in hand, what is not yet counted is queued. */
  lemma RestIsQueued(cfg: Config, s: State)
    requires Valid(cfg) && Reachable(cfg, s) && s.lost == [] && s.completed < Total(cfg.src)
    requires forall i :: 0 <= i < |s.links| ==> s.links[i].snd.Idle? || SenderFinished(s.links[i])
    ensures s.pending != []
  {
    if s.pending == [] {
      forall id: nat ensures Occurrences(s.acked, id) == if id < Total(cfg.src) then 1 else 0 {
        OnePlacePerChunk(cfg, s, id);
        NoneHeld(s.links, id);
      }
      AllOnceLength(s.acked, Total(cfg.src));
      OnePlacePerChunk(cfg, s, 0);
    }
  }

  lemma NextChunk(cfg: Config, s: State, w: nat) returns (s': State)
    requires Valid(cfg) && Alone(cfg, s, w) && StepsToIdle(s.links[w]) == 0 && s.completed < Total(cfg.src)
    ensures Apply(cfg, s, Pop(w)) == Some(s') && |s'.links| == |s.links| && s'.links == s.links[w := s'.links[w]]
    ensures OnCourse(cfg, s'.links[w]) && Usable(s'.links[w])
    ensures s'.lost == s.lost && s'.smain == s.smain && s'.completed == s.completed
  {
    MessagesExpected(cfg, s, w);
    RestIsQueued(cfg, s);
    hide Reachable;
    s' := Apply(cfg, s, Pop(w)).value;
  }

  lemma {:induction false} Deliver(cfg: Config, s: State, w: nat) returns (s': State)
    requires Valid(cfg) && Alone(cfg, s, w) && StepsToIdle(s.links[w]) == 0
    ensures Leads(cfg, s, s') && Alone(cfg, s', w) && |s'.links| == |s.links|
    ensures StepsToIdle(s'.links[w]) == 0 && s'.completed == Total(cfg.src)
    ensures s'.links == s.links[w := s'.links[w]]
    decreases Total(cfg.src) - s.completed
  {
    s' := s;
    Stays(cfg, s);
    OnePlacePerChunk(cfg, s, 0);
    if s.completed < Total(cfg.src) {
      var s1 := NextChunk(cfg, s, w);
      hide Apply, Shut, StepsToIdle, Reachable, Leads, OnCourse, Usable;
      Further(cfg, s, Pop(w), s1);
      OneStep(cfg, s, Pop(w), s1);
      var s2 := ToIdle(cfg, s1, w);
      OnePlacePerChunk(cfg, s2, 0);
      s' := Deliver(cfg, s2, w);
      LeadsOn(cfg, s, s1, s2);
      LeadsOn(cfg, s, s2, s');
    }
  }

  // ---------- the end ----------

  /** All counted: the workers return their streams one after the other. */
  lemma {:induction false} AllReturn(cfg: Config, s: State, w: nat, n: nat) returns (s': State)
    requires Valid(cfg) && Alone(cfg, s, w) && StepsToIdle(s.links[w]) == 0 && s.completed == Total(cfg.src)
    requires n <= |s.links|
    ensures Leads(cfg, s, s') && Alone(cfg, s', w) && |s'.links| == |s.links|
    ensures StepsToIdle(s'.links[w]) == 0 && s'.completed == Total(cfg.src)
    ensures forall i :: 0 <= i < n ==> SenderFinished(s'.links[i])
    ensures forall i :: 0 <= i < |s.links| && s.links[i].snd.Dead? ==> s'.links[i].snd.Dead?
  {
    hide *;
    s' := s;
    Stays(cfg, s);
    if n > 0 {
      var s1 := AllReturn(cfg, s, w, n - 1);
      s' := s1;
      if !SenderFinished(s1.links[n - 1]) {
        s' := Return(cfg, s1, w, n - 1);
        OneStep(cfg, s1, Finish(n - 1), s');
        LeadsOn(cfg, s, s1, s');
      }
    }
  }

  lemma Return(cfg: Config, s: State, w: nat, i: nat) returns (s': State)
    requires Valid(cfg) && Alone(cfg, s, w) && StepsToIdle(s.links[w]) == 0 && s.completed == Total(cfg.src)
    requires i < |s.links| && !SenderFinished(s.links[i])
    ensures Apply(cfg, s, Finish(i)) == Some(s') && Alone(cfg, s', w) && |s'.links| == |s.links|
    ensures StepsToIdle(s'.links[w]) == 0 && s'.completed == Total(cfg.src) && SenderFinished(s'.links[i])
    ensures forall k :: 0 <= k < |s.links| && SenderFinished(s.links[k]) ==> SenderFinished(s'.links[k])
    ensures forall k :: 0 <= k < |s.links| && s.links[k].snd.Dead? ==> s'.links[k].snd.Dead?
  {
    SenderCompleteMeansDelivered(cfg, s);
    hide Reachable;
    s' := Apply(cfg, s, Finish(i)).value;
    assert s' == SetLink(s, i, s.links[i].(snd := Returned));
    hide Apply;
    Further(cfg, s, Finish(i), s');
  }

  /** DONE goes out and is read. */
  lemma SayDone(cfg: Config, s: State, w: nat) returns (s1: State, s2: State)
    requires Valid(cfg) && Alone(cfg, s, w) && StepsToIdle(s.links[w]) == 0 && s.completed == Total(cfg.src)
    requires forall i :: 0 <= i < |s.links| ==> SenderFinished(s.links[i])
    requires forall i :: 0 <= i < w ==> s.links[i].snd.Dead?
    ensures Apply(cfg, s, SenderClose(w)) == Some(s1) && Apply(cfg, s1, Take(w)) == Some(s2)
    ensures s2 == SetLink(s, w, Link(Returned, Left, [], [])).(smain := AwaitingFinal(w), done := true)
  {
    MessagesExpected(cfg, s, w);
    FlagsInBounds(cfg, s, w);
    var l := s.links[w];
    assert l == Link(Returned, Listening, [], []);
    hide Reachable;
    var l1 := l.(fwd := [DoneMsg]);
    assert l.fwd + [DoneMsg] == [DoneMsg] && [DoneMsg][1..] == [];
    s1 := SetLink(s, w, l1).(smain := AwaitingFinal(w));
    s2 := SetLink(s1, w, Link(Returned, Left, [], [])).(smain := AwaitingFinal(w), done := true);
    assert s.links[w := l1][w := Link(Returned, Left, [], [])] == s.links[w := Link(Returned, Left, [], [])];
  }

  /** The receiver's checks pass, and its last answer is read. */
  lemma FinalAnswer(cfg: Config, s: State, w: nat) returns (s1: State, s2: State, s3: State)
    requires Valid(cfg) && w < |s.links| && s.links[w] == Link(Returned, Left, [], [])
    requires s.rmain == Receiving && s.smain == AwaitingFinal(w)
    requires forall i :: 0 <= i < |s.links| && i != w ==> s.links[i].rcv.Failed?
    requires s.disk.count == Total(cfg.src) && s.disk.file == cfg.src.bytes
    ensures Apply(cfg, s, ReceiverJoin) == Some(s1) && Apply(cfg, s1, FinalReply(w)) == Some(s2)
    ensures Apply(cfg, s2, ReadFinal) == Some(s3) && s3.smain == SenderOk
  {
    s1 := s.(rmain := Renamed);
    assert [] + [FinalAck] == [FinalAck];
    s2 := SetLink(s1, w, Link(Returned, Left, [], [FinalAck])).(rmain := Acked);
    s3 := s2.(smain := SenderOk);
  }

  lemma StillReceiving(cfg: Config, s: State, w: nat)
    requires Valid(cfg) && Hopeful(cfg, s, w)
    ensures s.rmain == Receiving
  {
    ReachableInv(cfg, s);
    FlagsInBounds(cfg, s, w);
    assert s.links[w] in s.links;
  }

  lemma Conclude(cfg: Config, s: State, w: nat) returns (s': State)
    requires Valid(cfg) && CountFits(cfg) && Alone(cfg, s, w)
    requires StepsToIdle(s.links[w]) == 0 && s.completed == Total(cfg.src)
    requires forall i :: 0 <= i < |s.links| ==> SenderFinished(s.links[i])
    requires forall i :: 0 <= i < w ==> s.links[i].snd.Dead?
    ensures Leads(cfg, s, s') && s'.smain == SenderOk
  {
    StillReceiving(cfg, s, w);
    var s1, s2 := SayDone(cfg, s, w);
    forall i | 0 <= i < |s2.links| && i != w ensures s2.links[i].rcv.Failed? { FlagsInBounds(cfg, s, i); }
    hide Apply, Leads, Reachable, Usable;
    Further(cfg, s, SenderClose(w), s1);
    Further(cfg, s1, Take(w), s2);
    CompleteTransferPassesChecks(cfg, s2);
    SenderCompleteMeansDelivered(cfg, s2);
    var s3, s4, s5 := FinalAnswer(cfg, s2, w);
    OneStep(cfg, s, SenderClose(w), s1);
    OneStep(cfg, s1, Take(w), s2);
    OneStep(cfg, s2, ReceiverJoin, s3);
    OneStep(cfg, s3, FinalReply(w), s4);
    OneStep(cfg, s4, ReadFinal, s5);
    LeadsOn(cfg, s, s1, s2);
    LeadsOn(cfg, s, s2, s3);
    LeadsOn(cfg, s, s3, s4);
    LeadsOn(cfg, s, s4, s5);
    s' := s5;
  }

  /** Once every stream before a usable one is out of the way, that one brings the transfer home. */
  lemma CanRecover(cfg: Config, s: State, w: nat) returns (s': State)
    requires Valid(cfg) && CountFits(cfg) && Alone(cfg, s, w) && forall i :: 0 <= i < w ==> s.links[i].snd.Dead?
    ensures Leads(cfg, s, s') && s'.smain == SenderOk
  {
    hide Leads, Shut, StepsToIdle, Reachable, Usable;
    var s1 := ToIdle(cfg, s, w);
    var s2 := Deliver(cfg, s1, w);
    var s3 := AllReturn(cfg, s2, w, |s2.links|);
    s' := Conclude(cfg, s3, w);
    LeadsOn(cfg, s, s1, s2);
    LeadsOn(cfg, s, s2, s3);
    LeadsOn(cfg, s, s3, s');
  }

  /** With a number to go round, the streams before it can be got out of the way. */
  lemma RecoverWithSpare(cfg: Config, s: State, w: nat) returns (s': State)
    requires Valid(cfg) && CountFits(cfg) && Hopeful(cfg, s, w) && Spare(s, w)
    ensures Leads(cfg, s, s') && s'.smain == SenderOk
  {
    hide Leads, Shut, Reachable, Usable, Spare;
    var s1 := ShutOthers(cfg, s, w, |s.links|);
    var s2 := KillBelow(cfg, s1, w, w);
    s' := CanRecover(cfg, s2, w);
    LeadsOn(cfg, s, s1, s2);
    LeadsOn(cfg, s, s2, s');
  }

  lemma RecoverAsFirst(cfg: Config, s: State, w: nat) returns (s': State)
    requires Valid(cfg) && CountFits(cfg) && Hopeful(cfg, s, w) && forall i :: 0 <= i < w ==> Gone(s.links[i])
    ensures Leads(cfg, s, s') && s'.smain == SenderOk
  {
    hide Leads, Reachable, Usable, Spare;
    var s1 := ShutOthers(cfg, s, w, |s.links|);
    s' := CanRecover(cfg, s1, w);
    LeadsOn(cfg, s, s1, s');
  }

  lemma RecoverByRefusal(cfg: Config, s: State, w: nat) returns (s': State)
    requires Valid(cfg) && CountFits(cfg) && Hopeful(cfg, s, w) && MayReturn(cfg, s.links[w])
    ensures Leads(cfg, s, s') && s'.smain == SenderOk
  {
    var s1 := Refused(cfg, s, w);
    s' := RecoverWithSpare(cfg, s1, w);
    LeadsOn(cfg, s, s1, s');
  }
}
