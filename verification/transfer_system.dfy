/** The whole transfer as a step relation: sender workers over one queue, one
    FIFO pair per stream, receiver workers over one file, and the two callers
    that join them. Every step is one piece of code between two points where
    another task can run; streams may fail at any of them. */
module TransferSystem {
  import opened Wrappers
  import opened TransferProtocol
  import opened ChunkPlan
  import opened Receiver

  // ---------- state ----------

  datatype SenderWorker =
    | Idle                             // at the head of the loop
    | Holding(id: nat)                 // popped, reading the file, writing the stream
    | Awaiting(id: nat)                // chunk written, waiting for its answer
    | Returning(id: nat, dying: bool)  // about to put the number back
    | Returned                         // left the loop, stream handed back
    | Dead                             // left with an error

  datatype ReceiverWorker =
    | Listening
    | Got(chunk: Chunk)                // bounds and checksum passed
    | Written(id: nat)                 // in the file, flag not yet swapped
    | Flagged(id: nat)                 // flag newly set, not yet counted
    | Answering(ack: AckMessage)
    | Left                             // left the loop, stream handed back
    | Failed

  datatype DataMsg = Frame(chunk: Chunk) | DoneMsg

  datatype AnswerMsg = Answer(ack: AckMessage) | FinalAck

  datatype Link = Link(snd: SenderWorker, rcv: ReceiverWorker, fwd: seq<DataMsg>, back: seq<AnswerMsg>)

  datatype SenderMain = Sending | AwaitingFinal(stream: nat) | SenderOk | SenderErr

  datatype ReceiverMain = Receiving | Incomplete | Mismatch | Renamed | Acked | NoStream

  /** `acked` and `lost` are history: the numbers counted, in order, and the
      numbers whose worker died between popping them and being answered. */
  datatype State = State(
    pending: seq<nat>, completed: nat, completedBytes: nat,
    links: seq<Link>,
    disk: Disk, done: bool,
    smain: SenderMain, rmain: ReceiverMain,
    acked: seq<nat>, lost: seq<nat>)

  /** What is sent, and the digest both ends compute over whole files. */
  datatype Config = Config(src: Source, digest: seq<Byte> -> int)

  predicate Valid(cfg: Config) {
    ValidSource(cfg.src)
  }

  predicate SenderFinished(l: Link) {
    l.snd.Returned? || l.snd.Dead?
  }

  predicate ReceiverFinished(l: Link) {
    l.rcv.Left? || l.rcv.Failed?
  }

  predicate Resting(r: ReceiverWorker) {
    r.Listening? || r.Left? || r.Failed?
  }

  function Upto(n: nat): (s: seq<nat>)
    ensures |s| == n && forall i :: 0 <= i < n ==> s[i] == i
  {
    if n == 0 then [] else Upto(n - 1) + [n - 1]
  }

  /** After setup: all numbers queued, streams idle or already broken on either side. */
  predicate Init(cfg: Config, s: State)
    requires Valid(cfg)
  {
    && s.pending == Upto(Total(cfg.src)) && s.completed == 0 && s.completedBytes == 0
    && (forall l :: l in s.links ==>
          && (l.snd.Idle? || l.snd.Dead?) && (l.rcv.Listening? || l.rcv.Failed?)
          && l.fwd == [] && l.back == [])
    && s.disk.flags == seq(Total(cfg.src), i => false)
    && |s.disk.file| == |cfg.src.bytes| && s.disk.count == 0 && !s.done
    && s.smain == Sending && s.rmain == Receiving && s.acked == [] && s.lost == []
  }

  // ---------- steps ----------

  datatype Step =
    | Pop(w: nat)
    | Finish(w: nat)
    | Send(w: nat)
    | SendFail(w: nat, delivered: bool)
    | ReadAnswer(w: nat)
    | AnswerFail(w: nat)
    | Requeue(w: nat)
    | Corrupt(w: nat, payload: seq<Byte>)
    | Take(w: nat)
    | Write(w: nat)
    | WriteFail(w: nat, written: nat)
    | Swap(w: nat)
    | Count(w: nat)
    | Reply(w: nat)
    | ReplyFail(w: nat, delivered: bool)
    | Leave(w: nat)
    | ListenFail(w: nat)
    | SenderClose(w: nat)
    | SenderAbort
    | ReadFinal
    | FinalFail
    | ReceiverJoin
    | FinalReply(w: nat)
    | FinalReplyFail

  function SetLink(s: State, w: nat, l: Link): (s': State)
    requires w < |s.links|
  {
    s.(links := s.links[w := l])
  }

  /** Steps of the sender's workers. */
  function SenderStep(cfg: Config, s: State, step: Step, w: nat): Option<State>
    requires Valid(cfg) && w < |s.links|
  {
    var l := s.links[w];
    match step
    case Pop(_) =>
      if !l.snd.Idle? || s.pending == [] then None
      else Some(SetLink(s, w, l.(snd := Holding(s.pending[0]))).(pending := s.pending[1..]))
    case Finish(_) =>
      if !l.snd.Idle? || s.pending != [] || s.completed < Total(cfg.src) then None
      else Some(SetLink(s, w, l.(snd := Returned)))
    case Send(_) =>
      if !l.snd.Holding? || l.snd.id >= Total(cfg.src) then None
      else Some(SetLink(s, w, l.(snd := Awaiting(l.snd.id), fwd := l.fwd + [Frame(ChunkOf(cfg.src, l.snd.id))])))
    case SendFail(_, delivered) =>
      // File read or stream write failed: the number is not put back.
      if !l.snd.Holding? || l.snd.id >= Total(cfg.src) then None
      else
        var frames := if delivered then [Frame(ChunkOf(cfg.src, l.snd.id))] else [];
        Some(SetLink(s, w, l.(snd := Dead, fwd := l.fwd + frames)).(lost := s.lost + [l.snd.id]))
    case ReadAnswer(_) =>
      // The number in the answer is decoded but never compared.
      if !l.snd.Awaiting? || l.back == [] then None
      else
        var id := l.snd.id;
        var l1 := l.(back := l.back[1..]);
        (match l.back[0]
         case FinalAck => Some(SetLink(s, w, l1.(snd := Returning(id, true))))
         case Answer(a) =>
           if a.isNack then Some(SetLink(s, w, l1.(snd := Returning(id, false))))
           else Some(SetLink(s, w, l1.(snd := Idle)).(
             completed := s.completed + 1,
             completedBytes := s.completedBytes + Length(id, cfg.src.chunkSize, |cfg.src.bytes|),
             acked := s.acked + [id])))
    case AnswerFail(_) =>
      if !l.snd.Awaiting? then None else Some(SetLink(s, w, l.(snd := Returning(l.snd.id, true))))
    case Requeue(_) =>
      if !l.snd.Returning? then None
      else Some(SetLink(s, w, l.(snd := if l.snd.dying then Dead else Idle)).(pending := s.pending + [l.snd.id]))
    case _ => None
  }

  /** What one receiver worker can see and change: its own stream, the disk, the DONE flag. */
  datatype Local = Local(link: Link, disk: Disk, done: bool)

  function OffsetOf(r: ReceiverWorker): nat
    requires r.Got?
  {
    r.chunk.header.offset
  }

  /** Steps that move messages: damage on the way, reading, answering, leaving. */
  function MessageStep(cfg: Config, x: Local, step: Step): Option<Local> {
    var l := x.link;
    match step
    case Corrupt(_, payload) =>
      // Damage to a payload in transit that the checksum detects.
      if l.fwd == [] || !l.fwd[0].Frame? then None
      else
        var c := l.fwd[0].chunk;
        if |payload| != |c.payload| || cfg.src.crc(payload) == c.header.hash32 then None
        else Some(x.(link := l.(fwd := [Frame(c.(payload := payload))] + l.fwd[1..])))
    case Take(_) =>
      if !l.rcv.Listening? || l.fwd == [] then None
      else
        var l1 := l.(fwd := l.fwd[1..]);
        (match l.fwd[0]
         case DoneMsg => Some(Local(l1.(rcv := Left), x.disk, true))
         case Frame(c) =>
           if !WellFormed(c) || !Accepts(x.disk, c.header) then Some(x.(link := l1.(rcv := Failed)))
           else if cfg.src.crc(c.payload) != c.header.hash32 then
             Some(x.(link := l1.(rcv := Answering(AckMessage(c.header.chunkId, true)))))
           else Some(x.(link := l1.(rcv := Got(c)))))
    case Reply(_) =>
      if !l.rcv.Answering? then None
      else Some(x.(link := l.(rcv := Listening, back := l.back + [Answer(l.rcv.ack)])))
    case ReplyFail(_, delivered) =>
      if !l.rcv.Answering? then None
      else Some(x.(link := l.(rcv := Failed, back := l.back + if delivered then [Answer(l.rcv.ack)] else [])))
    case Leave(_) =>
      if !l.rcv.Listening? || !x.done then None else Some(x.(link := l.(rcv := Left)))
    case ListenFail(_) =>
      // A failed read is no error any more once DONE has been seen.
      if !l.rcv.Listening? then None else Some(x.(link := l.(rcv := if x.done then Left else Failed)))
    case _ => None
  }

  /** Steps that work on the file, the flags and the counter. */
  function DiskStep(x: Local, step: Step): Option<Local> {
    var r := x.link.rcv;
    match step
    case Write(_) =>
      if !r.Got? || OffsetOf(r) + |r.chunk.payload| > |x.disk.file| then None
      else Some(x.(link := x.link.(rcv := Written(r.chunk.header.chunkId)),
                   disk := x.disk.(file := WriteAt(x.disk.file, OffsetOf(r), r.chunk.payload))))
    case WriteFail(_, written) =>
      if !r.Got? || written > |r.chunk.payload| || OffsetOf(r) + |r.chunk.payload| > |x.disk.file| then None
      else Some(x.(link := x.link.(rcv := Failed),
                   disk := x.disk.(file := WriteAt(x.disk.file, OffsetOf(r), r.chunk.payload[..written]))))
    case Swap(_) =>
      if !r.Written? || r.id >= |x.disk.flags| || r.id >= U32_RANGE then None
      else if x.disk.flags[r.id] then Some(x.(link := x.link.(rcv := Answering(AckMessage(r.id, false)))))
      else Some(x.(link := x.link.(rcv := Flagged(r.id)), disk := x.disk.(flags := x.disk.flags[r.id := true])))
    case Count(_) =>
      if !r.Flagged? || r.id >= U32_RANGE then None
      else Some(x.(link := x.link.(rcv := Answering(AckMessage(r.id, false))),
                   disk := x.disk.(count := x.disk.count + 1)))
    case _ => None
  }

  function LocalStep(cfg: Config, x: Local, step: Step): Option<Local> {
    if step.Write? || step.WriteFail? || step.Swap? || step.Count? then DiskStep(x, step)
    else MessageStep(cfg, x, step)
  }

  function LocalOf(s: State, w: nat): Local
    requires w < |s.links|
  {
    Local(s.links[w], s.disk, s.done)
  }

  /** Steps of the receiver's workers, and damage on the way to them. */
  function ReceiverStep(cfg: Config, s: State, step: Step, w: nat): Option<State>
    requires w < |s.links|
  {
    match LocalStep(cfg, LocalOf(s, w), step)
    case None => None
    case Some(y) => Some(s.(links := s.links[w := y.link], disk := y.disk, done := y.done))
  }

  predicate FirstReturned(s: State, w: nat)
    requires w < |s.links|
  {
    s.links[w].snd.Returned? && forall i :: 0 <= i < w ==> !s.links[i].snd.Returned?
  }

  predicate FirstLeft(s: State, w: nat)
    requires w < |s.links|
  {
    s.links[w].rcv.Left? && forall i :: 0 <= i < w ==> !s.links[i].rcv.Left?
  }

  /** Steps of the two callers. Both join their workers in the order of the streams and use
      the first stream handed back: the sender for DONE, the receiver for its last answer. */
  function MainStep(cfg: Config, s: State, step: Step): Option<State>
    requires Valid(cfg)
  {
    match step
    case SenderClose(w) =>
      if s.smain != Sending || !(forall l :: l in s.links ==> SenderFinished(l))
        || s.completed != Total(cfg.src) || w >= |s.links| || !FirstReturned(s, w) then None
      else Some(SetLink(s, w, s.links[w].(fwd := s.links[w].fwd + [DoneMsg])).(smain := AwaitingFinal(w)))
    case SenderAbort =>
      if s.smain != Sending || !(forall l :: l in s.links ==> SenderFinished(l)) then None
      else Some(s.(smain := SenderErr))
    case ReadFinal =>
      if !s.smain.AwaitingFinal? || s.smain.stream >= |s.links| || s.links[s.smain.stream].back == [] then None
      else Some(s.(smain := if s.links[s.smain.stream].back[0].FinalAck? then SenderOk else SenderErr))
    case FinalFail =>
      if !s.smain.AwaitingFinal? then None else Some(s.(smain := SenderErr))
    case ReceiverJoin =>
      if s.rmain != Receiving || !(forall l :: l in s.links ==> ReceiverFinished(l)) then None
      else Some(s.(rmain :=
        if s.disk.count != Total(cfg.src) then Incomplete
        else if cfg.digest(s.disk.file) != cfg.digest(cfg.src.bytes) then Mismatch
        else Renamed))
    case FinalReply(w) =>
      if s.rmain != Renamed || w >= |s.links| || !FirstLeft(s, w) then None
      else Some(SetLink(s, w, s.links[w].(back := s.links[w].back + [FinalAck])).(rmain := Acked))
    case FinalReplyFail =>
      if s.rmain != Renamed then None else Some(s.(rmain := NoStream))
    case _ => None
  }

  function Worker(step: Step): Option<nat> {
    match step
    case Pop(w) => Some(w)
    case Finish(w) => Some(w)
    case Send(w) => Some(w)
    case SendFail(w, _) => Some(w)
    case ReadAnswer(w) => Some(w)
    case AnswerFail(w) => Some(w)
    case Requeue(w) => Some(w)
    case Corrupt(w, _) => Some(w)
    case Take(w) => Some(w)
    case Write(w) => Some(w)
    case WriteFail(w, _) => Some(w)
    case Swap(w) => Some(w)
    case Count(w) => Some(w)
    case Reply(w) => Some(w)
    case ReplyFail(w, _) => Some(w)
    case Leave(w) => Some(w)
    case ListenFail(w) => Some(w)
    case _ => None
  }

  predicate IsSenderStep(step: Step) {
    step.Pop? || step.Finish? || step.Send? || step.SendFail? || step.ReadAnswer? || step.AnswerFail? || step.Requeue?
  }

  /** None when the step is not possible in this state. */
  function Apply(cfg: Config, s: State, step: Step): Option<State>
    requires Valid(cfg)
  {
    match Worker(step)
    case None => MainStep(cfg, s, step)
    case Some(w) =>
      if w >= |s.links| then None
      else if IsSenderStep(step) then SenderStep(cfg, s, step, w)
      else ReceiverStep(cfg, s, step, w)
  }

  function Run(cfg: Config, s: State, steps: seq<Step>): Option<State>
    requires Valid(cfg)
  {
    if steps == [] then Some(s)
    else
      match Run(cfg, s, steps[..|steps| - 1])
      case None => None
      case Some(s1) => Apply(cfg, s1, steps[|steps| - 1])
  }

  ghost predicate Reachable(cfg: Config, s: State)
    requires Valid(cfg)
  {
    exists s0: State, steps: seq<Step> :: Init(cfg, s0) && Run(cfg, s0, steps) == Some(s)
  }

  // ---------- the invariant ----------

  /** What a link's correctness depends on besides the link itself. All of it only grows. */
  datatype View = View(disk: Disk, closing: bool, complete: bool, final: bool)

  function ViewOf(cfg: Config, s: State): View
    requires Valid(cfg)
  {
    View(s.disk, s.smain != Sending, s.completed == Total(cfg.src), s.rmain == Acked)
  }

  /** The header of chunk `id` of the source, over its payload or a damaged one. */
  predicate Genuine(src: Source, c: Chunk)
    requires ValidSource(src)
  {
    && c.header.chunkId < Total(src)
    && c.header == ChunkOf(src, c.header.chunkId).header
    && |c.payload| == c.header.len
    && (src.crc(c.payload) == c.header.hash32 ==> c == ChunkOf(src, c.header.chunkId))
  }

  predicate AckOk(v: View, a: AckMessage) {
    !a.isNack ==> a.chunkId < |v.disk.flags| && v.disk.flags[a.chunkId]
  }

  predicate DataOk(src: Source, v: View, m: DataMsg)
    requires ValidSource(src)
  {
    match m
    case Frame(c) => Genuine(src, c)
    case DoneMsg => v.closing && v.complete
  }

  predicate AnswerOk(v: View, a: AnswerMsg) {
    match a
    case Answer(ack) => AckOk(v, ack)
    case FinalAck => v.final
  }

  ghost predicate ReceiverOk(src: Source, v: View, r: ReceiverWorker)
    requires ValidSource(src)
  {
    match r
    case Got(c) => Genuine(src, c) && c == ChunkOf(src, c.header.chunkId)
    case Written(id) => id < Total(src) && Correct(src, v.disk.file, id)
    case Flagged(id) => id < Total(src) && id < |v.disk.flags| && v.disk.flags[id]
    case Answering(a) => AckOk(v, a)
    case Left => v.closing && v.complete
    case _ => true
  }

  /** The number a busy receiver worker is dealing with. */
  predicate BusyWith(r: ReceiverWorker, id: nat) {
    match r
    case Got(c) => c.header.chunkId == id
    case Written(n) => n == id
    case Flagged(n) => n == id
    case Answering(a) => a.chunkId == id
    case _ => false
  }

  predicate Quiet(l: Link) {
    l.fwd == [] && l.back == [] && Resting(l.rcv)
  }

  /** Stop-and-wait: while a worker awaits the answer for `id`, the link carries one thing,
      and it concerns `id`, or the other end is gone. */
  predicate OneInFlight(l: Link, id: nat) {
    || (|l.fwd| == 1 && l.fwd[0].Frame? && l.fwd[0].chunk.header.chunkId == id && l.back == [] && Resting(l.rcv))
    || (l.fwd == [] && l.back == [] && (ReceiverFinished(l) || BusyWith(l.rcv, id)))
    || (l.fwd == [] && |l.back| == 1 && l.back[0].Answer? && l.back[0].ack.chunkId == id && Resting(l.rcv))
  }

  predicate Protocol(l: Link) {
    match l.snd
    case Idle => Quiet(l)
    case Holding(_) => Quiet(l)
    case Awaiting(id) => OneInFlight(l, id)
    case Returning(_, dying) => dying || Quiet(l)
    case Returned =>
      && (l.fwd == [] || l.fwd == [DoneMsg]) && Resting(l.rcv)
      && (l.back == [] || (l.back == [FinalAck] && l.rcv.Left?))
    case Dead => true
  }

  ghost predicate LinkInv(src: Source, v: View, l: Link)
    requires ValidSource(src)
  {
    && (forall i :: 0 <= i < |l.fwd| ==> DataOk(src, v, l.fwd[i]))
    && (forall i :: 0 <= i < |l.back| ==> AnswerOk(v, l.back[i]))
    && ReceiverOk(src, v, l.rcv)
    && Protocol(l)
    && (v.closing ==> SenderFinished(l))
    && (l.snd.Returned? ==> v.complete)
  }

  /** A live worker holds a number from popping it until it is answered or put back. */
  predicate Holds(l: Link, id: nat) {
    match l.snd
    case Holding(n) => n == id
    case Awaiting(n) => n == id
    case Returning(n, _) => n == id
    case _ => false
  }

  function Holders(links: seq<Link>, id: nat): nat {
    if links == [] then 0
    else Holders(links[..|links| - 1], id) + if Holds(links[|links| - 1], id) then 1 else 0
  }

  /** Receiver workers between setting a flag and counting it. */
  function Uncounted(links: seq<Link>): nat {
    if links == [] then 0
    else Uncounted(links[..|links| - 1]) + if links[|links| - 1].rcv.Flagged? then 1 else 0
  }

  function SumOf(src: Source, ids: seq<nat>): nat {
    if ids == [] then 0
    else SumOf(src, ids[..|ids| - 1]) + Length(ids[|ids| - 1], src.chunkSize, |src.bytes|)
  }

  function Occurrences(ids: seq<nat>, id: nat): nat {
    if ids == [] then 0
    else Occurrences(ids[..|ids| - 1], id) + if ids[|ids| - 1] == id then 1 else 0
  }

  /** How often a number is queued, counted or lost. */
  function Listed(s: State, id: nat): nat {
    Occurrences(s.pending, id) + Occurrences(s.acked, id) + Occurrences(s.lost, id)
  }

  /** In how many places a number is: those, or held by a live worker. */
  function Places(s: State, id: nat): nat {
    Listed(s, id) + Holders(s.links, id)
  }

  /** Every number is in exactly one place. */
  ghost predicate Conserved(cfg: Config, s: State)
    requires Valid(cfg)
  {
    && (forall id: nat :: Places(s, id) == if id < Total(cfg.src) then 1 else 0)
    && s.completed == |s.acked|
    && s.completedBytes == SumOf(cfg.src, s.acked)
  }

  ghost predicate DiskInv(src: Source, d: Disk)
    requires ValidSource(src)
  {
    && |d.flags| == Total(src) && |d.file| == |src.bytes|
    && forall id :: 0 <= id < |d.flags| && d.flags[id] ==> Correct(src, d.file, id)
  }

  ghost predicate DiskAndCounts(cfg: Config, s: State)
    requires Valid(cfg)
  {
    && DiskInv(cfg.src, s.disk)
    && s.disk.count + Uncounted(s.links) == CountTrue(s.disk.flags)
    && forall i :: 0 <= i < |s.acked| ==> s.acked[i] < |s.disk.flags| && s.disk.flags[s.acked[i]]
  }

  ghost predicate MainInv(cfg: Config, s: State)
    requires Valid(cfg)
  {
    && (s.done ==> s.smain != Sending && s.completed == Total(cfg.src))
    && (s.smain.AwaitingFinal? ==> s.smain.stream < |s.links| && s.links[s.smain.stream].snd.Returned?)
    && (s.smain.AwaitingFinal? || s.smain.SenderOk? ==> s.completed == Total(cfg.src))
    && (s.smain.SenderOk? ==> s.rmain == Acked)
    && (s.rmain != Receiving ==> forall l :: l in s.links ==> ReceiverFinished(l))
    && (s.rmain == Incomplete ==> s.disk.count != Total(cfg.src))
    && (s.rmain == Mismatch ==> cfg.digest(s.disk.file) != cfg.digest(cfg.src.bytes) && s.disk.count == Total(cfg.src))
    && (s.rmain == Renamed || s.rmain == Acked || s.rmain == NoStream ==>
          cfg.digest(s.disk.file) == cfg.digest(cfg.src.bytes) && s.disk.count == Total(cfg.src))
  }

  ghost predicate Inv(cfg: Config, s: State)
    requires Valid(cfg)
  {
    && Conserved(cfg, s)
    && DiskAndCounts(cfg, s)
    && (forall i :: 0 <= i < |s.links| ==> LinkInv(cfg.src, ViewOf(cfg, s), s.links[i]))
    && MainInv(cfg, s)
  }
}
