/** The client's relay message queues: src/connection/message_queue.rs. Messages
    of all connections share one deque per kind; a reader takes the first entry
    for its connection number. */
module MessageQueue {
  import opened Wrappers

  // ---------- one shared deque against one queue per connection ----------

  type Shared<T> = seq<(nat, T)>

  /** The messages for one connection, in order. */
  function For<T>(q: Shared<T>, conn: nat): seq<T> {
    if q == [] then []
    else (if q[0].0 == conn then [q[0].1] else []) + For(q[1..], conn)
  }

  /** Position of the first entry for a connection, or the length if there is none. */
  function First<T>(q: Shared<T>, conn: nat): (pos: nat)
    ensures pos <= |q|
    ensures pos < |q| ==> q[pos].0 == conn
    ensures forall i :: 0 <= i < pos ==> q[i].0 != conn
  {
    if q == [] || q[0].0 == conn then 0 else 1 + First(q[1..], conn)
  }

  function RemoveAt<T>(q: seq<T>, pos: nat): seq<T>
    requires pos < |q|
  {
    q[..pos] + q[pos + 1..]
  }

  function Take<T>(q: Shared<T>, conn: nat): (r: (Shared<T>, Option<T>)) {
    var pos := First(q, conn);
    if pos == |q| then (q, None) else (RemoveAt(q, pos), Some(q[pos].1))
  }

  lemma {:induction false} ForConcat<T>(a: Shared<T>, b: Shared<T>, conn: nat)
    ensures For(a + b, conn) == For(a, conn) + For(b, conn)
  {
    if a == [] {
      assert a + b == b;
    } else {
      ForConcat(a[1..], b, conn);
      assert (a + b)[1..] == a[1..] + b;
      var head := if a[0].0 == conn then [a[0].1] else [];
      assert head + (For(a[1..], conn) + For(b, conn)) == (head + For(a[1..], conn)) + For(b, conn);
    }
  }

  lemma {:induction false} ForNone<T>(q: Shared<T>, conn: nat)
    requires forall i :: 0 <= i < |q| ==> q[i].0 != conn
    ensures For(q, conn) == []
  {
    if q != [] {
      ForNone(q[1..], conn);
    }
  }

  /** A push appends to its own connection's queue and touches no other. */
  lemma PushRefines<T>(q: Shared<T>, conn: nat, message: T, other: nat)
    ensures For(q + [(conn, message)], other) == For(q, other) + if other == conn then [message] else []
  {
    ForConcat(q, [(conn, message)], other);
    assert [(conn, message)][1..] == [];
  }

  lemma ForAround<T>(q: Shared<T>, pos: nat, k: nat)
    requires pos < |q|
    ensures For(q, k) == For(q[..pos], k) + (if q[pos].0 == k then [q[pos].1] else []) + For(q[pos + 1..], k)
    ensures For(RemoveAt(q, pos), k) == For(q[..pos], k) + For(q[pos + 1..], k)
  {
    ForConcat(q[..pos], q[pos..], k);
    assert q == q[..pos] + q[pos..];
    assert q[pos..][1..] == q[pos + 1..];
    ForConcat(q[..pos], q[pos + 1..], k);
  }

  lemma TakeOwn<T>(q: Shared<T>, conn: nat)
    requires First(q, conn) < |q|
    ensures For(q, conn) == [q[First(q, conn)].1] + For(RemoveAt(q, First(q, conn)), conn)
  {
    hide For, First, RemoveAt;
    var pos := First(q, conn);
    ForNone(q[..pos], conn);
    ForAround(q, pos, conn);
    assert [] + [q[pos].1] == [q[pos].1];
    assert [] + For(q[pos + 1..], conn) == For(q[pos + 1..], conn);
  }

  lemma TakeOther<T>(q: Shared<T>, pos: nat, other: nat)
    requires pos < |q| && q[pos].0 != other
    ensures For(RemoveAt(q, pos), other) == For(q, other)
  {
    hide For, RemoveAt;
    ForAround(q, pos, other);
    assert For(q[..pos], other) + [] == For(q[..pos], other);
  }

  /** A pop returns the head of its own connection's queue, exactly when there is
      one, removes exactly that, and leaves every other connection's queue alone. */
  lemma TakeRefines<T>(q: Shared<T>, conn: nat, other: nat)
    ensures var (q', got) := Take(q, conn);
            && (got.None? <==> For(q, conn) == [])
            && (got.Some? ==> For(q, conn) == [got.value] + For(q', conn))
            && (other != conn ==> For(q', other) == For(q, other))
  {
    hide For, First, RemoveAt;
    var pos := First(q, conn);
    if pos == |q| {
      ForNone(q, conn);
    } else {
      TakeOwn(q, conn);
      if other != conn {
        TakeOther(q, pos, other);
      }
    }
  }

  // ---------- whole runs ----------

  datatype Op<T> = Push(conn: nat, message: T) | Pop(conn: nat)

  /** Queue and answers after a run of operations on the shared deque. */
  function RunShared<T>(q: Shared<T>, ops: seq<Op<T>>): (r: (Shared<T>, seq<Option<T>>))
    ensures |r.1| == |ops|
  {
    if ops == [] then (q, [])
    else
      var last := |ops| - 1;
      var (q1, got) := RunShared(q, ops[..last]);
      match ops[last]
      case Push(conn, message) => (q1 + [(conn, message)], got + [None])
      case Pop(conn) => (Take(q1, conn).0, got + [Take(q1, conn).1])
  }

  /** The same run on independent queues, one per connection. */
  function RunSplit<T>(queues: nat -> seq<T>, ops: seq<Op<T>>): (r: (nat -> seq<T>, seq<Option<T>>))
    ensures |r.1| == |ops|
  {
    if ops == [] then (queues, [])
    else
      var last := |ops| - 1;
      var (m, got) := RunSplit(queues, ops[..last]);
      match ops[last]
      case Push(conn, message) =>
        ((k: nat) => if k == conn then m(k) + [message] else m(k), got + [None])
      case Pop(conn) =>
        if m(conn) == [] then (m, got + [None])
        else ((k: nat) => if k == conn then m(k)[1..] else m(k), got + [Some(m(conn)[0])])
  }

  /** The shared deque refines independent FIFO queues: over any run every pop
      answers as its own queue would, and every queue ends up the same. */
  lemma {:induction false} SharedRefinesSplit<T>(q: Shared<T>, queues: nat -> seq<T>, ops: seq<Op<T>>)
    requires forall k: nat :: For(q, k) == queues(k)
    ensures RunShared(q, ops).1 == RunSplit(queues, ops).1
    ensures forall k: nat :: For(RunShared(q, ops).0, k) == RunSplit(queues, ops).0(k)
    decreases |ops|
  {
    if ops != [] {
      var last := |ops| - 1;
      SharedRefinesSplit(q, queues, ops[..last]);
      var q1 := RunShared(q, ops[..last]).0;
      match ops[last] {
        case Push(conn, message) =>
          forall k: nat
            ensures For(q1 + [(conn, message)], k) == For(q1, k) + if k == conn then [message] else []
          {
            PushRefines(q1, conn, message, k);
          }
        case Pop(conn) =>
          TakeRefines(q1, conn, conn);
          forall k: nat | k != conn
            ensures For(Take(q1, conn).0, k) == For(q1, k)
          {
            TakeRefines(q1, conn, k);
          }
      }
    }
  }

  function Pushed<T>(ops: seq<Op<T>>, conn: nat): seq<T> {
    if ops == [] then []
    else
      var last := |ops| - 1;
      Pushed(ops[..last], conn)
      + (match ops[last] case Push(c, m) => if c == conn then [m] else [] case Pop(_) => [])
  }

  function Popped<T>(ops: seq<Op<T>>, got: seq<Option<T>>, conn: nat): seq<T>
    requires |ops| == |got|
  {
    if ops == [] then []
    else
      var last := |ops| - 1;
      Popped(ops[..last], got[..last], conn)
      + if ops[last].Pop? && ops[last].conn == conn && got[last].Some? then [got[last].value] else []
  }

  /** Per connection, what was popped followed by what is still queued is what was
      pushed: nothing is lost, repeated, reordered or handed to another connection. */
  lemma {:induction false} InPushOrder<T>(ops: seq<Op<T>>, conn: nat)
    ensures Popped(ops, RunShared([], ops).1, conn) + For(RunShared([], ops).0, conn) == Pushed(ops, conn)
    decreases |ops|
  {
    if ops != [] {
      var last := |ops| - 1;
      InPushOrder(ops[..last], conn);
      var (q1, got1) := RunShared([], ops[..last]);
      assert RunShared([], ops).1[..last] == got1;
      match ops[last] {
        case Push(c, message) => PushRefines(q1, c, message, conn);
        case Pop(c) => TakeRefines(q1, c, conn);
      }
    }
  }

  // ---------- the queues in place ----------

  /** All incoming message kinds; `Info` is what a peer_info message carries. */
  class MessageQueues<Info> {
    var peerInfos: Shared<Info>
    var goSignals: Shared<real>
    var portsAcks: seq<seq<nat>>
    var retryGranted: Shared<()>
    var retryRejected: Shared<string>
    var errors: seq<string>
    var shutdown: bool
    var lastConnection: bool

    constructor ()
      ensures peerInfos == [] && goSignals == [] && portsAcks == [] && retryGranted == [] && retryRejected == []
      ensures errors == [] && !shutdown && !lastConnection
    {
      peerInfos, goSignals, portsAcks, retryGranted, retryRejected := [], [], [], [], [];
      errors, shutdown, lastConnection := [], false, false;
    }

    /** `queue.iter().position(..)` followed by `queue.remove(pos)`. */
    static method TakeFirst<T>(queue: Shared<T>, conn: nat) returns (queue': Shared<T>, got: Option<T>)
      ensures (queue', got) == Take(queue, conn)
    {
      var pos := 0;
      while pos < |queue| && queue[pos].0 != conn
        invariant pos <= |queue| && First(queue, conn) == pos + First(queue[pos..], conn)
      {
        assert queue[pos..][1..] == queue[pos + 1..];
        pos := pos + 1;
      }
      if pos == |queue| {
        return queue, None;
      }
      queue', got := queue[..pos] + queue[pos + 1..], Some(queue[pos].1);
    }

    method PushPeerInfo(conn: nat, info: Info)
      modifies this`peerInfos
      ensures peerInfos == old(peerInfos) + [(conn, info)]
    {
      peerInfos := peerInfos + [(conn, info)];
    }

    method PopPeerInfo(conn: nat) returns (got: Option<Info>)
      modifies this`peerInfos
      ensures (peerInfos, got) == Take(old(peerInfos), conn)
    {
      peerInfos, got := TakeFirst(peerInfos, conn);
    }

    method PushGo(conn: nat, startAt: real)
      modifies this`goSignals
      ensures goSignals == old(goSignals) + [(conn, startAt)]
    {
      goSignals := goSignals + [(conn, startAt)];
    }

    method PopGo(conn: nat) returns (got: Option<real>)
      modifies this`goSignals
      ensures (goSignals, got) == Take(old(goSignals), conn)
    {
      goSignals, got := TakeFirst(goSignals, conn);
    }

    method PushPortsAck(ports: seq<nat>)
      modifies this`portsAcks
      ensures portsAcks == old(portsAcks) + [ports]
    {
      portsAcks := portsAcks + [ports];
    }

    /** The one queue that is not keyed by connection: plain FIFO. */
    method PopPortsAck() returns (got: Option<seq<nat>>)
      modifies this`portsAcks
      ensures old(portsAcks) == (if got.Some? then [got.value] else []) + portsAcks
      ensures got.None? ==> old(portsAcks) == []
    {
      if portsAcks == [] {
        return None;
      }
      got, portsAcks := Some(portsAcks[0]), portsAcks[1..];
    }

    method PushRetryGranted(conn: nat)
      modifies this`retryGranted
      ensures retryGranted == old(retryGranted) + [(conn, ())]
    {
      retryGranted := retryGranted + [(conn, ())];
    }

    method PopRetryGranted(conn: nat) returns (got: Option<()>)
      modifies this`retryGranted
      ensures (retryGranted, got) == Take(old(retryGranted), conn)
    {
      retryGranted, got := TakeFirst(retryGranted, conn);
    }

    method PushRetryRejected(conn: nat, reason: string)
      modifies this`retryRejected
      ensures retryRejected == old(retryRejected) + [(conn, reason)]
    {
      retryRejected := retryRejected + [(conn, reason)];
    }

    method PopRetryRejected(conn: nat) returns (got: Option<string>)
      modifies this`retryRejected
      ensures (retryRejected, got) == Take(old(retryRejected), conn)
    {
      retryRejected, got := TakeFirst(retryRejected, conn);
    }

    method PushError(error: string)
      modifies this`errors
      ensures errors == old(errors) + [error]
      ensures HasError() == (if old(errors) == [] then Some(error) else old(HasError()))
    {
      errors := errors + [error];
    }

    /** Looks without consuming, so the first error is seen by every later reader. */
    function HasError(): (first: Option<string>)
      reads this
      ensures first.None? <==> errors == []
    {
      if errors == [] then None else Some(errors[0])
    }
  }
}
