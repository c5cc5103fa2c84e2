/** The client's loop over its connections: src/connection/mod.rs. The relay, the
    peer and the operating system are two oracles: `env` says how the n-th wait,
    write or punch ends, `draws` what the n-th ephemeral bind yields. */
module ConnectionLoop {
  import opened Wrappers
  import opened ConnectionStates

  /** How an interaction with the outside ends. A wait fails with a timeout (or a
      rejected retry), with a lost relay, or with an error the server reported. */
  datatype Outcome = Good | Timeout | TransportLost | ServerError | WriteError

  datatype Report = ReportEstablished(conn: nat) | ReportAbandoned(conn: nat)

  /** How the treatment of one connection ends. `InvalidTransition` is the error a
      state machine handler returns when it is called in the wrong state. */
  datatype Ending = Finished | EarlyReturn | InvalidTransition

  /** What the client does towards relay and peer, in order: history. */
  datatype Deed =
    | PortsReported(ports: seq<nat>)
    | InfoTaken(conn: nat)
    | ReadySent(conn: nat)
    | GoAwaited(conn: nat)
    | RetryAsked(conn: nat)
    | RetryAwaited(conn: nat)
    | Punched(conn: nat, port: nat)

  const BIND_ATTEMPTS: nat := 10

  predicate LastIs(log: seq<Deed>, d: Deed) {
    log != [] && log[|log| - 1] == d
  }

  /** The port reported for the latest granted retry of this connection. */
  function Renewed(log: seq<Deed>, conn: nat): Option<nat>
    decreases |log|
  {
    if log == [] then None
    else
      var init, d := log[..|log| - 1], log[|log| - 1];
      if d.PortsReported? && |d.ports| == 1 && LastIs(init, RetryAwaited(conn)) then Some(d.ports[0])
      else Renewed(init, conn)
  }

  /** What the relay is entitled to expect of the next deed: READY after peer_info and before waiting
      for GO, a punch only after that wait and from the port last reported, a retry asked for before
      it is waited for, and its new port reported before the next attempt. */
  predicate Expected(log: seq<Deed>, d: Deed) {
    match d
    case PortsReported(ports) => ports != []
    case InfoTaken(c) => log == [] || log[|log| - 1].PortsReported? || log[|log| - 1].conn < c
    case ReadySent(c) => LastIs(log, InfoTaken(c))
    case GoAwaited(c) => LastIs(log, ReadySent(c))
    case Punched(c, port) => LastIs(log, GoAwaited(c)) && (Renewed(log, c).Some? ==> Renewed(log, c) == Some(port))
    case RetryAsked(c) => !LastIs(log, InfoTaken(c)) && !LastIs(log, ReadySent(c))
    case RetryAwaited(c) => LastIs(log, RetryAsked(c))
  }

  predicate Orderly(log: seq<Deed>)
    decreases |log|
  {
    log == [] || (Orderly(log[..|log| - 1]) && Expected(log[..|log| - 1], log[|log| - 1]))
  }

  /** Every deed so far concerns an earlier connection. */
  predicate Below(log: seq<Deed>, n: nat) {
    forall i :: 0 <= i < |log| && !log[i].PortsReported? ==> log[i].conn < n
  }

  function RenewedBy(log: seq<Deed>, d: Deed, conn: nat): Option<nat> {
    if d.PortsReported? && |d.ports| == 1 && LastIs(log, RetryAwaited(conn)) then Some(d.ports[0])
    else Renewed(log, conn)
  }

  lemma Noted(log: seq<Deed>, d: Deed)
    ensures Orderly(log + [d]) <==> Orderly(log) && Expected(log, d)
    ensures forall c: nat :: Renewed(log + [d], c) == RenewedBy(log, d, c)
  {
    assert (log + [d])[..|log|] == log;
  }

  lemma {:induction false} NeverRenewed(log: seq<Deed>, conn: nat)
    requires Below(log, conn)
    ensures Renewed(log, conn) == None
    decreases |log|
  {
    if log != [] { NeverRenewed(log[..|log| - 1], conn); }
  }

  lemma OneMoreReported(log: seq<Deed>, added: seq<nat>, port: nat, n: nat)
    requires Orderly(log + EachReported(added)) && Below(log + EachReported(added), n)
    ensures log + EachReported(added) + [PortsReported([port])] == log + EachReported(added + [port])
    ensures Orderly(log + EachReported(added + [port])) && Below(log + EachReported(added + [port]), n)
  {
    assert EachReported(added + [port]) == EachReported(added) + [PortsReported([port])];
    Noted(log + EachReported(added), PortsReported([port]));
  }

  lemma NoneReported(log: seq<Deed>)
    ensures log == log + EachReported([])
  {
  }

  /** The deeds that report newly bound ports one by one. */
  function EachReported(ports: seq<nat>): seq<Deed> {
    seq(|ports|, i requires 0 <= i < |ports| => PortsReported([ports[i]]))
  }

  predicate Distinct(ports: seq<nat>) {
    forall i, j :: 0 <= i < j < |ports| ==> ports[i] != ports[j]
  }

  function CountOf(conns: seq<nat>, conn: nat): nat {
    if conns == [] then 0
    else CountOf(conns[..|conns| - 1], conn) + if conns[|conns| - 1] == conn then 1 else 0
  }

  /** The connections whose last report is `established`, in order. */
  function EstablishedIn(reports: seq<Report>): seq<nat> {
    if reports == [] then []
    else
      var last := reports[|reports| - 1];
      EstablishedIn(reports[..|reports| - 1]) + if last.ReportEstablished? then [last.conn] else []
  }

  lemma EstablishedSnoc(reports: seq<Report>, r: Report)
    ensures EstablishedIn(reports + [r]) == EstablishedIn(reports) + if r.ReportEstablished? then [r.conn] else []
  {
    assert (reports + [r])[..|reports|] == reports;
  }

  /** What the log ends with in each state of the machine. */
  predicate Fits(log: seq<Deed>, state: ConnectionState) {
    match state
    case WaitingForPeerInfo(c) => Expected(log, InfoTaken(c))
    case WaitingForGO(c, _) => LastIs(log, InfoTaken(c))
    case Punching(c, _, _) => LastIs(log, GoAwaited(c))
    case Failed(c, _) => Expected(log, RetryAsked(c))
    case WaitingForRetry(c) => LastIs(log, RetryAsked(c))
    case Established(c) => true
  }

  /** The deeds of one turn of the loop. */
  predicate TurnOf(before: seq<Deed>, state: ConnectionState, after: seq<Deed>, port: nat) {
    var c := state.connNum;
    || after == before
    || (state.WaitingForPeerInfo? && after == before + [InfoTaken(c)])
    || (state.WaitingForGO? && after == before + [ReadySent(c), GoAwaited(c)])
    || (state.Punching? && after == before + [Punched(c, port)])
    || (state.Failed? && after == before + [RetryAsked(c)])
    || (state.WaitingForRetry? && after == before + [RetryAwaited(c)])
    || (state.WaitingForRetry? && after == before + [RetryAwaited(c), PortsReported([port])])
  }

  lemma TurnIsOrderly(before: seq<Deed>, state: ConnectionState, after: seq<Deed>, port: nat)
    requires Orderly(before) && Fits(before, state) && TurnOf(before, state, after, port)
    requires state.Punching? && Renewed(before, state.connNum).Some? ==> Renewed(before, state.connNum) == Some(port)
    ensures Orderly(after)
  {
    var c := state.connNum;
    if after != before {
      match state
      case WaitingForPeerInfo(_) => Noted(before, InfoTaken(c));
      case WaitingForGO(_, _) => TwoNoted(before, ReadySent(c), GoAwaited(c));
      case Punching(_, _, _) => Noted(before, Punched(c, port));
      case Failed(_, _) => Noted(before, RetryAsked(c));
      case WaitingForRetry(_) =>
        TwoNoted(before, RetryAwaited(c), PortsReported([port]));
        Noted(before, RetryAwaited(c));
      case Established(_) =>
    }
  }

  lemma TwoNoted(log: seq<Deed>, d: Deed, e: Deed)
    ensures Orderly(log + [d, e]) <==> Orderly(log) && Expected(log, d) && Expected(log + [d], e)
    ensures forall c: nat :: Renewed(log + [d, e], c) == RenewedBy(log + [d], e, c)
    ensures forall c: nat :: Renewed(log + [d], c) == RenewedBy(log, d, c)
  {
    assert log + [d, e] == (log + [d]) + [e];
    Noted(log, d);
    Noted(log + [d], e);
  }

  lemma TurnRenews(before: seq<Deed>, state: ConnectionState, after: seq<Deed>, port: nat)
    requires TurnOf(before, state, after, port)
    ensures Renewed(after, state.connNum) == if |after| == |before| + 2 && state.WaitingForRetry? then Some(port)
                                             else Renewed(before, state.connNum)
  {
    var c := state.connNum;
    match state
    case WaitingForPeerInfo(_) => Noted(before, InfoTaken(c));
    case WaitingForGO(_, _) => TwoNoted(before, ReadySent(c), GoAwaited(c));
    case Punching(_, _, _) => Noted(before, Punched(c, port));
    case Failed(_, _) => Noted(before, RetryAsked(c));
    case WaitingForRetry(_) =>
      TwoNoted(before, RetryAwaited(c), PortsReported([port]));
      Noted(before, RetryAwaited(c));
    case Established(_) =>
  }

  /** A turn keeps the log orderly, and the port last renewed the connection's own. */
  lemma TurnKeepsOrder(before: seq<Deed>, state: ConnectionState, after: seq<Deed>, port: nat, was: nat)
    requires Orderly(before) && Below(before, state.connNum + 1) && Fits(before, state)
    requires TurnOf(before, state, after, port)
    requires port == was || (state.WaitingForRetry? && |after| == |before| + 2)
             || (state.WaitingForRetry? && after == before + [RetryAwaited(state.connNum)])
    requires Renewed(before, state.connNum).Some? ==> Renewed(before, state.connNum) == Some(was)
    ensures Orderly(after) && Below(after, state.connNum + 1) && before <= after
    ensures port == was || |after| == |before| + 2 ==>
              Renewed(after, state.connNum).Some? ==> Renewed(after, state.connNum) == Some(port)
  {
    TurnIsOrderly(before, state, after, port);
    TurnRenews(before, state, after, port);
    hide Orderly, Renewed, Fits, Expected;
  }

  /** The state a turn leads to, by what it has done. */
  predicate LedTo(before: seq<Deed>, state: ConnectionState, after: seq<Deed>, next: ConnectionState) {
    && next.connNum == state.connNum
    && match state
       case WaitingForPeerInfo(c) =>
         (next.WaitingForGO? && LastIs(after, InfoTaken(c))) || (next.Failed? && after == before)
       case WaitingForGO(c, _) => (next.Punching? || next.Failed?) && LastIs(after, GoAwaited(c))
       case Punching(c, _, _) => next.Established? || (next.Failed? && after != before)
       case Failed(c, _) => next.WaitingForRetry? && LastIs(after, RetryAsked(c))
       case WaitingForRetry(c) =>
         (next.WaitingForPeerInfo? && |after| == |before| + 2) || (next.Failed? && LastIs(after, RetryAwaited(c)))
       case Established(_) => false
  }

  lemma NextFits(before: seq<Deed>, state: ConnectionState, after: seq<Deed>, next: ConnectionState, port: nat)
    requires Fits(before, state) && TurnOf(before, state, after, port) && LedTo(before, state, after, next)
    ensures Fits(after, next)
  {
  }

  /** Between the two there are only punches of this connection. */
  predicate PunchedOnly(before: seq<nat>, after: seq<nat>, conn: nat) {
    before <= after && forall i :: |before| <= i < |after| ==> after[i] == conn
  }

  /** Other connections keep their sockets, and no port is held twice. */
  predicate OwnSocketOnly(before: seq<nat>, after: seq<nat>, conn: nat) {
    && |after| == |before| && (Distinct(before) ==> Distinct(after))
    && forall i :: 0 <= i < |after| && i != conn ==> after[i] == before[i]
  }

  lemma PunchedMore(before: seq<nat>, after: seq<nat>, later: seq<nat>, conn: nat)
    requires PunchedOnly(before, after, conn) && (later == after || later == after + [conn])
    ensures PunchedOnly(before, later, conn) && |before| <= |after|
  {
  }

  lemma OwnSocketTwice(before: seq<nat>, after: seq<nat>, later: seq<nat>, conn: nat)
    requires OwnSocketOnly(before, after, conn) && OwnSocketOnly(after, later, conn)
    ensures OwnSocketOnly(before, later, conn) && |later| == |before|
  {
  }

  lemma StartFits(log: seq<Deed>, conn: nat)
    requires Below(log, conn)
    ensures Fits(log, WaitingForPeerInfo(conn)) && Below(log, conn + 1)
  {
  }

  /** What holds of the log between two turns. */
  predicate LogKept(start: seq<Deed>, log: seq<Deed>, conn: nat, state: ConnectionState, open: bool, port: nat) {
    && Orderly(log) && Below(log, conn + 1) && start <= log && (open ==> Fits(log, state))
    && (Renewed(log, conn).Some? ==> Renewed(log, conn) == Some(port))
  }

  lemma LogStarts(log: seq<Deed>, conn: nat, port: nat)
    requires Orderly(log) && Below(log, conn)
    ensures LogKept(log, log, conn, WaitingForPeerInfo(conn), true, port)
  {
    NeverRenewed(log, conn);
    StartFits(log, conn);
  }

  lemma LogCloses(start: seq<Deed>, log: seq<Deed>, conn: nat, state: ConnectionState, port: nat)
    requires LogKept(start, log, conn, state, true, port)
    ensures LogKept(start, log, conn, state, false, port)
  {
  }

  lemma LogMeans(start: seq<Deed>, log: seq<Deed>, conn: nat, state: ConnectionState, open: bool, port: nat)
    requires LogKept(start, log, conn, state, open, port)
    ensures Orderly(log) && Below(log, conn + 1) && start <= log
  {
  }

  lemma LogGoesOn(
    start: seq<Deed>, before: seq<Deed>, after: seq<Deed>, state: ConnectionState, next: ConnectionState, open: bool,
    was: nat, port: nat)
    requires LogKept(start, before, state.connNum, state, true, was) && TurnOf(before, state, after, port)
    requires port == was || (state.WaitingForRetry? && |after| == |before| + 2)
             || (state.WaitingForRetry? && after == before + [RetryAwaited(state.connNum)])
    ensures Orderly(after) && Below(after, state.connNum + 1) && start <= after
    ensures (port == was || |after| == |before| + 2) && (open ==> LedTo(before, state, after, next)) ==>
              LogKept(start, after, state.connNum, next, open, port)
  {
    hide Orderly, Below, Renewed, Fits, Expected, LastIs, TurnOf, LedTo;
    TurnKeepsOrder(before, state, after, port, was);
    if open && LedTo(before, state, after, next) { NextFits(before, state, after, next, port); }
  }

  /** How many interactions from one place of the oracle to another did not go well. */
  ghost function Misses(env: nat -> Outcome, from: nat, to: nat): nat
    decreases to
  {
    if to <= from then 0 else Misses(env, from, to - 1) + if env(to - 1) != Good then 1 else 0
  }

  lemma {:induction false} MissesAdd(env: nat -> Outcome, a: nat, b: nat, c: nat)
    requires a <= b <= c
    ensures Misses(env, a, c) == Misses(env, a, b) + Misses(env, b, c)
    decreases c
  {
    if b < c { MissesAdd(env, a, b, c - 1); }
  }

  ghost predicate LastWas(env: nat -> Outcome, clock: nat, o: Outcome) {
    clock > 0 && env(clock - 1) == o
  }

  /** The last interaction ended in an error that is passed on. */
  ghost predicate PassedOn(env: nat -> Outcome, clock: nat) {
    LastWas(env, clock, ServerError) || LastWas(env, clock, WriteError)
  }

  lemma PassedOnIsNotGood(env: nat -> Outcome, clock: nat)
    ensures PassedOn(env, clock) ==> !LastWas(env, clock, Good)
  {
  }

  /** A wait went well exactly if the oracle says so, is given up early only for an error passed
      on, and the relay is held lost only if it was. */
  ghost predicate Told(env: nat -> Outcome, clock: nat, early: bool, good: bool, lost: bool) {
    && (good <==> LastWas(env, clock, Good)) && (early ==> PassedOn(env, clock))
    && (lost <==> LastWas(env, clock, TransportLost))
  }

  /** Every socket is one of the first or was drawn. */
  ghost predicate Sourced(ports: seq<nat>, initial: seq<nat>, draws: nat -> Option<nat>, drawn: nat) {
    forall i :: 0 <= i < |ports| ==> ports[i] in initial || exists k: nat :: k < drawn && draws(k) == Some(ports[i])
  }

  /** Every interaction is good, and every draw a new port. */
  ghost predicate Smooth(env: nat -> Outcome, draws: nat -> Option<nat>, initial: seq<nat>) {
    && (forall k: nat :: env(k) == Good)
    && (forall k: nat :: draws(k).Some? && draws(k).value != 0 && draws(k).value !in initial)
    && (forall k: nat, l: nat :: k < l ==> draws(k) != draws(l))
  }

  /** What one turn does to the budget: a counted failure for something that did go wrong, or the
      next state; established only after a good punch, and given up only for a reason. */
  ghost predicate Turned(
    env: nat -> Outcome, smooth: bool, since: nat, clock: nat, state: ConnectionState, next: ConnectionState,
    abandon: Option<string>, before: nat, failures: nat, most: nat, lost: bool, useless: bool)
  {
    && since <= clock && failures <= most && failures <= before + Misses(env, since, clock)
    && (lost || next.Established? ==> LastWas(env, clock, if lost then TransportLost else Good))
    && (smooth && !state.Failed? && !state.WaitingForRetry? ==>
          abandon.None? && !next.Failed? && !next.WaitingForRetry?)
    && (state.Punching? ==> failures == 0 || failures == before + 1)
    && if abandon.Some? then
         next.Failed? && !state.Punching? && failures >= before && (lost || failures == most || useless)
       else
         !lost && (|| (state.Punching? && next.Established? && failures == 0)
                   || (next.Failed? && failures == before + 1)
                   || (!next.Failed? && !next.Established? && failures == before && Rank(next) < Rank(state)))
  }

  /** What holds between two turns, after so many punches. */
  ghost predicate Underway(
    env: nat -> Outcome, smooth: bool, began: nat, clock: nat, state: ConnectionState, abandon: Option<string>,
    failures: nat, most: nat, lost: bool, useless: bool, tries: nat)
  {
    && began <= clock && failures <= most && failures <= Misses(env, began, clock)
    && (lost || state.Established? ==> LastWas(env, clock, if lost then TransportLost else Good))
    && (smooth ==> abandon.None? && !state.Failed? && !state.WaitingForRetry?)
    && (if state.Established? then failures == 0 && 0 < tries <= most else tries <= failures)
    && if abandon.Some? then state.Failed? && (lost || failures == most || useless)
       else !lost && (state.Failed? || failures < most)
  }

  lemma GoesOn(
    env: nat -> Outcome, smooth: bool, began: nat, since: nat, clock: nat, state: ConnectionState,
    next: ConnectionState, abandon: Option<string>, before: nat, failures: nat, most: nat, lost: bool, useless: bool,
    tries: nat, was: bool)
    requires Underway(env, smooth, began, since, state, None, before, most, false, was, tries)
    requires Turned(env, smooth, since, clock, state, next, abandon, before, failures, most, lost, useless)
    requires before < most && !state.Established?
    ensures Underway(env, smooth, began, clock, next, abandon, failures, most, lost, useless,
                     tries + if state.Punching? then 1 else 0)
    ensures abandon.None? ==>
              next.Established? || failures > before || (failures == before && Rank(next) < Rank(state))
  {
    MissesAdd(env, began, since, clock);
    hide Misses, LastWas, Rank;
  }

  lemma StillUnderway(
    env: nat -> Outcome, smooth: bool, began: nat, clock: nat, state: ConnectionState, abandon: Option<string>,
    failures: nat, most: nat, lost: bool, useless: bool, tries: nat)
    requires Underway(env, smooth, began, clock, state, abandon, failures, most, lost, useless, tries)
    ensures began <= clock && (abandon.None? ==> !lost && (state.Failed? || failures < most))
    ensures smooth ==> abandon.None? && !state.Failed? && !state.WaitingForRetry?
    ensures abandon.None? ==> tries <= most
  {
    hide Misses, LastWas;
  }

  /** How the treatment of a connection ends: with one report, which says established only after a
      good punch, and given up only if the relay is lost, as many things went wrong as are allowed,
      or no socket could be bound; or with an error that is passed on. */
  ghost predicate Treated(
    env: nat -> Outcome, smooth: bool, began: nat, clock: nat, ending: Ending, conn: nat, before: seq<Report>,
    after: seq<Report>, streamsBefore: seq<nat>, streamsAfter: seq<nat>, most: nat, lost: bool, useless: bool,
    punched: bool)
  {
    && began <= clock
    && match ending
       case InvalidTransition => false
       case EarlyReturn => after == before && streamsAfter == streamsBefore && PassedOn(env, clock) && !smooth
       case Finished =>
         && clock > 0 && (lost ==> LastWas(env, clock - 1, TransportLost))
         && (|| (after == before + [ReportEstablished(conn)] && streamsAfter == streamsBefore + [conn]
                 && !lost && punched && LastWas(env, clock - 1, Good))
             || (after == before + [ReportAbandoned(conn)] && streamsAfter == streamsBefore
                 && !smooth && (lost || Misses(env, began, clock) >= most || useless)))
  }

  lemma StopsHere(
    env: nat -> Outcome, smooth: bool, began: nat, clock: nat, state: ConnectionState, reason: string,
    failures: nat, most: nat, lost: bool, useless: bool, tries: nat)
    requires Underway(env, smooth, began, clock, state, None, failures, most, lost, useless, tries)
    requires state.Failed? && failures >= most
    ensures Underway(env, smooth, began, clock, state, Some(reason), failures, most, lost, useless, tries)
  {
    hide Misses, LastWas;
  }

  lemma EndsAbandoned(
    env: nat -> Outcome, smooth: bool, began: nat, clock: nat, state: ConnectionState, abandon: Option<string>,
    failures: nat, most: nat, lost: bool, useless: bool, tries: nat, reports: seq<Report>, streams: seq<nat>)
    requires Underway(env, smooth, began, clock, state, abandon, failures, most, lost, useless, tries) && abandon.Some?
    ensures tries <= most
    ensures Treated(env, smooth, began, clock + 1, Finished, state.connNum, reports,
                    reports + [ReportAbandoned(state.connNum)], streams, streams, most, lost, useless, tries > 0)
  {
    hide LastWas;
  }

  lemma EndsEstablished(
    env: nat -> Outcome, smooth: bool, began: nat, clock: nat, state: ConnectionState,
    failures: nat, most: nat, lost: bool, useless: bool, tries: nat, reports: seq<Report>, streams: seq<nat>)
    requires Underway(env, smooth, began, clock, state, None, failures, most, lost, useless, tries)
    requires state.Established?
    ensures failures == 0 && 0 < tries <= most
    ensures Treated(env, smooth, began, clock + 1, Finished, state.connNum, reports,
                    reports + [ReportEstablished(state.connNum)], streams, streams + [state.connNum], most, lost,
                    useless, tries > 0)
  {
    hide LastWas, Misses;
  }

  lemma EndsEarly(
    env: nat -> Outcome, began: nat, clock: nat, conn: nat, reports: seq<Report>, streams: seq<nat>, most: nat,
    lost: bool, useless: bool, punched: bool)
    requires began <= clock && PassedOn(env, clock)
    ensures Treated(env, false, began, clock, EarlyReturn, conn, reports, reports, streams, streams, most, lost,
                    useless, punched)
  {
    hide PassedOn;
  }

  class Client {
    const env: nat -> Outcome
    const draws: nat -> Option<nat>
    const maxFailures: nat

    var clock: nat
    var drawn: nat
    var boundSockets: seq<nat>      // local ports
    var failuresInARow: nat
    var transportLost: bool
    var savedPeerInfo: Option<PeerInfo>
    var streams: seq<nat>           // connection numbers
    var reports: seq<Report>
    var punches: seq<nat>           // connection number of every punch attempt
    ghost var log: seq<Deed>
    ghost const initial: seq<nat>   // the ports bound before the loop

    constructor (env: nat -> Outcome, draws: nat -> Option<nat>, maxAttempts: nat, bound: seq<nat>)
      ensures this.env == env && this.draws == draws && maxFailures == Max(maxAttempts, 1)
      ensures boundSockets == bound == initial && failuresInARow == 0 && !transportLost && savedPeerInfo == None
      ensures streams == [] && reports == [] && punches == [] && log == []
    {
      this.env, this.draws, maxFailures, initial := env, draws, Max(maxAttempts, 1), bound;
      clock, drawn, boundSockets, failuresInARow := 0, 0, bound, 0;
      transportLost, savedPeerInfo, streams, reports, punches, log := false, None, [], [], [], [];
    }

    method Interact() returns (o: Outcome)
      modifies this`clock
      ensures o == env(old(clock)) && clock == old(clock) + 1
    {
      o, clock := env(clock), clock + 1;
    }

    predicate InUse(port: nat, exclude: Option<nat>)
      reads this`boundSockets
    {
      exists i :: 0 <= i < |boundSockets| && Some(i) != exclude && boundSockets[i] == port
    }

    /** The last ten draws gave no port that could be used. */
    ghost predicate LastDrawsUseless(exclude: Option<nat>)
      reads this`boundSockets, this`drawn
    {
      && BIND_ATTEMPTS <= drawn
      && forall k :: drawn - BIND_ATTEMPTS <= k < drawn ==>
           draws(k).None? || draws(k).value == 0 || InUse(draws(k).value, exclude)
    }

    method PortInUse(port: nat, exclude: Option<nat>) returns (used: bool)
      ensures used <==> InUse(port, exclude)
    {
      var i := 0;
      while i < |boundSockets|
        invariant i <= |boundSockets|
        invariant forall k :: 0 <= k < i ==> Some(k) == exclude || boundSockets[k] != port
      {
        if Some(i) != exclude && boundSockets[i] == port {
          return true;
        }
        i := i + 1;
      }
      return false;
    }

    /** Ten draws for a port nobody else here uses. */
    method BindEphemeralUnique(exclude: Option<nat>) returns (port: Option<nat>)
      modifies this`drawn
      ensures port.Some? ==> port.value != 0 && !InUse(port.value, exclude)
      ensures port.Some? ==> drawn > old(drawn) && port == draws(drawn - 1)
      ensures port.None? ==> LastDrawsUseless(exclude)
      ensures Sourced(boundSockets, initial, draws, old(drawn)) ==>
                Sourced(boundSockets, initial, draws, drawn) && (Smooth(env, draws, initial) ==> port.Some?)
    {
      var attempt := 0;
      while attempt < BIND_ATTEMPTS
        invariant attempt <= BIND_ATTEMPTS && drawn == old(drawn) + attempt
        invariant Sourced(boundSockets, initial, draws, old(drawn)) && Smooth(env, draws, initial) ==> attempt == 0
        invariant forall k :: old(drawn) <= k < drawn ==>
                    draws(k).None? || draws(k).value == 0 || InUse(draws(k).value, exclude)
      {
        var drawing := draws(drawn);
        assert Sourced(boundSockets, initial, draws, old(drawn)) && Smooth(env, draws, initial) ==>
                 !InUse(drawing.value, exclude);
        drawn, attempt := drawn + 1, attempt + 1;
        if drawing.Some? && drawing.value != 0 {
          var used := PortInUse(drawing.value, exclude);
          if !used {
            return drawing;
          }
        }
      }
      return None;
    }

    /** add_ports: only a failed write is an error, a missing answer is not. */
    method ReportPorts(ports: seq<nat>) returns (ok: bool)
      modifies this`clock, this`log
      ensures ports == [] ==> ok
      ensures clock >= old(clock) && (!ok ==> LastWas(env, clock, WriteError)) && (Smooth(env, draws, initial) ==> ok)
      ensures log == if ok && ports != [] then old(log) + [PortsReported(ports)] else old(log)
    {
      if ports == [] {
        return true;
      }
      var sent := Interact();
      ok := sent != WriteError;
      if ok {
        log := log + [PortsReported(ports)];
        var _ := Interact();
      }
    }

    /** One more socket, reported to the relay. */
    method AddSocket() returns (error: Option<string>)
      requires Sourced(boundSockets, initial, draws, drawn)
      modifies this`clock, this`drawn, this`boundSockets, this`log
      ensures (old(Distinct(boundSockets)) ==> Distinct(boundSockets)) && old(boundSockets) <= boundSockets
      ensures error.None? ==>
                && |boundSockets| == old(|boundSockets|) + 1
                && log == old(log) + [PortsReported([boundSockets[old(|boundSockets|)]])]
      ensures error.Some? ==> log == old(log) && (LastDrawsUseless(None) || LastWas(env, clock, WriteError))
      ensures clock >= old(clock) && Sourced(boundSockets, initial, draws, drawn)
      ensures Smooth(env, draws, initial) ==> error.None?
    {
      var port := BindEphemeralUnique(None);
      if port.None? {
        return Some("Failed to bind socket");
      }
      boundSockets := boundSockets + [port.value];
      var ok := ReportPorts([port.value]);
      return if ok then None else Some("add_ports failed");
    }

    /** Binds until `index` has a socket; None means success. */
    method SocketsUpTo(index: nat) returns (error: Option<string>)
      requires Orderly(log) && Below(log, index) && Sourced(boundSockets, initial, draws, drawn)
      modifies this`clock, this`drawn, this`boundSockets, this`log
      ensures (old(Distinct(boundSockets)) ==> Distinct(boundSockets)) && old(boundSockets) <= boundSockets
      ensures error.None? ==> index < |boundSockets|
      ensures old(index < |boundSockets|) ==> error.None? && boundSockets == old(boundSockets)
      // every socket added is reported, on its own
      ensures error.None? ==> log == old(log) + EachReported(boundSockets[old(|boundSockets|)..])
      ensures Orderly(log) && Below(log, index) && old(log) <= log
      ensures error.Some? ==> LastDrawsUseless(None) || LastWas(env, clock, WriteError)
      ensures clock >= old(clock) && Sourced(boundSockets, initial, draws, drawn)
      ensures Smooth(env, draws, initial) ==> error.None?
    {
      hide Orderly, Below, EachReported, Distinct, Smooth, Sourced, LastDrawsUseless, LastWas;
      ghost var start, n := log, |boundSockets|;
      NoneReported(log);
      assert boundSockets[n..] == [];
      while |boundSockets| <= index
        invariant (old(Distinct(boundSockets)) ==> Distinct(boundSockets)) && old(boundSockets) <= boundSockets
        invariant old(index < |boundSockets|) ==> boundSockets == old(boundSockets)
        invariant log == start + EachReported(boundSockets[n..]) && start <= log
        invariant Orderly(log) && Below(log, index)
        invariant clock >= old(clock) && Sourced(boundSockets, initial, draws, drawn)
        decreases index + 1 - |boundSockets|
      {
        ghost var added := boundSockets[n..];
        error := AddSocket();
        if error.Some? {
          return;
        }
        ghost var port := boundSockets[|boundSockets| - 1];
        assert boundSockets[n..] == added + [port];
        OneMoreReported(start, added, port, index);
      }
      return None;
    }

    /** What a failed wait does to the budget: a lost relay abandons at once, a
        server error returns early, everything else counts. */
    method WaitFailed(o: Outcome, prefix: string) returns (early: bool, abandon: Option<string>)
      requires o != Good
      modifies this`failuresInARow, this`transportLost
      ensures early <==> o == ServerError
      ensures early ==> failuresInARow == old(failuresInARow) && transportLost == old(transportLost)
      ensures !early ==> failuresInARow == old(failuresInARow) + 1
      ensures !early ==> transportLost == (old(transportLost) || o == TransportLost)
      ensures !early ==> (abandon.Some? <==> o == TransportLost || failuresInARow >= maxFailures)
    {
      early, abandon := false, None;
      if o == TransportLost {
        transportLost := true;
        abandon := Some(prefix);
      } else if o == ServerError {
        return true, None;
      }
      failuresInARow := failuresInARow + 1;
      if failuresInARow >= maxFailures {
        abandon := Some(prefix);
      }
    }

    /** Waiting for peer_info (from the relay, or kept from the first message) and
        waiting for GO end the same way: the next state, or a counted failure. */
    ghost predicate Waited(state: ConnectionState, next: Transition, abandon: Option<string>,
                           failuresBefore: nat, good: bool)
      reads this
    {
      && next.Ok? && next.value.connNum == state.connNum
      && (if good then
            abandon.None? && failuresInARow == failuresBefore && !transportLost && Rank(next.value) == Rank(state) - 1
          else
            && next.value.Failed? && failuresInARow == failuresBefore + 1
            && (abandon.Some? <==> transportLost || failuresInARow >= maxFailures))
    }

    method AwaitPeerInfo(state: ConnectionState)
      returns (next: Transition, early: bool, abandon: Option<string>, ghost good: bool)
      requires state.WaitingForPeerInfo? && !transportLost
      modifies this`clock, this`failuresInARow, this`transportLost, this`savedPeerInfo, this`log
      ensures !early ==> Waited(state, next, abandon, old(failuresInARow), good)
      ensures log == if good then old(log) + [InfoTaken(state.connNum)] else old(log)
      // kept information is used once, for connection 0
      ensures savedPeerInfo == if state.connNum == 0 then None else old(savedPeerInfo)
      ensures state.connNum == 0 && old(savedPeerInfo).Some? ==>
                !early && good && next == HandlePeerInfo(state, old(savedPeerInfo).value) && clock == old(clock)
      ensures state.connNum != 0 || old(savedPeerInfo).None? ==>
                && clock == old(clock) + 1 && (good ==> next == HandlePeerInfo(state, clock))
                && Told(env, clock, early, good, transportLost)
      ensures Smooth(env, draws, initial) ==> !early && good
    {
      early, abandon, good, next := false, None, true, Err("");
      if state.connNum == 0 && savedPeerInfo.Some? {
        next := HandlePeerInfo(state, savedPeerInfo.value);
        savedPeerInfo, log := None, log + [InfoTaken(state.connNum)];
        return;
      }
      var o := Interact();
      if o == Good {
        next, log := HandlePeerInfo(state, clock), log + [InfoTaken(state.connNum)];
      } else {
        good := false;
        early, abandon := WaitFailed(o, "peer_info");
        next := HandleFailure(state, "peer_info");
      }
    }

    method AwaitGo(state: ConnectionState)
      returns (next: Transition, early: bool, abandon: Option<string>, ghost good: bool)
      requires state.WaitingForGO? && !transportLost
      modifies this`clock, this`failuresInARow, this`transportLost, this`log
      ensures !early ==> Waited(state, next, abandon, old(failuresInARow), good)
      ensures log == old(log) || log == old(log) + [ReadySent(state.connNum), GoAwaited(state.connNum)]
      ensures !early ==> log != old(log)
      ensures clock > old(clock)
      ensures if early then PassedOn(env, clock) else Told(env, clock, early, good, transportLost)
      ensures transportLost ==> LastWas(env, clock, TransportLost)
      ensures !early && good ==> next == HandleGo(state, clock as real)
      ensures Smooth(env, draws, initial) ==> !early && good
    {
      early, abandon, good, next := true, None, true, Err("");
      var ready := Interact();
      if ready == WriteError {
        return;
      }
      log := log + [ReadySent(state.connNum)];
      var o := Interact();
      log := log + [GoAwaited(state.connNum)];
      if o == Good {
        early, next := false, HandleGo(state, clock as real);
      } else {
        good := false;
        early, abandon := WaitFailed(o, "go");
        next := HandleFailure(state, "go");
      }
    }

    /** One punch from the connection's own socket. */
    method Punch(state: ConnectionState) returns (next: Transition, early: bool, ghost good: bool)
      requires state.Punching? && state.connNum < |boundSockets|
      modifies this`clock, this`failuresInARow, this`punches, this`log
      ensures early ==> punches == old(punches) && log == old(log)
      ensures !early ==> punches == old(punches) + [state.connNum]
      ensures !early ==> log == old(log) + [Punched(state.connNum, boundSockets[state.connNum])]
      ensures !early ==> next.Ok? && next.value.connNum == state.connNum
      ensures !early && good ==> next.value.Established? && failuresInARow == 0
      ensures !early && !good ==> next.value.Failed? && failuresInARow == old(failuresInARow) + 1
      ensures clock > old(clock) && (if early then PassedOn(env, clock) else good <==> LastWas(env, clock, Good))
      ensures Smooth(env, draws, initial) ==> !early && good
    {
      early, good, next := true, false, Err("");
      var port := boundSockets[state.connNum];
      var cloned := Interact();
      if cloned == WriteError {
        return;
      }
      var o := Interact();
      early, punches, log := false, punches + [state.connNum], log + [Punched(state.connNum, port)];
      if o == Good {
        failuresInARow := 0;
        good, next := true, HandleSuccess(state);
      } else {
        failuresInARow := failuresInARow + 1;
        next := HandleFailure(state, "punch failed");
      }
    }

    /** The write of `retry_request`. */
    method AskRetry(conn: nat) returns (ok: bool)
      modifies this`clock, this`log
      ensures log == if ok then old(log) + [RetryAsked(conn)] else old(log)
      ensures clock > old(clock) && (ok <==> !LastWas(env, clock, WriteError))
    {
      var sent := Interact();
      ok := sent != WriteError;
      if ok {
        log := log + [RetryAsked(conn)];
      }
    }

    /** A granted retry replaces exactly this connection's socket, by the port just drawn, and
        that port is reported to the relay. */
    method AwaitRetry(state: ConnectionState)
      returns (next: Transition, early: bool, abandon: Option<string>, ghost good: bool)
      requires state.WaitingForRetry? && !transportLost && state.connNum < |boundSockets|
      requires Sourced(boundSockets, initial, draws, drawn)
      modifies this`clock, this`drawn, this`failuresInARow, this`transportLost, this`boundSockets, this`log
      ensures |boundSockets| == old(|boundSockets|) && (old(Distinct(boundSockets)) ==> Distinct(boundSockets))
      ensures forall i :: 0 <= i < |boundSockets| && i != state.connNum ==> boundSockets[i] == old(boundSockets)[i]
      ensures !early ==> next.Ok? && next.value.connNum == state.connNum
      ensures !early && good ==> failuresInARow == old(failuresInARow) && !transportLost
      ensures !early && good ==> if abandon.Some? then next.value.Failed? else next.value.WaitingForPeerInfo?
      ensures !early && good && abandon.Some? ==> LastDrawsUseless(Some(state.connNum))
      ensures !early && good && abandon.None? ==>
                && drawn > old(drawn) && Some(boundSockets[state.connNum]) == draws(drawn - 1)
                && !InUse(boundSockets[state.connNum], Some(state.connNum))
                && log == old(log) + [RetryAwaited(state.connNum), PortsReported([boundSockets[state.connNum]])]
      ensures early || !good || abandon.Some? ==> log == old(log) + [RetryAwaited(state.connNum)]
      ensures !good || abandon.Some? ==> boundSockets == old(boundSockets)
      ensures !early && !good ==> Waited(state, next, abandon, old(failuresInARow), false)
      ensures Sourced(boundSockets, initial, draws, drawn)
      ensures clock > old(clock) && (good <==> env(old(clock)) == Good) && (early ==> PassedOn(env, clock))
      ensures !good ==> clock == old(clock) + 1 && Told(env, clock, early, good, transportLost)
      ensures transportLost ==> LastWas(env, clock, TransportLost)
    {
      early, abandon, good, next := false, None, true, Err("");
      var o := Interact();
      log := log + [RetryAwaited(state.connNum)];
      if o != Good {
        good := false;
        early, abandon := WaitFailed(o, "retry_granted");
        next := Ok(Failed(state.connNum, "Retry coordination failed"));
        return;
      }
      var port := BindEphemeralUnique(Some(state.connNum));
      if port.None? {
        abandon := Some("Failed to bind socket for retry");
        next := Ok(Failed(state.connNum, "Failed to bind socket for retry"));
        return;
      }
      boundSockets := boundSockets[state.connNum := port.value];
      var ok := ReportPorts([port.value]);
      early, next := !ok, HandleRetryGranted(state);
    }

    /** One turn of the loop, in every state in which it goes on. */
    method Turn(state: ConnectionState) returns (next: Transition, early: bool, abandon: Option<string>)
      requires !state.Established? && state.connNum < |boundSockets| && !transportLost && failuresInARow < maxFailures
      requires Sourced(boundSockets, initial, draws, drawn)
      modifies this`clock, this`drawn, this`boundSockets, this`failuresInARow, this`transportLost, this`savedPeerInfo,
               this`punches, this`log
      ensures OwnSocketOnly(old(boundSockets), boundSockets, state.connNum)
      ensures punches == old(punches) + if state.Punching? && !early then [state.connNum] else []
      ensures TurnOf(old(log), state, log, boundSockets[state.connNum])
      ensures boundSockets != old(boundSockets) ==>
                state.WaitingForRetry? && (|log| == old(|log|) + 2 || log == old(log) + [RetryAwaited(state.connNum)])
      ensures !early && boundSockets != old(boundSockets) ==> |log| == old(|log|) + 2
      ensures if early then PassedOn(env, clock) else next.Ok? && next.value.connNum == state.connNum
      ensures !early && abandon.None? ==> LedTo(old(log), state, log, next.value)
      ensures !early ==>
                Turned(env, Smooth(env, draws, initial), old(clock), clock, state, next.value, abandon,
                       old(failuresInARow), failuresInARow, maxFailures, transportLost,
                       LastDrawsUseless(Some(state.connNum)))
      ensures clock >= old(clock)
      ensures Smooth(env, draws, initial) && !state.Failed? && !state.WaitingForRetry? ==> !early
      ensures Sourced(boundSockets, initial, draws, drawn)
    {
      abandon := None;
      ghost var good;
      match state {
        case WaitingForPeerInfo(_) =>
          next, early, abandon, good := AwaitPeerInfo(state);
        case WaitingForGO(_, _) =>
          next, early, abandon, good := AwaitGo(state);
        case Punching(_, _, _) =>
          next, early, good := Punch(state);
        case Failed(_, _) =>
          var asked := AskRetry(state.connNum);
          early, next := !asked, HandleRetryRequest(state);
        case WaitingForRetry(_) =>
          next, early, abandon, good := AwaitRetry(state);
      }
    }

    /** What holds between two turns of one connection: its log, sockets, punches and budget, as they
        were when it began. */
    ghost predicate Between(
      state: ConnectionState, abandon: Option<string>, start: seq<Deed>, sockets: seq<nat>, tried: seq<nat>, began: nat)
      reads this
    {
      var conn := state.connNum;
      && Sourced(boundSockets, initial, draws, drawn)
      && OwnSocketOnly(sockets, boundSockets, conn) && conn < |boundSockets|
      && |tried| <= |punches| && PunchedOnly(tried, punches, conn)
      && LogKept(start, log, conn, state, abandon.None?, boundSockets[conn])
      && Underway(env, Smooth(env, draws, initial), began, clock, state, abandon, failuresInARow, maxFailures,
                  transportLost, LastDrawsUseless(Some(conn)), |punches| - |tried|)
    }

    /** A turn of a connection that is neither established nor out of failures. */
    method Proceed(
      state: ConnectionState, ghost start: seq<Deed>, ghost sockets: seq<nat>, ghost tried: seq<nat>, ghost began: nat)
      returns (next: Transition, early: bool, abandon: Option<string>)
      requires Between(state, None, start, sockets, tried, began)
      requires !state.Established? && (state.Failed? ==> failuresInARow < maxFailures)
      modifies this`clock, this`drawn, this`boundSockets, this`failuresInARow, this`transportLost, this`savedPeerInfo,
               this`punches, this`log
      ensures !early ==> next.Ok?
      ensures !early ==>
                && next.value.connNum == state.connNum && Between(next.value, abandon, start, sockets, tried, began)
                && failuresInARow <= maxFailures
                && (abandon.None? ==> || next.value.Established? || failuresInARow > old(failuresInARow)
                                      || (failuresInARow == old(failuresInARow) && Rank(next.value) < Rank(state)))
      ensures early ==>
                && Orderly(log) && Below(log, state.connNum + 1) && start <= log
                && OwnSocketOnly(sockets, boundSockets, state.connNum) && Sourced(boundSockets, initial, draws, drawn)
                && PunchedOnly(tried, punches, state.connNum) && |punches| <= |tried| + maxFailures
                && Treated(env, Smooth(env, draws, initial), began, clock, EarlyReturn, state.connNum, reports, reports,
                           streams, streams, maxFailures, transportLost, LastDrawsUseless(Some(state.connNum)),
                           |tried| < |punches|)
    {
      hide Orderly, Below, Renewed, Fits, Expected, LastIs, TurnOf, LedTo, PunchedOnly, OwnSocketOnly, Smooth, Misses,
        LastDrawsUseless, PassedOn, LastWas, Sourced, Distinct, Turned, Underway, LogKept, Treated;
      ghost var conn, before, held, done, since := state.connNum, log, boundSockets, punches, clock;
      ghost var failed, was, tries: nat := failuresInARow, LastDrawsUseless(Some(conn)), |punches| - |tried|;
      StillUnderway(env, Smooth(env, draws, initial), began, clock, state, None, failed, maxFailures, transportLost,
                    was, tries);
      next, early, abandon := Turn(state);
      OwnSocketTwice(sockets, held, boundSockets, conn);
      PunchedMore(tried, done, punches, conn);
      ghost var to := if early then state else next.value;
      LogGoesOn(start, before, log, state, to, abandon.None? && !early, held[conn], boundSockets[conn]);
      if early {
        EndsEarly(env, began, clock, conn, reports, streams, maxFailures, transportLost, LastDrawsUseless(Some(conn)),
                  |tried| < |punches|);
      } else {
        GoesOn(env, Smooth(env, draws, initial), began, since, clock, state, next.value, abandon, failed,
               failuresInARow, maxFailures, transportLost, LastDrawsUseless(Some(conn)), tries, was);
      }
    }

    lemma OutOfFailures(
      state: ConnectionState, reason: string, start: seq<Deed>, sockets: seq<nat>, tried: seq<nat>, began: nat)
      requires Between(state, None, start, sockets, tried, began) && state.Failed? && failuresInARow >= maxFailures
      ensures Between(state, Some(reason), start, sockets, tried, began)
    {
      hide Orderly, Below, OwnSocketOnly, PunchedOnly, Smooth, LastDrawsUseless, Sourced, Underway, LogKept;
      var conn := state.connNum;
      StopsHere(env, Smooth(env, draws, initial), began, clock, state, reason, failuresInARow, maxFailures,
                transportLost, LastDrawsUseless(Some(conn)), |punches| - |tried|);
      LogCloses(start, log, conn, state, boundSockets[conn]);
    }

    /** The stream is kept and the relay told, or told that the connection is given up. */
    method ReportOutcome(
      state: ConnectionState, abandon: Option<string>, ghost start: seq<Deed>, ghost sockets: seq<nat>,
      ghost tried: seq<nat>, ghost began: nat)
      requires Between(state, abandon, start, sockets, tried, began) && (abandon.None? ==> state.Established?)
      modifies this`clock, this`reports, this`streams, this`failuresInARow
      ensures Treated(env, Smooth(env, draws, initial), began, clock, Finished, state.connNum, old(reports), reports,
                      old(streams), streams, maxFailures, transportLost, LastDrawsUseless(Some(state.connNum)),
                      |tried| < |punches|)
      ensures Orderly(log) && Below(log, state.connNum + 1) && start <= log && failuresInARow == 0
      ensures OwnSocketOnly(sockets, boundSockets, state.connNum) && Sourced(boundSockets, initial, draws, drawn)
      ensures PunchedOnly(tried, punches, state.connNum) && |punches| <= |tried| + maxFailures
    {
      hide Orderly, Below, OwnSocketOnly, PunchedOnly, Smooth, LastDrawsUseless, Sourced, Underway, LogKept, Treated;
      ghost var conn, tries: nat := state.connNum, |punches| - |tried|;
      LogMeans(start, log, conn, state, abandon.None?, boundSockets[conn]);
      if abandon.None? {
        EndsEstablished(env, Smooth(env, draws, initial), began, clock, state, failuresInARow, maxFailures,
                        transportLost, LastDrawsUseless(Some(conn)), tries, reports, streams);
        var _ := Interact();
        reports, streams := reports + [ReportEstablished(state.connNum)], streams + [state.connNum];
      } else {
        EndsAbandoned(env, Smooth(env, draws, initial), began, clock, state, abandon, failuresInARow, maxFailures,
                      transportLost, LastDrawsUseless(Some(conn)), tries, reports, streams);
        var _ := Interact();
        reports, failuresInARow := reports + [ReportAbandoned(state.connNum)], 0;
      }
    }

    /** The state machine of one connection, from its first state to a report. The
        measure is: not established yet, failures left, rank of the state. It is
        given up only when the relay is lost, all `maxFailures` failures are spent,
        or no socket can be bound for a retry. */
    method RunConnection(conn: nat) returns (ending: Ending)
      requires maxFailures >= 1 && failuresInARow == 0 && conn < |boundSockets|
      requires !transportLost && Orderly(log) && Below(log, conn) && Sourced(boundSockets, initial, draws, drawn)
      modifies this
      ensures Orderly(log) && Below(log, conn + 1) && old(log) <= log
      ensures OwnSocketOnly(old(boundSockets), boundSockets, conn)
      ensures PunchedOnly(old(punches), punches, conn) && |punches| <= old(|punches|) + maxFailures
      ensures ending == Finished ==> failuresInARow == 0
      ensures Treated(env, Smooth(env, draws, initial), old(clock), clock, ending, conn, old(reports), reports,
                      old(streams), streams, maxFailures, transportLost, LastDrawsUseless(Some(conn)),
                      old(|punches|) < |punches|)
      ensures Sourced(boundSockets, initial, draws, drawn)
    {
      var state: ConnectionState := WaitingForPeerInfo(conn);
      var abandon: Option<string> := None;
      LogStarts(log, conn, boundSockets[conn]);
      ghost var sockets, tried, start, began := boundSockets, punches, log, clock;
      assert OwnSocketOnly(sockets, boundSockets, conn) && PunchedOnly(tried, punches, conn);
      assert Underway(env, Smooth(env, draws, initial), began, began, state, None, 0, maxFailures, false,
                      LastDrawsUseless(Some(conn)), 0);
      hide Orderly, Below, Renewed, Fits, Expected, LastIs, PunchedOnly, OwnSocketOnly, Smooth, Misses,
        LastDrawsUseless, PassedOn, LastWas, Sourced, Distinct, Underway, LogKept, Treated, Rank, Between;
      while abandon.None?
        invariant state.connNum == conn && failuresInARow <= maxFailures
        invariant reports == old(reports) && streams == old(streams)
        invariant Between(state, abandon, start, sockets, tried, began)
        decreases abandon.None?, !state.Established?, maxFailures - failuresInARow, Rank(state)
      {
        if state.Established? {
          break;
        }
        if state.Failed? && failuresInARow >= maxFailures {
          abandon := Some("max_failures: " + state.reason);
          OutOfFailures(state, abandon.value, start, sockets, tried, began);
          break;
        }
        var next, early;
        next, early, abandon := Proceed(state, start, sockets, tried, began);
        if early {
          return EarlyReturn;
        }
        if next.Err? {
          return InvalidTransition;
        }
        state := next.value;
      }
      ReportOutcome(state, abandon, start, sockets, tried, began);
      ending := Finished;
    }

    /** First part of the run: how many connections there are. The receiver takes
        the number from the first peer_info and keeps that message; the sender
        binds the sockets it still lacks, as far as it can. None: early return. */
    method Prepare(receiver: bool, tcpConnections: nat, peerWants: nat) returns (count: Option<nat>)
      requires log == [] && Sourced(boundSockets, initial, draws, drawn)
      modifies this`clock, this`drawn, this`boundSockets, this`savedPeerInfo, this`log
      ensures Orderly(log) && Below(log, 0)
      ensures (old(Distinct(boundSockets)) ==> Distinct(boundSockets)) && old(boundSockets) <= boundSockets
      // the sockets added are reported, all at once
      ensures count.Some? ==>
                log == if boundSockets == old(boundSockets) then []
                       else [PortsReported(boundSockets[old(|boundSockets|)..])]
      ensures count.Some? ==> count.value == if receiver then peerWants else tcpConnections
      ensures count.Some? && receiver ==> savedPeerInfo == Some(clock)
      ensures count.Some? && !receiver ==> |boundSockets| >= tcpConnections || LastDrawsUseless(None)
      ensures !receiver ==> savedPeerInfo == old(savedPeerInfo)
      ensures clock >= old(clock) && (count.None? ==> !LastWas(env, clock, Good))
      ensures Sourced(boundSockets, initial, draws, drawn) && (Smooth(env, draws, initial) ==> count.Some?)
    {
      if receiver {
        var o := Interact();
        if o != Good {
          return None;
        }
        savedPeerInfo := Some(clock);
        return Some(peerWants);
      }
      var newPorts: seq<nat> := [];
      var needed := Max(tcpConnections - |boundSockets|, 0);
      var bound := true;
      while bound && |newPorts| < needed
        invariant old(Distinct(boundSockets)) ==> Distinct(boundSockets)
        invariant boundSockets == old(boundSockets) + newPorts && (!bound ==> LastDrawsUseless(None))
        invariant savedPeerInfo == old(savedPeerInfo) && log == []
        invariant clock == old(clock) && Sourced(boundSockets, initial, draws, drawn)
        decreases bound, needed - |newPorts|
      {
        var port := BindEphemeralUnique(None);
        bound := port.Some?;
        if bound {
          boundSockets, newPorts := boundSockets + [port.value], newPorts + [port.value];
        }
      }
      if newPorts != [] { Noted(log, PortsReported(newPorts)); }
      assert boundSockets[old(|boundSockets|)..] == newPorts;
      var ok := ReportPorts(newPorts);
      count := if ok then Some(tcpConnections) else None;
    }

    /** Sockets, then the state machine: one connection from start to report. */
    method TreatConnection(conn: nat) returns (ending: Ending)
      requires maxFailures >= 1 && failuresInARow == 0 && !transportLost
      requires Orderly(log) && Below(log, conn) && Sourced(boundSockets, initial, draws, drawn)
      modifies this
      ensures Orderly(log) && Below(log, conn + 1) && old(log) <= log
      ensures ending != InvalidTransition && (ending == Finished ==> failuresInARow == 0)
      ensures (old(Distinct(boundSockets)) ==> Distinct(boundSockets)) && old(|boundSockets|) <= |boundSockets|
      ensures PunchesOf(old(punches), punches, conn, maxFailures)
      ensures ending == EarlyReturn ==> reports == old(reports) && streams == old(streams)
      ensures ending == Finished ==>
                && |reports| == old(|reports|) + 1 && reports == old(reports) + [reports[|reports| - 1]]
                && reports[|reports| - 1].conn == conn
                && (reports[|reports| - 1].ReportEstablished? ==>
                      !transportLost && conn < |boundSockets|
                      && CountOf(punches, conn) > old(CountOf(punches, conn))
                      && clock > 0 && LastWas(env, clock - 1, Good))
                && (reports[|reports| - 1].ReportAbandoned? ==>
                      || transportLost || Misses(env, old(clock), clock) >= maxFailures
                      || LastDrawsUseless(Some(conn)) || LastDrawsUseless(None)
                      || (clock > 0 && LastWas(env, clock - 1, WriteError)))
                && streams == old(streams) + if reports[|reports| - 1].ReportEstablished? then [conn] else []
      ensures ending == EarlyReturn ==> PassedOn(env, clock) && !LastWas(env, clock, Good)
      ensures ending == Finished && transportLost ==> clock > 0 && LastWas(env, clock - 1, TransportLost)
      ensures Smooth(env, draws, initial) ==> ending == Finished && reports == old(reports) + [ReportEstablished(conn)]
      ensures Sourced(boundSockets, initial, draws, drawn)
    {
      ghost var began := clock;
      hide Orderly, Below, Smooth, Sourced, LastDrawsUseless, Misses, PassedOn, InUse;
      var error := SocketsUpTo(conn);
      if error.Some? {
        StartFits(log, conn);
        var _ := Interact();
        reports, failuresInARow := reports + [ReportAbandoned(conn)], 0;
        return Finished;
      }
      ghost var before, since := punches, clock;
      ending := RunConnection(conn);
      MissesAdd(env, began, since, clock);
      PassedOnIsNotGood(env, clock);
      PunchesAdded(before, punches, conn);
    }

    /** All connections, one after the other. `finished` is the number of
        connections that came to a report. */
    method Establish(receiver: bool, tcpConnections: nat, peerWants: nat) returns (ending: Ending, finished: nat)
      requires maxFailures >= 1 && failuresInARow == 0 && !transportLost
      requires streams == [] && reports == [] && punches == [] && log == []
      requires Sourced(boundSockets, initial, draws, drawn)
      modifies this
      ensures ending != InvalidTransition
      // the relay gets its messages in the order it is entitled to, and every punch is from the port it knows
      ensures Orderly(log)
      // exactly one report per finished connection, in connection order
      ensures |reports| == finished && InOrder(reports)
      ensures streams == EstablishedIn(reports)
      ensures WithinFailures(punches, if ending == Finished then finished else finished + 1, maxFailures)
      ensures ending == Finished ==> failuresInARow == 0
      ensures ending == Finished && !transportLost ==> finished == if receiver then peerWants else tcpConnections
      ensures ending == EarlyReturn ==> !LastWas(env, clock, Good)
      ensures ending == Finished && transportLost ==> clock > 0 && LastWas(env, clock - 1, TransportLost)
      // where nothing goes wrong, every connection is established
      ensures Smooth(env, draws, initial) ==>
                && ending == Finished && finished == (if receiver then peerWants else tcpConnections)
                && AllEstablished(reports)
      ensures (old(Distinct(boundSockets)) ==> Distinct(boundSockets)) && old(|boundSockets|) <= |boundSockets|
    {
      finished := 0;
      var count := Prepare(receiver, tcpConnections, peerWants);
      NothingYet();
      if count.None? {
        return EarlyReturn, 0;
      }
      hide *;
      while finished < count.value && !transportLost
        invariant |reports| == finished <= count.value && InOrder(reports)
        invariant streams == EstablishedIn(reports)
        invariant WithinFailures(punches, finished, maxFailures)
        invariant failuresInARow == 0 && Orderly(log) && Below(log, finished)
        invariant transportLost ==> clock > 0 && LastWas(env, clock - 1, TransportLost)
        invariant Sourced(boundSockets, initial, draws, drawn)
        invariant Smooth(env, draws, initial) ==> AllEstablished(reports)
        invariant (old(Distinct(boundSockets)) ==> Distinct(boundSockets)) && old(|boundSockets|) <= |boundSockets|
        decreases count.value - finished
      {
        ghost var before, tried := reports, punches;
        var how := TreatConnection(finished);
        MorePunches(tried, punches, finished, maxFailures);
        if how != Finished {
          return how, finished;
        }
        EstablishedSnoc(before, reports[finished]);
        InOrderSnoc(before, reports[finished]);
        AllEstablishedSnoc(before, reports[finished]);
        finished := finished + 1;
      }
      return Finished, finished;
    }
  }

  /** Report k says that connection k is established. */
  ghost predicate AllEstablished(reports: seq<Report>) {
    forall k :: 0 <= k < |reports| ==> reports[k] == ReportEstablished(k)
  }

  lemma AllEstablishedSnoc(reports: seq<Report>, r: Report)
    ensures AllEstablished(reports) && r == ReportEstablished(|reports|) ==> AllEstablished(reports + [r])
  {
  }

  /** Report k is about connection k. */
  ghost predicate InOrder(reports: seq<Report>) {
    forall k :: 0 <= k < |reports| ==> reports[k].conn == k
  }

  lemma InOrderSnoc(reports: seq<Report>, r: Report)
    requires InOrder(reports) && r.conn == |reports|
    ensures InOrder(reports + [r])
  {
  }

  /** At most so many punches for each of the first `n` connections, none for others. */
  ghost predicate WithinFailures(punches: seq<nat>, n: nat, most: nat) {
    forall c: nat :: CountOf(punches, c) <= if c < n then most else 0
  }

  /** At most so many more punches, of this connection only. */
  ghost predicate PunchesOf(before: seq<nat>, after: seq<nat>, conn: nat, most: nat) {
    forall c: nat :: CountOf(after, c) <= CountOf(before, c) + if c == conn then most else 0
  }

  lemma MorePunches(before: seq<nat>, after: seq<nat>, n: nat, most: nat)
    requires WithinFailures(before, n, most)
    requires PunchesOf(before, after, n, most)
    ensures WithinFailures(after, n + 1, most)
  {
    hide CountOf;
    forall c: nat ensures CountOf(after, c) <= if c < n + 1 then most else 0 {
      assert CountOf(before, c) <= if c < n then most else 0;
    }
  }

  lemma NothingYet()
    ensures EstablishedIn([]) == [] && InOrder([]) && AllEstablished([])
    ensures forall n: nat, most: nat :: WithinFailures([], n, most)
  {
  }

  /** New punches of one connection are counted for that connection only. */
  lemma {:induction false} PunchesAdded(before: seq<nat>, after: seq<nat>, conn: nat)
    requires before <= after && forall i :: |before| <= i < |after| ==> after[i] == conn
    ensures forall c: nat :: CountOf(after, c) == CountOf(before, c) + if c == conn then |after| - |before| else 0
    decreases |after|
  {
    if |before| == |after| {
      assert before == after;
    } else {
      PunchesAdded(before, after[..|after| - 1], conn);
    }
  }
}
