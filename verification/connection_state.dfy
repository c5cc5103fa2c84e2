/** The client's connection states: src/connection/state_machine.rs. */
module ConnectionStates {
  import opened Wrappers

  type PeerInfo = int

  datatype ConnectionState =
    | WaitingForPeerInfo(connNum: nat)
    | WaitingForGO(connNum: nat, peerInfo: PeerInfo)
    | Punching(connNum: nat, peerInfo: PeerInfo, startAt: real)
    | Established(connNum: nat)
    | Failed(connNum: nat, reason: string)
    | WaitingForRetry(connNum: nat)

  type Transition = Result<ConnectionState, string>

  function HandlePeerInfo(state: ConnectionState, peerInfo: PeerInfo): Transition {
    match state
    case WaitingForPeerInfo(connNum) => Ok(WaitingForGO(connNum, peerInfo))
    case _ => Err("cannot handle PeerInfo")
  }

  function HandleGo(state: ConnectionState, startAt: real): Transition {
    match state
    case WaitingForGO(connNum, peerInfo) => Ok(Punching(connNum, peerInfo, startAt))
    case _ => Err("cannot handle GO")
  }

  function HandleSuccess(state: ConnectionState): Transition {
    match state
    case Punching(connNum, _, _) => Ok(Established(connNum))
    case _ => Err("cannot handle success")
  }

  function HandleFailure(state: ConnectionState, reason: string): Transition {
    match state
    case Punching(connNum, _, _) => Ok(Failed(connNum, reason))
    case WaitingForPeerInfo(connNum) => Ok(Failed(connNum, reason))
    case WaitingForGO(connNum, _) => Ok(Failed(connNum, reason))
    case _ => Err("cannot handle failure")
  }

  function HandleRetryRequest(state: ConnectionState): Transition {
    match state
    case Failed(connNum, _) => Ok(WaitingForRetry(connNum))
    case _ => Err("cannot request retry")
  }

  function HandleRetryGranted(state: ConnectionState): Transition {
    match state
    case WaitingForRetry(connNum) => Ok(WaitingForPeerInfo(connNum))
    case _ => Err("cannot grant retry")
  }

  datatype Event =
    | GotPeerInfo(peerInfo: PeerInfo) | GotGo(startAt: real)
    | Succeeded | Broke(reason: string) | RetryRequested | RetryGranted

  function Handle(state: ConnectionState, event: Event): Transition {
    match event
    case GotPeerInfo(peerInfo) => HandlePeerInfo(state, peerInfo)
    case GotGo(startAt) => HandleGo(state, startAt)
    case Succeeded => HandleSuccess(state)
    case Broke(reason) => HandleFailure(state, reason)
    case RetryRequested => HandleRetryRequest(state)
    case RetryGranted => HandleRetryGranted(state)
  }

  /** How far a state is from being decided, within one failure budget step. */
  function Rank(state: ConnectionState): nat {
    match state
    case Failed(_, _) => 5
    case WaitingForRetry(_) => 4
    case WaitingForPeerInfo(_) => 3
    case WaitingForGO(_, _) => 2
    case Punching(_, _, _) => 1
    case Established(_) => 0
  }

  /** All transitions there are: every one keeps its connection number and brings
      the connection closer to a decision, except a failure, which leads to
      Failed; nothing leaves Established, and Established is entered only from
      Punching. */
  lemma TransitionsDescend(state: ConnectionState, event: Event)
    ensures var r := Handle(state, event);
            && (state.Established? ==> r.Err?)
            && (r.Ok? ==> r.value.connNum == state.connNum)
            && (r.Ok? ==> (event.Broke? <==> r.value.Failed?))
            && (r.Ok? && !event.Broke? ==> Rank(r.value) == Rank(state) - 1)
            && (r.Ok? && r.value.Established? ==> state.Punching?)
            && (event.Broke? ==> (r.Ok? <==> Rank(state) in {1, 2, 3}))
  {
  }

  function After(state: ConnectionState, events: seq<Event>): Transition {
    if events == [] then Ok(state)
    else
      match After(state, events[..|events| - 1])
      case Err(e) => Err(e)
      case Ok(s) => Handle(s, events[|events| - 1])
  }

  function CountBroke(events: seq<Event>): nat {
    if events == [] then 0
    else CountBroke(events[..|events| - 1]) + if events[|events| - 1].Broke? then 1 else 0
  }

  /** No history is longer than its failures allow: five events per failure and
      three more, so a bounded number of failures bounds the whole machine. */
  lemma {:induction false} FailuresBoundHistory(connNum: nat, events: seq<Event>)
    requires After(WaitingForPeerInfo(connNum), events).Ok?
    ensures var s := After(WaitingForPeerInfo(connNum), events).value;
            s.connNum == connNum && |events| + Rank(s) <= 3 + 5 * CountBroke(events)
    decreases |events|
  {
    if events != [] {
      var before := events[..|events| - 1];
      FailuresBoundHistory(connNum, before);
      TransitionsDescend(After(WaitingForPeerInfo(connNum), before).value, events[|events| - 1]);
    }
  }
}
