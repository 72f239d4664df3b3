/** The websocket machine's states, events and next-state tables. */
module WsTables {
  import opened Types

  datatype State = Disconnected | Disconnecting | Buffering | Connecting | Connected | ConnectionRetry
    | Established | Streaming | TextOnlySession

  datatype Event = SessionBegin | SessionBeginStm | DisconnectedEv | StmEv | EosEv | TerminateEv | XrsrError
    | TimeoutEv | ConnectedEv | RetryEv | EstablishedEv | WsClose | ConnectTimeout | MsgRecv | AppClose
    | EosPipe | WsError | AudioError | EstablishTimeout | TextSessionSuccess

  /** The tables: None where an event has no entry and the engine drops it. */
  function Next(s: State, e: Event): Option<State>
  {
    match s
    case Disconnected =>
      (match e
       case TerminateEv => Some(Disconnected)
       case SessionBegin => Some(Connecting)
       case SessionBeginStm => Some(Buffering)
       case _ => None)
    case Disconnecting =>
      (match e
       case TerminateEv => Some(Disconnected)
       case DisconnectedEv => Some(Disconnected)
       case _ => None)
    case Buffering =>
      (match e
       case EosEv => Some(Disconnected)
       case TerminateEv => Some(Disconnected)
       case StmEv => Some(Connecting)
       case _ => None)
    case Connecting =>
      (match e
       case ConnectTimeout => Some(Disconnected)
       case TerminateEv => Some(Disconnected)
       case XrsrError => Some(Disconnected)
       case TimeoutEv => Some(Connecting)
       case RetryEv => Some(ConnectionRetry)
       case ConnectedEv => Some(Connected)
       case _ => None)
    case Connected =>
      (match e
       case EstablishTimeout => Some(Disconnecting)
       case TerminateEv => Some(Disconnecting)
       case WsClose => Some(Disconnected)
       case TimeoutEv => Some(Connected)
       case EstablishedEv => Some(Streaming)
       case _ => None)
    case Established =>
      (match e
       case AppClose => Some(Disconnecting)
       case TerminateEv => Some(Disconnecting)
       case TimeoutEv => Some(Disconnecting)
       case MsgRecv => Some(Established)
       case EosEv => Some(Established)
       case EosPipe => Some(Established)
       case WsClose => Some(Disconnected)
       case _ => None)
    case Streaming =>
      (match e
       case MsgRecv => Some(Streaming)
       case EosEv => Some(Streaming)
       case EosPipe => Some(Established)
       case TerminateEv => Some(Disconnecting)
       case WsError => Some(Disconnecting)
       case WsClose => Some(Disconnected)
       case AudioError => Some(Established)
       case TextSessionSuccess => Some(TextOnlySession)
       case _ => None)
    case TextOnlySession =>
      (match e
       case EosPipe => Some(Established)
       case TerminateEv => Some(Disconnecting)
       case WsError => Some(Disconnecting)
       case WsClose => Some(Disconnected)
       case AudioError => Some(Established)
       case _ => None)
    case ConnectionRetry =>
      (match e
       case TerminateEv => Some(Disconnected)
       case TimeoutEv => Some(Connecting)
       case _ => None)
  }

  /** Events that only state handlers post. */
  predicate IsInternal(e: Event)
  {
    e.DisconnectedEv? || e.ConnectedEv? || e.RetryEv? || e.EstablishedEv? || e.ConnectTimeout?
    || e.EstablishTimeout? || e.TextSessionSuccess?
  }

  /** Events that start a session. */
  predicate IsBegin(e: Event) { e.SessionBegin? || e.SessionBeginStm? }

  /** Events delivered from outside the state handlers; nobody ever delivers XrsrError. */
  predicate IsExternal(e: Event) { !IsInternal(e) && !e.XrsrError? }

  /** How many dispatches an event can cause, itself included. */
  function Cost(e: Event): (n: nat)
    ensures 1 <= n <= 3
  {
    match e
    case TimeoutEv => 3
    case SessionBegin | SessionBeginStm | StmEv | TerminateEv | AppClose | WsError
       | EstablishedEv | EstablishTimeout => 2
    case _ => 1
  }

  function QueueCost(q: seq<Event>): nat
  {
    if q == [] then 0 else Cost(q[0]) + QueueCost(q[1..])
  }

  lemma QueueCostAppend(q: seq<Event>, e: Event)
    ensures QueueCost(q + [e]) == QueueCost(q) + Cost(e)
  {
    if q == [] {
      assert QueueCost([e]) == Cost(e) + QueueCost([]);
    } else {
      assert (q + [e])[1..] == q[1..] + [e];
      QueueCostAppend(q[1..], e);
    }
  }
}
