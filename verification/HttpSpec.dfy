/** The HTTP machine: its tables and what its handlers do to one connection and to its session group. */
module HttpSpec {
  import opened Types
  import opened Monitor

  datatype State = Disconnected | Buffering | Connecting | Connected | Streaming | TextOnlySession

  datatype Event = SessionBegin | SessionBeginStm | DisconnectedEv | StmEv | EosEv | TerminateEv | TimeoutEv
    | ConnectedEv | MsgRecv | PipeEos | TextSessionSuccess

  function Next(s: State, e: Event): Option<State>
  {
    match s
    case Disconnected =>
      (match e
       case SessionBegin => Some(Connecting)
       case SessionBeginStm => Some(Buffering)
       case _ => None)
    case Buffering =>
      (match e
       case EosEv => Some(Disconnected)
       case TerminateEv => Some(Disconnected)
       case StmEv => Some(Connecting)
       case _ => None)
    case Connecting =>
      (match e
       case DisconnectedEv => Some(Disconnected)
       case ConnectedEv => Some(Streaming)
       case _ => None)
    case Connected =>
      (match e
       case MsgRecv => Some(Disconnected)
       case TerminateEv => Some(Disconnected)
       case TimeoutEv => Some(Disconnected)
       case _ => None)
    case Streaming =>
      (match e
       case PipeEos => Some(Connected)
       case TerminateEv => Some(Disconnected)
       case MsgRecv => Some(Disconnected)
       case TextSessionSuccess => Some(TextOnlySession)
       case _ => None)
    case TextOnlySession =>
      (match e
       case PipeEos => Some(Connected)
       case TerminateEv => Some(Disconnected)
       case MsgRecv => Some(Disconnected)
       case _ => None)
  }

  const EVENTS_MAX: nat := 5
  const MSG_TIMEOUT: nat := 10000

  predicate IsInternal(e: Event) { e.DisconnectedEv? || e.ConnectedEv? || e.TextSessionSuccess? }

  predicate IsBegin(e: Event) { e.SessionBegin? || e.SessionBeginStm? }

  /** xrsr_state_http_t, without the curl handles and the pipe. */
  datatype Http = Http(state: State, queue: seq<Event>, src: nat, timer: int, reason: SessionWhy, byText: bool,
                       resume: bool, log: seq<Call>)

  datatype Link = Link(http: Http, sess: Session)

  datatype Env = Env(now: nat, connectOk: bool, timerId: nat, resume: bool)

  const QUIET := Env(0, false, 0, true)

  function First(envs: seq<Env>): Env { if envs == [] then QUIET else envs[0] }

  function Rest(envs: seq<Env>): seq<Env> { if envs == [] then [] else envs[1..] }

  function Emit(l: Link, c: Call): Link { l.(http := l.http.(log := l.http.log + [c])) }

  function Post(l: Link, e: Event): Link
  {
    if |l.http.queue| < EVENTS_MAX then l.(http := l.http.(queue := l.http.queue + [e])) else l
  }

  /** xrsr_speech_stream_end, with a single destination per source. */
  function StreamEnd(l: Link, why: StreamWhy): (r: Link)
    ensures r.http == l.http.(log := r.http.log) && r.sess.src == l.sess.src
  {
    if l.http.src >= SRC_INVALID then l
    else Emit(l.(sess := l.sess.(pipeFd := NONE, firstStreamReq := true)), StreamEnded(why))
  }

  /** xrsr_session_end. */
  function SessionEnd(l: Link): (r: Link)
    ensures r.http == l.http.(log := r.http.log)
  {
    if l.http.src >= SRC_INVALID || l.sess.src != l.http.src then l
    else
      var m := Emit(l, SessionEnded(l.http.reason));
      if m.http.state.Disconnected? then m.(sess := m.sess.(src := SRC_INVALID)) else m
  }

  function StopTimer(l: Link): (r: Link)
    ensures r.http == l.http.(log := r.http.log, timer := r.http.timer) && r.sess == l.sess
  {
    if l.http.timer >= 0 then
      var m := Emit(l, TimerRemoved(l.http.timer));
      m.(http := m.http.(timer := NONE))
    else l
  }

  /** xrsr_http_reset. */
  function Reset(l: Link): Link
  {
    var m := StopTimer(l);
    m.(http := m.http.(src := SRC_INVALID, resume := true, reason := EndOfSpeech, byText := false))
  }

  function Because(l: Link, why: SessionWhy): Link { l.(http := l.http.(reason := why)) }

  // ---- state handlers ----

  /** ACT_EXIT of the current state, for event e. */
  function Exit(l: Link, e: Event): (r: Link)
    ensures r.http.state == l.http.state && r.http.queue == l.http.queue && r.http.src == l.http.src
    ensures r.http.byText == l.http.byText && r.sess.src == l.sess.src
  {
    match l.http.state
    case Buffering =>
      (match e
       case EosEv => Because(StreamEnd(l, DidNotBegin), AudioDurationError)
       case TerminateEv => Because(StreamEnd(l, DidNotBegin), Terminated)
       case _ => l)
    case Connecting =>
      (match e
       case DisconnectedEv => Because(StreamEnd(l, DidNotBegin), ConnectFailure)
       case ConnectedEv => Emit(l, ConnectNotified)
       case _ => l)
    case Connected =>
      StopTimer(match e
                case TimeoutEv => Because(l, SessionTimedOut)
                case TerminateEv => Because(l, Terminated)
                case _ => l)
    case Streaming =>
      (match e
       case TerminateEv => Because(StreamEnd(l, LocalDisconnect), Terminated)
       case MsgRecv => Because(StreamEnd(l, RemoteDisconnect), ConnectFailure)
       case PipeEos => StreamEnd(l, AudioEof)
       case _ => l)
    case TextOnlySession =>
      (match e
       case TerminateEv => Because(StreamEnd(l, LocalDisconnect), Terminated)
       case MsgRecv => Because(StreamEnd(l, NoStreamReason), EndOfText)
       case PipeEos => StreamEnd(l, AudioEof)
       case _ => l)
    case Disconnected => l
  }

  /** The event ACT_ENTER of the (already updated) current state posts, if any. */
  function EnterPosts(h: Http, env: Env): Option<Event>
  {
    match h.state
    case Connecting => Some(if env.connectOk then ConnectedEv else DisconnectedEv)
    case Streaming => if h.byText then Some(TextSessionSuccess) else None
    case _ => None
  }

  /** Everything else ACT_ENTER does. */
  function Enter(l: Link, env: Env): (r: Link)
    ensures r.http.state == l.http.state && r.http.queue == l.http.queue
    ensures !l.http.state.Disconnected? ==> r.http.src == l.http.src && r.sess == l.sess
  {
    match l.http.state
    case Disconnected =>
      var told := Emit(l, DisconnectNotified(l.http.reason));
      Reset(SessionEnd(told.(http := told.http.(resume := env.resume))))
    case Connected =>
      Emit(l.(http := l.http.(timer := env.timerId)), TimerInserted(env.timerId, env.now + MSG_TIMEOUT))
    case Streaming => Emit(l, StreamBegan)
    case _ => l
  }

  // ---- the engine; no state has an event that leads to itself ----

  function Leave(l: Link, e: Event, t: State): (r: Link)
    ensures r.http.state == t && r.http.queue == l.http.queue && r.http.src == l.http.src
    ensures r.http.byText == l.http.byText && r.sess.src == l.sess.src
  {
    var left := Exit(l, e);
    left.(http := left.http.(state := t))
  }

  function Effect(l: Link, e: Event, env: Env): (r: Link)
    ensures r.http.queue == l.http.queue
  {
    match Next(l.http.state, e)
    case None => l
    case Some(t) => Enter(Leave(l, e, t), env)
  }

  function Posts(l: Link, e: Event, env: Env): Option<Event>
  {
    match Next(l.http.state, e)
    case None => None
    case Some(t) => EnterPosts(Leave(l, e, t).http, env)
  }

  function Dispatch(l: Link, e: Event, env: Env): Link
  {
    var p := Posts(l, e, env);
    if p.Some? then Post(Effect(l, e, env), p.value) else Effect(l, e, env)
  }

  function Pop(l: Link): Link
    requires l.http.queue != []
  {
    l.(http := l.http.(queue := l.http.queue[1..]))
  }

  function Step(l: Link, env: Env): Link
    requires l.http.queue != []
  {
    Dispatch(Pop(l), l.http.queue[0], env)
  }

  function Cost(e: Event): (n: nat)
    ensures 1 <= n <= 3
  {
    match e
    case SessionBegin | StmEv => 3
    case ConnectedEv => 2
    case _ => 1
  }

  function QueueCost(q: seq<Event>): nat
  {
    if q == [] then 0 else Cost(q[0]) + QueueCost(q[1..])
  }

  lemma {:induction false} QueueCostAppend(q: seq<Event>, e: Event)
    ensures QueueCost(q + [e]) == QueueCost(q) + Cost(e)
  {
    if q == [] {
      assert QueueCost([e]) == Cost(e) + QueueCost([]);
    } else {
      assert (q + [e])[1..] == q[1..] + [e];
      QueueCostAppend(q[1..], e);
    }
  }

  lemma StepCost(l: Link, env: Env)
    requires l.http.queue != []
    ensures QueueCost(Step(l, env).http.queue) < QueueCost(l.http.queue)
  {
    var p := Posts(Pop(l), l.http.queue[0], env);
    if p.Some? { QueueCostAppend(l.http.queue[1..], p.value); }
  }

  function Process(l: Link, envs: seq<Env>): Link
    decreases QueueCost(l.http.queue)
  {
    if l.http.queue == [] then l
    else
      StepCost(l, First(envs));
      Process(Step(l, First(envs)), Rest(envs))
  }

  /** xrsr_http_event from outside the state handlers. */
  function Deliver(l: Link, e: Event, envs: seq<Env>): Link { Process(Post(l, e), envs) }

  /** The HTTP part of xrsr_msg_session_begin: refused for an invalid source and while the group is held. */
  function Begin(l: Link, src: nat, byText: bool): Link
  {
    if src >= SRC_INVALID || l.sess.src < SRC_INVALID then l
    else l.(http := l.http.(byText := byText), sess := l.sess.(src := src))
  }

  /** xrsr_http_connect once its request is set up. */
  function Connect(l: Link, src: nat, deferred: bool, envs: seq<Env>): Link
  {
    var m := Emit(l.(http := l.http.(src := src)), SessionStarted);
    Deliver(m, if deferred then SessionBeginStm else SessionBegin, envs)
  }
}
