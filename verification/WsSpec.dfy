/** What each websocket handler does to one connection and to the session record of its group, as
    functions from old to new values. */
module WsSpec {
  import opened Types
  import opened Monitor
  import opened WsTables

  const EVENTS_MAX: nat := 5
  const MSG_OUT_MAX: nat := 5
  const WRITE_PENDING_RETRY_MAX: nat := 5

  /** Connection parameters, in milliseconds. */
  datatype Config = Config(interval: nat, timeoutConnect: nat, timeoutInactivity: nat, timeoutSession: nat,
                           backoff: nat)

  /** Transmit bookkeeping. */
  datatype Transmit = Transmit(pending: bool, retries: nat, kwdNotified: bool, kwdBytes: nat, txd: nat)

  /** xrsr_state_ws_t.  `msgs` is the content of the outgoing message slots. */
  datatype Ws = Ws(
    state: State, queue: seq<Event>,
    timer: int, src: nat, pipe: int, socket: int, conn: bool,
    onClose: bool, closeStatus: int, resume: bool,
    retryCnt: nat, deadline: nat, wait: int,
    byText: bool, stm: bool,
    streamWhy: StreamWhy, sessionWhy: SessionWhy,
    tx: Transmit, msgs: seq<seq<char>>, cfg: Config, log: seq<Call>)

  /** A connection together with the session record of its group. */
  datatype Link = Link(ws: Ws, sess: Session)

  /** What the libraries, the clock and the application answer while one event is dispatched. */
  datatype Env = Env(now: nat, connectOk: bool, connOk: bool, ready: bool, socket: nat, rnd: nat,
                     timerId: nat, handlerOk: bool, resume: bool)

  const QUIET := Env(0, false, false, false, 0, 0, 0, false, true)

  function First(envs: seq<Env>): Env { if envs == [] then QUIET else envs[0] }

  function Rest(envs: seq<Env>): seq<Env> { if envs == [] then [] else envs[1..] }

  // ---- elementary effects ----

  function Emit(l: Link, c: Call): Link
  {
    l.(ws := l.ws.(log := l.ws.log + [c]))
  }

  /** SmEnqueueEvent on a five-slot queue. */
  function Post(l: Link, e: Event): Link
  {
    if |l.ws.queue| < EVENTS_MAX then l.(ws := l.ws.(queue := l.ws.queue + [e])) else l
  }

  function InsertTimer(l: Link, env: Env, at: nat): (r: Link)
    ensures r.ws.queue == l.ws.queue && r.ws.state == l.ws.state
    ensures r.ws.tx == l.ws.tx
    ensures r.ws.src == l.ws.src && r.sess == l.sess
  {
    Emit(l.(ws := l.ws.(timer := env.timerId)), TimerInserted(env.timerId, at))
  }

  function UpdateTimer(l: Link, at: nat): (r: Link)
    ensures r.ws.queue == l.ws.queue && r.ws.state == l.ws.state
    ensures r.ws.tx == l.ws.tx
    ensures r.ws.src == l.ws.src && r.sess == l.sess
    ensures r.ws.timer == l.ws.timer && r.ws.socket == l.ws.socket
  {
    if l.ws.timer >= 0 then Emit(l, TimerUpdated(l.ws.timer, at)) else l
  }

  function StopTimer(l: Link): (r: Link)
    ensures r.ws.queue == l.ws.queue && r.ws.state == l.ws.state
    ensures r.ws.tx == l.ws.tx
    ensures r.ws.src == l.ws.src && r.sess == l.sess
  {
    if l.ws.timer >= 0 then
      var m := Emit(l, TimerRemoved(l.ws.timer));
      m.(ws := m.ws.(timer := NONE))
    else l
  }

  function ClosePipe(l: Link): (r: Link)
    ensures r.ws.queue == l.ws.queue && r.ws.state == l.ws.state
    ensures r.ws.tx == l.ws.tx
    ensures r.ws.src == l.ws.src && r.sess == l.sess
  {
    if l.ws.pipe >= 0 then
      var m := Emit(l, PipeClosed(l.ws.pipe));
      m.(ws := m.ws.(pipe := NONE))
    else l
  }

  function Reasons(l: Link, stream: StreamWhy, session: SessionWhy): Link
  {
    l.(ws := l.ws.(streamWhy := stream, sessionWhy := session))
  }

  // ---- calls up into the session layer ----

  /** xrsr_speech_stream_end, with a single destination per source. */
  function SpeechStreamEnd(l: Link, why: StreamWhy): (r: Link)
    ensures r.ws.queue == l.ws.queue && r.ws.state == l.ws.state
    ensures r.ws.tx == l.ws.tx
    ensures r.ws.src == l.ws.src && r.sess.src == l.sess.src
  {
    if l.ws.src >= SRC_INVALID then l
    else Emit(l.(sess := l.sess.(pipeFd := NONE, firstStreamReq := true)), StreamEnded(why))
  }

  /** xrsr_ws_speech_stream_end with the reason and resume flag recorded in the connection. */
  function StreamEnd(l: Link): (r: Link)
    ensures r.ws.queue == l.ws.queue && r.ws.state == l.ws.state
    ensures r.ws.tx == l.ws.tx
    ensures r.ws.src == l.ws.src && r.sess.src == l.sess.src
  {
    ClosePipe(SpeechStreamEnd(l, l.ws.streamWhy))
  }

  /** xrsr_session_end: refused for an invalid source or one that does not hold its group; the group is
      released when the connection is already disconnected. */
  function SessionEnd(l: Link, why: SessionWhy): (r: Link)
    ensures r.ws.queue == l.ws.queue && r.ws.state == l.ws.state
    ensures r.ws.tx == l.ws.tx
  {
    if l.ws.src >= SRC_INVALID || l.sess.src != l.ws.src then l
    else
      var m := Emit(l, SessionEnded(why));
      if m.ws.state.Disconnected? then m.(sess := m.sess.(src := SRC_INVALID)) else m
  }

  /** xrsr_ws_reset. */
  function Reset(l: Link): (r: Link)
    ensures r.ws.queue == l.ws.queue && r.ws.state == l.ws.state
  {
    ClosePipe(l.(ws := l.ws.(socket := NONE, timer := NONE, src := SRC_INVALID,
                             tx := l.ws.tx.(pending := false, retries := 0),
                             resume := true, onClose := false, retryCnt := 1, byText := false, msgs := [])))
  }

  // ---- retry delay ----

  function Pow2(n: nat): (p: nat)
    ensures p >= 1
  {
    if n == 0 then 1 else 2 * Pow2(n - 1)
  }

  /** Delay before retry number n, in 32-bit unsigned arithmetic. */
  function RetryDelay(backoff: nat, n: nat, rnd: nat): (d: nat)
    ensures d < 0x1_0000_0000
  {
    (backoff * (rnd % Pow2(n % 32))) % 0x1_0000_0000
  }

  function Min(a: nat, b: nat): nat { if a <= b then a else b }

  // ---- state handlers ----

  /** What leaving a state on an event decides: the two reasons to record, and whether the stream ends. */
  datatype Leaving = Leaving(streamWhy: StreamWhy, sessionWhy: SessionWhy, endsStream: bool)

  /** The reasons recorded by ACT_EXIT; `prior` holds what is recorded when the handler has no case. */
  function LeavingFor(s: State, e: Event, closeStatus: int, prior: Leaving): Leaving
  {
    match s
    case Buffering =>
      (match e
       case EosEv => Leaving(AudioEof, AudioDurationError, true)
       case TerminateEv => Leaving(DidNotBegin, Terminated, true)
       case _ => prior)
    case Connecting =>
      (match e
       case ConnectTimeout => Leaving(DidNotBegin, ConnectFailure, true)
       case TerminateEv => Leaving(DidNotBegin, Terminated, true)
       case _ => prior)
    case Connected =>
      (match e
       case WsClose => Leaving(RemoteDisconnect, ConnectFailure, true)
       case EstablishTimeout => Leaving(DidNotBegin, ConnectTimedOut, true)
       case TerminateEv => Leaving(DidNotBegin, Terminated, true)
       case _ => prior)
    case Established =>
      (match e
       case AppClose => prior.(sessionWhy := EndOfSpeech)
       case TerminateEv => prior.(sessionWhy := Terminated)
       case TimeoutEv => prior.(sessionWhy := SessionTimedOut)
       case WsClose => prior.(sessionWhy := EndOfSpeech)
       case _ => prior)
    case Streaming =>
      (match e
       case EosPipe => Leaving(AudioEof, EndOfSpeech, true)
       case TerminateEv => Leaving(LocalDisconnect, Terminated, true)
       case EstablishTimeout => Leaving(DidNotBegin, ConnectTimedOut, true)
       case AudioError => Leaving(AudioReadError, EndOfSpeech, true)
       case WsError => Leaving(RemoteDisconnect, WsSendError, true)
       case WsClose => Leaving(RemoteDisconnect, if closeStatus != 1000 then UnexpectedRemoteEnd else RemoteEnd, true)
       case TextSessionSuccess => prior
       case _ => prior.(endsStream := true))
    case TextOnlySession =>
      (match e
       case EosPipe => Leaving(AudioEof, EndOfSpeech, true)
       case TerminateEv => Leaving(LocalDisconnect, Terminated, true)
       case EstablishTimeout => Leaving(DidNotBegin, ConnectTimedOut, true)
       case AudioError => Leaving(AudioReadError, EndOfSpeech, true)
       case WsError => Leaving(RemoteDisconnect, WsSendError, true)
       case WsClose => Leaving(NoStreamReason, EndOfText, true)
       case _ => prior.(endsStream := true))
    case ConnectionRetry =>
      (match e
       case TerminateEv => Leaving(LocalDisconnect, Terminated, true)
       case _ => prior)
    case Disconnected => prior
    case Disconnecting => prior
  }

  /** States whose exit handler removes the timer. */
  predicate StopsTimer(s: State) { s.Connecting? || s.Connected? || s.Established? || s.ConnectionRetry? }

  /** ACT_EXIT of the current state, for event e. */
  function Exit(l: Link, e: Event): (r: Link)
    ensures r.ws.queue == l.ws.queue && r.ws.state == l.ws.state
    ensures r.ws.tx == l.ws.tx
    ensures r.ws.src == l.ws.src && r.sess.src == l.sess.src
  {
    var d := LeavingFor(l.ws.state, e, l.ws.closeStatus, Leaving(l.ws.streamWhy, l.ws.sessionWhy, false));
    var r := Reasons(l, d.streamWhy, d.sessionWhy);
    var m := if d.endsStream then StreamEnd(r) else r;
    if StopsTimer(l.ws.state) then StopTimer(m) else m
  }

  /** A failed attempt gives up for good once the session deadline has passed. */
  function GiveUpOrRetry(w: Ws, now: nat): Event
  {
    if now >= w.deadline then ConnectTimeout else RetryEv
  }

  /** The event ACT_ENTER of the (already updated) current state posts, if any. */
  function EnterPosts(w: Ws, env: Env): Option<Event>
  {
    match w.state
    case Disconnecting => Some(DisconnectedEv)
    case Connecting => if env.connectOk then None else Some(GiveUpOrRetry(w, env.now))
    case Streaming => if env.handlerOk && w.byText then Some(TextSessionSuccess) else None
    case _ => None
  }

  /** The application is told, the session is ended and the connection is reset. */
  function EnterDisconnected(l: Link, resume: bool): (r: Link)
    ensures r.ws.queue == l.ws.queue && r.ws.state == l.ws.state
    ensures r.ws.tx.retries == 0
  {
    var told := Emit(l, DisconnectNotified(l.ws.sessionWhy));
    Reset(SessionEnd(told.(ws := told.ws.(resume := resume)), l.ws.sessionWhy))
  }

  /** Everything else ACT_ENTER of the current state does. */
  function Enter(l: Link, env: Env): (r: Link)
    ensures r.ws.queue == l.ws.queue && r.ws.state == l.ws.state
    ensures if l.ws.state.Disconnected? then r.ws.tx.retries == 0 else r.ws.tx == l.ws.tx
    ensures !l.ws.state.Disconnected? ==> r.ws.src == l.ws.src && r.sess == l.sess
  {
    match l.ws.state
    case Disconnected => EnterDisconnected(l, env.resume)
    case Disconnecting =>
      var closed := if l.ws.conn && !l.ws.onClose then Emit(l, ConnectionClosed) else l;
      closed.(ws := closed.ws.(conn := false))
    case Connecting =>
      if !env.connectOk then l.(ws := l.ws.(conn := false))
      else InsertTimer(l.(ws := l.ws.(conn := true)), env, env.now + l.ws.cfg.interval)
    case Connected =>
      InsertTimer(l.(ws := l.ws.(wait := ToInt32(l.ws.cfg.timeoutConnect))), env, env.now + l.ws.cfg.interval)
    case Established =>
      InsertTimer(l, env, env.now + l.ws.cfg.timeoutInactivity)
    case Streaming => Emit(Emit(l, ConnectNotified), StreamBegan)
    case ConnectionRetry =>
      var n := (l.ws.retryCnt + 1) % 0x1_0000_0000;
      InsertTimer(l.(ws := l.ws.(retryCnt := n)), env,
                  Min(env.now + RetryDelay(l.ws.cfg.backoff, n, env.rnd), l.ws.deadline))
    case Buffering => l
    case TextOnlySession => l
  }

  /** One more check interval is taken out of the connect budget. */
  function Reschedule(l: Link, now: nat): (r: Link)
    ensures r.ws.queue == l.ws.queue && r.ws.state == l.ws.state
    ensures r.ws.tx == l.ws.tx
    ensures r.ws.src == l.ws.src && r.sess == l.sess
  {
    UpdateTimer(l.(ws := l.ws.(wait := ToInt32(l.ws.wait - l.ws.cfg.interval))), now + l.ws.cfg.interval)
  }

  /** The event ACT_INTERNAL of the current state posts, if any. */
  function InternalPosts(w: Ws, e: Event, env: Env): Option<Event>
  {
    match w.state
    case Connecting =>
      if !e.TimeoutEv? then None
      else if env.connOk then Some(ConnectedEv)
      else if w.wait <= 0 then Some(GiveUpOrRetry(w, env.now))
      else None
    case Connected =>
      if !e.TimeoutEv? then None
      else if w.conn && env.ready then Some(EstablishedEv)
      else if w.wait <= 0 then Some(EstablishTimeout)
      else None
    case _ => None
  }

  /** Everything else ACT_INTERNAL of the current state does. */
  function Internal(l: Link, e: Event, env: Env): (r: Link)
    ensures r.ws.queue == l.ws.queue && r.ws.state == l.ws.state
    ensures r.ws.tx == l.ws.tx
    ensures r.ws.src == l.ws.src && r.sess == l.sess
  {
    match l.ws.state
    case Connecting =>
      if e.TimeoutEv? && !env.connOk && l.ws.wait > 0 then Reschedule(l, env.now) else l
    case Connected =>
      if !e.TimeoutEv? then l
      else if l.ws.conn && env.ready then l.(ws := l.ws.(socket := env.socket))
      else if l.ws.wait > 0 then Reschedule(l, env.now)
      else l
    case Established =>
      if e.MsgRecv? then UpdateTimer(l, env.now + l.ws.cfg.timeoutInactivity) else l
    case _ => l
  }

  // ---- the engine ----

  /** Exit of the old state followed by the change of state. */
  function Leave(l: Link, e: Event, t: State): (r: Link)
    ensures r.ws.queue == l.ws.queue && r.ws.state == t
    ensures r.ws.tx == l.ws.tx
    ensures r.ws.src == l.ws.src && r.sess.src == l.sess.src
  {
    var left := Exit(l, e);
    left.(ws := left.ws.(state := t))
  }

  /** What dispatching an event does to everything but the queue: dropped, internal, or
      exit - new state - enter. */
  function Effect(l: Link, e: Event, env: Env): (r: Link)
    ensures r.ws.queue == l.ws.queue
  {
    match Next(l.ws.state, e)
    case None => l
    case Some(t) => if t == l.ws.state then Internal(l, e, env) else Enter(Leave(l, e, t), env)
  }

  /** What dispatching an event adds to the queue. */
  function Posts(l: Link, e: Event, env: Env): Option<Event>
  {
    match Next(l.ws.state, e)
    case None => None
    case Some(t) => if t == l.ws.state then InternalPosts(l.ws, e, env) else EnterPosts(Leave(l, e, t).ws, env)
  }

  function PostAll(l: Link, p: Option<Event>): Link { if p.Some? then Post(l, p.value) else l }

  /** One event against the tables. */
  function Dispatch(l: Link, e: Event, env: Env): Link { PostAll(Effect(l, e, env), Posts(l, e, env)) }

  function Pop(l: Link): Link
    requires l.ws.queue != []
  {
    l.(ws := l.ws.(queue := l.ws.queue[1..]))
  }

  /** The first queued event is taken out and dispatched. */
  function Step(l: Link, env: Env): Link
    requires l.ws.queue != []
  {
    Dispatch(Pop(l), l.ws.queue[0], env)
  }

  /** What a dispatch posts is cheaper than what was dispatched. */
  lemma PostsCost(l: Link, e: Event, env: Env)
    ensures Posts(l, e, env).Some? ==> Cost(Posts(l, e, env).value) < Cost(e)
  {
    hide Exit;
  }

  lemma StepCost(l: Link, env: Env)
    requires l.ws.queue != []
    ensures QueueCost(Step(l, env).ws.queue) < QueueCost(l.ws.queue)
    ensures |Step(l, env).ws.queue| <= |l.ws.queue|
  {
    var p := Posts(Pop(l), l.ws.queue[0], env);
    PostsCost(Pop(l), l.ws.queue[0], env);
    if p.Some? { QueueCostAppend(l.ws.queue[1..], p.value); }
  }

  /** SmProcessEvents: first in, first out, until the queue is empty. */
  function Process(l: Link, envs: seq<Env>): Link
    decreases QueueCost(l.ws.queue)
  {
    if l.ws.queue == [] then l
    else
      StepCost(l, First(envs));
      Process(Step(l, First(envs)), Rest(envs))
  }

  /** How many events one processing run dispatches. */
  function Dispatches(l: Link, envs: seq<Env>): nat
    decreases QueueCost(l.ws.queue)
  {
    if l.ws.queue == [] then 0
    else
      StepCost(l, First(envs));
      1 + Dispatches(Step(l, First(envs)), Rest(envs))
  }

  /** xrsr_ws_event from outside the state handlers. */
  function Deliver(l: Link, e: Event, envs: seq<Env>): Link { Process(Post(l, e), envs) }
}
