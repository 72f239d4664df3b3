/** Session start, descriptor handling and speech events of one websocket connection. */
module WsIo {
  import opened Types
  import opened Monitor
  import opened WsTables
  import opened WsSpec

  /** Library answers, one sequence for each processing run a call triggers. */
  type Answers = seq<seq<Env>>

  function Ans(a: Answers, i: nat): seq<Env> { if i < |a| then a[i] else [] }

  predicate IsEstablished(s: State) { s.Established? || s.Streaming? || s.TextOnlySession? }

  // ---- starting a session ----

  /** What the kernel and the audio layer answer to a stream request. */
  datatype PipeAnswer = PipeFails | AudioFails(fd: nat) | PipeReady(fd: nat)

  /** xrsr_speech_stream_begin: the first request opens the pipe, later ones get the cached read end. */
  function StreamBegin(l: Link, p: PipeAnswer): (Link, Option<int>)
  {
    if !l.sess.firstStreamReq then (l, Some(l.sess.pipeFd))
    else
      match p
      case PipeFails => (l, None)
      case AudioFails(fd) => (Emit(Emit(l, PipeOpened(fd)), PipeClosed(fd)).(sess := l.sess.(pipeFd := NONE)), None)
      case PipeReady(fd) =>
        (Emit(l, PipeOpened(fd)).(sess := l.sess.(firstStreamReq := false, pipeFd := fd)), Some(fd))
  }

  /** Everything xrsr_ws_connect sets before it posts the begin event. */
  function Prepare(l: Link, src: nat, now: nat): Link
  {
    var w := l.ws;
    Emit(l.(ws := w.(deadline := now + w.cfg.timeoutSession, src := src,
                     tx := w.tx.(kwdNotified := true, kwdBytes := 0, txd := 0),
                     wait := ToInt32(w.cfg.timeoutConnect), onClose := false, closeStatus := -1)),
         SessionStarted)
  }

  /** xrsr_ws_connect. */
  function Connect(l: Link, src: nat, now: nat, deferred: bool, envs: seq<Env>): Link
  {
    Deliver(Prepare(l, src, now), if deferred then SessionBeginStm else SessionBegin, envs)
  }

  /** The websocket part of xrsr_msg_session_config_in, for the source that holds the group. */
  function Configure(l: Link, src: nat, p: PipeAnswer, now: nat, streamTimeMin: nat, envs: seq<Env>): Link
  {
    var (m, fd) := StreamBegin(l, p);
    if fd.None? then SessionEnd(m, AudioBeginError)
    else
      Connect(m.(ws := m.ws.(pipe := fd.value)), src, now,
              streamTimeMin != 0 && !m.ws.byText && !m.ws.stm, envs)
  }

  /** xrsr_ws_audio_stream: further audio for an established connection. */
  function ContinueStream(l: Link, src: nat, p: PipeAnswer): Link
  {
    var (m, fd) := StreamBegin(l.(ws := l.ws.(src := src)), p);
    if fd.None? then SessionEnd(m, AudioBeginError)
    else Emit(m.(ws := m.ws.(pipe := fd.value)), StreamBegan)
  }

  /** A begin message for a source that was let through: it takes the group, and a disconnected machine waits
      for the configuration, an established one continues. */
  function Begun(l: Link, src: nat, byText: bool, p: PipeAnswer): Link
  {
    var held := Link(l.ws.(byText := byText), l.sess.(src := src));
    if l.ws.state.Disconnected? then held.(ws := held.ws.(stm := false))
    else if IsEstablished(l.ws.state) then ContinueStream(held, src, p)
    else held
  }

  // ---- descriptors ----

  /** What the main loop asks select for, and what select reports. */
  datatype Ready = Ready(read: bool, write: bool, audio: bool)

  /** xrsr_ws_fd_set. */
  function Wanted(w: Ws): Ready
  {
    var up := IsEstablished(w.state) && w.socket >= 0;
    Ready(up, up && (w.tx.pending || w.msgs != []), up && w.pipe >= 0 && !w.tx.pending)
  }

  predicate Within(r: Ready, wanted: Ready)
  {
    (r.read ==> wanted.read) && (r.write ==> wanted.write) && (r.audio ==> wanted.audio)
  }

  datatype RecvEvent = EosServer | PeerLeft | NoRecvEvent

  // Nothing covers no message, a fragment and an unknown opcode.
  datatype Incoming = Nothing | PeerClosed(status: int) | Message(closeAsked: bool, recv: RecvEvent)

  datatype Flush = Flushed | Incomplete | ClosedInFlush(status: int)

  // A send that runs the close callback reports failure.
  datatype Sent = Bytes(n: nat) | WouldBlock | Failed | ClosedInSend(status: int)

  datatype PipeRead = Data(n: nat) | Eof | ReadFails

  /** Outcomes of the library calls one pass over the descriptors can make. */
  datatype Io = Io(incoming: Incoming, flush: Flush, text: Sent, audio: PipeRead, frame: Sent)

  /** A read returns some bytes and a send reports no more than it was given. */
  predicate IoOk(io: Io)
  {
    io.audio.Data? && io.frame.Bytes? ==> io.frame.n <= io.audio.n
  }

  /** xrsr_ws_on_close. */
  function OnClose(l: Link, status: int, envs: seq<Env>): Link
  {
    Deliver(l.(ws := l.ws.(onClose := true, closeStatus := status)), WsClose, envs)
  }

  /** xrsr_ws_read_pending and xrsr_ws_on_msg: a remote event is queued but not processed yet. */
  function ReadPending(l: Link, r: Incoming, a: Answers): Link
  {
    match r
    case Nothing => l
    case PeerClosed(status) => OnClose(l, status, Ans(a, 0))
    case Message(closeAsked, recv) =>
      var m := Deliver(l, MsgRecv, Ans(a, 0));
      var c := if closeAsked then Deliver(m, AppClose, Ans(a, 1)) else m;
      match recv
      case NoRecvEvent => c
      case EosServer => Post(Reasons(c, AudioEof, EndOfSpeech), EosPipe)
      case PeerLeft => Post(Reasons(c, RemoteDisconnect, WsSendError), EosPipe)
  }

  function FlushRetry(l: Link, envs: seq<Env>): Link
  {
    var n := (l.ws.tx.retries + 1) % 256;
    var m := Emit(l.(ws := l.ws.(tx := l.ws.tx.(retries := n))), FlushIncomplete);
    if n > WRITE_PENDING_RETRY_MAX then Deliver(m, WsError, envs) else m
  }

  /** The pending-bytes part of the write pass; true when the bytes went out. */
  function FlushPending(l: Link, f: Flush, a: Answers): (Link, bool)
  {
    match f
    case Flushed =>
      (Emit(l.(ws := l.ws.(tx := l.ws.tx.(pending := false, retries := 0))), WriteFlushed), true)
    case Incomplete => (FlushRetry(l, Ans(a, 2)), false)
    case ClosedInFlush(status) => (FlushRetry(OnClose(l, status, Ans(a, 2)), Ans(a, 3)), false)
  }

  /** What the library says, as the log shows it. */
  function ReplyOf(s: Sent): Reply
  {
    match s
    case Bytes(n) => Took(n)
    case WouldBlock => TryLater
    case Failed | ClosedInSend(_) => Refused
  }

  function Block(l: Link): Link { l.(ws := l.ws.(tx := l.ws.tx.(pending := true))) }

  /** Sending the oldest outgoing message; true when the pass goes on to the audio pipe. */
  function SendText(l: Link, s: Sent, a: Answers): (Link, bool)
    requires l.ws.msgs != []
  {
    var m := Emit(l.(ws := l.ws.(msgs := l.ws.msgs[1..])), TextSent(l.ws.msgs[0], ReplyOf(s)));
    match s
    case Bytes(n) =>
      if n == 0 then (Deliver(m, WsError, Ans(a, 4)), true)
      else if n != |l.ws.msgs[0]| then (Block(m), false)
      else (m, true)
    case WouldBlock => (Block(m), false)
    case Failed => (Deliver(m, WsError, Ans(a, 4)), true)
    case ClosedInSend(status) => (Deliver(OnClose(m, status, Ans(a, 5)), WsError, Ans(a, 4)), true)
  }

  /** The write pass; true when the pass goes on to the audio pipe. */
  function WritePass(l: Link, io: Io, a: Answers): (Link, bool)
  {
    if l.ws.tx.pending then
      var (m, flushed) := FlushPending(l, io.flush, a);
      if !flushed then (m, false)
      else if m.ws.msgs != [] then SendText(m, io.text, a)
      else (m, true)
    else if l.ws.msgs != [] then SendText(l, io.text, a)
    else (l, true)
  }

  /** Bytes of the current stream known to be sent, counted in 32 bits. */
  function CountSent(l: Link, k: nat): Link
  {
    l.(ws := l.ws.(tx := l.ws.tx.(txd := (l.ws.tx.txd + k) % 0x1_0000_0000)))
  }

  /** The keyword is announced once enough bytes were sent; a reset connection announces nothing. */
  function AnnounceKeyword(l: Link): Link
  {
    if l.ws.tx.kwdNotified || l.ws.tx.txd < l.ws.tx.kwdBytes then l
    else
      var m := if l.ws.src < SRC_INVALID then Emit(l, KeywordRaised(l.ws.tx.txd)) else l;
      m.(ws := m.ws.(tx := m.ws.tx.(kwdNotified := true)))
  }

  function SendFrame(l: Link, n: nat, s: Sent, a: Answers): Link
  {
    var m := Emit(Emit(l, AudioRead(n)), AudioSent(n, ReplyOf(s)));
    match s
    case WouldBlock => Block(m)
    case Failed => Deliver(m, WsError, Ans(a, 6))
    case ClosedInSend(status) => Deliver(OnClose(m, status, Ans(a, 7)), WsError, Ans(a, 6))
    case Bytes(k) =>
      if k == 0 then Deliver(m, WsError, Ans(a, 6))
      else if k != n then CountSent(Block(m), k)
      else CountSent(m, n)
  }

  /** One read from the audio pipe and one frame to the socket. */
  function AudioPass(l: Link, io: Io, a: Answers): Link
  {
    match io.audio
    case ReadFails => Deliver(l, AudioError, Ans(a, 6))
    case Eof => Deliver(l, EosPipe, Ans(a, 6))
    case Data(n) => AnnounceKeyword(SendFrame(l, n, io.frame, a))
  }

  /** xrsr_ws_handle_fds. */
  function HandleFds(l: Link, r: Ready, io: Io, a: Answers): Link
  {
    var l1 := if l.ws.socket >= 0 && r.read then ReadPending(l, io.incoming, a) else l;
    var (l2, on) := if l1.ws.socket >= 0 && r.write then WritePass(l1, io, a) else (l1, true);
    if on && l2.ws.pipe >= 0 && r.audio then AudioPass(l2, io, a) else l2
  }

  // ---- speech events and application messages ----

  datatype SpeechEvent = SpeechEos | SpeechTimeMinimum | SpeechKeyword(bytes: nat)

  /** xrsr_ws_handle_speech_event. */
  function Speech(l: Link, e: SpeechEvent, envs: seq<Env>): Link
  {
    match e
    case SpeechEos => Deliver(l, EosEv, envs)
    case SpeechKeyword(n) =>
      Emit(l.(ws := l.ws.(tx := l.ws.tx.(kwdNotified := false, kwdBytes := n))), KeywordInfo(n))
    case SpeechTimeMinimum => Deliver(l.(ws := l.ws.(stm := true)), StmEv, envs)
  }

  /** xrsr_ws_send_text: queued only while established and only while a slot is free. */
  function QueueText(l: Link, msg: seq<char>): Link
  {
    if IsEstablished(l.ws.state) && |l.ws.msgs| < MSG_OUT_MAX then l.(ws := l.ws.(msgs := l.ws.msgs + [msg])) else l
  }
}
