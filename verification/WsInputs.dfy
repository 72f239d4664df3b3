/** Every way the main loop drives one connection, and what all of them keep. */
module WsInputs {
  import opened Types
  import opened Monitor
  import opened WsTables
  import opened WsSpec
  import opened WsIo
  import opened WsInvariant
  import opened WsRuns

  datatype Input =
    | Configured(src: nat, p: PipeAnswer, now: nat, streamTimeMin: nat, envs: seq<Env>)
    | SpeechIn(e: SpeechEvent, envs: seq<Env>)
    | TimerFired(envs: seq<Env>)
    | TerminateIn(envs: seq<Env>)
    | FdsIn(ready: Ready, io: Io, a: Answers)
    | TextQueued(msg: seq<char>)

  function Apply(l: Link, i: Input): Link
  {
    match i
    case Configured(src, p, now, streamTimeMin, envs) => Configure(l, src, p, now, streamTimeMin, envs)
    case SpeechIn(e, envs) => Speech(l, e, envs)
    case TimerFired(envs) => Deliver(l, TimeoutEv, envs)
    case TerminateIn(envs) => Deliver(l, TerminateEv, envs)
    case FdsIn(ready, io, a) => HandleFds(l, ready, io, a)
    case TextQueued(msg) => QueueText(l, msg)
  }

  /** A session is configured once, while its source holds the group and its machine is disconnected. */
  predicate Configurable(l: Link, src: nat)
  {
    l.ws.state.Disconnected? && l.sess.src == src < SRC_INVALID && l.sess.firstStreamReq
  }

  /** What the environment guarantees about an input. */
  predicate Allowed(l: Link, i: Input)
  {
    match i
    case Configured(src, _, _, _, _) => Configurable(l, src)
    case FdsIn(ready, io, _) => Reportable(l.ws, ready) && IoOk(io)
    case _ => true
  }

  // ---- starting a session ----

  /** The stream request that starts a session: a pipe is handed over, or nothing is left open. */
  lemma StreamBeginTied(l: Link, src: nat, p: PipeAnswer)
    requires Quiet(l) && Configurable(l, src)
    ensures var (m, fd) := StreamBegin(l, p);
            && m.ws == l.ws.(log := m.ws.log)
            && (if fd.None? then Quiet(m) && m.sess == l.sess.(pipeFd := m.sess.pipeFd)
                else && fd.value >= 0
                     && m.sess == l.sess.(firstStreamReq := false, pipeFd := fd.value)
                     && Seen(m) == Seen(l).(fds := {fd.value}))
  {
    hide Watch;
    match p
    case PipeFails =>
    case AudioFails(fd) =>
      SeenEmit(l, PipeOpened(fd));
      SeenEmit(Emit(l, PipeOpened(fd)), PipeClosed(fd));
      assert {} + {fd as int} - {fd as int} == {};
    case PipeReady(fd) =>
      SeenEmit(l, PipeOpened(fd));
      assert {} + {fd as int} == {fd as int};
  }

  lemma PrepareTied(l: Link, src: nat, p: PipeAnswer, now: nat, e: Event)
    requires Quiet(l) && Configurable(l, src) && IsBegin(e)
    requires StreamBegin(l, p).1.Some?
    ensures var (m, fd) := StreamBegin(l, p);
            Inv(Post(Prepare(m.(ws := m.ws.(pipe := fd.value)), src, now), e))
  {
    StreamBeginTied(l, src, p);
    var (m, fd) := StreamBegin(l, p);
    hide StreamBegin, Watch, ToInt32;
    var q := m.(ws := m.ws.(pipe := fd.value));
    PrepareSeen(q, src, now);
    IdleStreak(l.ws.log);
    PreparedBody(l, m, q, src, now);
    BeginPosted(Prepare(q, src, now), e);
    hide Body, Prepare, Quiet;
  }

  lemma PreparedBody(l: Link, m: Link, q: Link, src: nat, now: nat)
    requires Quiet(l) && Configurable(l, src) && m.ws == l.ws.(log := m.ws.log) && m.sess.pipeFd >= 0
    requires m.sess == l.sess.(firstStreamReq := false, pipeFd := m.sess.pipeFd)
    requires Seen(m) == Seen(l).(fds := {m.sess.pipeFd}) && q == m.(ws := m.ws.(pipe := m.sess.pipeFd))
    requires Seen(q).streak == 0
    requires Seen(Prepare(q, src, now))
             == Seen(q).(phase := Live, begun := false, armed := None, bytesRead := 0, unsent := 0, counted := 0,
                         streak := 0)
    ensures Body(Prepare(q, src, now), Live) && Prepare(q, src, now).ws.queue == l.ws.queue
    ensures Prepare(q, src, now).ws.state.Disconnected?
  {
    hide Watch, ToInt32;
  }

  lemma BeginPosted(r: Link, e: Event)
    requires Body(r, Live) && r.ws.state.Disconnected? && (r.ws.queue == [] || r.ws.queue == [EosPipe]) && IsBegin(e)
    requires r.ws.tx.retries <= WRITE_PENDING_RETRY_MAX
    ensures Inv(Post(r, e))
  {
    BodyIgnoresQueue(r, Post(r, e), Live);
    hide Body;
    assert Last(Post(r, e).ws.queue) == e;
  }

  lemma PrepareSeen(q: Link, src: nat, now: nat)
    requires Seen(q).ok && Seen(q).phase == Idle && !Seen(q).blocked
    ensures Seen(Prepare(q, src, now))
            == Seen(q).(phase := Live, begun := false, armed := None, bytesRead := 0, unsent := 0, counted := 0,
                         streak := 0)
  {
    hide Watch, ToInt32;
    WatchAppend(q.ws.log, SessionStarted);
  }

  /** Starting a session keeps the invariant; afterwards the session runs for its source, or the group was
      released, or the audio layer refused and the group is still held by a disconnected machine. */
  lemma ConfigureKeeps(l: Link, src: nat, p: PipeAnswer, now: nat, streamTimeMin: nat, envs: seq<Env>)
    requires Quiet(l) && Configurable(l, src)
    ensures var r := Configure(l, src, p, now, streamTimeMin, envs);
            && Quiet(r)
            && (if StreamBegin(l, p).1.None? then r.ws.state.Disconnected? && r.sess.src == src && r.sess.firstStreamReq
                else if r.ws.state.Disconnected? then r.sess.src == SRC_INVALID && r.sess.firstStreamReq
                else r.ws.src == src && r.sess.src == src)
  {
    hide Watch, Process, Prepare, Body;
    StreamBeginTied(l, src, p);
    var (m, fd) := StreamBegin(l, p);
    if fd.Some? {
      var e := if streamTimeMin != 0 && !m.ws.byText && !m.ws.stm then SessionBeginStm else SessionBegin;
      var q := Post(Prepare(m.(ws := m.ws.(pipe := fd.value)), src, now), e);
      PrepareTied(l, src, p, now, e);
      ProcessRests(q, envs);
      ProcessEvolves(q, envs);
      PrepareSource(m.(ws := m.ws.(pipe := fd.value)), src, now, e);
      hide Post, StreamBegin;
    } else {
      IdleHasNoSource(m);
      RefusedStaysFirst(l, p);
      hide StreamBegin;
    }
  }

  lemma RefusedStaysFirst(l: Link, p: PipeAnswer)
    requires l.sess.firstStreamReq && StreamBegin(l, p).1.None?
    ensures StreamBegin(l, p).0.sess.firstStreamReq
  {}

  lemma PrepareSource(q: Link, src: nat, now: nat, e: Event)
    requires q.ws.state.Disconnected? && IsBegin(e) && |q.ws.queue| < EVENTS_MAX
    ensures var r := Post(Prepare(q, src, now), e);
            Starting(r.ws) && r.ws.src == src && r.sess == q.sess
  {
    hide ToInt32;
  }

  lemma IdleHasNoSource(l: Link)
    requires Quiet(l) && l.ws.state.Disconnected?
    ensures l.ws.src == SRC_INVALID
  {
    hide Watch;
  }

  // ---- the other inputs ----

  lemma SpeechKeeps(l: Link, e: SpeechEvent, envs: seq<Env>)
    requires Quiet(l)
    ensures Quiet(Speech(l, e, envs)) && Evolves(l, Speech(l, e, envs))
  {
    hide Watch, Process, Post;
    match e
    case SpeechEos => DeliverKeeps(l, EosEv, envs);
    case SpeechKeyword(n) =>
      SeenEmit(l.(ws := l.ws.(tx := l.ws.tx.(kwdNotified := false, kwdBytes := n))), KeywordInfo(n));
    case SpeechTimeMinimum =>
      assert Quiet(l.(ws := l.ws.(stm := true)));
      DeliverKeeps(l.(ws := l.ws.(stm := true)), StmEv, envs);
  }

  lemma QueueTextKeeps(l: Link, msg: seq<char>)
    requires Quiet(l)
    ensures Quiet(QueueText(l, msg)) && Evolves(l, QueueText(l, msg))
  {
    hide Watch;
  }

  /** Whatever the main loop does, a connection at rest is at rest again afterwards. */
  lemma ApplyKeeps(l: Link, i: Input)
    requires Quiet(l) && Allowed(l, i)
    ensures Quiet(Apply(l, i))
    ensures !i.Configured? ==> Evolves(l, Apply(l, i))
  {
    hide Watch, Process, Body, Deliver, Configure, Speech, HandleFds, QueueText, Resting, Evolves;
    match i
    case Configured(src, p, now, streamTimeMin, envs) => ConfigureKeeps(l, src, p, now, streamTimeMin, envs);
    case SpeechIn(e, envs) => SpeechKeeps(l, e, envs);
    case TimerFired(envs) => DeliverKeeps(l, TimeoutEv, envs);
    case TerminateIn(envs) => DeliverKeeps(l, TerminateEv, envs);
    case FdsIn(ready, io, a) => HandleFdsKeeps(l, ready, io, a);
    case TextQueued(msg) => QueueTextKeeps(l, msg);
  }
}
