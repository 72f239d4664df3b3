/** Streams whose end the application hears of without having heard of their begin. */
module WsUnbegun {
  import opened Types
  import opened Monitor
  import opened WsTables
  import opened WsSpec
  import opened WsIo
  import opened WsInvariant
  import opened WsRuns
  import opened WsInputs
  import opened WsTimers
  import opened WsProgress

  /** How many stream ends of a connection the application heard of without a begin. */
  function Unbegun(l: Link): nat { Seen(l).unbegun }

  /** Audio that ends while it is still buffered, a peer that closes before the handshake is done, and a session
      that is terminated between two attempts. */
  predicate EndsSilently(s: State, e: Event)
  {
    (s.Buffering? && e.EosEv?) || (s.Connected? && e.WsClose?) || (s.ConnectionRetry? && e.TerminateEv?)
  }

  /** Exactly these exits report the end of a stream that was not reported to begin. */
  lemma EndsUnbegun(l: Link, e: Event, ph: Phase)
    requires Leavable(l, e, ph)
    ensures Plan(l, e).endsStream && Plan(l, e).streamWhy != DidNotBegin && !Seen(l).begun
            <==> EndsSilently(l.ws.state, e)
  {
    hide Watch;
  }

  // ---- one dispatch ----

  lemma UnbegunAppend(log: seq<Call>, c: Call)
    requires !c.StreamEnded?
    ensures Watch(log + [c]).unbegun == Watch(log).unbegun
  {
    WatchAppend(log, c);
    hide Watch;
  }

  lemma UnbegunEmit(l: Link, c: Call)
    requires !c.StreamEnded?
    ensures Unbegun(Emit(l, c)) == Unbegun(l)
  {
    UnbegunAppend(l.ws.log, c);
    hide Watch;
  }

  lemma UnbegunTimers(l: Link, env: Env, at: nat)
    ensures Unbegun(InsertTimer(l, env, at)) == Unbegun(UpdateTimer(l, at)) == Unbegun(l)
  {
    UnbegunAppend(l.ws.log, TimerInserted(env.timerId, at));
    UnbegunAppend(l.ws.log, TimerUpdated(l.ws.timer, at));
    hide Watch;
  }

  lemma UnbegunPipe(l: Link)
    ensures Unbegun(ClosePipe(l)) == Unbegun(l)
  {
    UnbegunAppend(l.ws.log, PipeClosed(l.ws.pipe));
    hide Watch;
  }

  lemma UnbegunSessionEnd(l: Link, why: SessionWhy)
    ensures Unbegun(SessionEnd(l, why)) == Unbegun(l)
  {
    UnbegunAppend(l.ws.log, SessionEnded(why));
    hide Watch;
  }

  lemma UnbegunDisconnected(l: Link, resume: bool)
    ensures Unbegun(EnterDisconnected(l, resume)) == Unbegun(l)
  {
    hide Watch, ClosePipe, SessionEnd, Emit;
    var told := Emit(l, DisconnectNotified(l.ws.sessionWhy));
    UnbegunEmit(l, DisconnectNotified(l.ws.sessionWhy));
    var t := told.(ws := told.ws.(resume := resume));
    UnbegunSessionEnd(t, l.ws.sessionWhy);
    var m := SessionEnd(t, l.ws.sessionWhy);
    UnbegunPipe(m.(ws := m.ws.(socket := NONE, timer := NONE, src := SRC_INVALID,
                               tx := m.ws.tx.(pending := false, retries := 0),
                               resume := true, onClose := false, retryCnt := 1, byText := false, msgs := [])));
  }

  lemma UnbegunEnterTimed(l: Link, env: Env)
    requires StopsTimer(l.ws.state)
    ensures Unbegun(Enter(l, env)) == Unbegun(l)
  {
    hide Watch, RetryDelay, ToInt32, Min, EnterDisconnected, InsertTimer, Emit;
    match l.ws.state
    case Connecting => UnbegunTimers(l.(ws := l.ws.(conn := true)), env, env.now + l.ws.cfg.interval);
    case Connected =>
      UnbegunTimers(l.(ws := l.ws.(wait := ToInt32(l.ws.cfg.timeoutConnect))), env, env.now + l.ws.cfg.interval);
    case Established => UnbegunTimers(l, env, env.now + l.ws.cfg.timeoutInactivity);
    case ConnectionRetry =>
      var n := (l.ws.retryCnt + 1) % 0x1_0000_0000;
      UnbegunTimers(l.(ws := l.ws.(retryCnt := n)), env,
                    Min(env.now + RetryDelay(l.ws.cfg.backoff, n, env.rnd), l.ws.deadline));
  }

  lemma UnbegunEnter(l: Link, env: Env)
    ensures Unbegun(Enter(l, env)) == Unbegun(l)
  {
    hide Watch, RetryDelay, ToInt32, Min, EnterDisconnected, InsertTimer, Emit;
    if StopsTimer(l.ws.state) {
      UnbegunEnterTimed(l, env);
      hide Enter;
    } else {
      UnbegunDisconnected(l, env.resume);
      UnbegunEmit(l, ConnectionClosed);
      UnbegunEmit(l, ConnectNotified);
      UnbegunEmit(Emit(l, ConnectNotified), StreamBegan);
    }
  }

  lemma UnbegunInternal(l: Link, e: Event, env: Env)
    ensures Unbegun(Internal(l, e, env)) == Unbegun(l)
  {
    hide Watch, ToInt32, UpdateTimer, InsertTimer;
    UnbegunTimers(l.(ws := l.ws.(wait := ToInt32(l.ws.wait - l.ws.cfg.interval))), env, env.now + l.ws.cfg.interval);
    UnbegunTimers(l, env, env.now + l.ws.cfg.timeoutInactivity);
  }

  lemma UnbegunLeave(l: Link, e: Event, ph: Phase)
    requires Leavable(l, e, ph)
    ensures Unbegun(Leave(l, e, Next(l.ws.state, e).value))
            == Unbegun(l) + (if EndsSilently(l.ws.state, e) then 1 else 0)
  {
    hide Watch, StreamEnd, StopTimer, LeavingFor, Next, Plan;
    PlanTied(l, e, ph);
    EndsUnbegun(l, e, ph);
    ExitTied(l, e, Plan(l, e));
    hide Exit, EndsSilently;
  }

  lemma UnbegunEffect(l: Link, e: Event, env: Env, ph: Phase)
    requires Dispatchable(l, e, ph)
    ensures Unbegun(Effect(l, e, env)) == Unbegun(l) + (if EndsSilently(l.ws.state, e) then 1 else 0)
  {
    hide Watch, Leave, Enter, Internal, LogTied, FieldsTied, SessionTied, Unbegun;
    var n := Next(l.ws.state, e);
    if n.Some? && n.value != l.ws.state {
      Moves(l.ws.state, e);
      UnbegunLeave(l, e, ph);
      UnbegunEnter(Leave(l, e, n.value), env);
    } else {
      UnbegunInternal(l, e, env);
    }
  }

  // ---- processing runs ----

  lemma UnbegunStep(l: Link, env: Env)
    requires Inv(l) && l.ws.queue != []
    ensures Unbegun(Step(l, env)) == Unbegun(l) + (if EndsSilently(l.ws.state, l.ws.queue[0]) then 1 else 0)
  {
    HeadFits(l);
    UnbegunEffect(Pop(l), l.ws.queue[0], env, SessionPhase(l.ws));
    hide Watch, Effect, Posts, Body, EndsSilently;
  }

  /** Nothing but what handlers post, and a late EOS_PIPE. */
  predicate OnlyPosted(q: seq<Event>) { forall i :: 0 <= i < |q| ==> IsInternal(q[i]) || q[i].EosPipe? }

  lemma PostedStays(l: Link, env: Env)
    requires Inv(l) && l.ws.queue != [] && OnlyPosted(l.ws.queue[1..])
    ensures OnlyPosted(Step(l, env).ws.queue)
  {
    QueueStaysShort(l, env);
    PostsNoBegin(Pop(l), l.ws.queue[0], env);
    hide Watch, Body, Step, Posts;
  }

  lemma {:induction false} UnbegunPosted(l: Link, envs: seq<Env>)
    requires Inv(l) && OnlyPosted(l.ws.queue)
    ensures Unbegun(Process(l, envs)) == Unbegun(l)
    decreases QueueCost(l.ws.queue)
  {
    if l.ws.queue != [] {
      UnbegunStep(l, First(envs));
      StepKeeps(l, First(envs));
      StepCost(l, First(envs));
      PostedStays(l, First(envs));
      UnbegunPosted(Step(l, First(envs)), Rest(envs));
    }
    hide Watch, Step, Body, Unbegun;
  }

  /** One event in a run, possibly behind the late EOS_PIPE, decides. */
  lemma UnbegunProcess(l: Link, e: Event, envs: seq<Env>)
    requires Inv(l) && (l.ws.queue == [e] || l.ws.queue == [EosPipe, e])
    ensures Unbegun(Process(l, envs)) == Unbegun(l) + (if EndsSilently(l.ws.state, e) then 1 else 0)
    decreases |l.ws.queue|
  {
    hide Watch, Step, Body, Unbegun, Process, Effect, Posts, EndsSilently;
    var s := Step(l, First(envs));
    UnbegunStep(l, First(envs));
    StepKeeps(l, First(envs));
    ProcessStep(l, envs);
    if l.ws.queue == [e] {
      PostedStays(l, First(envs));
      UnbegunPosted(s, Rest(envs));
    } else {
      LateEosPipeFirst(l, e, First(envs));
      StepTargets(Pop(l), EosPipe, First(envs));
      LateStaysSilent(l, First(envs), e);
      UnbegunProcess(s, e, Rest(envs));
    }
  }

  /** The late EOS_PIPE neither ends a stream silently nor brings a state about in which the event behind it would. */
  lemma LateStaysSilent(l: Link, env: Env, e: Event)
    requires l.ws.queue == [EosPipe, e]
    ensures !EndsSilently(l.ws.state, EosPipe)
    ensures EndsSilently(Step(l, env).ws.state, e) <==> EndsSilently(l.ws.state, e)
  {
    StepTargets(Pop(l), EosPipe, env);
    hide Effect, Posts;
  }

  lemma UnbegunDeliver(l: Link, e: Event, envs: seq<Env>)
    requires Quiet(l) && IsExternal(e) && !IsBegin(e)
    ensures Unbegun(Deliver(l, e, envs)) == Unbegun(l) + (if EndsSilently(l.ws.state, e) then 1 else 0)
  {
    hide Watch, Body, Inv, Process, Unbegun, EndsSilently;
    PostKeeps(l, e);
    QuietQueue(l);
    hide Quiet;
    UnbegunProcess(Post(l, e), e, envs);
    assert Unbegun(Post(l, e)) == Unbegun(l) by { UnbegunOfLog(l, Post(l, e)); }
  }

  lemma QuietQueue(l: Link)
    requires Quiet(l)
    ensures l.ws.queue == [] || l.ws.queue == [EosPipe]
  {
    hide Watch, Body;
  }

  lemma UnbegunOfLog(a: Link, b: Link)
    requires a.ws.log == b.ws.log
    ensures Unbegun(a) == Unbegun(b)
  {}

  // ---- passes over the descriptors: they start no session ----

  /** From a to b no session began. */
  predicate GoesOn(a: Link, b: Link) { Continues(a.ws.log, b.ws.log) }

  lemma GoesOnChain(a: Link, b: Link, c: Link)
    requires GoesOn(a, b) && GoesOn(b, c)
    ensures GoesOn(a, c)
  {
    ContinuesChain(a.ws.log, b.ws.log, c.ws.log);
    hide Continues;
  }

  lemma DeliverGoesOn(l: Link, e: Event, envs: seq<Env>)
    ensures GoesOn(l, Deliver(l, e, envs))
  {
    ProcessGrows(Post(l, e), envs);
    hide Process, Continues;
  }

  lemma CloseGoesOn(l: Link, status: int, envs: seq<Env>)
    ensures GoesOn(l, OnClose(l, status, envs))
  {
    DeliverGoesOn(l.(ws := l.ws.(onClose := true, closeStatus := status)), WsClose, envs);
    hide Deliver, Continues;
  }

  lemma EmitGoesOn(l: Link, c: Call)
    requires !c.SessionStarted?
    ensures GoesOn(l, Emit(l, c))
  {}

  lemma ReadGoesOn(l: Link, r: Incoming, a: Answers)
    ensures GoesOn(l, ReadPending(l, r, a))
  {
    hide Deliver, OnClose, Continues;
    match r
    case Nothing => ContinuesSelf(l.ws.log);
    case PeerClosed(status) => CloseGoesOn(l, status, Ans(a, 0));
    case Message(closeAsked, recv) =>
      var m := Deliver(l, MsgRecv, Ans(a, 0));
      DeliverGoesOn(l, MsgRecv, Ans(a, 0));
      DeliverGoesOn(m, AppClose, Ans(a, 1));
      GoesOnChain(l, m, Deliver(m, AppClose, Ans(a, 1)));
  }

  lemma FlushRetryGoesOn(l: Link, envs: seq<Env>)
    ensures GoesOn(l, FlushRetry(l, envs))
  {
    hide Deliver;
    var m := CountFlush(l);
    EmitGoesOn(l.(ws := l.ws.(tx := l.ws.tx.(retries := (l.ws.tx.retries + 1) % 256))), FlushIncomplete);
    DeliverGoesOn(m, WsError, envs);
    hide Continues, Emit;
    GoesOnChain(l, m, Deliver(m, WsError, envs));
  }

  lemma FlushGoesOn(l: Link, f: Flush, a: Answers)
    ensures GoesOn(l, FlushPending(l, f, a).0)
  {
    hide FlushRetry, OnClose;
    match f
    case Flushed => EmitGoesOn(l.(ws := l.ws.(tx := l.ws.tx.(pending := false, retries := 0))), WriteFlushed);
    case Incomplete => FlushRetryGoesOn(l, Ans(a, 2));
    case ClosedInFlush(status) =>
      var c := OnClose(l, status, Ans(a, 2));
      CloseGoesOn(l, status, Ans(a, 2));
      FlushRetryGoesOn(c, Ans(a, 3));
      hide Continues;
      GoesOnChain(l, c, FlushRetry(c, Ans(a, 3)));
  }

  lemma BlockGoesOn(l: Link)
    ensures GoesOn(l, Block(l))
  {
    ContinuesSelf(l.ws.log);
  }

  /** A send that was blocked, failed, or ran the close callback. */
  lemma SendGoesOn(l: Link, m: Link, status: int, x: seq<Env>, y: seq<Env>)
    requires GoesOn(l, m)
    ensures GoesOn(l, Block(m)) && GoesOn(l, Deliver(m, WsError, y))
    ensures GoesOn(l, Deliver(OnClose(m, status, x), WsError, y))
  {
    hide Deliver, OnClose, Continues, Block;
    BlockGoesOn(m);
    DeliverGoesOn(m, WsError, y);
    CloseGoesOn(m, status, x);
    var c := OnClose(m, status, x);
    DeliverGoesOn(c, WsError, y);
    GoesOnChain(l, m, Block(m));
    GoesOnChain(l, m, Deliver(m, WsError, y));
    GoesOnChain(l, m, c);
    GoesOnChain(l, c, Deliver(c, WsError, y));
    hide GoesOn;
  }

  lemma TextGoesOn(l: Link, s: Sent, a: Answers)
    requires l.ws.msgs != []
    ensures GoesOn(l, SendText(l, s, a).0)
  {
    hide Deliver, OnClose, Block;
    var c := TextSent(l.ws.msgs[0], ReplyOf(s));
    var m := Emit(l.(ws := l.ws.(msgs := l.ws.msgs[1..])), c);
    EmitGoesOn(l.(ws := l.ws.(msgs := l.ws.msgs[1..])), c);
    SendGoesOn(l, m, if s.ClosedInSend? then s.status else 0, Ans(a, 5), Ans(a, 4));
    hide Continues, Emit;
  }

  lemma WriteGoesOn(l: Link, io: Io, a: Answers)
    ensures GoesOn(l, WritePass(l, io, a).0)
  {
    hide FlushPending, SendText, Continues;
    ContinuesSelf(l.ws.log);
    if l.ws.tx.pending {
      var m := FlushPending(l, io.flush, a).0;
      FlushGoesOn(l, io.flush, a);
      if m.ws.msgs != [] {
        TextGoesOn(m, io.text, a);
        GoesOnChain(l, m, SendText(m, io.text, a).0);
      }
    } else if l.ws.msgs != [] {
      TextGoesOn(l, io.text, a);
    }
  }

  lemma FrameGoesOn(l: Link, n: nat, s: Sent, a: Answers)
    ensures GoesOn(l, SendFrame(l, n, s, a))
  {
    hide Deliver, OnClose, Block;
    EmitGoesOn(l, AudioRead(n));
    EmitGoesOn(Emit(l, AudioRead(n)), AudioSent(n, ReplyOf(s)));
    var m := Emit(Emit(l, AudioRead(n)), AudioSent(n, ReplyOf(s)));
    GoesOnChain(l, Emit(l, AudioRead(n)), m);
    hide Continues, Emit;
    SendGoesOn(l, m, if s.ClosedInSend? then s.status else 0, Ans(a, 7), Ans(a, 6));
  }

  lemma AudioGoesOn(l: Link, io: Io, a: Answers)
    ensures GoesOn(l, AudioPass(l, io, a))
  {
    hide Deliver, SendFrame;
    match io.audio
    case ReadFails => DeliverGoesOn(l, AudioError, Ans(a, 6));
    case Eof => DeliverGoesOn(l, EosPipe, Ans(a, 6));
    case Data(n) =>
      var m := SendFrame(l, n, io.frame, a);
      FrameGoesOn(l, n, io.frame, a);
      ContinuesSelf(m.ws.log);
      EmitGoesOn(m, KeywordRaised(m.ws.tx.txd));
      hide Continues, Emit;
      GoesOnChain(l, m, AnnounceKeyword(m));
  }

  lemma FdsGoOn(l: Link, r: Ready, io: Io, a: Answers)
    ensures GoesOn(l, HandleFds(l, r, io, a))
  {
    hide ReadPending, WritePass, AudioPass, Continues;
    ContinuesSelf(l.ws.log);
    ReadGoesOn(l, io.incoming, a);
    var l1 := if l.ws.socket >= 0 && r.read then ReadPending(l, io.incoming, a) else l;
    ContinuesSelf(l1.ws.log);
    WriteGoesOn(l1, io, a);
    var l2 := if l1.ws.socket >= 0 && r.write then WritePass(l1, io, a).0 else l1;
    AudioGoesOn(l2, io, a);
    GoesOnChain(l, l1, l2);
    GoesOnChain(l, l2, AudioPass(l2, io, a));
  }

  /** A pass over the descriptors never ends a stream that did not begin. */
  lemma UnbegunFds(l: Link, r: Ready, io: Io, a: Answers)
    requires Quiet(l) && Reportable(l.ws, r) && IoOk(io)
    ensures Unbegun(HandleFds(l, r, io, a)) == Unbegun(l)
  {
    if Attempting(l.ws.state) {
      FdsIdle(l, r, io, a);
    } else {
      HandleFdsKeeps(l, r, io, a);
      FdsGoOn(l, r, io, a);
      BegunOrOver(l);
      QuietOk(HandleFds(l, r, io, a));
      NoneUnbegunAfter(l.ws.log, HandleFds(l, r, io, a).ws.log);
    }
    hide Watch, HandleFds, Continues, Quiet;
  }

  lemma BegunOrOver(l: Link)
    requires Quiet(l) && !Attempting(l.ws.state)
    ensures Seen(l).phase != Live || Seen(l).begun
  {
    hide Watch;
  }

  lemma QuietOk(l: Link)
    requires Quiet(l)
    ensures Seen(l).ok
  {
    hide Watch;
  }

  // ---- the other inputs ----

  lemma UnbegunConfigure(l: Link, src: nat, p: PipeAnswer, now: nat, streamTimeMin: nat, envs: seq<Env>)
    requires Quiet(l) && Configurable(l, src)
    ensures Unbegun(Configure(l, src, p, now, streamTimeMin, envs)) == Unbegun(l)
  {
    hide Watch, Quiet, Process, StreamBegin, Prepare, Unbegun, Inv, SessionEnd, Post, EndsSilently;
    StreamBeginTied(l, src, p);
    UnbegunRequest(l, p);
    QuietQueue(l);
    var (m, fd) := StreamBegin(l, p);
    if fd.Some? {
      var q := m.(ws := m.ws.(pipe := fd.value));
      var e := if streamTimeMin != 0 && !m.ws.byText && !m.ws.stm then SessionBeginStm else SessionBegin;
      PrepareTied(l, src, p, now, e);
      UnbegunPrepare(q, src, now, e);
      assert Unbegun(q) == Unbegun(m) by { UnbegunOfLog(m, q); }
      UnbegunProcess(Post(Prepare(q, src, now), e), e, envs);
      assert !EndsSilently(Disconnected, e) by { NotFromDisconnected(e); }
    } else {
      UnbegunSessionEnd(m, AudioBeginError);
    }
  }

  lemma NotFromDisconnected(e: Event)
    ensures !EndsSilently(Disconnected, e)
  {}

  lemma UnbegunRequest(l: Link, p: PipeAnswer)
    ensures Unbegun(StreamBegin(l, p).0) == Unbegun(l)
  {
    hide Watch;
    match p
    case PipeFails =>
    case AudioFails(fd) =>
      UnbegunEmit(l, PipeOpened(fd));
      UnbegunEmit(Emit(l, PipeOpened(fd)), PipeClosed(fd));
    case PipeReady(fd) => UnbegunEmit(l, PipeOpened(fd));
  }

  lemma UnbegunPrepare(q: Link, src: nat, now: nat, e: Event)
    requires q.ws.state.Disconnected? && |q.ws.queue| < EVENTS_MAX
    ensures var r := Post(Prepare(q, src, now), e);
            && Unbegun(r) == Unbegun(q) && r.ws.state.Disconnected? && r.ws.queue == q.ws.queue + [e]
  {
    hide Watch, ToInt32;
    UnbegunAppend(q.ws.log, SessionStarted);
  }

  lemma UnbegunSpeech(l: Link, e: SpeechEvent, envs: seq<Env>)
    requires Quiet(l)
    ensures Unbegun(Speech(l, e, envs)) == Unbegun(l) + (if l.ws.state.Buffering? && e.SpeechEos? then 1 else 0)
  {
    hide Watch, Deliver;
    match e
    case SpeechEos => UnbegunDeliver(l, EosEv, envs);
    case SpeechKeyword(n) =>
      UnbegunEmit(l.(ws := l.ws.(tx := l.ws.tx.(kwdNotified := false, kwdBytes := n))), KeywordInfo(n));
    case SpeechTimeMinimum =>
      assert Quiet(l.(ws := l.ws.(stm := true)));
      UnbegunDeliver(l.(ws := l.ws.(stm := true)), StmEv, envs);
  }

  // ---- how far a session gets when no library answers ----

  lemma BuffersFirst(l: Link, envs: seq<Env>)
    requires l.ws.queue == [SessionBeginStm] && l.ws.state.Disconnected?
    ensures Process(l, envs).ws.state.Buffering?
  {
    var s := Step(l, First(envs));
    StepTargets(Pop(l), SessionBeginStm, First(envs));
    hide Effect, Leave;
    assert s.ws.queue == [];
    assert Process(s, Rest(envs)) == s;
  }

  lemma RetriesLater(l: Link, env: Env)
    requires l.ws.queue == [SessionBegin] && l.ws.state.Disconnected? && !env.connectOk && env.now < l.ws.deadline
    ensures Process(l, [env]).ws.state.ConnectionRetry?
  {
    var p, s := Pop(l), Step(l, env);
    StepTargets(p, SessionBegin, env);
    LeaveDeadline(p, SessionBegin, Connecting);
    assert Posts(p, SessionBegin, env) == Some(RetryEv) by { hide Leave; }
    hide Effect, Posts;
    assert s.ws.queue == [RetryEv];
    RetryWaits(s, []);
    assert Rest([env]) == [];
    hide Step;
  }

  lemma RetryWaits(l: Link, envs: seq<Env>)
    requires l.ws.queue == [RetryEv] && l.ws.state.Connecting?
    ensures Process(l, envs).ws.state.ConnectionRetry?
  {
    var s := Step(l, First(envs));
    StepTargets(Pop(l), RetryEv, First(envs));
    hide Effect, Leave;
    assert s.ws.queue == [];
    assert Process(s, Rest(envs)) == s;
  }

  lemma FirstSession(l: Link, streamTimeMin: nat)
    requires l.ws.state.Disconnected? && l.ws.queue == [] && !l.ws.byText && !l.ws.stm && l.sess.firstStreamReq
    requires streamTimeMin == 0 ==> l.ws.cfg.timeoutSession > 0
    ensures var r := Configure(l, 0, PipeReady(5), 0, streamTimeMin, [QUIET]).ws;
            if streamTimeMin != 0 then r.state.Buffering? else r.state.ConnectionRetry?
  {
    hide Process, ToInt32;
    var m := StreamBegin(l, PipeReady(5)).0;
    var p := Prepare(m.(ws := m.ws.(pipe := 5)), 0, 0);
    if streamTimeMin != 0 {
      BuffersFirst(Post(p, SessionBeginStm), [QUIET]);
    } else {
      RetriesLater(Post(p, SessionBegin), QUIET);
    }
  }
}
