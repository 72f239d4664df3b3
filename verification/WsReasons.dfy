/** The end reasons a connection reports were written on the path of the session they end. */
module WsReasons {
  import opened Types
  import opened Monitor
  import opened WsTables
  import opened WsSpec
  import opened WsIo
  import opened WsInvariant
  import opened WsRuns

  /** Two connections that differ at most in their recorded reasons, and while a session end is still to be
      reported from Disconnecting not even in the session's. */
  predicate Twin(a: Link, b: Link)
  {
    && b == a.(ws := a.ws.(streamWhy := b.ws.streamWhy, sessionWhy := b.ws.sessionWhy))
    && (a.ws.state.Disconnecting? ==> b.ws.sessionWhy == a.ws.sessionWhy)
  }

  /** A move that ends a stream or leads to the end of the session fixes what will be reported. */
  lemma MoveFixesReasons(s: State, e: Event, closeStatus: int, p: Leaving, q: Leaving)
    requires Next(s, e).Some? && Next(s, e).value != s && !e.XrsrError?
    requires p.endsStream == q.endsStream == false
    ensures var d, f, t := LeavingFor(s, e, closeStatus, p), LeavingFor(s, e, closeStatus, q), Next(s, e).value;
            && d.endsStream == f.endsStream
            && (d.endsStream ==> d.streamWhy == f.streamWhy)
            && ((t.Disconnected? || t.Disconnecting?) && !s.Disconnecting? ==> d.sessionWhy == f.sessionWhy)
            && (s.Disconnecting? ==> d == p && f == q)
  {}

  // ---- effects that do not look at the reasons commute with recording others ----

  lemma StopTimerIgnores(l: Link, x: StreamWhy, y: SessionWhy)
    ensures StopTimer(Reasons(l, x, y)) == Reasons(StopTimer(l), x, y)
  {}

  lemma ClosePipeIgnores(l: Link, x: StreamWhy, y: SessionWhy)
    ensures ClosePipe(Reasons(l, x, y)) == Reasons(ClosePipe(l), x, y)
  {}

  lemma StreamEndIgnores(l: Link, why: StreamWhy, x: StreamWhy, y: SessionWhy)
    ensures ClosePipe(SpeechStreamEnd(Reasons(l, x, y), why)) == Reasons(ClosePipe(SpeechStreamEnd(l, why)), x, y)
  {
    assert SpeechStreamEnd(Reasons(l, x, y), why) == Reasons(SpeechStreamEnd(l, why), x, y);
    ClosePipeIgnores(SpeechStreamEnd(l, why), x, y);
    hide ClosePipe, SpeechStreamEnd;
  }

  lemma InsertTimerIgnores(l: Link, env: Env, at: nat, x: StreamWhy, y: SessionWhy)
    ensures InsertTimer(Reasons(l, x, y), env, at) == Reasons(InsertTimer(l, env, at), x, y)
  {}

  lemma RescheduleIgnores(l: Link, now: nat, x: StreamWhy, y: SessionWhy)
    ensures Reschedule(Reasons(l, x, y), now) == Reasons(Reschedule(l, now), x, y)
  {
    hide ToInt32;
  }

  lemma ExitIgnores(l: Link, e: Event, x: StreamWhy, y: SessionWhy)
    requires Next(l.ws.state, e).Some? && Next(l.ws.state, e).value != l.ws.state && !e.XrsrError?
    ensures var f := LeavingFor(l.ws.state, e, l.ws.closeStatus, Leaving(x, y, false));
            Exit(Reasons(l, x, y), e) == Reasons(Exit(l, e), f.streamWhy, f.sessionWhy)
  {
    var p, q := Leaving(l.ws.streamWhy, l.ws.sessionWhy, false), Leaving(x, y, false);
    var d, f := LeavingFor(l.ws.state, e, l.ws.closeStatus, p), LeavingFor(l.ws.state, e, l.ws.closeStatus, q);
    MoveFixesReasons(l.ws.state, e, l.ws.closeStatus, p, q);
    hide LeavingFor, Next, StopTimer, StreamEnd;
    var m := Reasons(l, d.streamWhy, d.sessionWhy);
    var n := Reasons(Reasons(l, x, y), f.streamWhy, f.sessionWhy);
    assert n == Reasons(m, f.streamWhy, f.sessionWhy);
    assert m.ws.streamWhy == d.streamWhy;
    hide Reasons;
    EndOrNot(m, d.endsStream, f.streamWhy, f.sessionWhy);
    StopTimerIgnores(if d.endsStream then StreamEnd(m) else m, f.streamWhy, f.sessionWhy);
  }

  lemma EndOrNot(m: Link, ends: bool, x: StreamWhy, y: SessionWhy)
    requires ends ==> x == m.ws.streamWhy
    ensures (if ends then StreamEnd(Reasons(m, x, y)) else Reasons(m, x, y))
            == Reasons(if ends then StreamEnd(m) else m, x, y)
  {
    StreamEndIgnores(m, x, x, y);
    hide ClosePipe, SpeechStreamEnd;
  }

  lemma TwinLeave(a: Link, b: Link, e: Event)
    requires Twin(a, b) && !e.XrsrError?
    requires Next(a.ws.state, e).Some? && Next(a.ws.state, e).value != a.ws.state
    ensures var t := Next(a.ws.state, e).value;
            && Twin(Leave(a, e, t), Leave(b, e, t))
            && (t.Disconnected? ==> Leave(a, e, t).ws.sessionWhy == Leave(b, e, t).ws.sessionWhy)
  {
    MoveFixesReasons(a.ws.state, e, a.ws.closeStatus, Leaving(a.ws.streamWhy, a.ws.sessionWhy, false),
                     Leaving(b.ws.streamWhy, b.ws.sessionWhy, false));
    ExitIgnores(a, e, b.ws.streamWhy, b.ws.sessionWhy);
    ExitRecords(a, e);
    hide LeavingFor, Next, Exit;
    assert b == Reasons(a, b.ws.streamWhy, b.ws.sessionWhy);
  }

  lemma ExitRecords(l: Link, e: Event)
    ensures var d := LeavingFor(l.ws.state, e, l.ws.closeStatus, Leaving(l.ws.streamWhy, l.ws.sessionWhy, false));
            Exit(l, e).ws.streamWhy == d.streamWhy && Exit(l, e).ws.sessionWhy == d.sessionWhy
  {
    KeepsReasons(l);
    hide LeavingFor, StreamEnd, StopTimer;
    var d := LeavingFor(l.ws.state, e, l.ws.closeStatus, Leaving(l.ws.streamWhy, l.ws.sessionWhy, false));
    var r := Reasons(l, d.streamWhy, d.sessionWhy);
    KeepsReasons(r);
    KeepsReasons(StreamEnd(r));
  }

  lemma KeepsReasons(l: Link)
    ensures StreamEnd(l).ws.streamWhy == l.ws.streamWhy && StreamEnd(l).ws.sessionWhy == l.ws.sessionWhy
    ensures StopTimer(l).ws.streamWhy == l.ws.streamWhy && StopTimer(l).ws.sessionWhy == l.ws.sessionWhy
  {}

  lemma TwinDisconnected(a: Link, x: StreamWhy, resume: bool)
    ensures EnterDisconnected(Reasons(a, x, a.ws.sessionWhy), resume)
            == Reasons(EnterDisconnected(a, resume), x, a.ws.sessionWhy)
  {
    var y := a.ws.sessionWhy;
    var m := Emit(a, DisconnectNotified(y));
    var t := m.(ws := m.ws.(resume := resume));
    assert SessionEnd(Reasons(t, x, y), y) == Reasons(SessionEnd(t, y), x, y);
    var u := SessionEnd(t, y);
    hide SessionEnd;
    ResetIgnores(u, x, y);
    hide Reset;
  }

  lemma ResetIgnores(l: Link, x: StreamWhy, y: SessionWhy)
    ensures Reset(Reasons(l, x, y)) == Reasons(Reset(l), x, y)
  {
    hide ClosePipe;
    var m := l.(ws := l.ws.(socket := NONE, timer := NONE, src := SRC_INVALID,
                            tx := l.ws.tx.(pending := false, retries := 0),
                            resume := true, onClose := false, retryCnt := 1, byText := false, msgs := []));
    ClosePipeIgnores(m, x, y);
  }

  lemma EnterConnectIgnores(l: Link, env: Env, x: StreamWhy, y: SessionWhy)
    requires l.ws.state.Connecting? || l.ws.state.Connected?
    ensures Enter(Reasons(l, x, y), env) == Reasons(Enter(l, env), x, y)
  {
    hide RetryDelay, ToInt32, Min, InsertTimer, EnterDisconnected;
    var w, v, at := l.ws, Reasons(l, x, y).ws, env.now + l.ws.cfg.interval;
    if w.state.Connecting? {
      ChangedTimerIgnores(l, w.(conn := true), v.(conn := true), env, at, x, y);
    } else {
      var n := ToInt32(w.cfg.timeoutConnect);
      ChangedTimerIgnores(l, w.(wait := n), v.(wait := n), env, at, x, y);
    }
  }

  lemma EnterWaitIgnores(l: Link, env: Env, x: StreamWhy, y: SessionWhy)
    requires l.ws.state.Established? || l.ws.state.ConnectionRetry?
    ensures Enter(Reasons(l, x, y), env) == Reasons(Enter(l, env), x, y)
  {
    hide RetryDelay, ToInt32, Min, InsertTimer, EnterDisconnected;
    var w, v := l.ws, Reasons(l, x, y).ws;
    if w.state.Established? {
      ChangedTimerIgnores(l, w, v, env, env.now + w.cfg.timeoutInactivity, x, y);
    } else {
      var n := (w.retryCnt + 1) % 0x1_0000_0000;
      var at := Min(env.now + RetryDelay(w.cfg.backoff, n, env.rnd), w.deadline);
      ChangedTimerIgnores(l, w.(retryCnt := n), v.(retryCnt := n), env, at, x, y);
    }
  }

  lemma ChangedTimerIgnores(l: Link, w: Ws, v: Ws, env: Env, at: nat, x: StreamWhy, y: SessionWhy)
    requires v == w.(streamWhy := x, sessionWhy := y)
    ensures InsertTimer(Reasons(l, x, y).(ws := v), env, at) == Reasons(InsertTimer(l.(ws := w), env, at), x, y)
  {
    InsertTimerIgnores(l.(ws := w), env, at, x, y);
  }

  lemma EmitIgnores(l: Link, c: Call, x: StreamWhy, y: SessionWhy)
    ensures Emit(Reasons(l, x, y), c) == Reasons(Emit(l, c), x, y)
  {}

  lemma EnterPlainIgnores(l: Link, env: Env, x: StreamWhy, y: SessionWhy)
    requires !StopsTimer(l.ws.state) && !l.ws.state.Disconnected?
    ensures Enter(Reasons(l, x, y), env) == Reasons(Enter(l, env), x, y)
  {
    hide RetryDelay, ToInt32, Min, InsertTimer, EnterDisconnected, Emit;
    EmitIgnores(l, ConnectNotified, x, y);
    EmitIgnores(Emit(l, ConnectNotified), StreamBegan, x, y);
    EmitIgnores(l, ConnectionClosed, x, y);
  }

  lemma EnterIgnores(l: Link, env: Env, x: StreamWhy, y: SessionWhy)
    requires l.ws.state.Disconnected? ==> y == l.ws.sessionWhy
    ensures Enter(Reasons(l, x, y), env) == Reasons(Enter(l, env), x, y)
  {
    if l.ws.state.Disconnected? {
      TwinDisconnected(l, x, env.resume);
      EnterIs(l, env);
      EnterIs(Reasons(l, x, y), env);
    } else if l.ws.state.Connecting? || l.ws.state.Connected? {
      EnterConnectIgnores(l, env, x, y);
    } else if StopsTimer(l.ws.state) {
      EnterWaitIgnores(l, env, x, y);
    } else {
      EnterPlainIgnores(l, env, x, y);
    }
    hide Enter, EnterDisconnected;
  }

  lemma EnterPostsIgnores(l: Link, env: Env, x: StreamWhy, y: SessionWhy)
    ensures EnterPosts(Reasons(l, x, y).ws, env) == EnterPosts(l.ws, env)
  {}

  lemma TwinEnter(a: Link, b: Link, env: Env)
    requires Twin(a, b) && (a.ws.state.Disconnected? ==> a.ws.sessionWhy == b.ws.sessionWhy)
    ensures Twin(Enter(a, env), Enter(b, env)) && EnterPosts(a.ws, env) == EnterPosts(b.ws, env)
  {
    assert b == Reasons(a, b.ws.streamWhy, b.ws.sessionWhy);
    EnterIgnores(a, env, b.ws.streamWhy, b.ws.sessionWhy);
    EnterPostsIgnores(a, env, b.ws.streamWhy, b.ws.sessionWhy);
    if a.ws.state.Disconnecting? { assert Enter(a, env).ws.sessionWhy == a.ws.sessionWhy; }
    hide Enter, EnterPosts;
  }

  lemma InternalIgnores(l: Link, e: Event, env: Env, x: StreamWhy, y: SessionWhy)
    ensures Internal(Reasons(l, x, y), e, env) == Reasons(Internal(l, e, env), x, y)
  {
    hide Reschedule, UpdateTimer;
    RescheduleIgnores(l, env.now, x, y);
    UpdateTimerIgnores(l, env.now + l.ws.cfg.timeoutInactivity, x, y);
  }

  lemma UpdateTimerIgnores(l: Link, at: nat, x: StreamWhy, y: SessionWhy)
    ensures UpdateTimer(Reasons(l, x, y), at) == Reasons(UpdateTimer(l, at), x, y)
  {}

  lemma TwinInternal(a: Link, b: Link, e: Event, env: Env)
    requires Twin(a, b)
    ensures Twin(Internal(a, e, env), Internal(b, e, env)) && InternalPosts(a.ws, e, env) == InternalPosts(b.ws, e, env)
  {
    assert b == Reasons(a, b.ws.streamWhy, b.ws.sessionWhy);
    InternalIgnores(a, e, env, b.ws.streamWhy, b.ws.sessionWhy);
    if a.ws.state.Disconnecting? { assert Internal(a, e, env) == a; }
    hide Internal;
  }

  lemma TwinPostAll(a: Link, b: Link, p: Option<Event>)
    requires Twin(a, b)
    ensures Twin(PostAll(a, p), PostAll(b, p))
  {}

  lemma TwinMove(a: Link, b: Link, e: Event, env: Env)
    requires Twin(a, b) && !e.XrsrError?
    requires Next(a.ws.state, e).Some? && Next(a.ws.state, e).value != a.ws.state
    ensures Twin(Effect(a, e, env), Effect(b, e, env)) && Posts(a, e, env) == Posts(b, e, env)
  {
    var t := Next(a.ws.state, e).value;
    TwinLeave(a, b, e);
    LeaveState(a, e, t);
    TwinEnter(Leave(a, e, t), Leave(b, e, t), env);
    hide Leave, Enter, EnterPosts, Next, Internal, InternalPosts;
    assert b.ws.state == a.ws.state;
    hide Twin;
  }

  lemma TwinStay(a: Link, b: Link, e: Event, env: Env)
    requires Twin(a, b) && Next(a.ws.state, e) in {None, Some(a.ws.state)}
    ensures Twin(Effect(a, e, env), Effect(b, e, env)) && Posts(a, e, env) == Posts(b, e, env)
  {
    TwinInternal(a, b, e, env);
    hide Leave, Enter, EnterPosts, Next, Internal, InternalPosts;
    assert b.ws.state == a.ws.state;
    hide Twin;
  }

  lemma TwinEffect(a: Link, b: Link, e: Event, env: Env)
    requires Twin(a, b) && !e.XrsrError?
    ensures Twin(Effect(a, e, env), Effect(b, e, env)) && Posts(a, e, env) == Posts(b, e, env)
  {
    hide Effect, Posts, Twin, Next;
    if Next(a.ws.state, e) in {None, Some(a.ws.state)} {
      TwinStay(a, b, e, env);
    } else {
      TwinMove(a, b, e, env);
    }
  }

  lemma TwinDispatch(a: Link, b: Link, e: Event, env: Env)
    requires Twin(a, b) && !e.XrsrError?
    ensures Twin(Dispatch(a, e, env), Dispatch(b, e, env))
  {
    hide Effect, Posts, PostAll, Twin;
    TwinEffect(a, b, e, env);
    TwinPostAll(Effect(a, e, env), Effect(b, e, env), Posts(a, e, env));
  }

  lemma LeaveState(l: Link, e: Event, t: State)
    ensures Leave(l, e, t).ws.state == t
  {
    hide Exit;
  }

  predicate NoError(q: seq<Event>) { forall i :: 0 <= i < |q| ==> !q[i].XrsrError? }

  lemma {:induction false} TwinProcess(a: Link, b: Link, envs: seq<Env>)
    requires Twin(a, b) && NoError(a.ws.queue)
    ensures Twin(Process(a, envs), Process(b, envs)) && Process(a, envs).ws.queue == []
    decreases QueueCost(a.ws.queue)
  {
    if a.ws.queue != [] {
      var e := a.ws.queue[0];
      TwinDispatch(Pop(a), Pop(b), e, First(envs));
      PostsNoBegin(Pop(a), e, First(envs));
      StepCost(a, First(envs));
      StepCost(b, First(envs));
      StepNoError(a, First(envs));
      TwinProcess(Step(a, First(envs)), Step(b, First(envs)), Rest(envs));
    }
    hide Dispatch;
  }

  lemma StepNoError(l: Link, env: Env)
    requires NoError(l.ws.queue) && l.ws.queue != []
    ensures NoError(Step(l, env).ws.queue)
  {
    PostsNoBegin(Pop(l), l.ws.queue[0], env);
    hide Effect, Posts;
  }

  predicate Alike(a: Link, b: Link) { Twin(a, b) && NoError(a.ws.queue) }

  lemma AlikeDeliver(a: Link, b: Link, e: Event, envs: seq<Env>)
    requires Alike(a, b) && !e.XrsrError?
    ensures Alike(Deliver(a, e, envs), Deliver(b, e, envs))
  {
    hide Process;
    assert NoError(Post(a, e).ws.queue);
    TwinProcess(Post(a, e), Post(b, e), envs);
  }

  lemma AlikeEmit(a: Link, b: Link, c: Call)
    requires Alike(a, b)
    ensures Alike(Emit(a, c), Emit(b, c))
  {}

  lemma AlikeTransmit(a: Link, b: Link, tx: Transmit, msgs: seq<seq<char>>)
    requires Alike(a, b)
    ensures Alike(a.(ws := a.ws.(tx := tx, msgs := msgs)), b.(ws := b.ws.(tx := tx, msgs := msgs)))
  {}

  lemma AlikeBlock(a: Link, b: Link)
    requires Alike(a, b)
    ensures Alike(Block(a), Block(b))
  {
    AlikeTransmit(a, b, a.ws.tx.(pending := true), a.ws.msgs);
    hide Alike;
  }

  lemma AlikeCount(a: Link, b: Link, k: nat)
    requires Alike(a, b)
    ensures Alike(CountSent(a, k), CountSent(b, k))
  {}

  lemma AlikeAnnounce(a: Link, b: Link)
    requires Alike(a, b)
    ensures Alike(AnnounceKeyword(a), AnnounceKeyword(b))
  {
    hide Emit;
    AlikeEmit(a, b, KeywordRaised(a.ws.tx.txd));
  }

  lemma AlikeClose(a: Link, b: Link, status: int, envs: seq<Env>)
    requires Alike(a, b)
    ensures Alike(OnClose(a, status, envs), OnClose(b, status, envs))
  {
    hide Deliver;
    AlikeDeliver(a.(ws := a.ws.(onClose := true, closeStatus := status)),
                 b.(ws := b.ws.(onClose := true, closeStatus := status)), WsClose, envs);
  }

  lemma AlikeReadPending(a: Link, b: Link, r: Incoming, ans: Answers)
    requires Alike(a, b)
    ensures Alike(ReadPending(a, r, ans), ReadPending(b, r, ans))
  {
    hide Deliver, OnClose;
    match r
    case Nothing =>
    case PeerClosed(status) => AlikeClose(a, b, status, Ans(ans, 0));
    case Message(closeAsked, recv) =>
      AlikeDeliver(a, b, MsgRecv, Ans(ans, 0));
      var c, d := Deliver(a, MsgRecv, Ans(ans, 0)), Deliver(b, MsgRecv, Ans(ans, 0));
      if closeAsked { AlikeDeliver(c, d, AppClose, Ans(ans, 1)); }
  }

  lemma AlikeFlushRetry(a: Link, b: Link, envs: seq<Env>)
    requires Alike(a, b)
    ensures Alike(FlushRetry(a, envs), FlushRetry(b, envs))
  {
    hide Deliver;
    var n := (a.ws.tx.retries + 1) % 256;
    AlikeDeliver(Emit(a.(ws := a.ws.(tx := a.ws.tx.(retries := n))), FlushIncomplete),
                 Emit(b.(ws := b.ws.(tx := b.ws.tx.(retries := n))), FlushIncomplete), WsError, envs);
  }

  lemma AlikeFlush(a: Link, b: Link, f: Flush, ans: Answers)
    requires Alike(a, b)
    ensures Alike(FlushPending(a, f, ans).0, FlushPending(b, f, ans).0)
    ensures FlushPending(a, f, ans).1 == FlushPending(b, f, ans).1
  {
    hide FlushRetry, OnClose;
    AlikeFlushRetry(a, b, Ans(ans, 2));
    if f.ClosedInFlush? {
      AlikeClose(a, b, f.status, Ans(ans, 2));
      AlikeFlushRetry(OnClose(a, f.status, Ans(ans, 2)), OnClose(b, f.status, Ans(ans, 2)), Ans(ans, 3));
    }
  }

  lemma AlikeText(a: Link, b: Link, s: Sent, ans: Answers)
    requires Alike(a, b) && a.ws.msgs != []
    ensures Alike(SendText(a, s, ans).0, SendText(b, s, ans).0)
    ensures SendText(a, s, ans).1 == SendText(b, s, ans).1
  {
    hide Deliver, OnClose, Emit, Block;
    AlikeTransmit(a, b, a.ws.tx, a.ws.msgs[1..]);
    var c := Emit(a.(ws := a.ws.(msgs := a.ws.msgs[1..])), TextSent(a.ws.msgs[0], ReplyOf(s)));
    var d := Emit(b.(ws := b.ws.(msgs := b.ws.msgs[1..])), TextSent(a.ws.msgs[0], ReplyOf(s)));
    AlikeEmit(a.(ws := a.ws.(msgs := a.ws.msgs[1..])), b.(ws := b.ws.(msgs := b.ws.msgs[1..])),
              TextSent(a.ws.msgs[0], ReplyOf(s)));
    AlikeBlock(c, d);
    AlikeDeliver(c, d, WsError, Ans(ans, 4));
    if s.ClosedInSend? {
      AlikeClose(c, d, s.status, Ans(ans, 5));
      AlikeDeliver(OnClose(c, s.status, Ans(ans, 5)), OnClose(d, s.status, Ans(ans, 5)), WsError, Ans(ans, 4));
    }
    hide Alike;
  }

  lemma AlikeWritePass(a: Link, b: Link, io: Io, ans: Answers)
    requires Alike(a, b)
    ensures Alike(WritePass(a, io, ans).0, WritePass(b, io, ans).0)
    ensures WritePass(a, io, ans).1 == WritePass(b, io, ans).1
  {
    hide FlushPending, SendText;
    if a.ws.tx.pending {
      AlikeFlush(a, b, io.flush, ans);
      var (c, d) := (FlushPending(a, io.flush, ans).0, FlushPending(b, io.flush, ans).0);
      if c.ws.msgs != [] { AlikeText(c, d, io.text, ans); }
    } else if a.ws.msgs != [] {
      AlikeText(a, b, io.text, ans);
    }
  }

  lemma AlikeFrame(a: Link, b: Link, n: nat, s: Sent, ans: Answers)
    requires Alike(a, b)
    ensures Alike(SendFrame(a, n, s, ans), SendFrame(b, n, s, ans))
  {
    hide Deliver, OnClose, Emit, Block, CountSent, Alike;
    AlikeEmit(a, b, AudioRead(n));
    AlikeEmit(Emit(a, AudioRead(n)), Emit(b, AudioRead(n)), AudioSent(n, ReplyOf(s)));
    var c := Emit(Emit(a, AudioRead(n)), AudioSent(n, ReplyOf(s)));
    var d := Emit(Emit(b, AudioRead(n)), AudioSent(n, ReplyOf(s)));
    match s
    case WouldBlock => AlikeBlock(c, d);
    case Failed => AlikeDeliver(c, d, WsError, Ans(ans, 6));
    case ClosedInSend(status) =>
      AlikeClose(c, d, status, Ans(ans, 7));
      AlikeDeliver(OnClose(c, status, Ans(ans, 7)), OnClose(d, status, Ans(ans, 7)), WsError, Ans(ans, 6));
    case Bytes(k) =>
      AlikeDeliver(c, d, WsError, Ans(ans, 6));
      AlikeBlock(c, d);
      AlikeCount(Block(c), Block(d), k);
      AlikeCount(c, d, n);
  }

  lemma AlikeAudio(a: Link, b: Link, io: Io, ans: Answers)
    requires Alike(a, b)
    ensures Alike(AudioPass(a, io, ans), AudioPass(b, io, ans))
  {
    hide Deliver, SendFrame, Alike, AnnounceKeyword;
    match io.audio
    case ReadFails => AlikeDeliver(a, b, AudioError, Ans(ans, 6));
    case Eof => AlikeDeliver(a, b, EosPipe, Ans(ans, 6));
    case Data(n) =>
      AlikeFrame(a, b, n, io.frame, ans);
      AlikeAnnounce(SendFrame(a, n, io.frame, ans), SendFrame(b, n, io.frame, ans));
  }

  lemma AlikeFds(a: Link, b: Link, r: Ready, io: Io, ans: Answers)
    requires Alike(a, b)
    ensures Alike(HandleFds(a, r, io, ans), HandleFds(b, r, io, ans))
  {
    hide ReadPending, WritePass, AudioPass;
    AlikeReadPending(a, b, io.incoming, ans);
    var read := a.ws.socket >= 0 && r.read;
    var a1 := if read then ReadPending(a, io.incoming, ans) else a;
    var b1 := if read then ReadPending(b, io.incoming, ans) else b;
    AlikeWritePass(a1, b1, io, ans);
    var write := a1.ws.socket >= 0 && r.write;
    var a2 := if write then WritePass(a1, io, ans).0 else a1;
    var b2 := if write then WritePass(b1, io, ans).0 else b1;
    AlikeAudio(a2, b2, io, ans);
  }

  lemma AlikeStreamBegin(a: Link, b: Link, p: PipeAnswer)
    requires Alike(a, b)
    ensures Alike(StreamBegin(a, p).0, StreamBegin(b, p).0) && StreamBegin(a, p).1 == StreamBegin(b, p).1
  {}

  lemma AlikePrepare(a: Link, b: Link, fd: int, src: nat, now: nat)
    requires Alike(a, b)
    ensures Alike(Prepare(a.(ws := a.ws.(pipe := fd)), src, now), Prepare(b.(ws := b.ws.(pipe := fd)), src, now))
  {
    hide ToInt32;
  }

  lemma AlikeSessionEnd(a: Link, b: Link, why: SessionWhy)
    requires Alike(a, b)
    ensures Alike(SessionEnd(a, why), SessionEnd(b, why))
  {}

  lemma AlikeConfigure(a: Link, b: Link, src: nat, p: PipeAnswer, now: nat, streamTimeMin: nat, envs: seq<Env>)
    requires Alike(a, b)
    ensures Alike(Configure(a, src, p, now, streamTimeMin, envs), Configure(b, src, p, now, streamTimeMin, envs))
  {
    hide Deliver, Prepare, StreamBegin, SessionEnd;
    AlikeStreamBegin(a, b, p);
    var (c, fd) := StreamBegin(a, p);
    var (d, _) := StreamBegin(b, p);
    if fd.Some? {
      var e := if streamTimeMin != 0 && !c.ws.byText && !c.ws.stm then SessionBeginStm else SessionBegin;
      AlikePrepare(c, d, fd.value, src, now);
      AlikeDeliver(Prepare(c.(ws := c.ws.(pipe := fd.value)), src, now),
                   Prepare(d.(ws := d.ws.(pipe := fd.value)), src, now), e, envs);
    } else {
      AlikeSessionEnd(c, d, AudioBeginError);
    }
  }

  lemma AlikeSpeech(a: Link, b: Link, e: SpeechEvent, envs: seq<Env>)
    requires Alike(a, b)
    ensures Alike(Speech(a, e, envs), Speech(b, e, envs))
  {
    hide Deliver, Emit;
    match e
    case SpeechEos => AlikeDeliver(a, b, EosEv, envs);
    case SpeechKeyword(n) =>
      var tx := a.ws.tx.(kwdNotified := false, kwdBytes := n);
      AlikeTransmit(a, b, tx, a.ws.msgs);
      AlikeEmit(a.(ws := a.ws.(tx := tx)), b.(ws := b.ws.(tx := tx)), KeywordInfo(n));
    case SpeechTimeMinimum =>
      AlikeDeliver(a.(ws := a.ws.(stm := true)), b.(ws := b.ws.(stm := true)), StmEv, envs);
  }

  // ---- which reason is reported ----

  /** What a session that ends in state s on event e is said to have ended for. */
  function ReasonFor(s: State, e: Event, closeStatus: int): SessionWhy
  {
    match e
    case TerminateEv => Terminated
    case EosEv => AudioDurationError
    case ConnectTimeout => ConnectFailure
    case EstablishTimeout => ConnectTimedOut
    case TimeoutEv => SessionTimedOut
    case AppClose => EndOfSpeech
    case WsError => WsSendError
    case WsClose =>
      if s.Connected? then ConnectFailure
      else if s.Established? then EndOfSpeech
      else if s.TextOnlySession? then EndOfText
      else if closeStatus == 1000 then RemoteEnd
      else UnexpectedRemoteEnd
    case _ => NoSessionReason
  }

  predicate Ends(s: State, e: Event)
  {
    && !s.Disconnected? && !s.Disconnecting? && !e.XrsrError?
    && Next(s, e) in {Some(Disconnected), Some(Disconnecting)}
  }

  lemma EndRecordsReason(s: State, e: Event, closeStatus: int, prior: Leaving)
    requires Ends(s, e)
    ensures LeavingFor(s, e, closeStatus, prior).sessionWhy == ReasonFor(s, e, closeStatus)
  {}

  lemma ResetReportsNothing(l: Link)
    ensures LastReported(Reset(l).ws.log) == LastReported(l.ws.log)
  {}

  lemma DisconnectedReports(l: Link, resume: bool)
    requires l.ws.state.Disconnected? && l.sess.src == l.ws.src < SRC_INVALID
    ensures LastReported(EnterDisconnected(l, resume).ws.log) == Some(l.ws.sessionWhy)
  {
    var told := Emit(l, DisconnectNotified(l.ws.sessionWhy));
    ResetReportsNothing(SessionEnd(told.(ws := told.ws.(resume := resume)), l.ws.sessionWhy));
    hide Reset;
  }

  /** After the dispatch that ends a session: reported, or on its way through Disconnecting. */
  predicate Reporting(l: Link, why: SessionWhy)
  {
    if l.ws.state.Disconnected? then LastReported(l.ws.log) == Some(why)
    else l.ws.state.Disconnecting? && l.ws.sessionWhy == why
  }

  lemma EndMoves(l: Link, e: Event, env: Env, why: SessionWhy)
    requires Leavable(l, e, PhaseOf(l.ws.state)) && Next(l.ws.state, e) in {Some(Disconnected), Some(Disconnecting)}
    requires Plan(l, e).sessionWhy == why
    ensures Reporting(Effect(l, e, env), why)
  {
    var t := Next(l.ws.state, e).value;
    LeaveTied(l, e, PhaseOf(l.ws.state));
    ExitRecords(l, e);
    hide LeavingFor, Next, Exit, Body, Fits, CrossingLog;
    var m := Leave(l, e, t);
    if t.Disconnected? {
      EnterIs(m, env);
      DisconnectedReports(m, env.resume);
    }
    hide EnterDisconnected, LastReported;
  }

  /** A session that ends is reported with the reason of the event that ended it. */
  lemma ReportsItsReason(l: Link, e: Event, envs: seq<Env>)
    requires Inv(l) && l.ws.queue == [e] && Ends(l.ws.state, e)
    ensures Process(l, envs).ws.state.Disconnected?
    ensures LastReported(Process(l, envs).ws.log) == Some(ReasonFor(l.ws.state, e, l.ws.closeStatus))
  {
    hide Body, Effect, LastReported, Posts;
    var env := First(envs);
    var why := ReasonFor(l.ws.state, e, l.ws.closeStatus);
    EndRecordsReason(l.ws.state, e, l.ws.closeStatus, Leaving(l.ws.streamWhy, l.ws.sessionWhy, false));
    HeadFits(l);
    EndMoves(Pop(l), e, env, why);
    StepKeeps(l, env);
    QueueStaysShort(l, env);
    var m := Step(l, env);
    PostsNoBegin(Pop(l), e, env);
    hide LeavingFor, ReasonFor;
    AfterEnd(m, Rest(envs), why);
    hide Reporting, Step, QueueTied, Fits;
  }

  lemma AfterEnd(l: Link, envs: seq<Env>, why: SessionWhy)
    requires Inv(l) && |l.ws.queue| <= 1 && Reporting(l, why)
    requires l.ws.queue == [] || IsInternal(l.ws.queue[0])
    ensures Process(l, envs).ws.state.Disconnected?
    ensures LastReported(Process(l, envs).ws.log) == Some(why)
  {
    hide Body, Effect, LastReported, LeavingFor, Posts;
    if l.ws.state.Disconnecting? {
      var env := First(envs);
      assert l.ws.queue == [DisconnectedEv];
      HeadFits(l);
      NothingRecorded(l.ws.closeStatus, Leaving(l.ws.streamWhy, l.ws.sessionWhy, false));
      EndMoves(Pop(l), DisconnectedEv, env, why);
      QueueStaysShort(l, env);
      NothingPosted(Pop(l), env);
      StepTargets(Pop(l), DisconnectedEv, env);
      assert Step(l, env).ws.queue == [];
      assert Process(Step(l, env), Rest(envs)) == Step(l, env);
    }
  }

  lemma NothingRecorded(closeStatus: int, prior: Leaving)
    ensures LeavingFor(Disconnecting, DisconnectedEv, closeStatus, prior) == prior
  {}

  lemma NothingPosted(l: Link, env: Env)
    requires l.ws.state.Disconnecting?
    ensures Posts(l, DisconnectedEv, env).None?
  {}
}
