/** Whole processing runs of one connection, and every way the main loop touches it. */
module WsRuns {
  import opened Types
  import opened Monitor
  import opened WsTables
  import opened WsSpec
  import opened WsIo
  import opened WsInvariant

  // ---- processing runs ----

  /** A processing run ends at rest with an empty queue. */
  lemma {:induction false} ProcessRests(l: Link, envs: seq<Env>)
    requires Inv(l)
    ensures Quiet(Process(l, envs)) && Process(l, envs).ws.queue == []
    decreases QueueCost(l.ws.queue)
  {
    if l.ws.queue != [] {
      StepKeeps(l, First(envs));
      StepCost(l, First(envs));
      ProcessRests(Step(l, First(envs)), Rest(envs));
      hide Watch, Step, Body;
    } else {
      hide Watch, Body;
    }
  }

  lemma ProcessStep(l: Link, envs: seq<Env>)
    requires l.ws.queue != []
    ensures Process(l, envs) == Process(Step(l, First(envs)), Rest(envs))
  {
    hide Step;
  }

  /** The event queue is never more than two deep, so its five slots never run out. */
  lemma QueueStaysShort(l: Link, env: Env)
    requires Inv(l)
    ensures |l.ws.queue| <= 2 < EVENTS_MAX
    ensures forall e :: Post(l, e).ws.queue == l.ws.queue + [e]
    ensures l.ws.queue != [] ==>
              var p := Posts(Pop(l), l.ws.queue[0], env);
              Step(l, env).ws.queue == l.ws.queue[1..] + (if p.Some? then [p.value] else [])
  {
    hide Watch, Body, Effect, Posts;
  }

  // ---- who holds the group ----

  /** A disconnected connection leaves its group alone; a session keeps its source until it ends, and
      ending releases the group with no stream open. */
  predicate Evolves(a: Link, b: Link)
  {
    if SessionPhase(a.ws) == Idle then
      SessionPhase(b.ws) == Idle && b.sess == a.sess && b.ws.src == a.ws.src
    else if SessionPhase(b.ws) == Idle then
      b.sess.src == SRC_INVALID && b.sess.firstStreamReq
    else
      b.ws.src == a.ws.src && b.sess.src == a.sess.src
  }

  lemma EvolvesChain(a: Link, b: Link, c: Link)
    requires Evolves(a, b) && Evolves(b, c)
    ensures Evolves(a, c)
  {}

  /** The session record and the source after one dispatch. */
  predicate Handed(a: Link, b: Link)
  {
    if b.ws.state.Disconnected? && !a.ws.state.Disconnected? then
      b.sess.src == SRC_INVALID && b.sess.firstStreamReq
    else b.ws.src == a.ws.src && b.sess.src == a.sess.src
  }

  lemma EffectHands(l: Link, e: Event, env: Env, ph: Phase)
    requires Dispatchable(l, e, ph)
    ensures Handed(l, Effect(l, e, env))
    ensures ph == Idle ==> Effect(l, e, env) == l
  {
    hide Watch, Leave, Enter, Internal, LogTied, FieldsTied, CrossingLog, SessionTied, EnterDisconnected;
    var n := Next(l.ws.state, e);
    DisconnectedIsStill(l, e, env);
    if n.Some? && n.value != l.ws.state {
      MoveHands(l, e, env, ph);
    }
  }

  lemma MoveHands(l: Link, e: Event, env: Env, ph: Phase)
    requires Leavable(l, e, ph)
    ensures var t := Next(l.ws.state, e).value;
            && Handed(l, Enter(Leave(l, e, t), env))
            && (l.ws.state.Disconnected? ==> IsBegin(e))
  {
    Moves(l.ws.state, e);
    LeaveTied(l, e, ph);
    var m := Leave(l, e, Next(l.ws.state, e).value);
    hide Leave, Body, Fits, Next, CrossingLog;
    if m.ws.state.Disconnected? {
      EnterDisconnectedTied(m, env.resume);
      EnterIs(m, env);
      hide EnterDisconnected;
    }
    hide Enter;
  }

  lemma EnterIs(l: Link, env: Env)
    requires l.ws.state.Disconnected?
    ensures Enter(l, env) == EnterDisconnected(l, env.resume)
  {
    hide EnterDisconnected;
  }

  lemma StepEvolves(l: Link, env: Env)
    requires Inv(l) && l.ws.queue != []
    ensures Evolves(l, Step(l, env))
  {
    var p, e, ph := Pop(l), l.ws.queue[0], SessionPhase(l.ws);
    HeadFits(l);
    EffectHands(p, e, env, ph);
    PostsTied(p, e, env, ph);
    MovedTied(p, e, env);
    QueueStaysShort(l, env);
    QueueAfter(l.ws, Effect(p, e, env).ws, Posts(p, e, env), Step(l, env).ws.queue);
    hide Watch, Body, Effect, Posts, Moved, Fits, Next, PostsFinish, QueueTied, Dispatchable;
  }

  lemma {:induction false} ProcessEvolves(l: Link, envs: seq<Env>)
    requires Inv(l)
    ensures Evolves(l, Process(l, envs))
    decreases QueueCost(l.ws.queue)
  {
    if l.ws.queue != [] {
      StepKeeps(l, First(envs));
      StepEvolves(l, First(envs));
      StepCost(l, First(envs));
      ProcessEvolves(Step(l, First(envs)), Rest(envs));
      EvolvesChain(l, Step(l, First(envs)), Process(l, envs));
    }
    hide Watch, Step, Body;
  }

  /** A run dispatches no more events than its queue can pay for. */
  lemma {:induction false} DispatchesBounded(l: Link, envs: seq<Env>)
    ensures Dispatches(l, envs) <= QueueCost(l.ws.queue)
    decreases QueueCost(l.ws.queue)
  {
    if l.ws.queue != [] {
      StepCost(l, First(envs));
      DispatchesBounded(Step(l, First(envs)), Rest(envs));
      hide Step;
    }
  }

  /** One outside event at rest: with the late EOS_PIPE, if any, at most two further events are posted. */
  lemma AtMostTwoPosted(l: Link, e: Event, envs: seq<Env>)
    requires Resting(l.ws)
    ensures Dispatches(Post(l, e), envs) <= |l.ws.queue| + 1 + 2
  {
    hide Dispatches, Process;
    DispatchesBounded(Post(l, e), envs);
    QueueCostAppend(l.ws.queue, e);
    assert QueueCost([EosPipe]) == 1 + QueueCost([]);
  }

  lemma QueuePosted(w: Ws, e: Event)
    requires Resting(w.(tx := w.tx.(retries := 0))) && IsExternal(e) && !IsBegin(e) && RetriesBounded(w, e)
    ensures QueueTied(w.(queue := w.queue + [e])) && !Starting(w.(queue := w.queue + [e]))
  {
    var q := w.queue + [e];
    assert Last(q) == e;
    assert q == [e] || q == [EosPipe, e];
  }

  /** An outside event that does not start a session can always be accepted at rest. */
  lemma PostKeeps(l: Link, e: Event)
    requires Body(l, PhaseOf(l.ws.state)) && Resting(l.ws.(tx := l.ws.tx.(retries := 0)))
    requires IsExternal(e) && !IsBegin(e) && RetriesBounded(l.ws, e)
    ensures Inv(Post(l, e))
  {
    hide Body, RetriesBounded, Starting;
    assert |l.ws.queue| <= 1;
    BodyIgnoresQueue(l, Post(l, e), PhaseOf(l.ws.state));
    QueuePosted(l.ws, e);
    hide QueueTied;
  }

  lemma DeliverKeeps(l: Link, e: Event, envs: seq<Env>)
    requires Quiet(l) && IsExternal(e) && !IsBegin(e)
    ensures Quiet(Deliver(l, e, envs)) && Deliver(l, e, envs).ws.queue == []
    ensures Evolves(l, Deliver(l, e, envs))
  {
    hide Watch, Body, Process, Evolves;
    PostKeeps(l, e);
    ProcessRests(Post(l, e), envs);
    ProcessEvolves(Post(l, e), envs);
    PostEvolves(l, e);
    EvolvesChain(l, Post(l, e), Deliver(l, e, envs));
  }

  lemma PostEvolves(l: Link, e: Event)
    requires Resting(l.ws.(tx := l.ws.tx.(retries := 0))) && !IsBegin(e)
    ensures Evolves(l, Post(l, e))
  {}

  // ---- termination ----

  lemma {:induction false} DrainsToDisconnected(l: Link, envs: seq<Env>)
    requires Inv(l) && !Starting(l.ws) && (l.ws.state.Disconnected? || l.ws.state.Disconnecting?)
    ensures Process(l, envs).ws.state.Disconnected?
    decreases QueueCost(l.ws.queue)
  {
    if l.ws.queue != [] {
      StepKeeps(l, First(envs));
      StepCost(l, First(envs));
      StepTargets(Pop(l), l.ws.queue[0], First(envs));
      DrainStep(l, First(envs));
      DrainsToDisconnected(Step(l, First(envs)), Rest(envs));
      hide Watch, Step, Body;
    } else {
      hide Watch, Body;
    }
  }

  lemma DrainStep(l: Link, env: Env)
    requires Inv(l) && !Starting(l.ws) && (l.ws.state.Disconnected? || l.ws.state.Disconnecting?) && l.ws.queue != []
    ensures Step(l, env).ws.state.Disconnected? && !Starting(Step(l, env).ws)
  {
    QueueStaysShort(l, env);
    StepTargets(Pop(l), l.ws.queue[0], env);
    hide Watch, Body, Effect, Posts, Post;
    PostsNoBegin(Pop(l), l.ws.queue[0], env);
  }

  lemma PostsNoBegin(l: Link, e: Event, env: Env)
    ensures Posts(l, e, env).Some? ==> IsInternal(Posts(l, e, env).value)
  {
    hide Watch, Leave, Next;
  }

  /** Everything a connection holds has been given back. */
  predicate Clean(l: Link)
  {
    && l.ws.state.Disconnected? && l.ws.queue == []
    && l.ws.timer < 0 && l.ws.pipe < 0 && l.ws.socket < 0
    && l.ws.msgs == [] && !l.ws.tx.pending
    && Seen(l).ok && Seen(l).phase == Idle && Seen(l).fds == {} && Seen(l).timers == {}
  }

  lemma TerminateStep(l: Link, env: Env)
    requires Inv(l) && l.ws.queue == [TerminateEv]
    ensures Step(l, env).ws.state.Disconnected? || Step(l, env).ws.state.Disconnecting?
    ensures !Starting(Step(l, env).ws)
  {
    QueueStaysShort(l, env);
    StepTargets(Pop(l), TerminateEv, env);
    PostsNoBegin(Pop(l), TerminateEv, env);
    HeadFits(l);
    hide Watch, Body, Effect, Posts, Post;
  }

  lemma TerminateDrains(l: Link, envs: seq<Env>)
    requires Inv(l) && l.ws.queue == [TerminateEv]
    ensures Process(l, envs).ws.state.Disconnected?
  {
    StepKeeps(l, First(envs));
    TerminateStep(l, First(envs));
    DrainsToDisconnected(Step(l, First(envs)), Rest(envs));
    hide Watch, Step, Body, Starting;
  }

  /** A late EOS_PIPE is dispatched first and leaves just the event behind it. */
  lemma LateEosPipeFirst(l: Link, e: Event, env: Env)
    requires Inv(l) && l.ws.queue == [EosPipe, e]
    ensures Inv(Step(l, env)) && Step(l, env).ws.queue == [e]
  {
    QueueStaysShort(l, env);
    StepKeeps(l, env);
    HeadFits(l);
    PostsTied(Pop(l), EosPipe, env, SessionPhase(l.ws));
    hide Step, Watch, Effect, Posts, Body, Post;
  }

  lemma TerminateReaches(l: Link, envs: seq<Env>)
    requires Inv(l) && (l.ws.queue == [TerminateEv] || l.ws.queue == [EosPipe, TerminateEv])
    ensures Process(l, envs).ws.state.Disconnected?
  {
    hide Watch, Body, Step;
    if l.ws.queue == [TerminateEv] {
      TerminateDrains(l, envs);
    } else {
      LateEosPipeFirst(l, TerminateEv, First(envs));
      TerminateDrains(Step(l, First(envs)), Rest(envs));
    }
  }

  /** TERMINATE at rest lands in Disconnected within one processing run, with nothing left held. */
  lemma TerminateLands(l: Link, envs: seq<Env>)
    requires Quiet(l)
    ensures Clean(Deliver(l, TerminateEv, envs))
    ensures Quiet(Deliver(l, TerminateEv, envs))
  {
    hide Process, Watch, Body;
    PostKeeps(l, TerminateEv);
    DeliverKeeps(l, TerminateEv, envs);
    TerminateReaches(Post(l, TerminateEv), envs);
    CleanWhenQuiet(Deliver(l, TerminateEv, envs));
    hide Clean;
  }

  lemma CleanWhenQuiet(l: Link)
    requires Quiet(l) && l.ws.state.Disconnected? && l.ws.queue == []
    ensures Clean(l)
  {
    hide Watch;
  }

  // ---- passes over the descriptors ----

  predicate Downhill(s: State) { Up(s) || s.Disconnecting? || s.Disconnected? }

  predicate NoBegin(q: seq<Event>) { forall i :: 0 <= i < |q| ==> !IsBegin(q[i]) }

  /** Once up, a connection only stays up, unchanged as far as transmission goes, or ends. */
  predicate StillUp(a: Ws, b: Ws)
  {
    && Downhill(b.state) && (Up(b.state) ==> Up(a.state))
    && (a.state.Disconnected? ==> b.state.Disconnected?)
    && (PhaseOf(b.state) == Live ==> PhaseOf(a.state) == Live)
    && (if b.state.Disconnected? && !a.state.Disconnected? then b.tx.retries == 0 else b.tx == a.tx)
  }

  lemma EffectStaysUp(l: Link, e: Event, env: Env)
    requires Downhill(l.ws.state) && !IsBegin(e)
    ensures StillUp(l.ws, Effect(l, e, env).ws)
  {
    hide Watch, Leave, Enter, Internal;
  }

  lemma {:induction false} ProcessStaysUp(l: Link, envs: seq<Env>)
    requires Downhill(l.ws.state) && NoBegin(l.ws.queue)
    ensures StillUp(l.ws, Process(l, envs).ws)
    decreases QueueCost(l.ws.queue)
  {
    if l.ws.queue != [] {
      var s := Step(l, First(envs));
      EffectStaysUp(Pop(l), l.ws.queue[0], First(envs));
      PostsNoBegin(Pop(l), l.ws.queue[0], First(envs));
      StepCost(l, First(envs));
      StepNoBegin(l, First(envs));
      ProcessStaysUp(s, Rest(envs));
      hide Effect, Posts, Downhill, NoBegin;
    }
  }

  lemma StepNoBegin(l: Link, env: Env)
    requires NoBegin(l.ws.queue) && l.ws.queue != []
    ensures NoBegin(Step(l, env).ws.queue)
  {
    PostsNoBegin(Pop(l), l.ws.queue[0], env);
    hide Effect, Posts;
  }

  /** Logged calls that only move transmit bookkeeping keep the invariant. */
  lemma TransmitTied(l: Link, r: Link)
    requires Body(l, PhaseOf(l.ws.state)) && !l.ws.state.Disconnecting?
    requires r == l.(ws := l.ws.(tx := r.ws.tx, msgs := r.ws.msgs, log := r.ws.log)) && |r.ws.msgs| <= MSG_OUT_MAX
    requires r.ws.tx.pending || r.ws.msgs != [] ==> Up(l.ws.state)
    requires var m, tx := Seen(r), r.ws.tx;
             && m == Seen(l).(armed := m.armed, bytesRead := m.bytesRead, counted := m.counted, blocked := tx.pending,
                               streak := m.streak, carried := m.carried)
             && (m.phase != Idle ==> m.armed == (if tx.kwdNotified then None else Some(tx.kwdBytes)))
             && tx.txd == In32(m.counted) && m.counted <= m.bytesRead
             && (!l.ws.state.Established? ==> Tally(m) == tx.retries)
    ensures Body(r, PhaseOf(l.ws.state))
  {
    hide Watch, In32;
  }

  lemma OnCloseKeeps(l: Link, status: int, envs: seq<Env>)
    requires Quiet(l)
    ensures Quiet(OnClose(l, status, envs)) && OnClose(l, status, envs).ws.queue == []
    ensures Evolves(l, OnClose(l, status, envs))
    ensures Downhill(l.ws.state) ==> StillUp(l.ws, OnClose(l, status, envs).ws)
  {
    hide Watch, Process, StillUp, Downhill;
    var m := l.(ws := l.ws.(onClose := true, closeStatus := status));
    assert Body(m, PhaseOf(m.ws.state));
    hide Body;
    DeliverKeeps(m, WsClose, envs);
    DeliverStaysUp(m, WsClose, envs);
    StillUpSame(l.ws, m.ws, OnClose(l, status, envs).ws);
  }

  lemma StillUpSame(a: Ws, b: Ws, c: Ws)
    requires a.state == b.state && a.tx == b.tx
    requires Downhill(b.state) ==> StillUp(b, c)
    ensures Downhill(a.state) ==> StillUp(a, c)
  {}

  lemma DeliverStaysUp(l: Link, e: Event, envs: seq<Env>)
    requires !IsBegin(e) && Resting(l.ws)
    ensures Downhill(l.ws.state) ==> StillUp(l.ws, Deliver(l, e, envs).ws)
  {
    hide Process, StillUp, Downhill;
    if Downhill(l.ws.state) {
      var p := Post(l, e);
      assert NoBegin(p.ws.queue);
      ProcessStaysUp(p, envs);
      StillUpSame(l.ws, p.ws, Process(p, envs).ws);
    }
  }

  lemma MessageKeeps(l: Link, closeAsked: bool, a: Answers)
    requires Quiet(l)
    ensures var m := Deliver(l, MsgRecv, Ans(a, 0));
            var c := if closeAsked then Deliver(m, AppClose, Ans(a, 1)) else m;
            && Quiet(c) && c.ws.queue == [] && Evolves(l, c)
            && (Downhill(l.ws.state) ==> StillUp(l.ws, c.ws))
  {
    hide Body, StillUp, Deliver, Evolves, Downhill, Resting;
    DeliverKeeps(l, MsgRecv, Ans(a, 0));
    var m := Deliver(l, MsgRecv, Ans(a, 0));
    DeliverStaysUp(l, MsgRecv, Ans(a, 0));
    if closeAsked {
      DeliverKeeps(m, AppClose, Ans(a, 1));
      DeliverStaysUp(m, AppClose, Ans(a, 1));
      var c := Deliver(m, AppClose, Ans(a, 1));
      StillUpChain(l.ws, m.ws, c.ws);
      EvolvesChain(l, m, c);
    }
  }

  lemma ReadPendingKeeps(l: Link, r: Incoming, a: Answers)
    requires Quiet(l)
    ensures Quiet(ReadPending(l, r, a)) && Evolves(l, ReadPending(l, r, a))
    ensures Downhill(l.ws.state) ==> StillUp(l.ws, ReadPending(l, r, a).ws)
  {
    hide Body, StillUp, Deliver, OnClose, Resting, Downhill;
    match r
    case Nothing => StillUpSelf(l.ws);
    case PeerClosed(status) => OnCloseKeeps(l, status, Ans(a, 0));
    case Message(closeAsked, recv) =>
      MessageKeeps(l, closeAsked, a);
      var m := Deliver(l, MsgRecv, Ans(a, 0));
      var c := if closeAsked then Deliver(m, AppClose, Ans(a, 1)) else m;
      LateEosPipeKeeps(c, AudioEof, EndOfSpeech);
      LateEosPipeKeeps(c, RemoteDisconnect, WsSendError);
      StillUpLate(l.ws, c, AudioEof, EndOfSpeech);
      StillUpLate(l.ws, c, RemoteDisconnect, WsSendError);
      hide Quiet;
  }

  lemma StillUpSelf(a: Ws)
    ensures Downhill(a.state) ==> StillUp(a, a)
  {}

  lemma StillUpChain(a: Ws, b: Ws, c: Ws)
    requires Downhill(a.state) ==> StillUp(a, b)
    requires Downhill(b.state) ==> StillUp(b, c)
    ensures Downhill(a.state) ==> StillUp(a, c)
  {}

  lemma StillUpLate(a: Ws, c: Link, x: StreamWhy, y: SessionWhy)
    requires Downhill(a.state) ==> StillUp(a, c.ws)
    ensures Downhill(a.state) ==> StillUp(a, Post(Reasons(c, x, y), EosPipe).ws)
  {}

  lemma LateEosPipeKeeps(c: Link, x: StreamWhy, y: SessionWhy)
    requires Quiet(c) && c.ws.queue == []
    ensures Quiet(Post(Reasons(c, x, y), EosPipe))
  {
    hide Watch;
  }

  /** No stream starts once a connection is up. */
  predicate StillLive(a: Link, b: Link)
  {
    Downhill(b.ws.state) && (PhaseOf(b.ws.state) == Live ==> PhaseOf(a.ws.state) == Live) && Evolves(a, b)
  }

  function CountFlush(l: Link): Link
  {
    Emit(l.(ws := l.ws.(tx := l.ws.tx.(retries := (l.ws.tx.retries + 1) % 256))), FlushIncomplete)
  }

  lemma CountFlushKeeps(l: Link)
    requires Quiet(l) && (Up(l.ws.state) || l.ws.tx.retries == 0)
    ensures var m := CountFlush(l);
            && Body(m, PhaseOf(m.ws.state)) && m.ws.state == l.ws.state && m.ws.queue == l.ws.queue
            && Resting(m.ws.(tx := m.ws.tx.(retries := 0)))
            && m.ws.tx.retries == (l.ws.tx.retries + 1) % 256
            && RetriesBounded(m.ws, WsError)
            && (m.ws.tx.retries <= WRITE_PENDING_RETRY_MAX ==> Resting(m.ws))
  {
    hide Watch;
    SeenEmit(l.(ws := l.ws.(tx := l.ws.tx.(retries := (l.ws.tx.retries + 1) % 256))), FlushIncomplete);
    TransmitTied(l, CountFlush(l));
    hide Body;
  }

  /** An incomplete flush: the sixth in a row outside Established ends the session. */
  lemma FlushRetryKeeps(l: Link, envs: seq<Env>)
    requires Quiet(l) && Downhill(l.ws.state) && (Up(l.ws.state) || l.ws.tx.retries == 0)
    ensures Quiet(FlushRetry(l, envs)) && StillLive(l, FlushRetry(l, envs))
  {
    hide Watch, Process, StillUp, Body, RetriesBounded, Downhill;
    CountFlushKeeps(l);
    var m := CountFlush(l);
    if m.ws.tx.retries > WRITE_PENDING_RETRY_MAX {
      PostKeeps(m, WsError);
      ProcessRests(Post(m, WsError), envs);
      ErrorStaysUp(m, envs);
    }
  }

  lemma ErrorStaysUp(m: Link, envs: seq<Env>)
    requires Downhill(m.ws.state) && Resting(m.ws.(tx := m.ws.tx.(retries := 0))) && Inv(Post(m, WsError))
    ensures StillLive(m, Deliver(m, WsError, envs))
  {
    hide Process, Watch, Body;
    assert NoBegin(Post(m, WsError).ws.queue);
    ProcessStaysUp(Post(m, WsError), envs);
    ProcessEvolves(Post(m, WsError), envs);
    PostEvolves(m, WsError);
    EvolvesChain(m, Post(m, WsError), Deliver(m, WsError, envs));
    hide Evolves;
  }

  /** What a pass over the write side leaves for the audio pass. */
  predicate PassOk(l: Link, m: Link, on: bool)
  {
    Quiet(m) && StillLive(l, m) && (on && Up(m.ws.state) ==> !m.ws.tx.pending)
  }

  lemma FlushPendingKeeps(l: Link, f: Flush, a: Answers)
    requires Quiet(l) && Up(l.ws.state) && l.ws.tx.pending
    ensures var (m, flushed) := FlushPending(l, f, a);
            && PassOk(l, m, flushed)
            && (flushed ==> m.ws.state == l.ws.state && m.ws.msgs == l.ws.msgs && m.ws.queue == l.ws.queue)
  {
    hide Watch, Process, StillUp, FlushRetry, OnClose;
    match f
    case Flushed =>
      var m := l.(ws := l.ws.(tx := l.ws.tx.(pending := false, retries := 0)));
      SeenEmit(m, WriteFlushed);
      TransmitTied(l, Emit(m, WriteFlushed));
      hide Body;
    case Incomplete =>
      FlushRetryKeeps(l, Ans(a, 2));
      hide Body;
    case ClosedInFlush(status) =>
      hide Body, Resting;
      OnCloseKeeps(l, status, Ans(a, 2));
      ClosedRetries(l.ws, OnClose(l, status, Ans(a, 2)).ws);
      FlushRetryKeeps(OnClose(l, status, Ans(a, 2)), Ans(a, 3));
  }

  lemma ClosedRetries(a: Ws, b: Ws)
    requires Downhill(a.state) && StillUp(a, b) && Resting(b) && !a.state.Disconnected?
    ensures Downhill(b.state) && (Up(b.state) || b.tx.retries == 0)
    ensures PhaseOf(b.state) == Live ==> PhaseOf(a.state) == Live
  {}

  lemma DownDeliver(l: Link, e: Event, envs: seq<Env>)
    requires Quiet(l) && Downhill(l.ws.state) && IsExternal(e) && !IsBegin(e)
    ensures Quiet(Deliver(l, e, envs)) && Downhill(Deliver(l, e, envs).ws.state)
    ensures !l.ws.tx.pending ==> !Deliver(l, e, envs).ws.tx.pending
    ensures StillLive(l, Deliver(l, e, envs))
  {
    hide Watch, Process;
    DeliverKeeps(l, e, envs);
    DeliverStaysUp(l, e, envs);
    hide LogTied, SessionTied;
  }

  lemma DownClose(l: Link, status: int, envs: seq<Env>)
    requires Quiet(l) && Downhill(l.ws.state)
    ensures Quiet(OnClose(l, status, envs)) && Downhill(OnClose(l, status, envs).ws.state)
    ensures !l.ws.tx.pending ==> !OnClose(l, status, envs).ws.tx.pending
    ensures StillLive(l, OnClose(l, status, envs))
  {
    hide Watch, Process;
    OnCloseKeeps(l, status, envs);
    hide LogTied, SessionTied, OnClose;
  }

  /** A frame as the library left it, before anything is made of an error. */
  function Framed(l: Link, calls: seq<Call>, msgs: seq<seq<char>>, pending: bool, txd: nat): Link
  {
    l.(ws := l.ws.(tx := l.ws.tx.(pending := pending, txd := txd), msgs := msgs, log := l.ws.log + calls))
  }

  /** A frame that was not taken whole leaves the connection pending, and the log says so. */
  function TextFramed(l: Link, r: Reply): Link
    requires l.ws.msgs != []
  {
    Framed(l, [TextSent(l.ws.msgs[0], r)], l.ws.msgs[1..], Unfinished(|l.ws.msgs[0]|, r), l.ws.tx.txd)
  }

  lemma TextKeeps(l: Link, r: Reply)
    requires Quiet(l) && Up(l.ws.state) && !l.ws.tx.pending && l.ws.msgs != []
    ensures Quiet(TextFramed(l, r)) && TextFramed(l, r).ws.state == l.ws.state
  {
    hide Watch;
    var m := TextFramed(l, r);
    WatchAppend(l.ws.log, TextSent(l.ws.msgs[0], r));
    assert Seen(m) == Observe(Seen(l), TextSent(l.ws.msgs[0], r));
    TransmitTied(l, m);
    hide Body;
  }

  lemma SendTextKeeps(l: Link, s: Sent, a: Answers)
    requires Quiet(l) && Up(l.ws.state) && !l.ws.tx.pending && l.ws.msgs != []
    ensures var (m, on) := SendText(l, s, a); PassOk(l, m, on)
  {
    hide Watch, Process, Deliver, OnClose, Quiet;
    var m := TextFramed(l, ReplyOf(s));
    TextKeeps(l, ReplyOf(s));
    TextIs(l, s, a);
    if s == Bytes(0) || s.Failed? {
      DownDeliver(m, WsError, Ans(a, 4));
    } else if s.ClosedInSend? {
      DownClose(m, s.status, Ans(a, 5));
      DownDeliver(OnClose(m, s.status, Ans(a, 5)), WsError, Ans(a, 4));
    }
    hide SendText, TextFramed;
  }

  /** What becomes of the oldest message: it is left unfinished and the pass stops, it went out, or the error is
      dealt with. */
  lemma TextIs(l: Link, s: Sent, a: Answers)
    requires l.ws.msgs != [] && !l.ws.tx.pending
    ensures var m := TextFramed(l, ReplyOf(s));
            SendText(l, s, a)
            == (match s
                case Bytes(n) => if n == 0 then (Deliver(m, WsError, Ans(a, 4)), true) else (m, n == |l.ws.msgs[0]|)
                case WouldBlock => (m, false)
                case Failed => (Deliver(m, WsError, Ans(a, 4)), true)
                case ClosedInSend(status) => (Deliver(OnClose(m, status, Ans(a, 5)), WsError, Ans(a, 4)), true))
  {
    hide Deliver, OnClose;
  }

  lemma MsgsBounded(l: Link)
    requires Quiet(l)
    ensures |l.ws.msgs| <= MSG_OUT_MAX
  {
    hide Watch;
  }

  lemma WritePassKeeps(l: Link, io: Io, a: Answers)
    requires Quiet(l) && Up(l.ws.state)
    ensures var (m, on) := WritePass(l, io, a); PassOk(l, m, on)
  {
    hide Watch, Process, Body, SendText, FlushPending, Resting;
    if l.ws.tx.pending {
      FlushPendingKeeps(l, io.flush, a);
      var (m, flushed) := FlushPending(l, io.flush, a);
      if flushed && m.ws.msgs != [] { SendTextKeeps(m, io.text, a); }
    } else if l.ws.msgs != [] {
      SendTextKeeps(l, io.text, a);
    }
  }

  /** A frame of n bytes leaves the connection pending exactly when it is unfinished, and the count grows by what
      the library took. */
  function AudioFramed(l: Link, n: nat, r: Reply): Link
  {
    Framed(l, [AudioRead(n), AudioSent(n, r)], l.ws.msgs, Unfinished(n, r), (l.ws.tx.txd + Taken(r)) % 0x1_0000_0000)
  }

  lemma AudioKeeps(l: Link, n: nat, r: Reply)
    requires Quiet(l) && Up(l.ws.state) && l.ws.pipe >= 0 && !l.ws.tx.pending && Taken(r) <= n
    ensures var m := AudioFramed(l, n, r);
            && Quiet(m) && m.ws.state == l.ws.state
            && Seen(m) == Seen(l).(bytesRead := Seen(l).bytesRead + n, counted := Seen(l).counted + Taken(r),
                                   blocked := Unfinished(n, r))
  {
    hide Watch;
    var m := AudioFramed(l, n, r);
    WatchTwo(l.ws.log, AudioRead(n), AudioSent(n, r));
    In32Adds(Seen(l).counted, Taken(r));
    hide In32;
    TransmitTied(l, m);
    hide Body;
  }

  lemma WatchTwo(log: seq<Call>, c: Call, d: Call)
    ensures Watch(log + [c, d]) == Observe(Observe(Watch(log), c), d)
  {
    assert log + [c, d] == log + [c] + [d];
    WatchAppend(log, c);
    WatchAppend(log + [c], d);
    hide Watch;
  }

  /** Before anything is made of an error, a frame leaves behind just that. */
  lemma FrameIs(l: Link, n: nat, s: Sent)
    requires Quiet(l)
    ensures var m := Emit(Emit(l, AudioRead(n)), AudioSent(n, ReplyOf(s)));
            && m.ws.log == AudioFramed(l, n, ReplyOf(s)).ws.log
            && (s.WouldBlock? ==> Block(m) == AudioFramed(l, n, TryLater))
            && (s.Failed? || s.ClosedInSend? || s == Bytes(0) ==>
                  !l.ws.tx.pending ==> m == AudioFramed(l, n, ReplyOf(s)))
            && (s.Bytes? && s.n != 0 && s.n != n ==> CountSent(Block(m), s.n) == AudioFramed(l, n, Took(s.n)))
            && (s == Bytes(n) && n != 0 && !l.ws.tx.pending ==> CountSent(m, n) == AudioFramed(l, n, Took(n)))
  {
    SmallCount(l);
    hide Quiet;
    var c, d := AudioRead(n), AudioSent(n, ReplyOf(s));
    assert l.ws.log + [c] + [d] == l.ws.log + [c, d];
  }

  lemma SmallCount(l: Link)
    requires Quiet(l)
    ensures l.ws.tx.txd % 0x1_0000_0000 == l.ws.tx.txd
  {
    hide Watch;
    var c := Seen(l).counted;
    assert (c % 0x1_0000_0000) % 0x1_0000_0000 == c % 0x1_0000_0000;
  }

  lemma SendFrameKeeps(l: Link, n: nat, s: Sent, a: Answers)
    requires Quiet(l) && Up(l.ws.state) && l.ws.pipe >= 0 && !l.ws.tx.pending
    requires s.Bytes? ==> s.n <= n
    ensures Quiet(SendFrame(l, n, s, a)) && Evolves(l, SendFrame(l, n, s, a))
  {
    FrameIs(l, n, s);
    AudioKeeps(l, n, ReplyOf(s));
    hide Watch, Process, Body, Deliver, OnClose, Block, Resting, CountSent, Quiet, Emit;
    var m := AudioFramed(l, n, ReplyOf(s));
    if ReplyOf(s).Refused? || s == Bytes(0) {
      DownDeliver(m, WsError, Ans(a, 6));
      if s.ClosedInSend? {
        DownClose(m, s.status, Ans(a, 7));
        DownDeliver(OnClose(m, s.status, Ans(a, 7)), WsError, Ans(a, 6));
      }
    }
  }

  lemma AnnounceKeeps(l: Link)
    requires Quiet(l)
    ensures Quiet(AnnounceKeyword(l)) && Evolves(l, AnnounceKeyword(l))
  {
    hide Watch;
    SeenEmit(l, KeywordRaised(l.ws.tx.txd));
  }

  lemma AudioPassKeeps(l: Link, io: Io, a: Answers)
    requires Quiet(l) && Up(l.ws.state) && l.ws.pipe >= 0 && !l.ws.tx.pending && IoOk(io)
    ensures Quiet(AudioPass(l, io, a)) && Evolves(l, AudioPass(l, io, a))
  {
    hide Watch, Process, Body, Deliver, SendFrame, AnnounceKeyword, Resting;
    match io.audio
    case ReadFails => DownDeliver(l, AudioError, Ans(a, 6));
    case Eof => DownDeliver(l, EosPipe, Ans(a, 6));
    case Data(n) =>
      SendFrameKeeps(l, n, io.frame, a);
      AnnounceKeeps(SendFrame(l, n, io.frame, a));
  }

  /** What the main loop may report: audio only from a pipe it asked for. */
  predicate Reportable(w: Ws, r: Ready) { r.audio && w.pipe >= 0 ==> Up(w.state) && !w.tx.pending }

  lemma LivePipe(l: Link)
    requires Quiet(l)
    ensures l.ws.pipe >= 0 <==> PhaseOf(l.ws.state) == Live
    ensures l.ws.socket >= 0 ==> Up(l.ws.state)
    ensures Up(l.ws.state) ==> Downhill(l.ws.state)
  {
    hide Watch;
  }

  /** A pass over the descriptors keeps a connection at rest, whatever the library calls return. */
  lemma HandleFdsKeeps(l: Link, r: Ready, io: Io, a: Answers)
    requires Quiet(l) && Reportable(l.ws, r) && IoOk(io)
    ensures Quiet(HandleFds(l, r, io, a)) && Evolves(l, HandleFds(l, r, io, a))
  {
    hide Watch, Process, Body, ReadPending, WritePass, AudioPass, Resting, StillUp;
    LivePipe(l);
    var l1 := if l.ws.socket >= 0 && r.read then ReadPending(l, io.incoming, a) else l;
    if l.ws.socket >= 0 && r.read {
      ReadPendingKeeps(l, io.incoming, a);
      StillUpFacts(l.ws, l1.ws);
    }
    LivePipe(l1);
    var (l2, on) := if l1.ws.socket >= 0 && r.write then WritePass(l1, io, a) else (l1, true);
    if l1.ws.socket >= 0 && r.write { WritePassKeeps(l1, io, a); }
    LivePipe(l2);
    if on && l2.ws.pipe >= 0 && r.audio {
      AudioPassKeeps(l2, io, a);
    }
  }

  lemma StillUpFacts(a: Ws, b: Ws)
    requires Downhill(a.state) && StillUp(a, b)
    ensures Downhill(b.state) && (Up(b.state) ==> Up(a.state) && b.tx == a.tx)
    ensures PhaseOf(b.state) == Live ==> PhaseOf(a.state) == Live
  {}
}
