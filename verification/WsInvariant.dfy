/** What holds of a connection before and after every dispatched event. */
module WsInvariant {
  import opened Types
  import opened Monitor
  import opened WsTables
  import opened WsSpec

  function Seen(l: Link): Watcher { Watch(l.ws.log) }

  predicate Linked(s: State) { s.Connected? || s.Established? || s.Streaming? || s.TextOnlySession? }

  predicate Up(s: State) { s.Established? || s.Streaming? || s.TextOnlySession? }

  /** The phase a log must be in for a machine that rests in s. */
  function PhaseOf(s: State): Phase
  {
    match s
    case Disconnected => Idle
    case Established | Disconnecting => Ended
    case _ => Live
  }

  // ---- what ties the call log to the fields ----

  predicate LogTied(l: Link, ph: Phase)
  {
    var m := Seen(l);
    && m.ok
    && m.phase == ph
    && (m.begun <==> l.ws.state.Streaming? || l.ws.state.TextOnlySession?)
    && m.fds == Held(l.ws.pipe)
    && m.timers == Held(l.ws.timer)
    && (ph != Idle ==> m.armed == (if l.ws.tx.kwdNotified then None else Some(l.ws.tx.kwdBytes)))
    && m.unsent == 0 && l.ws.tx.txd == In32(m.counted) && m.counted <= m.bytesRead
    && m.blocked == l.ws.tx.pending
    && (!l.ws.state.Established? && !l.ws.state.Disconnecting? ==> Tally(m) == l.ws.tx.retries)
  }

  // ---- what ties the fields to the state ----

  predicate FieldsTied(w: Ws)
  {
    && (w.timer >= 0 ==> StopsTimer(w.state))
    && (w.state.Connected? || w.state.Established? || w.state.ConnectionRetry? ==> w.timer >= 0)
    && (w.socket >= 0 ==> Up(w.state) || w.state.Connected? || w.state.Disconnecting?)
    && (Up(w.state) ==> w.socket >= 0)
    && (Linked(w.state) || (w.state.Connecting? && w.timer >= 0) ==> w.conn)
    && (w.tx.pending ==> Up(w.state) || w.state.Disconnecting?)
    && |w.msgs| <= MSG_OUT_MAX
    && (w.msgs != [] ==> Up(w.state) || w.state.Disconnecting?)
  }

  // ---- what ties the connection to the session record of its group ----

  predicate SessionTied(l: Link, ph: Phase)
  {
    && (l.sess.firstStreamReq <==> l.sess.pipeFd < 0)
    && (ph != Idle ==> l.sess.src == l.ws.src < SRC_INVALID)
    && (ph == Idle ==> l.ws.src == SRC_INVALID)
    && (ph == Live ==> l.sess.pipeFd == l.ws.pipe >= 0)
    && (ph != Live ==> l.ws.pipe < 0)
    && (ph == Ended ==> l.sess.firstStreamReq)
  }

  /** Everything but the queue; ph is the phase of the session, which in Disconnected is Idle except
      while a begin event is queued. */
  predicate Body(l: Link, ph: Phase)
  {
    && (ph == PhaseOf(l.ws.state) || (l.ws.state.Disconnected? && ph == Live))
    && LogTied(l, ph)
    && FieldsTied(l.ws)
    && SessionTied(l, ph)
  }

  // ---- the queue ----

  function Last(q: seq<Event>): Event
    requires q != []
  {
    q[|q| - 1]
  }

  predicate Starting(w: Ws) { w.state.Disconnected? && w.queue != [] && IsBegin(Last(w.queue)) }

  /** States in which a handler posts the given internal event. */
  predicate PostedIn(w: Ws, e: Event)
  {
    match e
    case DisconnectedEv => w.state.Disconnecting?
    case ConnectedEv => w.state.Connecting? && w.timer >= 0
    case RetryEv | ConnectTimeout => w.state.Connecting?
    case EstablishedEv => w.state.Connected? && w.socket >= 0
    case EstablishTimeout => w.state.Connected? && w.socket < 0
    case TextSessionSuccess => w.state.Streaming?
    case _ => false
  }

  /** A queued event that can be dispatched next. */
  predicate Fits(w: Ws, e: Event)
  {
    && (IsInternal(e) ==> PostedIn(w, e))
    && (IsExternal(e) ==> !w.state.Disconnecting?
                          && (w.state.Connecting? ==> w.timer >= 0)
                          && (w.state.Connected? ==> w.socket < 0)
                          && (IsBegin(e) ==> w.state.Disconnected?))
    && !e.XrsrError?
  }

  predicate RetriesBounded(w: Ws, e: Event)
  {
    w.state.Established? || w.state.Disconnecting? || w.tx.retries <= WRITE_PENDING_RETRY_MAX
    || (w.tx.retries == WRITE_PENDING_RETRY_MAX + 1 && e.WsError? && Up(w.state))
  }

  /** At rest: nothing queued but possibly one late EOS_PIPE, and nothing half done. */
  predicate Resting(w: Ws)
  {
    && (w.queue == [] || w.queue == [EosPipe])
    && !w.state.Disconnecting?
    && (w.state.Connecting? ==> w.timer >= 0)
    && (w.state.Connected? ==> w.socket < 0)
    && (!w.state.Established? ==> w.tx.retries <= WRITE_PENDING_RETRY_MAX)
  }

  /** Between two dispatches: at rest, or one event to go, possibly behind the late EOS_PIPE. */
  predicate QueueTied(w: Ws)
  {
    || Resting(w)
    || (&& w.queue != []
        && Fits(w, Last(w.queue))
        && RetriesBounded(w, Last(w.queue))
        && (|w.queue| == 1 || (|w.queue| == 2 && w.queue[0].EosPipe? && IsExternal(w.queue[1]))))
  }

  function SessionPhase(w: Ws): Phase { if Starting(w) then Live else PhaseOf(w.state) }

  /** The invariant of a processing run. */
  predicate Inv(l: Link) { Body(l, SessionPhase(l.ws)) && QueueTied(l.ws) }

  /** The invariant between main-loop steps. */
  predicate Quiet(l: Link) { Body(l, PhaseOf(l.ws.state)) && Resting(l.ws) }

  // ---- how the elementary effects move the watcher ----

  lemma SeenEmit(l: Link, c: Call)
    ensures Seen(Emit(l, c)) == Observe(Seen(l), c)
  {
    WatchAppend(l.ws.log, c);
  }

  /** One more stream end that the application hears of without a begin, or none. */
  function Unheard(w: Watcher, why: StreamWhy): nat { if !w.begun && why != DidNotBegin then 1 else 0 }

  lemma SeenStreamEnd(l: Link)
    requires l.ws.src < SRC_INVALID && l.ws.pipe >= 0
    requires var m := Seen(l);
             m.ok && m.phase == Live && m.fds == {l.ws.pipe} && (m.begun ==> l.ws.streamWhy != DidNotBegin)
    ensures Seen(StreamEnd(l)) == Seen(l).(phase := Ended, begun := false, fds := {},
                                           unbegun := Seen(l).unbegun + Unheard(Seen(l), l.ws.streamWhy))
    ensures StreamEnd(l) == Link(l.ws.(pipe := NONE, log := StreamEnd(l).ws.log),
                                 l.sess.(pipeFd := NONE, firstStreamReq := true))
  {
    var a := SpeechStreamEnd(l, l.ws.streamWhy);
    WatchAppend(l.ws.log, StreamEnded(l.ws.streamWhy));
    WatchAppend(a.ws.log, PipeClosed(a.ws.pipe));
    assert {l.ws.pipe} - {l.ws.pipe} == {};
  }

  lemma SeenStopTimer(l: Link)
    requires Seen(l).ok && Seen(l).timers == Held(l.ws.timer)
    ensures Seen(StopTimer(l)) == Seen(l).(timers := {})
    ensures StopTimer(l) == l.(ws := l.ws.(timer := if l.ws.timer >= 0 then NONE else l.ws.timer,
                                           log := StopTimer(l).ws.log))
  {
    if l.ws.timer >= 0 {
      SeenEmit(l, TimerRemoved(l.ws.timer));
      assert {l.ws.timer} - {l.ws.timer} == {};
    }
    hide Watch;
  }

  lemma SeenInsertTimer(l: Link, env: Env, at: nat)
    requires Seen(l).ok && Seen(l).timers == {}
    ensures Seen(InsertTimer(l, env, at)) == Seen(l).(timers := {env.timerId})
    ensures InsertTimer(l, env, at) == l.(ws := l.ws.(timer := env.timerId, log := InsertTimer(l, env, at).ws.log))
  {
    WatchAppend(l.ws.log, TimerInserted(env.timerId, at));
    assert {} + {env.timerId as int} == {env.timerId as int};
  }

  lemma SeenUpdateTimer(l: Link, at: nat)
    requires Seen(l).ok && Seen(l).timers == Held(l.ws.timer)
    ensures Seen(UpdateTimer(l, at)) == Seen(l)
    ensures UpdateTimer(l, at) == l.(ws := l.ws.(log := UpdateTimer(l, at).ws.log))
  {
    WatchAppend(l.ws.log, TimerUpdated(l.ws.timer, at));
  }

  // ---- leaving a state ----

  function Plan(l: Link, e: Event): Leaving
  {
    LeavingFor(l.ws.state, e, l.ws.closeStatus, Leaving(l.ws.streamWhy, l.ws.sessionWhy, false))
  }

  /** Every table entry out of a live state ends the stream, unless the target is live too. */
  lemma LeavingEndsStream(s: State, e: Event, closeStatus: int, prior: Leaving)
    requires Next(s, e).Some? && Next(s, e).value != s && !e.XrsrError? && !prior.endsStream
    ensures var d := LeavingFor(s, e, closeStatus, prior);
            var t := Next(s, e).value;
            && (d.endsStream <==> PhaseOf(s) == Live && PhaseOf(t) != Live)
            && (s.Streaming? || s.TextOnlySession? ==> d.endsStream ==> d.streamWhy != DidNotBegin)
  {}

  /** The exit handler, given what it is about to decide. */
  lemma ExitTied(l: Link, e: Event, d: Leaving)
    requires d == Plan(l, e)
    requires Seen(l).ok && Seen(l).timers == Held(l.ws.timer)
    requires d.endsStream ==>
      && l.ws.src < SRC_INVALID && l.ws.pipe >= 0
      && Seen(l).phase == Live && Seen(l).fds == {l.ws.pipe} && (Seen(l).begun ==> d.streamWhy != DidNotBegin)
    ensures var r := Exit(l, e);
            && r.ws == l.ws.(streamWhy := d.streamWhy, sessionWhy := d.sessionWhy,
                             pipe := if d.endsStream then NONE else l.ws.pipe,
                             timer := if StopsTimer(l.ws.state) && l.ws.timer >= 0 then NONE else l.ws.timer,
                             log := r.ws.log)
            && r.sess == (if d.endsStream then l.sess.(pipeFd := NONE, firstStreamReq := true) else l.sess)
            && Seen(r) == Seen(l).(phase := if d.endsStream then Ended else Seen(l).phase,
                                   begun := !d.endsStream && Seen(l).begun,
                                   fds := if d.endsStream then {} else Seen(l).fds,
                                   unbegun := Seen(l).unbegun
                                              + (if d.endsStream then Unheard(Seen(l), d.streamWhy) else 0),
                                   timers := if StopsTimer(l.ws.state) then {} else Seen(l).timers)
  {
    hide StreamEnd, StopTimer, LeavingFor, Seen, Unheard, Held;
    var m := Reasons(l, d.streamWhy, d.sessionWhy);
    SeenOfLog(l, m);
    if d.endsStream {
      SeenStreamEnd(m);
      m := StreamEnd(m);
    }
    if StopsTimer(l.ws.state) { SeenStopTimer(m); }
  }

  lemma SeenOfLog(a: Link, b: Link)
    requires a.ws.log == b.ws.log
    ensures Seen(a) == Seen(b)
  {}

  // ---- entering a state ----

  function CrossingPhase(s: State): Phase { if s.Disconnected? then Ended else PhaseOf(s) }

  /** Between the exit of the old state and the entry of the new one: the log, ... */
  predicate CrossingLog(l: Link)
  {
    var m := Seen(l);
    && m.ok && m.phase == CrossingPhase(l.ws.state)
    && (m.begun <==> l.ws.state.TextOnlySession?)
    && m.fds == Held(l.ws.pipe) && m.timers == {}
    && m.armed == (if l.ws.tx.kwdNotified then None else Some(l.ws.tx.kwdBytes))
    && m.unsent == 0 && l.ws.tx.txd == In32(m.counted) && m.counted <= m.bytesRead
    && m.blocked == l.ws.tx.pending
    && (m.phase == Live ==> Tally(m) == l.ws.tx.retries)
  }

  /** ... the fields and the session record. */
  predicate CrossingFields(l: Link)
  {
    var s := l.ws.state;
    && l.ws.timer < 0
    && (l.ws.socket >= 0 ==> Up(s) || s.Disconnecting? || s.Disconnected?)
    && (Up(s) ==> l.ws.socket >= 0)
    && (Linked(s) ==> l.ws.conn)
    && ((l.ws.tx.pending || l.ws.msgs != []) ==> Up(s) || s.Disconnecting? || s.Disconnected?)
    && |l.ws.msgs| <= MSG_OUT_MAX
    && SessionTied(l, CrossingPhase(s))
  }

  predicate Crossing(l: Link) { CrossingLog(l) && CrossingFields(l) }

  /** How the states of a session follow each other. */
  lemma Moves(s: State, e: Event)
    requires Next(s, e).Some? && Next(s, e).value != s && !e.XrsrError?
    ensures var t := Next(s, e).value;
            && (Up(t) ==> Up(s) || (s.Connected? && e.EstablishedEv? && t.Streaming?))
            && (Linked(t) ==> Linked(s) || (s.Connecting? && e.ConnectedEv?))
            && (t.Disconnecting? ==> Up(s) || s.Connected?)
            && (t.Established? ==> s.Streaming? || s.TextOnlySession?)
            && (t.TextOnlySession? <==> s.Streaming? && e.TextSessionSuccess?)
            && (t.Streaming? ==> s.Connected?)
            && (s.Connected? && PhaseOf(t) == Live ==> t.Streaming?)
            && (Up(s) && PhaseOf(t) == Live ==> t.TextOnlySession?)
            && (s.Disconnected? <==> IsBegin(e))
            && (PhaseOf(t) == Live ==> PhaseOf(s) == Live || s.Disconnected?)
            && (s.Disconnected? ==> PhaseOf(t) == Live)
  {}

  predicate Leavable(l: Link, e: Event, ph: Phase)
  {
    && Body(l, ph) && Fits(l.ws, e)
    && Next(l.ws.state, e).Some? && Next(l.ws.state, e).value != l.ws.state
    && (l.ws.state.Disconnected? ==> ph == Live)
  }

  /** The facts about a move that ExitTied asks for. */
  lemma PlanTied(l: Link, e: Event, ph: Phase)
    requires Leavable(l, e, ph)
    ensures Plan(l, e).endsStream <==> ph == Live && PhaseOf(Next(l.ws.state, e).value) != Live
    ensures Plan(l, e).endsStream && Seen(l).begun ==> Plan(l, e).streamWhy != DidNotBegin
  {
    LeavingEndsStream(l.ws.state, e, l.ws.closeStatus, Leaving(l.ws.streamWhy, l.ws.sessionWhy, false));
    Moves(l.ws.state, e);
    hide Watch, LeavingFor, Next;
  }

  lemma LeaveLogTied(l: Link, e: Event, ph: Phase)
    requires Leavable(l, e, ph)
    ensures CrossingLog(Leave(l, e, Next(l.ws.state, e).value))
  {
    hide Watch, StreamEnd, StopTimer, LeavingFor, Next, Plan;
    PlanTied(l, e, ph);
    Moves(l.ws.state, e);
    ExitTied(l, e, Plan(l, e));
    hide Exit;
  }

  lemma LeaveFieldsTied(l: Link, e: Event, ph: Phase)
    requires Leavable(l, e, ph)
    ensures CrossingFields(Leave(l, e, Next(l.ws.state, e).value))
  {
    hide Watch, StreamEnd, StopTimer, LeavingFor, Next, Plan;
    PlanTied(l, e, ph);
    Moves(l.ws.state, e);
    ExitTied(l, e, Plan(l, e));
    hide Exit;
  }

  lemma LeaveTied(l: Link, e: Event, ph: Phase)
    requires Leavable(l, e, ph)
    ensures Crossing(Leave(l, e, Next(l.ws.state, e).value))
  {
    hide Leave, CrossingLog, CrossingFields, Next, Body, Fits;
    LeaveLogTied(l, e, ph);
    LeaveFieldsTied(l, e, ph);
  }

  lemma EnterDisconnectedTied(l: Link, resume: bool)
    requires Crossing(l) && l.ws.state.Disconnected?
    ensures Body(EnterDisconnected(l, resume), Idle)
    ensures EnterDisconnected(l, resume).sess == l.sess.(src := SRC_INVALID)
  {
    hide Watch;
    var a := Emit(l, DisconnectNotified(l.ws.sessionWhy));
    SeenEmit(l, DisconnectNotified(l.ws.sessionWhy));
    var b := a.(ws := a.ws.(resume := resume));
    SeenEmit(b, SessionEnded(l.ws.sessionWhy));
  }

  /** A record that differs from l only in fields the invariant does not look at, with a timer inserted. */
  lemma InsertTimerTied(l: Link, w: Ws, env: Env, at: nat)
    requires Crossing(l) && StopsTimer(l.ws.state)
    requires w == l.ws.(conn := w.conn, wait := w.wait, retryCnt := w.retryCnt) && (l.ws.conn ==> w.conn)
    requires l.ws.state.Connecting? ==> w.conn
    ensures Body(InsertTimer(l.(ws := w), env, at), PhaseOf(l.ws.state))
  {
    hide Watch;
    SeenInsertTimer(l.(ws := w), env, at);
    hide InsertTimer;
  }

  lemma EnterWithTimerTied(l: Link, env: Env)
    requires Crossing(l) && StopsTimer(l.ws.state)
    ensures Body(Enter(l, env), PhaseOf(l.ws.state))
  {
    hide Watch, InsertTimer, EnterDisconnected, RetryDelay, Min, ToInt32;
    match l.ws.state
    case Connecting =>
      if env.connectOk { InsertTimerTied(l, l.ws.(conn := true), env, env.now + l.ws.cfg.interval); }
    case Connected =>
      InsertTimerTied(l, l.ws.(wait := ToInt32(l.ws.cfg.timeoutConnect)), env, env.now + l.ws.cfg.interval);
    case Established =>
      InsertTimerTied(l, l.ws, env, env.now + l.ws.cfg.timeoutInactivity);
    case ConnectionRetry =>
      var n := (l.ws.retryCnt + 1) % 0x1_0000_0000;
      InsertTimerTied(l, l.ws.(retryCnt := n), env,
                      Min(env.now + RetryDelay(l.ws.cfg.backoff, n, env.rnd), l.ws.deadline));
  }

  lemma EnterPlainTied(l: Link, env: Env)
    requires Crossing(l) && !StopsTimer(l.ws.state) && !l.ws.state.Disconnected?
    ensures Body(Enter(l, env), PhaseOf(l.ws.state))
  {
    hide Watch, InsertTimer, EnterDisconnected, RetryDelay, Min, ToInt32;
    SeenEmit(l, ConnectNotified);
    SeenEmit(Emit(l, ConnectNotified), StreamBegan);
    SeenEmit(l, ConnectionClosed);
  }

  lemma InternalTied(l: Link, e: Event, env: Env)
    requires Body(l, PhaseOf(l.ws.state)) && Next(l.ws.state, e) == Some(l.ws.state)
    ensures Body(Internal(l, e, env), PhaseOf(l.ws.state))
  {
    hide Watch, ToInt32;
    var w := l.ws.(wait := ToInt32(l.ws.wait - l.ws.cfg.interval));
    SeenUpdateTimer(l.(ws := w), env.now + l.ws.cfg.interval);
    SeenUpdateTimer(l, env.now + l.ws.cfg.timeoutInactivity);
    hide UpdateTimer;
  }

  // ---- dispatching one event ----

  /** The phase after a dispatch: a begin event still waiting keeps a disconnected session live. */
  function PhaseAfter(before: State, after: State, ph: Phase): Phase
  {
    if before.Disconnected? && after.Disconnected? then ph else PhaseOf(after)
  }

  predicate Dispatchable(l: Link, e: Event, ph: Phase)
  {
    && Body(l, ph) && Fits(l.ws, e)
    && (IsBegin(e) ==> ph == Live)
    && (l.ws.state.Disconnected? && ph == Live ==> IsBegin(e) || e.EosPipe?)
  }

  lemma EffectTied(l: Link, e: Event, env: Env, ph: Phase)
    requires Dispatchable(l, e, ph)
    ensures Body(Effect(l, e, env), PhaseAfter(l.ws.state, Effect(l, e, env).ws.state, ph))
  {
    hide Watch, Leave, Enter, Internal, LogTied, FieldsTied, SessionTied, Crossing;
    var n := Next(l.ws.state, e);
    if n.Some? {
      if n.value == l.ws.state {
        if !l.ws.state.Disconnected? { InternalTied(l, e, env); }
        DisconnectedIsStill(l, e, env);
      } else {
        Moves(l.ws.state, e);
        LeaveTied(l, e, ph);
        EnterAnyTied(Leave(l, e, n.value), env);
      }
    }
  }

  lemma DisconnectedIsStill(l: Link, e: Event, env: Env)
    ensures l.ws.state.Disconnected? ==> Internal(l, e, env) == l
  {}

  lemma EnterAnyTied(l: Link, env: Env)
    requires Crossing(l)
    ensures Body(Enter(l, env), PhaseOf(l.ws.state))
  {
    if l.ws.state.Disconnected? {
      EnterDisconnectedTied(l, env.resume);
      hide Body, Crossing, EnterDisconnected;
    } else if StopsTimer(l.ws.state) {
      EnterWithTimerTied(l, env);
      hide Body, Crossing, Enter;
    } else {
      EnterPlainTied(l, env);
      hide Body, Crossing, Enter;
    }
  }

  /** A handler that leaves something half done posts the event that finishes it, and posts nothing else. */
  predicate PostsFinish(r: Ws, p: Option<Event>)
  {
    && (p.Some? ==> PostedIn(r, p.value))
    && (p.None? ==> !r.state.Disconnecting?
                    && (r.state.Connecting? ==> r.timer >= 0)
                    && (r.state.Connected? ==> r.socket < 0))
  }

  lemma EnterPostsTied(l: Link, env: Env)
    requires CrossingFields(l)
    ensures PostsFinish(Enter(l, env).ws, EnterPosts(l.ws, env))
  {
    hide Watch, UpdateTimer, EnterDisconnected, RetryDelay, Min, SessionTied;
    if l.ws.state.Connected? { assert Enter(l, env).ws.socket < 0; }
  }

  lemma InternalPostsTied(l: Link, e: Event, env: Env)
    requires FieldsTied(l.ws) && Fits(l.ws, e) && Next(l.ws.state, e) == Some(l.ws.state)
    ensures PostsFinish(Internal(l, e, env).ws, InternalPosts(l.ws, e, env))
  {
    hide Watch, UpdateTimer, ToInt32;
  }

  lemma PostsTied(l: Link, e: Event, env: Env, ph: Phase)
    requires Dispatchable(l, e, ph)
    ensures PostsFinish(Effect(l, e, env).ws, Posts(l, e, env))
    ensures e.EosPipe? ==> Posts(l, e, env).None?
  {
    hide Watch, Leave, Enter, Internal, InternalPosts, LogTied, SessionTied, PostsFinish, CrossingLog, CrossingFields;
    var n := Next(l.ws.state, e);
    if n.Some? {
      if n.value == l.ws.state {
        InternalPostsTied(l, e, env);
        EosPipePostsNothing(l, env);
      } else {
        LeaveTied(l, e, ph);
        EnterPostsTied(Leave(l, e, n.value), env);
      }
    } else {
      DroppedPostsTied(l.ws, e);
    }
  }

  lemma EosPipePostsNothing(l: Link, env: Env)
    ensures InternalPosts(l.ws, EosPipe, env).None?
  {}

  lemma DroppedPostsTied(w: Ws, e: Event)
    requires Fits(w, e) && Next(w.state, e).None?
    ensures PostsFinish(w, None)
  {}

  // ---- one step and a whole run ----

  /** No dispatch touches the flush retries, except that entering Disconnected clears them. */
  lemma RetriesKept(l: Link, e: Event, env: Env)
    ensures var r := Effect(l, e, env).ws;
            r.tx.retries == (if r.state.Disconnected? && !l.ws.state.Disconnected? then 0 else l.ws.tx.retries)
  {
    hide Watch, Next, Leave, Enter, Internal;
  }

  lemma HeadFits(l: Link)
    requires Inv(l) && l.ws.queue != []
    ensures Dispatchable(Pop(l), l.ws.queue[0], SessionPhase(l.ws))
  {
    hide Watch;
  }

  /** What one dispatch does to the fields the queue invariant reads. */
  predicate Moved(w: Ws, e: Event, r: Ws)
  {
    && r.state == (if Next(w.state, e).Some? then Next(w.state, e).value else w.state)
    && (e.EosPipe? && r.state == w.state ==> r == w)
    && r.tx.retries == (if r.state.Disconnected? && !w.state.Disconnected? then 0 else w.tx.retries)
  }

  lemma QueueOfOne(w: Ws, r: Ws, posted: Option<Event>)
    requires QueueTied(w) && |w.queue| == 1
    requires Moved(w.(queue := []), w.queue[0], r) && PostsFinish(r, posted)
    ensures var q := if posted.Some? then [posted.value] else [];
            var after := r.(queue := q);
            QueueTied(after) && SessionPhase(after) == PhaseAfter(w.state, r.state, SessionPhase(w))
  {}

  lemma QueueOfTwo(w: Ws, r: Ws)
    requires QueueTied(w) && |w.queue| == 2
    requires Moved(w.(queue := w.queue[1..]), w.queue[0], r) && r.queue == w.queue[1..]
    ensures QueueTied(r) && SessionPhase(r) == PhaseAfter(w.state, r.state, SessionPhase(w))
  {
    var e := w.queue[1];
    assert Last(w.queue) == e && Last(r.queue) == e;
    assert Fits(w, e) ==> Fits(r, e);
  }

  lemma BodyIgnoresQueue(a: Link, b: Link, ph: Phase)
    requires Body(a, ph) && b == a.(ws := a.ws.(queue := b.ws.queue))
    ensures Body(b, ph)
  {
    hide Watch;
  }

  /** Where one dispatch can lead, as far as the queue invariant needs it. */
  lemma StepTargets(l: Link, e: Event, env: Env)
    ensures var t := Effect(l, e, env).ws.state;
            && t == (if Next(l.ws.state, e).Some? then Next(l.ws.state, e).value else l.ws.state)
            && (IsBegin(e) && l.ws.state.Disconnected? ==> !t.Disconnected?)
            && (e.EosPipe? ==>
                  t == (if l.ws.state.Streaming? || l.ws.state.TextOnlySession? then Established else l.ws.state))
            && (e.EosPipe? && t == l.ws.state ==> Effect(l, e, env) == l)
            && (e.WsError? && Up(l.ws.state) ==> t.Disconnecting? || t.Established?)
  {
    hide Watch, Enter, Leave;
  }

  lemma MovedTied(l: Link, e: Event, env: Env)
    ensures Moved(l.ws, e, Effect(l, e, env).ws)
  {
    RetriesKept(l, e, env);
    StepTargets(l, e, env);
    hide Watch, Effect, Next;
  }

  /** The queue and the phase after a dispatch, whatever the queue was. */
  lemma QueueAfter(w: Ws, r: Ws, posted: Option<Event>, q: seq<Event>)
    requires QueueTied(w) && w.queue != []
    requires Moved(w.(queue := w.queue[1..]), w.queue[0], r) && PostsFinish(r, posted) && r.queue == w.queue[1..]
    requires w.queue[0].EosPipe? ==> posted.None?
    requires q == r.queue + (if posted.Some? then [posted.value] else [])
    ensures QueueTied(r.(queue := q))
    ensures SessionPhase(r.(queue := q)) == PhaseAfter(w.state, r.state, SessionPhase(w))
  {
    assert |w.queue| == 1 || |w.queue| == 2;
    if |w.queue| == 2 {
      assert q == r.queue && r.(queue := q) == r;
      QueueOfTwo(w, r);
    } else {
      assert w.queue[1..] == [];
      QueueOfOne(w, r, posted);
    }
    hide Moved, Fits, PostsFinish, Next;
  }

  /** The invariant of a processing run is kept by every dispatch. */
  lemma StepKeeps(l: Link, env: Env)
    requires Inv(l) && l.ws.queue != []
    ensures Inv(Step(l, env))
  {
    var p, e, ph := Pop(l), l.ws.queue[0], SessionPhase(l.ws);
    HeadFits(l);
    EffectTied(p, e, env, ph);
    PostsTied(p, e, env, ph);
    MovedTied(p, e, env);
    hide Watch, Body, Effect, Posts, PostsFinish, Moved, Fits, Dispatchable, Next, RetriesBounded, PhaseOf;
    var r := Effect(p, e, env);
    var s := Step(l, env);
    assert |l.ws.queue| <= 2;
    QueueAfter(l.ws, r.ws, Posts(p, e, env), s.ws.queue);
    assert s.ws == r.ws.(queue := s.ws.queue);
    BodyIgnoresQueue(r, s, PhaseAfter(p.ws.state, r.ws.state, ph));
    hide QueueTied, SessionPhase, PhaseAfter, Step;
  }
}
