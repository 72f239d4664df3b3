/** The websocket connection object: its handlers update its fields, the record of its session group and its
    outgoing slots in place, and do to them exactly what the functions of WsSpec and WsIo say. */
module WsConnection {
  import opened Types
  import opened Monitor
  import opened WsTables
  import opened WsSpec
  import opened WsIo
  import opened WsInvariant
  import opened WsRuns
  import opened WsInputs
  import opened WsTimers
  import opened WsFlushes
  import opened WsOutcomes
  import opened WsPasses
  import opened MsgOut
  import opened FdSets

  ghost function NoHandles(l: Link): Link
  {
    l.(ws := l.ws.(socket := NONE, timer := NONE, src := SRC_INVALID))
  }

  ghost function NothingPending(l: Link): Link
  {
    l.(ws := l.ws.(tx := l.ws.tx.(pending := false, retries := 0), resume := true))
  }

  ghost function FirstAttempt(l: Link): Link
  {
    l.(ws := l.ws.(onClose := false, retryCnt := 1, byText := false))
  }

  ghost function Cleared(l: Link): Link { l.(ws := l.ws.(msgs := [])) }

  lemma ResetOf(l: Link)
    ensures Reset(l) == Cleared(ClosePipe(FirstAttempt(NothingPending(NoHandles(l)))))
  {}

  /** Reasons recorded and the stream ended, as leaving on event e asks for. */
  ghost function WithStreamEnded(l: Link, e: Event): Link
  {
    var d := LeavingFor(l.ws.state, e, l.ws.closeStatus, Leaving(l.ws.streamWhy, l.ws.sessionWhy, false));
    var r := Reasons(l, d.streamWhy, d.sessionWhy);
    if d.endsStream then StreamEnd(r) else r
  }

  lemma ExitIs(l: Link, e: Event)
    ensures Exit(l, e) == (if StopsTimer(l.ws.state) then StopTimer(WithStreamEnded(l, e)) else WithStreamEnded(l, e))
    ensures Reasons(l, l.ws.streamWhy, l.ws.sessionWhy) == l
  {
    hide LeavingFor, StopTimer, StreamEnd;
  }

  lemma StreamingLeaving(e: Event, closeStatus: int, p: Leaving)
    requires !p.endsStream
    ensures LeavingFor(Streaming, e, closeStatus, p) ==
            if e.TextSessionSuccess? then p
            else if e.EosPipe? then Leaving(AudioEof, EndOfSpeech, true)
            else if e.TerminateEv? then Leaving(LocalDisconnect, Terminated, true)
            else if e.EstablishTimeout? then Leaving(DidNotBegin, ConnectTimedOut, true)
            else if e.AudioError? then Leaving(AudioReadError, EndOfSpeech, true)
            else if e.WsError? then Leaving(RemoteDisconnect, WsSendError, true)
            else if e.WsClose? then
              Leaving(RemoteDisconnect, if closeStatus != 1000 then UnexpectedRemoteEnd else RemoteEnd, true)
            else p.(endsStream := true)
    ensures LeavingFor(TextOnlySession, e, closeStatus, p) ==
            if e.EosPipe? then Leaving(AudioEof, EndOfSpeech, true)
            else if e.TerminateEv? then Leaving(LocalDisconnect, Terminated, true)
            else if e.EstablishTimeout? then Leaving(DidNotBegin, ConnectTimedOut, true)
            else if e.AudioError? then Leaving(AudioReadError, EndOfSpeech, true)
            else if e.WsError? then Leaving(RemoteDisconnect, WsSendError, true)
            else if e.WsClose? then Leaving(NoStreamReason, EndOfText, true)
            else p.(endsStream := true)
  {}

  lemma QuietExit(l: Link, e: Event)
    requires l.ws.state.Disconnected? || l.ws.state.Disconnecting?
    ensures Exit(l, e) == l
  {}

  /** xrsr_session_t, shared by the connections of one group. */
  class Group {
    var firstStreamReq: bool
    var src: nat
    var pipeFd: int

    ghost function Record(): Session
      reads this
    {
      Session(firstStreamReq, src, pipeFd)
    }

    constructor ()
      ensures firstStreamReq && src == SRC_INVALID && pipeFd == NONE
    {
      firstStreamReq, src, pipeFd := true, SRC_INVALID, NONE;
    }
  }

  lemma PipeNeeded(l: Link, p: PipeAnswer)
    requires l.sess.firstStreamReq
    ensures StreamBegin(l, p).1.None? <==> !p.PipeReady?
  {}

  /** xrsr_state_ws_t. */
  class Connection {
    const group: Group
    const out: MsgSlots

    var state: State
    var events: seq<Event>
    var timerId: int
    var audioSrc: nat
    var audioPipeFdRead: int
    var socket: int
    var connOpen: bool
    var onClose: bool
    var closeStatus: int
    var detectResume: bool
    var retryCnt: nat
    var retryEnd: nat
    var connectWaitTime: int
    var isSessionByText: bool
    var streamTimeMinRxd: bool
    var streamEndReason: StreamWhy
    var sessionEndReason: SessionWhy
    var writePending: bool
    var writeRetries: nat
    var kwdNotified: bool
    var kwdBytes: nat
    var txdBytes: nat
    var cfg: Config
    ghost var log: seq<Call>

    ghost predicate Valid()
      reads this, out, out.slots
    {
      out.Valid()
    }

    ghost function Fields(): Ws
      requires Valid()
      reads this, out, out.slots
    {
      Ws(state, events, timerId, audioSrc, audioPipeFdRead, socket, connOpen, onClose, closeStatus, detectResume,
         retryCnt, retryEnd, connectWaitTime, isSessionByText, streamTimeMinRxd, streamEndReason, sessionEndReason,
         Transmit(writePending, writeRetries, kwdNotified, kwdBytes, txdBytes), out.Contents(), cfg, log)
    }

    /** The connection and its group as values. */
    ghost function Abs(): Link
      requires Valid()
      reads this, group, out, out.slots
    {
      Link(Fields(), group.Record())
    }

    /** xrsr_ws_init. */
    constructor (group: Group, cfg: Config)
      ensures Valid() && fresh(out) && fresh(out.slots) && this.group == group && this.cfg == cfg
      ensures Abs().sess == old(group.Record())
      ensures state.Disconnected? && events == [] && timerId == NONE && audioSrc == SRC_INVALID && socket == NONE
      ensures audioPipeFdRead == NONE && !writePending && writeRetries == 0 && txdBytes == 0 && kwdNotified
      ensures out.Contents() == [] && log == []
    {
      this.group, this.cfg := group, cfg;
      out := new MsgSlots();
      state, events := Disconnected, [];
      timerId, audioSrc, audioPipeFdRead, socket, connOpen := NONE, SRC_INVALID, NONE, NONE, false;
      onClose, closeStatus, detectResume, retryCnt, retryEnd := false, 0, true, 1, 0;
      connectWaitTime, isSessionByText, streamTimeMinRxd := 0, false, false;
      streamEndReason, sessionEndReason := AudioEof, EndOfSpeech;
      writePending, writeRetries, kwdNotified, kwdBytes, txdBytes := false, 0, true, 0, 0;
      log := [];
    }

    // ---- calls down and up ----

    method Enqueue(e: Event)
      requires Valid()
      modifies this`events
      ensures Valid() && Abs() == Post(old(Abs()), e)
    {
      if |events| < EVENTS_MAX { events := events + [e]; }
    }

    method InsertTimerAt(env: Env, at: nat)
      requires Valid()
      modifies this`timerId, this`log
      ensures Valid() && Abs() == InsertTimer(old(Abs()), env, at)
    {
      timerId := env.timerId;
      log := log + [TimerInserted(timerId, at)];
    }

    method UpdateTimerAt(at: nat)
      requires Valid()
      modifies this`log
      ensures Valid() && Abs() == UpdateTimer(old(Abs()), at)
    {
      if timerId >= 0 { log := log + [TimerUpdated(timerId, at)]; }
    }

    method RemoveTimer()
      requires Valid()
      modifies this`timerId, this`log
      ensures Valid() && Abs() == StopTimer(old(Abs()))
    {
      if timerId >= 0 {
        log := log + [TimerRemoved(timerId)];
        timerId := NONE;
      }
    }

    method ClosePipeFd()
      requires Valid()
      modifies this`audioPipeFdRead, this`log
      ensures Valid() && Abs() == ClosePipe(old(Abs()))
    {
      if audioPipeFdRead >= 0 {
        log := log + [PipeClosed(audioPipeFdRead)];
        audioPipeFdRead := NONE;
      }
    }

    /** xrsr_ws_speech_stream_end, with xrsr_speech_stream_end. */
    method EndStream()
      requires Valid()
      modifies this`audioPipeFdRead, this`log, group
      ensures Valid() && Abs() == StreamEnd(old(Abs()))
    {
      if audioSrc < SRC_INVALID {
        group.pipeFd := NONE;
        group.firstStreamReq := true;
        log := log + [StreamEnded(streamEndReason)];
      }
      ClosePipeFd();
    }

    /** xrsr_ws_speech_session_end, with xrsr_session_end. */
    method EndSession(why: SessionWhy)
      requires Valid()
      modifies this`log, group
      ensures Valid() && Abs() == SessionEnd(old(Abs()), why)
    {
      if audioSrc < SRC_INVALID && group.src == audioSrc {
        log := log + [SessionEnded(why)];
        if state.Disconnected? { group.src := SRC_INVALID; }
      }
    }

    method ResetHandles()
      requires Valid()
      modifies this`socket, this`timerId, this`audioSrc
      ensures Valid() && Abs() == NoHandles(old(Abs()))
    {
      socket := NONE;
      timerId := NONE;
      audioSrc := SRC_INVALID;
    }

    method ResetTransmit()
      requires Valid()
      modifies this`writePending, this`writeRetries, this`detectResume
      ensures Valid() && Abs() == NothingPending(old(Abs()))
    {
      writePending := false;
      writeRetries := 0;
      detectResume := true;
    }

    method ResetAttempt()
      requires Valid()
      modifies this`onClose, this`retryCnt, this`isSessionByText
      ensures Valid() && Abs() == FirstAttempt(old(Abs()))
    {
      onClose := false;
      retryCnt := 1;
      isSessionByText := false;
    }

    /** xrsr_ws_reset. */
    method ResetFields()
      requires Valid()
      modifies this, out`count, out.slots
      ensures Valid() && Abs() == Reset(old(Abs()))
    {
      hide Reset, ClosePipe, Abs, NoHandles, NothingPending, FirstAttempt, Cleared;
      ResetOf(Abs());
      ResetHandles();
      ResetTransmit();
      ResetAttempt();
      ClosePipeFd();
      ClearSlots();
    }

    method ClearSlots()
      requires Valid()
      modifies out`count, out.slots
      ensures Valid() && Abs() == Cleared(old(Abs()))
    {
      out.Clear();
    }

    // ---- leaving a state ----

    method Record(stream: StreamWhy, session: SessionWhy)
      requires Valid()
      modifies this`streamEndReason, this`sessionEndReason
      ensures Valid() && Abs() == Reasons(old(Abs()), stream, session)
    {
      streamEndReason, sessionEndReason := stream, session;
    }

    method ExitBuffering(e: Event)
      requires Valid() && state.Buffering?
      modifies this, group
      ensures Valid() && Abs() == Exit(old(Abs()), e)
    {
      hide Reasons, StreamEnd, StopTimer, Exit;
      ghost var l := Abs();
      ExitIs(l, e);
      var stream, session, ends := streamEndReason, sessionEndReason, false;
      if e.EosEv? {
        stream, session, ends := AudioEof, AudioDurationError, true;
      } else if e.TerminateEv? {
        stream, session, ends := DidNotBegin, Terminated, true;
      }
      Record(stream, session);
      if ends { EndStream(); }
      assert Abs() == WithStreamEnded(l, e);
    }

    method ExitConnecting(e: Event)
      requires Valid() && state.Connecting?
      modifies this, group
      ensures Valid() && Abs() == Exit(old(Abs()), e)
    {
      hide Reasons, StreamEnd, StopTimer, Exit;
      ghost var l := Abs();
      ExitIs(l, e);
      var stream, session, ends := streamEndReason, sessionEndReason, false;
      if e.ConnectTimeout? {
        stream, session, ends := DidNotBegin, ConnectFailure, true;
      } else if e.TerminateEv? {
        stream, session, ends := DidNotBegin, Terminated, true;
      }
      Record(stream, session);
      if ends { EndStream(); }
      assert Abs() == WithStreamEnded(l, e);
      RemoveTimer();
    }

    method ExitConnected(e: Event)
      requires Valid() && state.Connected?
      modifies this, group
      ensures Valid() && Abs() == Exit(old(Abs()), e)
    {
      hide Reasons, StreamEnd, StopTimer, Exit;
      ghost var l := Abs();
      ExitIs(l, e);
      var stream, session, ends := streamEndReason, sessionEndReason, false;
      if e.WsClose? {
        stream, session, ends := RemoteDisconnect, ConnectFailure, true;
      } else if e.EstablishTimeout? {
        stream, session, ends := DidNotBegin, ConnectTimedOut, true;
      } else if e.TerminateEv? {
        stream, session, ends := DidNotBegin, Terminated, true;
      }
      Record(stream, session);
      if ends { EndStream(); }
      assert Abs() == WithStreamEnded(l, e);
      RemoveTimer();
    }

    method ExitEstablished(e: Event)
      requires Valid() && state.Established?
      modifies this, group
      ensures Valid() && Abs() == Exit(old(Abs()), e)
    {
      hide Reasons, StreamEnd, StopTimer, Exit;
      ghost var l := Abs();
      ExitIs(l, e);
      var session := sessionEndReason;
      if e.AppClose? {
        session := EndOfSpeech;
      } else if e.TerminateEv? {
        session := Terminated;
      } else if e.TimeoutEv? {
        session := SessionTimedOut;
      } else if e.WsClose? {
        session := EndOfSpeech;
      }
      Record(streamEndReason, session);
      assert Abs() == WithStreamEnded(l, e);
      RemoveTimer();
    }

    method ExitStreaming(e: Event)
      requires Valid() && state.Streaming?
      modifies this, group
      ensures Valid() && Abs() == Exit(old(Abs()), e)
    {
      hide Reasons, StreamEnd, StopTimer, Exit, LeavingFor;
      ghost var l := Abs();
      StreamingLeaving(e, closeStatus, Leaving(streamEndReason, sessionEndReason, false));
      ExitIs(l, e);
      var stream, session := streamEndReason, sessionEndReason;
      if e.EosPipe? {
        stream, session := AudioEof, EndOfSpeech;
      } else if e.TerminateEv? {
        stream, session := LocalDisconnect, Terminated;
      } else if e.EstablishTimeout? {
        stream, session := DidNotBegin, ConnectTimedOut;
      } else if e.AudioError? {
        stream, session := AudioReadError, EndOfSpeech;
      } else if e.WsError? {
        stream, session := RemoteDisconnect, WsSendError;
      } else if e.WsClose? {
        stream := RemoteDisconnect;
        session := if closeStatus != 1000 then UnexpectedRemoteEnd else RemoteEnd;
      }
      Record(stream, session);
      if !e.TextSessionSuccess? { EndStream(); }
      assert Abs() == WithStreamEnded(l, e);
    }

    method ExitTextOnly(e: Event)
      requires Valid() && state.TextOnlySession?
      modifies this, group
      ensures Valid() && Abs() == Exit(old(Abs()), e)
    {
      hide Reasons, StreamEnd, StopTimer, Exit, LeavingFor;
      ghost var l := Abs();
      StreamingLeaving(e, closeStatus, Leaving(streamEndReason, sessionEndReason, false));
      ExitIs(l, e);
      var stream, session := streamEndReason, sessionEndReason;
      if e.EosPipe? {
        stream, session := AudioEof, EndOfSpeech;
      } else if e.TerminateEv? {
        stream, session := LocalDisconnect, Terminated;
      } else if e.EstablishTimeout? {
        stream, session := DidNotBegin, ConnectTimedOut;
      } else if e.AudioError? {
        stream, session := AudioReadError, EndOfSpeech;
      } else if e.WsError? {
        stream, session := RemoteDisconnect, WsSendError;
      } else if e.WsClose? {
        stream, session := NoStreamReason, EndOfText;
      }
      Record(stream, session);
      EndStream();
      assert Abs() == WithStreamEnded(l, e);
    }

    method ExitRetry(e: Event)
      requires Valid() && state.ConnectionRetry?
      modifies this, group
      ensures Valid() && Abs() == Exit(old(Abs()), e)
    {
      hide Reasons, StreamEnd, StopTimer, Exit;
      ghost var l := Abs();
      ExitIs(l, e);
      var stream, session, ends := streamEndReason, sessionEndReason, false;
      if e.TerminateEv? {
        stream, session, ends := LocalDisconnect, Terminated, true;
      }
      Record(stream, session);
      if ends { EndStream(); }
      assert Abs() == WithStreamEnded(l, e);
      RemoveTimer();
    }

    /** ACT_EXIT of the current state. */
    method ExitState(e: Event)
      requires Valid()
      modifies this, group
      ensures Valid() && Abs() == Exit(old(Abs()), e)
    {
      hide Exit;
      match state
      case Buffering => ExitBuffering(e);
      case Connecting => ExitConnecting(e);
      case Connected => ExitConnected(e);
      case Established => ExitEstablished(e);
      case Streaming => ExitStreaming(e);
      case TextOnlySession => ExitTextOnly(e);
      case ConnectionRetry => ExitRetry(e);
      case Disconnected => QuietExit(Abs(), e);
      case Disconnecting => QuietExit(Abs(), e);
    }

    // ---- entering a state ----

    method EnterDisconnectedState(resume: bool)
      requires Valid() && state.Disconnected?
      modifies this, group, out`count, out.slots
      ensures Valid() && Abs() == EnterDisconnected(old(Abs()), resume)
    {
      hide SessionEnd, Reset;
      ghost var l := Abs();
      log := log + [DisconnectNotified(sessionEndReason)];
      detectResume := resume;
      ghost var told := Emit(l, DisconnectNotified(l.ws.sessionWhy));
      assert Abs() == told.(ws := told.ws.(resume := resume));
      hide Abs;
      EndSession(sessionEndReason);
      ResetFields();
    }

    method EnterDisconnecting()
      requires Valid() && state.Disconnecting?
      modifies this
      ensures Valid() && Abs() == PostAll(Enter(old(Abs()), QUIET), EnterPosts(old(Abs()).ws, QUIET))
    {
      if connOpen {
        if !onClose { log := log + [ConnectionClosed]; }
        connOpen := false;
      }
      Enqueue(DisconnectedEv);
    }

    /** The branch shared by a failed attempt and an exhausted wait. */
    method GiveUpOrTryAgain(now: nat)
      requires Valid()
      modifies this`events
      ensures Valid() && Abs() == Post(old(Abs()), GiveUpOrRetry(old(Abs()).ws, now))
    {
      if now >= retryEnd {
        Enqueue(ConnectTimeout);
      } else {
        Enqueue(RetryEv);
      }
    }

    method EnterConnecting(env: Env)
      requires Valid() && state.Connecting?
      modifies this
      ensures Valid() && Abs() == PostAll(Enter(old(Abs()), env), EnterPosts(old(Abs()).ws, env))
    {
      connOpen := env.connectOk;
      if !connOpen {
        GiveUpOrTryAgain(env.now);
      } else {
        InsertTimerAt(env, env.now + cfg.interval);
      }
    }

    method EnterConnected(env: Env)
      requires Valid() && state.Connected?
      modifies this
      ensures Valid() && Abs() == PostAll(Enter(old(Abs()), env), EnterPosts(old(Abs()).ws, env))
    {
      InsertTimerAt(env, env.now + cfg.interval);
      connectWaitTime := ToInt32(cfg.timeoutConnect);
    }

    method EnterStreaming(env: Env)
      requires Valid() && state.Streaming?
      modifies this
      ensures Valid() && Abs() == PostAll(Enter(old(Abs()), env), EnterPosts(old(Abs()).ws, env))
    {
      log := log + [ConnectNotified];
      var success := env.handlerOk;
      log := log + [StreamBegan];
      if success && isSessionByText { Enqueue(TextSessionSuccess); }
    }

    method EnterRetry(env: Env)
      requires Valid() && state.ConnectionRetry?
      modifies this
      ensures Valid() && Abs() == PostAll(Enter(old(Abs()), env), EnterPosts(old(Abs()).ws, env))
    {
      retryCnt := (retryCnt + 1) % 0x1_0000_0000;
      var slots := Pow2(retryCnt % 32);
      var delay := (cfg.backoff * (env.rnd % slots)) % 0x1_0000_0000;
      var timeout := env.now + delay;
      if timeout > retryEnd { timeout := retryEnd; }
      InsertTimerAt(env, timeout);
    }

    /** ACT_ENTER of the current state. */
    method EnterState(env: Env)
      requires Valid()
      modifies this, group, out`count, out.slots
      ensures Valid() && Abs() == PostAll(Enter(old(Abs()), env), EnterPosts(old(Abs()).ws, env))
    {
      hide EnterDisconnected, RetryDelay, ToInt32;
      match state
      case Disconnected => EnterDisconnectedState(env.resume);
      case Disconnecting => EnterDisconnecting();
      case Connecting => EnterConnecting(env);
      case Connected => EnterConnected(env);
      case Established => InsertTimerAt(env, env.now + cfg.timeoutInactivity);
      case Streaming => EnterStreaming(env);
      case ConnectionRetry => EnterRetry(env);
      case Buffering =>
      case TextOnlySession =>
    }

    // ---- events a state handles without leaving ----

    /** One more check interval is taken out of the connect budget. */
    method RescheduleCheck(now: nat)
      requires Valid()
      modifies this`connectWaitTime, this`log
      ensures Valid() && Abs() == Reschedule(old(Abs()), now)
    {
      connectWaitTime := ToInt32(connectWaitTime - cfg.interval);
      UpdateTimerAt(now + cfg.interval);
    }

    method CheckConnecting(env: Env)
      requires Valid() && state.Connecting?
      modifies this
      ensures Valid()
      ensures Abs() == PostAll(Internal(old(Abs()), TimeoutEv, env), InternalPosts(old(Abs()).ws, TimeoutEv, env))
    {
      hide Reschedule;
      if !env.connOk {
        if connectWaitTime <= 0 {
          GiveUpOrTryAgain(env.now);
        } else {
          RescheduleCheck(env.now);
        }
      } else {
        Enqueue(ConnectedEv);
      }
    }

    /** xrsr_ws_conn_is_ready. */
    method IsReady(env: Env) returns (ready: bool)
      requires Valid()
      modifies this`socket
      ensures Valid() && ready == (connOpen && env.ready)
      ensures Abs() == old(Abs()).(ws := old(Abs()).ws.(socket := if ready then env.socket else old(socket)))
    {
      ready := connOpen && env.ready;
      if ready { socket := env.socket; }
    }

    method CheckConnected(env: Env)
      requires Valid() && state.Connected?
      modifies this
      ensures Valid()
      ensures Abs() == PostAll(Internal(old(Abs()), TimeoutEv, env), InternalPosts(old(Abs()).ws, TimeoutEv, env))
    {
      hide Reschedule;
      var ready := IsReady(env);
      if !ready {
        if connectWaitTime <= 0 {
          Enqueue(EstablishTimeout);
        } else {
          RescheduleCheck(env.now);
        }
      } else {
        Enqueue(EstablishedEv);
      }
    }

    /** ACT_INTERNAL of the current state. */
    method HandleInternal(e: Event, env: Env)
      requires Valid()
      modifies this
      ensures Valid() && Abs() == PostAll(Internal(old(Abs()), e, env), InternalPosts(old(Abs()).ws, e, env))
    {
      hide Reschedule, UpdateTimer, Post;
      if state.Connecting? && e.TimeoutEv? {
        CheckConnecting(env);
      } else if state.Connected? && e.TimeoutEv? {
        CheckConnected(env);
      } else if state.Established? && e.MsgRecv? {
        UpdateTimerAt(env.now + cfg.timeoutInactivity);
      }
      hide PostAll;
    }

    // ---- the engine ----

    /** ACT_EXIT, the change of state, ACT_ENTER. */
    method Move(e: Event, t: State, env: Env)
      requires Valid()
      modifies this, group, out`count, out.slots
      ensures Valid()
      ensures var left := Leave(old(Abs()), e, t);
              Abs() == PostAll(Enter(left, env), EnterPosts(left.ws, env))
    {
      hide Exit, Enter, EnterPosts, PostAll;
      ExitState(e);
      state := t;
      EnterState(env);
    }

    /** One event against the tables. */
    method DispatchEvent(e: Event, env: Env)
      requires Valid()
      modifies this, group, out`count, out.slots
      ensures Valid() && Abs() == Dispatch(old(Abs()), e, env)
    {
      hide Exit, Enter, Internal, EnterPosts, InternalPosts, Leave;
      var t := Next(state, e);
      hide Next;
      assert t == Next(Abs().ws.state, e) && state == Abs().ws.state;
      hide Abs;
      if t.Some? {
        if t.value == state {
          HandleInternal(e, env);
        } else {
          Move(e, t.value, env);
        }
      }
    }

    /** SmProcessEvents. */
    method ProcessEvents(envs: seq<Env>)
      requires Valid()
      modifies this, group, out`count, out.slots
      ensures Valid() && Abs() == Process(old(Abs()), envs) && events == []
      ensures Inv(old(Abs())) ==> Quiet(Abs())
    {
      hide Dispatch, Inv, Quiet;
      if Inv(Abs()) { ProcessRests(Abs(), envs); }
      var rest := envs;
      while events != []
        invariant Valid() && Process(Abs(), rest) == Process(old(Abs()), envs)
        decreases QueueCost(events)
      {
        ghost var l := Abs();
        var e := events[0];
        events := events[1..];
        assert Abs() == Pop(l);
        StepCost(l, First(rest));
        DispatchEvent(e, First(rest));
        rest := Rest(rest);
      }
    }

    /** xrsr_ws_event from outside the state handlers: from rest to rest, and the session keeps its source and its
        group until it ends. */
    method Raise(e: Event, envs: seq<Env>)
      requires Valid()
      modifies this, group, out`count, out.slots
      ensures Valid() && Abs() == Deliver(old(Abs()), e, envs)
      ensures Quiet(old(Abs())) && IsExternal(e) && !IsBegin(e) ==> Quiet(Abs()) && Evolves(old(Abs()), Abs())
      ensures Quiet(old(Abs())) && IsExternal(e) && !IsBegin(e) && old(events) == [] ==>
                if old(state).Disconnected? then Abs() == old(Abs())
                else Reacts(old(Abs()), Abs(), Reaction(old(Fields()), e, First(envs), First(Rest(envs))))
    {
      hide Process, Post, Quiet, Evolves, Inv, Reacts, Reaction;
      if Quiet(Abs()) && IsExternal(e) && !IsBegin(e) {
        DeliverKeeps(Abs(), e, envs);
        if events == [] { EventOutcome(Abs(), e, envs); }
      }
      Enqueue(e);
      ProcessEvents(envs);
    }

    /** xrsr_ws_terminate: at rest it leaves nothing held. */
    method Terminate(envs: seq<Env>)
      requires Valid()
      modifies this, group, out`count, out.slots
      ensures Valid() && Abs() == Deliver(old(Abs()), TerminateEv, envs)
      ensures Quiet(old(Abs())) ==> Clean(Abs()) && Quiet(Abs())
    {
      hide Deliver, Quiet, Clean;
      if Quiet(Abs()) { TerminateLands(Abs(), envs); }
      Raise(TerminateEv, envs);
    }

    /** xrsr_ws_process_timeout: at rest the timer that fired is removed or rescheduled. */
    method ProcessTimeout(envs: seq<Env>)
      requires Valid()
      modifies this, group, out`count, out.slots
      ensures Valid() && Abs() == Deliver(old(Abs()), TimeoutEv, envs)
      ensures Quiet(old(Abs())) && old(timerId) >= 0 ==> Served(log, |old(log)|, old(timerId))
    {
      hide Deliver, Quiet, Served;
      if Quiet(Abs()) && timerId >= 0 { FiredTimerIsServed(Abs(), envs); }
      Raise(TimeoutEv, envs);
    }

    // ---- descriptors ----

    /** xrsr_ws_is_established. */
    method IsEstablishedNow() returns (r: bool)
      ensures r == IsEstablished(state)
    {
      r := state.Established? || state.Streaming? || state.TextOnlySession?;
    }

    /** xrsr_ws_fd_set: asks for exactly what is wanted and keeps nfds one above the largest descriptor. */
    method FdSet(nfds: nat, rfds: set<int>, wfds: set<int>) returns (n: nat, r: set<int>, w: set<int>)
      requires Valid() && Tight(nfds, rfds, wfds)
      ensures var q := Wanted(Fields());
              && r == rfds + (if q.read then {socket} else {}) + (if q.audio then {audioPipeFdRead} else {})
              && w == wfds + (if q.write then {socket} else {})
      ensures Tight(n, r, w)
    {
      n, r, w := nfds, rfds, wfds;
      var established := IsEstablishedNow();
      if established && socket >= 0 {
        r := r + {socket};
        if socket >= n { n := socket + 1; }
        var msgOut := out.IsMsgOut();
        if writePending || msgOut { w := w + {socket}; }
        if audioPipeFdRead >= 0 && !writePending {
          r := r + {audioPipeFdRead};
          if audioPipeFdRead >= n { n := audioPipeFdRead + 1; }
        }
      }
    }

    /** xrsr_ws_on_close. */
    method CloseCallback(status: int, envs: seq<Env>)
      requires Valid()
      modifies this, group, out`count, out.slots
      ensures Valid() && Abs() == OnClose(old(Abs()), status, envs)
      ensures Quiet(old(Abs())) ==> Quiet(Abs()) && Evolves(old(Abs()), Abs())
    {
      hide Deliver, Quiet, Evolves;
      if Quiet(Abs()) { OnCloseKeeps(Abs(), status, envs); }
      onClose := true;
      closeStatus := status;
      Raise(WsClose, envs);
    }

    /** xrsr_ws_read_pending and xrsr_ws_on_msg. */
    method Receive(r: Incoming, a: Answers)
      requires Valid()
      modifies this, group, out`count, out.slots
      ensures Valid() && Abs() == ReadPending(old(Abs()), r, a)
      ensures Quiet(old(Abs())) ==> Quiet(Abs()) && Evolves(old(Abs()), Abs())
      ensures Quiet(old(Abs())) && old(state).Established? && old(events) == [] && r == Message(true, NoRecvEvent) ==>
                state.Disconnected? && group.src == SRC_INVALID && LastReported(log) == Some(EndOfSpeech)
    {
      hide Deliver, OnClose, Post, Reasons, Quiet, Evolves, LastReported;
      if Quiet(Abs()) {
        ReadPendingKeeps(Abs(), r, a);
        if state.Established? && events == [] { CloseAskedEnds(Abs(), a); }
      }
      match r
      case Nothing =>
      case PeerClosed(status) => CloseCallback(status, Ans(a, 0));
      case Message(closeAsked, recv) =>
        Raise(MsgRecv, Ans(a, 0));
        if closeAsked { Raise(AppClose, Ans(a, 1)); }
        match recv
        case NoRecvEvent =>
        case EosServer =>
          Record(AudioEof, EndOfSpeech);
          Enqueue(EosPipe);
        case PeerLeft =>
          Record(RemoteDisconnect, WsSendError);
          Enqueue(EosPipe);
    }

    /** An incomplete flush; it ends a streaming session exactly when the row is full. */
    method CountRetry(envs: seq<Env>)
      requires Valid()
      modifies this, group, out`count, out.slots
      ensures Valid() && Abs() == FlushRetry(old(Abs()), envs)
      ensures Quiet(old(Abs())) && (old(state).Streaming? || old(state).TextOnlySession?) && old(events) == [] ==>
                var w := Seen(old(Abs()));
                Quiet(Abs()) && (state.Disconnected? <==> w.streak == Survived(w))
    {
      hide Deliver, Quiet, Survived, Seen, Reacts, Reaction, Evolves;
      if Quiet(Abs()) && (state.Streaming? || state.TextOnlySession?) && events == [] { FillsRow(Abs(), envs); }
      writeRetries := (writeRetries + 1) % 256;
      log := log + [FlushIncomplete];
      ghost var m := Abs();
      hide Abs;
      if writeRetries > WRITE_PENDING_RETRY_MAX { Raise(WsError, envs); }
    }

    /** Completing a pending write. */
    method CompletePending(f: Flush, a: Answers) returns (done: bool)
      requires Valid()
      modifies this, group, out`count, out.slots
      ensures Valid() && (Abs(), done) == FlushPending(old(Abs()), f, a)
    {
      hide FlushRetry, OnClose;
      match f
      case Flushed =>
        writePending, writeRetries := false, 0;
        log := log + [WriteFlushed];
        done := true;
      case Incomplete =>
        CountRetry(Ans(a, 2));
        done := false;
      case ClosedInFlush(status) =>
        CloseCallback(status, Ans(a, 2));
        CountRetry(Ans(a, 3));
        done := false;
    }

    method WaitForSocket()
      requires Valid()
      modifies this`writePending
      ensures Valid() && Abs() == Block(old(Abs()))
    {
      writePending := true;
    }

    /** The oldest outgoing message leaves its slot and is handed to the socket. */
    method TakeText(ghost r: Reply) returns (buf: string)
      requires Valid() && out.Contents() != []
      modifies this`log, out`count, out.slots
      ensures Valid() && buf == old(out.Contents())[0]
      ensures var l := old(Abs()); Abs() == Emit(l.(ws := l.ws.(msgs := l.ws.msgs[1..])), TextSent(buf, r))
    {
      var m := out.Get();
      buf := m.value;
      log := log + [TextSent(buf, r)];
    }

    /** xrsr_ws_get_msg_out and the send that follows it. */
    method SendMessage(s: Sent, a: Answers) returns (goOn: bool)
      requires Valid() && out.Contents() != []
      modifies this, group, out`count, out.slots
      ensures Valid() && (Abs(), goOn) == SendText(old(Abs()), s, a)
      ensures Quiet(old(Abs())) && IsEstablished(old(state)) && !old(writePending)
              && (s.WouldBlock? || (s.Bytes? && s.n > 0)) ==>
                && out.Contents() == old(out.Contents())[1..]
                && writePending == !goOn == (s != Bytes(|old(out.Contents())[0]|))
    {
      hide Deliver, OnClose, Block, Emit, Quiet, Reacts, Reaction, Evolves;
      if Quiet(Abs()) && IsEstablished(state) && !writePending { TextOutcome(Abs(), s, a); }
      ghost var l := Abs();
      var buf := TakeText(ReplyOf(s));
      assert buf == l.ws.msgs[0];
      hide Abs;
      goOn := true;
      match s
      case Bytes(n) =>
        if n == 0 {
          Raise(WsError, Ans(a, 4));
        } else if n != |buf| {
          WaitForSocket();
          goOn := false;
        }
      case WouldBlock =>
        WaitForSocket();
        goOn := false;
      case Failed => Raise(WsError, Ans(a, 4));
      case ClosedInSend(status) =>
        CloseCallback(status, Ans(a, 5));
        Raise(WsError, Ans(a, 4));
    }

    /** The write part of xrsr_ws_handle_fds. */
    method HandleWrite(io: Io, a: Answers) returns (goOn: bool)
      requires Valid()
      modifies this, group, out`count, out.slots
      ensures Valid() && (Abs(), goOn) == WritePass(old(Abs()), io, a)
      ensures Quiet(old(Abs())) && IsEstablished(old(state)) ==> PassOk(old(Abs()), Abs(), goOn)
    {
      hide FlushPending, SendText, Quiet, PassOk;
      if Quiet(Abs()) && IsEstablished(state) { WritePassKeeps(Abs(), io, a); }
      if writePending {
        var done := CompletePending(io.flush, a);
        if !done { return false; }
      }
      goOn := true;
      var msgOut := out.IsMsgOut();
      assert msgOut == (Abs().ws.msgs != []);
      if msgOut { goOn := SendMessage(io.text, a); }
    }

    method CountBytes(k: nat)
      requires Valid()
      modifies this`txdBytes
      ensures Valid() && Abs() == CountSent(old(Abs()), k)
    {
      txdBytes := (txdBytes + k) % 0x1_0000_0000;
    }

    /** xrsr_speech_stream_kwd is refused for an invalid source; either way it is asked only once. */
    method NotifyKeyword()
      requires Valid()
      modifies this`kwdNotified, this`log
      ensures Valid() && Abs() == AnnounceKeyword(old(Abs()))
    {
      if !kwdNotified && txdBytes >= kwdBytes {
        if audioSrc < SRC_INVALID { log := log + [KeywordRaised(txdBytes)]; }
        kwdNotified := true;
      }
    }

    /** One frame of n bytes: it is left pending exactly when the library did not take all of it, and the bytes taken
        are counted. */
    method SendAudio(n: nat, s: Sent, a: Answers)
      requires Valid()
      modifies this, group, out`count, out.slots
      ensures Valid() && Abs() == SendFrame(old(Abs()), n, s, a)
      ensures Quiet(old(Abs())) && IsEstablished(old(state)) && old(audioPipeFdRead) >= 0 && !old(writePending)
              && Accepts(s, n) ==>
                var k := if s.Bytes? then s.n else 0;
                && writePending == (s.WouldBlock? || k < n)
                && txdBytes == (old(txdBytes) + k) % 0x1_0000_0000
    {
      hide Deliver, OnClose, Block, CountSent, Quiet, Reacts, Reaction, Evolves;
      if Quiet(Abs()) && IsEstablished(state) && audioPipeFdRead >= 0 && !writePending && Accepts(s, n) {
        FrameOutcome(Abs(), n, s, a);
      }
      log := log + [AudioRead(n)] + [AudioSent(n, ReplyOf(s))];
      assert Abs() == Emit(Emit(old(Abs()), AudioRead(n)), AudioSent(n, ReplyOf(s)));
      hide Abs, Emit;
      match s
      case WouldBlock => WaitForSocket();
      case Failed => Raise(WsError, Ans(a, 6));
      case ClosedInSend(status) =>
        CloseCallback(status, Ans(a, 7));
        Raise(WsError, Ans(a, 6));
      case Bytes(k) =>
        if k == 0 {
          Raise(WsError, Ans(a, 6));
        } else if k != n {
          WaitForSocket();
          CountBytes(k);
        } else {
          CountBytes(n);
        }
    }

    /** The audio part of xrsr_ws_handle_fds. */
    method HandleAudio(io: Io, a: Answers)
      requires Valid()
      modifies this, group, out`count, out.slots
      ensures Valid() && Abs() == AudioPass(old(Abs()), io, a)
      ensures Quiet(old(Abs())) && IsEstablished(old(state)) && old(audioPipeFdRead) >= 0 && !old(writePending)
              && io.audio.Data? && IoOk(io) && Seen(Abs()).phase != Idle && Seen(Abs()).armed.Some? ==>
                In32(Seen(Abs()).counted) < Seen(Abs()).armed.value
    {
      hide Deliver, SendFrame, AnnounceKeyword, Quiet, Reacts, Reaction, Evolves;
      if Quiet(Abs()) && IsEstablished(state) && audioPipeFdRead >= 0 && !writePending && io.audio.Data? && IoOk(io) {
        KeywordAnnounced(Abs(), io.audio.n, io.frame, a);
      }
      hide Abs;
      match io.audio
      case ReadFails => Raise(AudioError, Ans(a, 6));
      case Eof => Raise(EosPipe, Ans(a, 6));
      case Data(n) =>
        SendAudio(n, io.frame, a);
        NotifyKeyword();
    }

    /** xrsr_ws_handle_fds. */
    method HandleDescriptors(r: Ready, io: Io, a: Answers)
      requires Valid()
      modifies this, group, out`count, out.slots
      ensures Valid() && Abs() == HandleFds(old(Abs()), r, io, a)
      ensures Quiet(old(Abs())) && Reportable(old(Fields()), r) && IoOk(io) ==>
                Quiet(Abs()) && Evolves(old(Abs()), Abs())
    {
      hide ReadPending, WritePass, AudioPass, Quiet, Evolves, Reportable, IoOk, PassOk;
      if Quiet(Abs()) && Reportable(Fields(), r) && IoOk(io) { HandleFdsKeeps(Abs(), r, io, a); }
      if socket >= 0 && r.read { Receive(io.incoming, a); }
      if socket >= 0 && r.write {
        var goOn := HandleWrite(io, a);
        if !goOn { return; }
      }
      if audioPipeFdRead >= 0 && r.audio { HandleAudio(io, a); }
    }

    // ---- speech events and application messages ----

    /** xrsr_ws_handle_speech_event. */
    method HandleSpeech(e: SpeechEvent, envs: seq<Env>)
      requires Valid()
      modifies this, group, out`count, out.slots
      ensures Valid() && Abs() == Speech(old(Abs()), e, envs)
      ensures Quiet(old(Abs())) ==> Quiet(Abs()) && Evolves(old(Abs()), Abs())
    {
      hide Deliver, Quiet, Evolves;
      if Quiet(Abs()) { SpeechKeeps(Abs(), e, envs); }
      match e
      case SpeechEos => Raise(EosEv, envs);
      case SpeechKeyword(n) => ExpectKeyword(n);
      case SpeechTimeMinimum =>
        streamTimeMinRxd := true;
        Raise(StmEv, envs);
    }

    method ExpectKeyword(n: nat)
      requires Valid()
      modifies this`kwdNotified, this`kwdBytes, this`log
      ensures Valid() && Abs() == Speech(old(Abs()), SpeechKeyword(n), [])
    {
      hide Deliver, Post;
      kwdNotified, kwdBytes := false, n;
      log := log + [KeywordInfo(n)];
    }

    /** xrsr_ws_send_text: refused unless established, and while all slots are taken; what is queued is the
        message up to its first NUL. */
    method QueueMessage(msg: string, mallocOk: bool) returns (rc: int)
      requires Valid()
      modifies out`count, out.slots
      ensures Valid()
      ensures Abs() == (if rc == 1 then QueueText(old(Abs()), CString(msg)) else old(Abs()))
      ensures rc == (if !IsEstablished(state) then -1
                     else if mallocOk && |old(Abs()).ws.msgs| < MSG_OUT_MAX then 1 else 0)
      ensures out.Contents() == (if rc == 1 then old(out.Contents()) + [CString(msg)] else old(out.Contents()))
      ensures Quiet(old(Abs())) ==> Quiet(Abs())
    {
      hide Quiet;
      if Quiet(Abs()) { QueueTextKeeps(Abs(), CString(msg)); }
      var established := IsEstablishedNow();
      if !established { return -1; }
      var ok := out.Queue(msg, mallocOk);
      rc := if ok then 1 else 0;
    }

    // ---- starting a session ----

    /** xrsr_speech_stream_begin. */
    method RequestStream(p: PipeAnswer) returns (fd: Option<int>)
      requires Valid()
      modifies this`log, group
      ensures Valid() && (Abs(), fd) == StreamBegin(old(Abs()), p)
    {
      if !group.firstStreamReq { return Some(group.pipeFd); }
      match p
      case PipeFails => fd := None;
      case AudioFails(n) =>
        group.pipeFd := NONE;
        log := log + [PipeOpened(n)] + [PipeClosed(n)];
        fd := None;
      case PipeReady(n) =>
        group.firstStreamReq := false;
        group.pipeFd := n;
        log := log + [PipeOpened(n)];
        fd := Some(n);
    }

    method SetDeadline(src: nat, now: nat)
      requires Valid()
      modifies this`retryEnd, this`audioSrc
      ensures Valid()
      ensures var l := old(Abs()); Abs() == l.(ws := l.ws.(deadline := now + l.ws.cfg.timeoutSession, src := src))
    {
      retryEnd := now + cfg.timeoutSession;
      audioSrc := src;
    }

    method StartCounting()
      requires Valid()
      modifies this`kwdNotified, this`kwdBytes, this`txdBytes
      ensures Valid()
      ensures var l := old(Abs());
              Abs() == l.(ws := l.ws.(tx := l.ws.tx.(kwdNotified := true, kwdBytes := 0, txd := 0)))
    {
      kwdNotified, kwdBytes, txdBytes := true, 0, 0;
    }

    method StartWaiting()
      requires Valid()
      modifies this`connectWaitTime, this`onClose, this`closeStatus
      ensures Valid()
      ensures var l := old(Abs());
              Abs() == l.(ws := l.ws.(wait := ToInt32(l.ws.cfg.timeoutConnect), onClose := false, closeStatus := -1))
    {
      connectWaitTime := ToInt32(cfg.timeoutConnect);
      onClose := false;
      closeStatus := -1;
    }

    method StartSession()
      requires Valid()
      modifies this`log
      ensures Valid() && Abs() == Emit(old(Abs()), SessionStarted)
    {
      log := log + [SessionStarted];
    }

    /** xrsr_ws_connect. */
    method ConnectSession(src: nat, now: nat, deferred: bool, envs: seq<Env>)
      requires Valid()
      modifies this, group, out`count, out.slots
      ensures Valid() && Abs() == Connect(old(Abs()), src, now, deferred, envs)
    {
      hide Deliver, ToInt32, Abs, Reacts, Reaction, Evolves, Quiet;
      SetDeadline(src, now);
      StartCounting();
      StartWaiting();
      StartSession();
      if !deferred {
        Raise(SessionBegin, envs);
      } else {
        Raise(SessionBeginStm, envs);
      }
    }

    /** The websocket part of xrsr_msg_session_config_in. */
    method ConfigureSession(src: nat, p: PipeAnswer, now: nat, streamTimeMin: nat, envs: seq<Env>)
      requires Valid()
      modifies this, group, out`count, out.slots
      ensures Valid() && Abs() == Configure(old(Abs()), src, p, now, streamTimeMin, envs)
      ensures Quiet(old(Abs())) && Configurable(old(Abs()), src) ==>
                && Quiet(Abs())
                && (p.PipeReady? ==>
                      var m, es := Opened(old(Abs()), src, p.fd, now), if old(events) == [] then envs else Rest(envs);
                      Reacts(m, Abs(), if streamTimeMin > 0 && !old(isSessionByText) && !old(streamTimeMinRxd)
                                       then To(m.ws, Buffering, [])
                                       else Attempt(m.ws, First(es), First(Rest(es)), [])))
                && (if !p.PipeReady? then state.Disconnected? && group.src == src
                    else if state.Disconnected? then group.src == SRC_INVALID
                    else audioSrc == group.src == src)
    {
      hide StreamBegin, SessionEnd, Connect, Quiet, Reacts, Attempt, Opened;
      if Quiet(Abs()) && Configurable(Abs(), src) {
        ConfigureOutcome(Abs(), src, p, now, streamTimeMin, envs);
        ConfigureKeeps(Abs(), src, p, now, streamTimeMin, envs);
        PipeNeeded(Abs(), p);
      }
      var fd := RequestStream(p);
      if fd.None? {
        EndSession(AudioBeginError);
      } else {
        audioPipeFdRead := fd.value;
        var deferred := streamTimeMin != 0 && !isSessionByText && !streamTimeMinRxd;
        ConnectSession(src, now, deferred, envs);
      }
    }

    /** xrsr_ws_audio_stream. */
    method ContinueAudio(src: nat, p: PipeAnswer)
      requires Valid()
      modifies this`audioSrc, this`audioPipeFdRead, this`log, group
      ensures Valid() && Abs() == ContinueStream(old(Abs()), src, p)
    {
      hide StreamBegin, SessionEnd;
      ghost var l := Abs();
      audioSrc := src;
      assert Abs() == l.(ws := l.ws.(src := src));
      var fd := RequestStream(p);
      if fd.None? {
        EndSession(AudioBeginError);
      } else {
        ResumeStream(fd.value);
      }
      hide Abs, Emit;
    }

    method ResumeStream(fd: int)
      requires Valid()
      modifies this`audioPipeFdRead, this`log
      ensures Valid()
      ensures var l := old(Abs()); Abs() == Emit(l.(ws := l.ws.(pipe := fd)), StreamBegan)
    {
      audioPipeFdRead := fd;
      log := log + [StreamBegan];
    }

    /** A begin message: the source takes the group. */
    method Claim(src: nat, byText: bool)
      requires Valid()
      modifies group`src, this`isSessionByText
      ensures Valid()
      ensures Abs() == Link(old(Abs()).ws.(byText := byText), old(Abs()).sess.(src := src))
    {
      group.src := src;
      isSessionByText := byText;
    }

    method ForgetTimeMinimum()
      requires Valid()
      modifies this`streamTimeMinRxd
      ensures Valid() && Abs() == old(Abs()).(ws := old(Abs()).ws.(stm := false))
    {
      streamTimeMinRxd := false;
    }

    /** The connection part of xrsr_msg_session_begin. */
    method BeginSession(src: nat, byText: bool, p: PipeAnswer)
      requires Valid()
      modifies this`isSessionByText, this`streamTimeMinRxd, this`audioSrc, this`audioPipeFdRead, this`log, group
      ensures Valid() && Abs() == Begun(old(Abs()), src, byText, p)
    {
      hide ContinueStream;
      Claim(src, byText);
      if state.Disconnected? {
        ForgetTimeMinimum();
      } else {
        var established := IsEstablishedNow();
        if established { ContinueAudio(src, p); }
      }
    }

    method SetConfig(c: Config)
      requires Valid()
      modifies this`cfg
      ensures Valid() && Abs() == old(Abs()).(ws := old(Abs()).ws.(cfg := c))
    {
      cfg := c;
    }
  }
}
