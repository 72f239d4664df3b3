/** The HTTP connection object: its handlers update its fields and the record of its session group in place,
    and do to them exactly what the functions of HttpSpec say. */
module HttpConnection {
  import opened Types
  import opened Monitor
  import opened HttpSpec
  import opened HttpProofs
  import opened HttpOutcomes
  import opened WsConnection

  /** xrsr_state_http_t, without the curl handles and the pipe. */
  class HttpState {
    const group: Group

    var state: State
    var events: seq<Event>
    var audioSrc: nat
    var timerIdRsp: int
    var reason: SessionWhy
    var isSessionByText: bool
    var detectResume: bool
    ghost var log: seq<Call>

    ghost function Abs(): Link
      reads this, group
    {
      Link(Http(state, events, audioSrc, timerIdRsp, reason, isSessionByText, detectResume, log), group.Record())
    }

    /** xrsr_http_init. */
    constructor (group: Group)
      ensures this.group == group && Fresh(Abs()) && Abs().sess == old(group.Record())
    {
      this.group := group;
      state, events, audioSrc, timerIdRsp := Disconnected, [], SRC_INVALID, NONE;
      reason, isSessionByText, detectResume, log := EndOfSpeech, false, true, [];
    }

    method Enqueue(e: Event)
      modifies this`events
      ensures Abs() == Post(old(Abs()), e)
    {
      if |events| < EVENTS_MAX { events := events + [e]; }
    }

    /** xrsr_speech_stream_end. */
    method EndStream(why: StreamWhy)
      modifies this`log, group
      ensures Abs() == StreamEnd(old(Abs()), why)
    {
      if audioSrc < SRC_INVALID {
        group.pipeFd := NONE;
        group.firstStreamReq := true;
        log := log + [StreamEnded(why)];
      }
    }

    /** xrsr_session_end. */
    method EndSession()
      modifies this`log, group
      ensures Abs() == SessionEnd(old(Abs()))
    {
      if audioSrc < SRC_INVALID && group.src == audioSrc {
        log := log + [SessionEnded(reason)];
        if state.Disconnected? { group.src := SRC_INVALID; }
      }
    }

    method RemoveTimer()
      modifies this`timerIdRsp, this`log
      ensures Abs() == StopTimer(old(Abs()))
    {
      if timerIdRsp >= 0 {
        log := log + [TimerRemoved(timerIdRsp)];
        timerIdRsp := NONE;
      }
    }

    /** xrsr_http_reset. */
    method ResetFields()
      modifies this
      ensures Abs() == Reset(old(Abs()))
    {
      RemoveTimer();
      audioSrc := SRC_INVALID;
      detectResume := true;
      reason := EndOfSpeech;
      isSessionByText := false;
    }

    // ---- handlers ----

    /** ACT_EXIT of the current state. */
    method ExitState(e: Event)
      modifies this, group
      ensures Abs() == Exit(old(Abs()), e)
    {
      hide StreamEnd, StopTimer;
      match state
      case Buffering =>
        if e.EosEv? {
          EndStream(DidNotBegin);
          reason := AudioDurationError;
        } else if e.TerminateEv? {
          EndStream(DidNotBegin);
          reason := Terminated;
        }
      case Connecting =>
        if e.DisconnectedEv? {
          EndStream(DidNotBegin);
          reason := ConnectFailure;
        } else if e.ConnectedEv? {
          log := log + [ConnectNotified];
        }
      case Connected =>
        if e.TimeoutEv? {
          reason := SessionTimedOut;
        } else if e.TerminateEv? {
          reason := Terminated;
        }
        RemoveTimer();
      case Streaming =>
        if e.TerminateEv? {
          EndStream(LocalDisconnect);
          reason := Terminated;
        } else if e.MsgRecv? {
          EndStream(RemoteDisconnect);
          reason := ConnectFailure;
        } else if e.PipeEos? {
          EndStream(AudioEof);
        }
      case TextOnlySession =>
        if e.TerminateEv? {
          EndStream(LocalDisconnect);
          reason := Terminated;
        } else if e.MsgRecv? {
          EndStream(NoStreamReason);
          reason := EndOfText;
        } else if e.PipeEos? {
          EndStream(AudioEof);
        }
      case Disconnected =>
    }

    method EnterDisconnected(env: Env)
      requires state.Disconnected?
      modifies this, group
      ensures Abs() == Enter(old(Abs()), env)
    {
      hide SessionEnd, Reset;
      log := log + [DisconnectNotified(reason)];
      detectResume := env.resume;
      EndSession();
      ResetFields();
    }

    /** ACT_ENTER of the current state. */
    method EnterState(env: Env)
      modifies this, group
      ensures var l, p := old(Abs()), EnterPosts(old(Abs()).http, env);
              Abs() == (if p.Some? then Post(Enter(l, env), p.value) else Enter(l, env))
    {
      match state
      case Disconnected => EnterDisconnected(env);
      case Connecting => Enqueue(if env.connectOk then ConnectedEv else DisconnectedEv);
      case Connected =>
        timerIdRsp := env.timerId;
        log := log + [TimerInserted(timerIdRsp, env.now + MSG_TIMEOUT)];
      case Streaming =>
        log := log + [StreamBegan];
        if isSessionByText { Enqueue(TextSessionSuccess); }
      case _ =>
    }

    // ---- the engine ----

    method DispatchEvent(e: Event, env: Env)
      modifies this, group
      ensures Abs() == Dispatch(old(Abs()), e, env)
    {
      hide Exit, Enter, EnterPosts;
      var t := Next(state, e);
      hide Next;
      if t.Some? {
        ExitState(e);
        state := t.value;
        EnterState(env);
      }
    }

    /** SmProcessEvents. */
    method ProcessEvents(envs: seq<Env>)
      modifies this, group
      ensures Abs() == Process(old(Abs()), envs) && events == []
    {
      hide Dispatch;
      var rest := envs;
      while events != []
        invariant Process(Abs(), rest) == Process(old(Abs()), envs)
        decreases QueueCost(events)
      {
        ghost var l := Abs();
        var e := events[0];
        events := events[1..];
        assert Abs() == Pop(l);
        StepCost(l, First(rest));
        DispatchEvent(e, First(rest));
        rest := Rest(rest);
      }
    }

    /** xrsr_http_event from outside the state handlers: at rest the machine comes to rest again, in the state and
        with the calls that belong to its state and the event. */
    method Raise(e: Event, envs: seq<Env>)
      modifies this, group
      ensures Abs() == Deliver(old(Abs()), e, envs)
      ensures Quiet(old(Abs())) && !IsInternal(e) && !IsBegin(e) ==>
                && Quiet(Abs())
                && (if old(state).Disconnected? then Abs() == old(Abs())
                    else Reacts(old(Abs()), Abs(), Reaction(old(Abs()).http, e, First(envs))))
    {
      hide Process, Post, Quiet, Reacts, Reaction;
      if Quiet(Abs()) && !IsInternal(e) && !IsBegin(e) { EventOutcome(Abs(), e, envs); }
      Enqueue(e);
      ProcessEvents(envs);
    }

    /** The HTTP part of xrsr_msg_session_begin: the group is taken only while nobody holds it, and then the
        machine at rest is disconnected. */
    method BeginSession(src: nat, byText: bool)
      modifies this`isSessionByText, group`src
      ensures Abs() == Begin(old(Abs()), src, byText)
      ensures Quiet(old(Abs())) ==> Quiet(Abs()) && (group.src != old(group.src) ==> state.Disconnected?)
      ensures if src < SRC_INVALID && old(group.src) >= SRC_INVALID then group.src == src && isSessionByText == byText
              else group.src == old(group.src) && isSessionByText == old(isSessionByText)
    {
      hide Quiet;
      if Quiet(Abs()) { ApplyKeeps(Abs(), Begun(src, byText)); }
      if src >= SRC_INVALID || group.src < SRC_INVALID { return; }
      if Quiet(Abs()) { FreeMeansDisconnected(Abs()); }
      group.src := src;
      isSessionByText := byText;
    }

    /** xrsr_http_connect once its request is set up. */
    method ConnectSession(src: nat, deferred: bool, envs: seq<Env>)
      modifies this, group
      ensures Abs() == Connect(old(Abs()), src, deferred, envs)
      ensures Quiet(old(Abs())) && Allowed(old(Abs()), Started(src, deferred, envs)) ==>
                && Quiet(Abs())
                && (if deferred then state.Buffering?
                    else if First(envs).connectOk then
                      state == if old(isSessionByText) then TextOnlySession else Streaming
                    else state.Disconnected? && group.src == SRC_INVALID)
    {
      hide Deliver, Quiet;
      if Quiet(Abs()) && Allowed(Abs(), Started(src, deferred, envs)) {
        ApplyKeeps(Abs(), Started(src, deferred, envs));
        ConnectOutcome(Abs(), src, deferred, envs);
      }
      audioSrc := src;
      log := log + [SessionStarted];
      if !deferred {
        Raise(SessionBegin, envs);
      } else {
        Raise(SessionBeginStm, envs);
      }
    }

    /** xrsr_http_terminate. */
    method Terminate(envs: seq<Env>)
      requires Quiet(Abs())
      modifies this, group
      ensures Quiet(Abs()) && state.Disconnected? && timerIdRsp < 0
      ensures !old(state).Disconnected? ==> group.src == SRC_INVALID && LastReported(log) == Some(Terminated)
    {
      hide Deliver;
      TerminateLands(Abs(), envs);
      Raise(TerminateEv, envs);
    }
  }
}
