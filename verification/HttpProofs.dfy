/** The HTTP machine keeps the session contract of the websocket machine. */
module HttpProofs {
  import opened Types
  import opened Monitor
  import opened HttpSpec

  function Seen(l: Link): Watcher { Watch(l.http.log) }

  function PhaseOf(s: State): Phase
  {
    match s
    case Disconnected => Idle
    case Connected => Ended
    case _ => Live
  }

  /** The call log and the session record against the fields, in phase ph. */
  predicate Body(l: Link, ph: Phase)
  {
    var m, h := Seen(l), l.http;
    && m.ok && m.phase == ph && !m.blocked
    && (m.begun <==> h.state.Streaming? || h.state.TextOnlySession?)
    && m.timers == Held(h.timer) && (h.timer >= 0 <==> h.state.Connected?)
    && h.reason == EndOfSpeech
    && (ph == Idle ==> h.src == SRC_INVALID)
    && (ph != Idle ==> l.sess.src == h.src < SRC_INVALID)
    && (ph == Ended ==> l.sess.firstStreamReq)
  }

  /** Between main-loop steps: nothing queued, and never Connecting. */
  predicate Quiet(l: Link)
  {
    Body(l, PhaseOf(l.http.state)) && l.http.queue == [] && !l.http.state.Connecting?
  }

  /** The event that finishes what the last handler began. */
  predicate Finishes(s: State, e: Event)
  {
    (s.Connecting? && (e.ConnectedEv? || e.DisconnectedEv?)) || (s.Streaming? && e.TextSessionSuccess?)
  }

  /** Within a processing run: at rest, or one event to go. */
  predicate Inv(l: Link)
  {
    if l.http.queue == [] then Quiet(l)
    else
      var e := l.http.queue[0];
      && |l.http.queue| == 1
      && (if IsBegin(e) then l.http.state.Disconnected? && Body(l, Live)
          else Body(l, PhaseOf(l.http.state))
               && (if IsInternal(e) then Finishes(l.http.state, e) else !l.http.state.Connecting?))
  }

  lemma SeenEmit(l: Link, c: Call)
    ensures Seen(Emit(l, c)) == Observe(Seen(l), c)
  {
    WatchAppend(l.http.log, c);
  }

  /** After the exit of the old state and the change of state. */
  predicate Crossing(l: Link)
  {
    var m, h := Seen(l), l.http;
    var ph := if h.state.Disconnected? then Ended else PhaseOf(h.state);
    && m.ok && m.phase == ph && !m.blocked
    && (m.begun <==> h.state.TextOnlySession?)
    && m.timers == {} && h.timer < 0
    && (!h.state.Disconnected? ==> h.reason == EndOfSpeech)
    && l.sess.src == h.src < SRC_INVALID
    && (ph == Ended ==> l.sess.firstStreamReq)
  }

  lemma SeenStreamEnd(l: Link, why: StreamWhy)
    requires l.http.src < SRC_INVALID
    ensures Seen(StreamEnd(l, why)) == Observe(Seen(l), StreamEnded(why)) && StreamEnd(l, why).sess.firstStreamReq
  {
    SeenEmit(l.(sess := l.sess.(pipeFd := NONE, firstStreamReq := true)), StreamEnded(why));
  }

  /** Ending the stream leads over to Disconnected, for any reason, or to Connected. */
  lemma StreamEndCrosses(l: Link, why: StreamWhy, reason: SessionWhy, t: State)
    requires Body(l, Live) && (Seen(l).begun ==> why != DidNotBegin) && !l.http.state.Connected?
    requires t.Disconnected? || (t.Connected? && reason == EndOfSpeech)
    ensures var m := Because(StreamEnd(l, why), reason); Crossing(m.(http := m.http.(state := t)))
    ensures Because(StreamEnd(l, why), EndOfSpeech) == StreamEnd(l, why)
  {
    hide Watch;
    SeenStreamEnd(l, why);
    hide StreamEnd;
  }

  lemma LeaveEndsTied(l: Link, e: Event, t: State)
    requires Inv(l) && l.http.queue == [e] && Next(l.http.state, e) == Some(t) && !l.http.state.Connected?
    requires t.Disconnected? || t.Connected?
    ensures Crossing(Leave(Pop(l), e, t))
  {
    var p := Pop(l);
    assert Body(p, Live) by { hide Watch; }
    var begun := Seen(p).begun;
    assert begun <==> l.http.state.Streaming? || l.http.state.TextOnlySession?;
    hide Watch, StreamEnd, Crossing, Body;
    match e
    case EosEv => StreamEndCrosses(p, DidNotBegin, AudioDurationError, t);
    case DisconnectedEv => StreamEndCrosses(p, DidNotBegin, ConnectFailure, t);
    case TerminateEv =>
      StreamEndCrosses(p, if l.http.state.Buffering? then DidNotBegin else LocalDisconnect, Terminated, t);
    case MsgRecv =>
      if l.http.state.Streaming? {
        StreamEndCrosses(p, RemoteDisconnect, ConnectFailure, t);
      } else {
        StreamEndCrosses(p, NoStreamReason, EndOfText, t);
      }
    case PipeEos => StreamEndCrosses(p, AudioEof, EndOfSpeech, t);
    case _ =>
  }

  lemma LeaveOnTied(l: Link, e: Event, t: State)
    requires Inv(l) && l.http.queue == [e] && Next(l.http.state, e) == Some(t) && PhaseOf(t) == Live
    ensures Crossing(Leave(Pop(l), e, t))
  {
    hide Watch;
    SeenEmit(Pop(l), ConnectNotified);
    hide StreamEnd;
  }

  lemma LeaveConnectedTied(l: Link, e: Event)
    requires Inv(l) && l.http.queue == [e] && Next(l.http.state, e).Some? && l.http.state.Connected?
    ensures Crossing(Leave(Pop(l), e, Next(l.http.state, e).value))
  {
    hide Watch;
    var p := Pop(l);
    SeenEmit(p, TimerRemoved(p.http.timer));
    SeenEmit(Because(p, SessionTimedOut), TimerRemoved(p.http.timer));
    SeenEmit(Because(p, Terminated), TimerRemoved(p.http.timer));
  }

  lemma LeaveTied(l: Link, e: Event)
    requires Inv(l) && l.http.queue == [e] && Next(l.http.state, e).Some?
    ensures Crossing(Leave(Pop(l), e, Next(l.http.state, e).value))
  {
    hide Inv, Crossing, Leave, Next;
    if l.http.state.Connected? {
      LeaveConnectedTied(l, e);
    } else if PhaseOf(Next(l.http.state, e).value) == Live {
      LeaveOnTied(l, e, Next(l.http.state, e).value);
    } else {
      LeaveEndsTied(l, e, Next(l.http.state, e).value);
    }
  }

  lemma EnterTied(l: Link, env: Env)
    requires Crossing(l)
    ensures Body(Enter(l, env), PhaseOf(l.http.state))
    ensures l.http.state.Disconnected? ==> Enter(l, env).sess.src == SRC_INVALID
  {
    hide Watch;
    match l.http.state
    case Disconnected =>
      SeenEmit(l, DisconnectNotified(l.http.reason));
      var told := Emit(l, DisconnectNotified(l.http.reason));
      SeenEmit(told.(http := told.http.(resume := env.resume)), SessionEnded(l.http.reason));
    case Connected =>
      SeenEmit(l.(http := l.http.(timer := env.timerId)), TimerInserted(env.timerId, env.now + MSG_TIMEOUT));
      assert {} + {env.timerId as int} == {env.timerId as int};
    case Streaming => SeenEmit(l, StreamBegan);
    case _ =>
  }

  lemma StepKeeps(l: Link, env: Env)
    requires Inv(l) && l.http.queue != []
    ensures Inv(Step(l, env))
  {
    hide Watch;
    var p, e := Pop(l), l.http.queue[0];
    assert l.http.queue == [e];
    var n := Next(l.http.state, e);
    if n.Some? {
      LeaveTied(l, e);
      EnterTied(Leave(p, e, n.value), env);
      hide Leave, Enter, Body;
    }
  }

  lemma {:induction false} ProcessRests(l: Link, envs: seq<Env>)
    requires Inv(l)
    ensures Quiet(Process(l, envs))
    decreases QueueCost(l.http.queue)
  {
    if l.http.queue != [] {
      StepKeeps(l, First(envs));
      StepCost(l, First(envs));
      ProcessRests(Step(l, First(envs)), Rest(envs));
    }
    hide Step, Watch;
  }

  // ---- inputs and runs ----

  /** A begin message, the start of the session once it is configured, and every event from outside: speech
      events, the response timer, the end of the pipe, a finished transfer, a termination. */
  datatype Input =
    | Begun(src: nat, byText: bool)
    | Started(src: nat, deferred: bool, envs: seq<Env>)
    | Given(e: Event, envs: seq<Env>)

  /** A session starts once its source holds the group and its machine is disconnected. */
  predicate Allowed(l: Link, i: Input)
  {
    match i
    case Begun(_, _) => true
    case Started(src, _, _) => l.http.state.Disconnected? && l.sess.src == src < SRC_INVALID
    case Given(e, _) => !IsInternal(e) && !IsBegin(e)
  }

  function Apply(l: Link, i: Input): Link
  {
    match i
    case Begun(src, byText) => Begin(l, src, byText)
    case Started(src, deferred, envs) => Connect(l, src, deferred, envs)
    case Given(e, envs) => Deliver(l, e, envs)
  }

  lemma PostKeeps(l: Link, e: Event)
    requires Quiet(l) && !IsInternal(e) && !IsBegin(e)
    ensures Inv(Post(l, e)) && Post(l, e).http.queue == [e]
  {
    hide Watch;
  }

  lemma ApplyKeeps(l: Link, i: Input)
    requires Quiet(l) && Allowed(l, i)
    ensures Quiet(Apply(l, i))
  {
    hide Watch, Process;
    match i
    case Begun(src, byText) =>
    case Started(src, deferred, envs) =>
      StartPosted(l, src, deferred);
      ProcessRests(StartPost(l, src, deferred), envs);
    case Given(e, envs) =>
      PostKeeps(l, e);
      ProcessRests(Post(l, e), envs);
  }

  lemma FreeMeansDisconnected(l: Link)
    requires Quiet(l) && l.sess.src >= SRC_INVALID
    ensures l.http.state.Disconnected?
  {
    hide Watch;
  }

  /** What is processed when a session starts. */
  function StartPost(l: Link, src: nat, deferred: bool): Link
  {
    Post(Emit(l.(http := l.http.(src := src)), SessionStarted), if deferred then SessionBeginStm else SessionBegin)
  }

  lemma StartPosted(l: Link, src: nat, deferred: bool)
    requires Quiet(l) && l.http.state.Disconnected? && l.sess.src == src < SRC_INVALID
    ensures Inv(StartPost(l, src, deferred)) && StartPost(l, src, deferred).http.queue != []
    ensures IsBegin(StartPost(l, src, deferred).http.queue[0])
    ensures Starts(StartPost(l, src, deferred).http.log) == Starts(l.http.log) + 1
  {
    hide Watch;
    SeenEmit(l.(http := l.http.(src := src)), SessionStarted);
    assert (l.http.log + [SessionStarted])[..|l.http.log|] == l.http.log;
  }

  // ---- a processing run starts no session, and gives the group back exactly when it ends one ----

  lemma LeaveContinues(l: Link, e: Event, t: State)
    ensures Continues(l.http.log, Leave(l, e, t).http.log)
  {}

  lemma EnterContinues(l: Link, env: Env)
    ensures Continues(l.http.log, Enter(l, env).http.log)
  {}

  lemma StepContinues(l: Link, env: Env)
    requires l.http.queue != []
    ensures Continues(l.http.log, Step(l, env).http.log)
  {
    var e := l.http.queue[0];
    var n := Next(l.http.state, e);
    if n.Some? {
      LeaveContinues(Pop(l), e, n.value);
      EnterContinues(Leave(Pop(l), e, n.value), env);
    }
    hide Leave, Enter, Next;
  }

  lemma {:induction false} ProcessContinues(l: Link, envs: seq<Env>)
    ensures Continues(l.http.log, Process(l, envs).http.log)
    decreases QueueCost(l.http.queue)
  {
    if l.http.queue != [] {
      StepContinues(l, First(envs));
      StepCost(l, First(envs));
      ProcessContinues(Step(l, First(envs)), Rest(envs));
    }
    hide Step;
  }

  /** A session is under way: a machine that runs, or a begin event that is still to be dispatched. */
  predicate UnderWay(l: Link) { !l.http.state.Disconnected? || l.http.queue != [] }

  lemma StepReleases(l: Link, env: Env)
    requires Inv(l) && l.http.queue != [] && !(l.http.state.Disconnected? && !IsBegin(l.http.queue[0]))
    ensures var r := Step(l, env);
            if UnderWay(r) then r.http.state.Disconnected? ==> r.http.queue != [] && IsBegin(r.http.queue[0])
            else r.sess.src == SRC_INVALID
  {
    StepKeeps(l, env);
    var p, e := Pop(l), l.http.queue[0];
    var n := Next(l.http.state, e);
    if n.Some? {
      LeaveTied(l, e);
      if n.value.Disconnected? { EnterReports(Leave(p, e, n.value), env); }
      hide Leave;
    }
    hide Watch, LastReported, Exit;
  }

  /** A run that ends in Disconnected has ended the session, and that frees its group. */
  lemma {:induction false} ProcessReleases(l: Link, envs: seq<Env>)
    requires Inv(l)
    requires l.http.state.Disconnected? ==> l.http.queue != [] && IsBegin(l.http.queue[0])
    ensures Process(l, envs).http.state.Disconnected? ==> Process(l, envs).sess.src == SRC_INVALID
    decreases QueueCost(l.http.queue)
  {
    if l.http.queue != [] {
      var s := Step(l, First(envs));
      StepKeeps(l, First(envs));
      StepReleases(l, First(envs));
      StepCost(l, First(envs));
      if UnderWay(s) { ProcessReleases(s, Rest(envs)); }
    }
    hide Step, Watch, Body;
  }

  /** Every input keeps its promise to the inputs before it. */
  predicate Run(l: Link, inputs: seq<Input>, r: Link)
    decreases |inputs|
  {
    if inputs == [] then r == l else Allowed(l, inputs[0]) && Run(Apply(l, inputs[0]), inputs[1..], r)
  }

  /** A begin message that is accepted. */
  predicate Accepts(l: Link, i: Input) { i.Begun? && i.src < SRC_INVALID && l.sess.src >= SRC_INVALID }

  /** How many begin messages of a run are accepted. */
  function Accepted(l: Link, inputs: seq<Input>): nat
    decreases |inputs|
  {
    if inputs == [] then 0
    else
      var i := inputs[0];
      Accepted(Apply(l, i), inputs[1..]) + (if Accepts(l, i) then 1 else 0)
  }

  /** One more begin was accepted than sessions started: the configuration of the session is awaited. */
  predicate Balanced(l: Link, accepted: nat)
  {
    && accepted == Starts(l.http.log) + (if l.http.state.Disconnected? && l.sess.src < SRC_INVALID then 1 else 0)
    && l.sess.src <= SRC_INVALID
  }

  lemma GivenBalanced(l: Link, e: Event, envs: seq<Env>, n: nat)
    requires Quiet(l) && !IsInternal(e) && !IsBegin(e) && Balanced(l, n)
    ensures Balanced(Deliver(l, e, envs), n)
  {
    hide Watch, Process, Starts;
    var p := Post(l, e);
    PostKeeps(l, e);
    ProcessRests(p, envs);
    ProcessContinues(p, envs);
    ContinuesStarts(l.http.log, Process(p, envs).http.log);
    if l.http.state.Disconnected? {
      DroppedAtRest(l, e, envs);
    } else {
      ProcessReleases(p, envs);
    }
  }

  /** A disconnected machine drops every event but a begin. */
  lemma DroppedAtRest(l: Link, e: Event, envs: seq<Env>)
    requires l.http.state.Disconnected? && l.http.queue == [] && !IsBegin(e)
    ensures Deliver(l, e, envs) == l
  {
    var p := Post(l, e);
    assert p.http.queue == [e] && p.http.queue[1..] == [];
    assert Next(l.http.state, e).None?;
    assert Step(p, First(envs)) == l;
    assert Process(l, Rest(envs)) == l;
  }

  lemma StartedBalanced(l: Link, src: nat, deferred: bool, envs: seq<Env>, n: nat)
    requires Quiet(l) && l.http.state.Disconnected? && l.sess.src == src < SRC_INVALID && Balanced(l, n)
    ensures Balanced(Connect(l, src, deferred, envs), n)
  {
    hide Watch, Process, Starts;
    var p := StartPost(l, src, deferred);
    StartPosted(l, src, deferred);
    ProcessRests(p, envs);
    ProcessContinues(p, envs);
    ContinuesStarts(p.http.log, Process(p, envs).http.log);
    ProcessReleases(p, envs);
  }

  lemma ApplyBalanced(l: Link, i: Input, n: nat)
    requires Quiet(l) && Allowed(l, i) && Balanced(l, n)
    ensures Balanced(Apply(l, i), n + (if Accepts(l, i) then 1 else 0))
  {
    hide Watch, Connect, Deliver, Starts;
    match i
    case Begun(src, byText) =>
    case Started(src, deferred, envs) => StartedBalanced(l, src, deferred, envs, n);
    case Given(e, envs) => GivenBalanced(l, e, envs, n);
  }
  lemma {:induction false} RunKeeps(l: Link, inputs: seq<Input>, r: Link, n: nat)
    requires Quiet(l) && Balanced(l, n) && Run(l, inputs, r)
    ensures Quiet(r) && Balanced(r, n + Accepted(l, inputs))
    decreases |inputs|
  {
    hide Apply, Quiet, Balanced;
    if inputs != [] {
      ApplyKeeps(l, inputs[0]);
      ApplyBalanced(l, inputs[0], n);
      RunKeeps(Apply(l, inputs[0]), inputs[1..], r,
               n + Accepted(l, inputs) - Accepted(Apply(l, inputs[0]), inputs[1..]));
    }
  }

  /** After xrsr_http_init and xrsr_open. */
  predicate Fresh(l: Link)
  {
    l.http == Http(Disconnected, [], SRC_INVALID, NONE, EndOfSpeech, false, true, [])
  }

  /** Over every run - any number of sessions, spoken or by text - and at every moment of it: one stream end and
      then one session end for each session, and no second response timer.  Between the main loop's steps the
      machine never rests in Connecting and holds the timer exactly in Connected; every accepted begin has had
      its session, or its configuration is still awaited; and the group is held exactly then and while a session
      runs. */
  lemma SessionContract(l: Link, inputs: seq<Input>, r: Link, k: nat)
    requires Fresh(l) && l.sess.src == SRC_INVALID && Run(l, inputs, r) && k <= |r.http.log|
    ensures var p := r.http.log[..k];
            && SessionEnds(p) <= StreamEnds(p) <= Starts(p) <= SessionEnds(p) + 1
            && Removes(p) <= Inserts(p) <= Removes(p) + 1
    ensures var h, all := r.http, r.http.log;
            var running, waiting := !h.state.Disconnected?, Accepted(l, inputs) == Starts(all) + 1;
            && h.queue == [] && !h.state.Connecting?
            && (h.timer >= 0 <==> h.state.Connected?)
            && Starts(all) <= Accepted(l, inputs) <= Starts(all) + 1 && !(running && waiting)
            && (r.sess.src < SRC_INVALID <==> running || waiting)
            && (running ==> r.sess.src == h.src)
            && Starts(all) == SessionEnds(all) + (if running then 1 else 0)
            && Starts(all) == StreamEnds(all) + (if running && !h.state.Connected? then 1 else 0)
  {
    hide Watch, Run, Starts, StreamEnds, SessionEnds, Inserts, Removes, Accepted;
    assert Quiet(l) && Balanced(l, 0) by { FreshTied(l); }
    RunKeeps(l, inputs, r, 0);
    RestCounts(r, k);
    hide Quiet, Fresh;
  }

  lemma RestCounts(r: Link, k: nat)
    requires Quiet(r) && k <= |r.http.log|
    ensures var p := r.http.log[..k];
            && SessionEnds(p) <= StreamEnds(p) <= Starts(p) <= SessionEnds(p) + 1
            && Removes(p) <= Inserts(p) <= Removes(p) + 1
    ensures var h, all := r.http, r.http.log;
            var running := !h.state.Disconnected?;
            && h.queue == [] && !h.state.Connecting?
            && (h.timer >= 0 <==> h.state.Connected?)
            && (running ==> r.sess.src == h.src < SRC_INVALID)
            && Starts(all) == SessionEnds(all) + (if running then 1 else 0)
            && Starts(all) == StreamEnds(all) + (if running && !h.state.Connected? then 1 else 0)
  {
    hide Watch, Starts, StreamEnds, SessionEnds, Inserts, Removes;
    InOrderPrefixes(r.http.log, k, NONE);
    SessionCounts(r.http.log);
  }

  lemma FreshTied(l: Link)
    requires Fresh(l) && l.sess.src == SRC_INVALID
    ensures Quiet(l) && Balanced(l, 0)
  {}

  // ---- how a session ends ----

  /** What a session that ends in state s on event e is said to have ended for. */
  function ReasonFor(s: State, e: Event): SessionWhy
  {
    match e
    case TerminateEv => Terminated
    case EosEv => AudioDurationError
    case DisconnectedEv => ConnectFailure
    case TimeoutEv => SessionTimedOut
    case _ => if s.Streaming? then ConnectFailure else if s.TextOnlySession? then EndOfText else EndOfSpeech
  }

  lemma LastReportedAppend(log: seq<Call>, c: Call)
    ensures LastReported(log + [c]) == if c.SessionEnded? then Some(c.sessionWhy) else LastReported(log)
  {
    assert (log + [c])[..|log|] == log;
  }

  lemma ExitReason(l: Link, e: Event)
    requires Inv(l) && l.http.queue == [e] && Next(l.http.state, e) == Some(Disconnected)
    ensures Exit(Pop(l), e).http.reason == ReasonFor(l.http.state, e)
  {
    hide Watch;
  }

  lemma EnterReports(l: Link, env: Env)
    requires l.http.state.Disconnected? && l.sess.src == l.http.src < SRC_INVALID && l.http.timer < 0
    ensures LastReported(Enter(l, env).http.log) == Some(l.http.reason)
    ensures Enter(l, env).sess.src == SRC_INVALID
  {
    var told := Emit(l, DisconnectNotified(l.http.reason));
    LastReportedAppend(told.http.log, SessionEnded(l.http.reason));
    hide LastReported;
  }

  /** A dispatch that ends the session reports the reason of its event and releases the group. */
  lemma EndReported(l: Link, e: Event, envs: seq<Env>)
    requires Inv(l) && l.http.queue == [e] && Next(l.http.state, e) == Some(Disconnected)
    ensures var r := Process(l, envs);
            && r.http.state.Disconnected? && r.sess.src == SRC_INVALID
            && LastReported(r.http.log) == Some(ReasonFor(l.http.state, e))
  {
    var env := First(envs);
    ExitReason(l, e);
    LeaveTied(l, e);
    EnterReports(Leave(Pop(l), e, Disconnected), env);
    hide Watch, LastReported, Exit, ReasonFor, Enter;
    assert Step(l, env).http.queue == [];
    assert Process(Step(l, env), Rest(envs)) == Step(l, env);
  }

  /** TERMINATE at rest ends every running session: nothing is held and the group is free. */
  lemma TerminateLands(l: Link, envs: seq<Env>)
    requires Quiet(l)
    ensures var r := Deliver(l, TerminateEv, envs);
            && Quiet(r) && r.http.state.Disconnected? && r.http.timer < 0 && Seen(r).timers == {}
            && (if l.http.state.Disconnected? then r == l
                else r.sess.src == SRC_INVALID && LastReported(r.http.log) == Some(Terminated))
  {
    var p := Post(l, TerminateEv);
    PostKeeps(l, TerminateEv);
    ProcessRests(p, envs);
    if l.http.state.Disconnected? {
      assert Step(p, First(envs)) == l;
    } else {
      EndReported(p, TerminateEv, envs);
      hide Process;
    }
    hide Watch, LastReported, Step;
  }

  // ---- a run with a spoken session and then one by text ----

  /** A connection that is accepted at once leads to the state of the kind of session. */
  lemma ComesUp(l: Link, src: nat, env: Env)
    requires Quiet(l) && l.http.state.Disconnected? && l.sess.src == src < SRC_INVALID && env.connectOk
    ensures Connect(l, src, false, [env]).http.state == if l.http.byText then TextOnlySession else Streaming
  {
    hide Watch, Body;
    var p := StartPost(l, src, false);
    var c := Step(p, env);
    assert c.http.state.Connecting? && c.http.queue == [ConnectedEv];
    var s := Step(c, QUIET);
    assert s.http.state.Streaming? && s.http.queue == if l.http.byText then [TextSessionSuccess] else [];
    assert Rest([env]) == [];
    assert Process(p, [env]) == Process(s, []);
    if l.http.byText {
      var t := Step(s, QUIET);
      assert t.http.state.TextOnlySession? && t.http.queue == [];
      assert Process(s, []) == Process(t, []) == t;
    }
  }

  lemma RunStep(l: Link, i: Input, inputs: seq<Input>, r: Link)
    requires Allowed(l, i) && Run(Apply(l, i), inputs, r)
    ensures Run(l, [i] + inputs, r)
    ensures Accepted(l, [i] + inputs)
            == Accepted(Apply(l, i), inputs) + (if Accepts(l, i) then 1 else 0)
  {
    assert ([i] + inputs)[1..] == inputs;
    hide Apply;
  }

  /** The spoken session up to its end. */
  lemma Spoken(l: Link, env: Env) returns (a: Link, b: Link, c: Link)
    requires Quiet(l) && l.http.state.Disconnected? && l.sess.src == SRC_INVALID && env.connectOk
    ensures a == Apply(l, Begun(0, false)) && Allowed(a, Started(0, false, [env]))
    ensures b == Apply(a, Started(0, false, [env])) && b.http.state.Streaming?
    ensures c == Apply(b, Given(MsgRecv, [])) && Quiet(c) && c.http.state.Disconnected? && c.sess.src == SRC_INVALID
  {
    hide Watch, Body, Connect, Process, LastReported;
    a := Apply(l, Begun(0, false));
    b := Apply(a, Started(0, false, [env]));
    c := Apply(b, Given(MsgRecv, []));
    ApplyKeeps(l, Begun(0, false));
    ApplyKeeps(a, Started(0, false, [env]));
    ApplyKeeps(b, Given(MsgRecv, []));
    ComesUp(a, 0, env);
    PostKeeps(b, MsgRecv);
    EndReported(Post(b, MsgRecv), MsgRecv, []);
  }

  /** Runs hold more than one session, and sessions by text. */
  lemma TextAfterSpoken(l: Link)
    requires Fresh(l) && l.sess.src == SRC_INVALID
    ensures exists inputs, r :: Run(l, inputs, r) && Starts(r.http.log) == 2 && r.http.state.TextOnlySession?
  {
    hide Watch, Body, Connect, Deliver, Starts;
    var env := QUIET.(connectOk := true);
    FreshTied(l);
    var a, b, c := Spoken(l, env);
    var d := Apply(c, Begun(1, true));
    ApplyKeeps(c, Begun(1, true));
    ComesUp(d, 1, env);
    var r := Apply(d, Started(1, false, [env]));
    assert Allowed(d, Started(1, false, [env]));
    assert Allowed(c, Begun(1, true)) && Allowed(b, Given(MsgRecv, [])) && Allowed(l, Begun(0, false));
    hide Quiet, Apply;
    RunStep(d, Started(1, false, [env]), [], r);
    RunStep(c, Begun(1, true), [Started(1, false, [env])] + [], r);
    RunStep(b, Given(MsgRecv, []), [Begun(1, true)] + ([Started(1, false, [env])] + []), r);
    var late := [Given(MsgRecv, [])] + ([Begun(1, true)] + ([Started(1, false, [env])] + []));
    RunStep(a, Started(0, false, [env]), late, r);
    RunStep(l, Begun(0, false), [Started(0, false, [env])] + late, r);
    SessionContract(l, [Begun(0, false)] + ([Started(0, false, [env])] + late), r, 0);
  }
}
