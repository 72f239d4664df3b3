/** Every connect sequence ends: given a check interval above zero and a clock that moves on between two
    expiries of the timer, only so many expiries find a connection still trying. */
module WsProgress {
  import opened Types
  import opened Monitor
  import opened WsTables
  import opened WsSpec
  import opened WsIo
  import opened WsInvariant
  import opened WsRuns
  import opened WsInputs

  // ---- the budget ----

  /** How many check intervals a positive wait lasts. */
  function Intervals(x: int, interval: nat): nat
    requires interval > 0
    decreases if x > 0 then x else 0
  {
    if x <= 0 then 0 else 1 + Intervals(x - interval, interval)
  }

  /** It is the ceiling of the quotient. */
  lemma {:induction false} IntervalsCeil(x: int, interval: nat)
    requires interval > 0
    ensures if x <= 0 then Intervals(x, interval) == 0
            else x <= interval * Intervals(x, interval) < x + interval
    decreases if x > 0 then x else 0
  {
    if x > 0 {
      var k := Intervals(x - interval, interval);
      IntervalsCeil(x - interval, interval);
      assert interval * (1 + k) == interval + interval * k;
    }
  }

  /** States that hold a timer and try to connect. */
  predicate Trying(s: State) { s.Connecting? || s.Connected? || s.ConnectionRetry? }

  /** States between the start of a session and the moment it is up or over. */
  predicate Attempting(s: State) { s.Buffering? || Trying(s) }

  /** Parameters of a real configuration, and a wait counter that stays above minus one interval. */
  predicate InBudget(w: Ws)
  {
    && 0 < w.cfg.interval < 0x8000_0000 && w.cfg.timeoutConnect < 0x8000_0000
    && 0 < w.wait + w.cfg.interval && w.wait <= w.cfg.timeoutConnect
  }

  function Full(w: Ws): nat
    requires InBudget(w)
  {
    Intervals(w.cfg.timeoutConnect, w.cfg.interval)
  }

  function Left(w: Ws): nat
    requires InBudget(w)
  {
    Intervals(w.wait, w.cfg.interval)
  }

  function Remaining(deadline: nat, now: nat): nat { if now < deadline then deadline - now else 0 }

  /** At time t, how many more expiries can find the connection trying to connect.  A queued event counts
      as the state it leads to. */
  function Rank(w: Ws, t: nat): nat
    requires InBudget(w)
  {
    if w.queue == [ConnectedEv] then Full(w)
    else if w.queue == [RetryEv] then Full(w) + 2 + 2 * Remaining(w.deadline, t) + Left(w)
    else if w.queue != [] && w.queue != [EosPipe] then 0
    else
      match w.state
      case Connected => Left(w)
      case Connecting => Full(w) + 1 + 2 * Remaining(w.deadline, t) + Left(w)
      case ConnectionRetry | Buffering => Full(w) + 2 + 2 * Remaining(w.deadline, t) + Left(w)
      case _ => 0
  }

  /** How many more check intervals can be taken out of the two budgets. */
  function Reserve(w: Ws): nat
    requires InBudget(w)
  {
    if w.queue == [ConnectedEv] then Full(w)
    else if w.state.Connected? then Left(w)
    else Full(w) + Left(w)
  }

  /** A connection that attempts to connect, or will once its queued event is dispatched. */
  predicate Heading(w: Ws)
  {
    w.queue == [ConnectedEv] || w.queue == [RetryEv] || ((w.queue == [] || w.queue == [EosPipe]) && Attempting(w.state))
  }

  // ---- what a dispatch does to the budget ----

  predicate Reschedules(w: Ws, e: Event, env: Env)
  {
    && e.TimeoutEv? && w.wait > 0
    && ((w.state.Connecting? && !env.connOk) || (w.state.Connected? && !(w.conn && env.ready)))
  }

  function WaitAfter(w: Ws, e: Event, env: Env): int
  {
    if Reschedules(w, e, env) then ToInt32(w.wait - w.cfg.interval)
    else if Next(w.state, e) == Some(Connected) && !w.state.Connected? then ToInt32(w.cfg.timeoutConnect)
    else w.wait
  }

  predicate SameBudget(a: Ws, b: Ws) { b.cfg == a.cfg && b.deadline == a.deadline && b.wait == a.wait }

  lemma StopTimerBudget(l: Link)
    ensures SameBudget(l.ws, StopTimer(l).ws)
  {}

  lemma ClosePipeBudget(l: Link)
    ensures SameBudget(l.ws, ClosePipe(l).ws)
  {}

  lemma StreamEndBudget(l: Link)
    ensures SameBudget(l.ws, StreamEnd(l).ws)
  {
    var m := SpeechStreamEnd(l, l.ws.streamWhy);
    assert SameBudget(l.ws, m.ws);
    ClosePipeBudget(m);
    hide ClosePipe, SpeechStreamEnd;
  }

  lemma LeaveKeepsBudget(l: Link, e: Event, t: State)
    ensures SameBudget(l.ws, Leave(l, e, t).ws)
  {
    hide LeavingFor, StopTimer, StreamEnd;
    var d := LeavingFor(l.ws.state, e, l.ws.closeStatus, Leaving(l.ws.streamWhy, l.ws.sessionWhy, false));
    var r := Reasons(l, d.streamWhy, d.sessionWhy);
    StreamEndBudget(r);
    StopTimerBudget(r);
    StopTimerBudget(StreamEnd(r));
  }

  lemma DisconnectedKeepsBudget(l: Link, resume: bool)
    ensures SameBudget(l.ws, EnterDisconnected(l, resume).ws)
  {
    hide ClosePipe;
    var told := Emit(l, DisconnectNotified(l.ws.sessionWhy));
    var m := SessionEnd(told.(ws := told.ws.(resume := resume)), l.ws.sessionWhy);
    assert SameBudget(l.ws, m.ws);
    hide SessionEnd;
    ClosePipeBudget(m.(ws := m.ws.(socket := NONE, timer := NONE, src := SRC_INVALID,
                                   tx := m.ws.tx.(pending := false, retries := 0),
                                   resume := true, onClose := false, retryCnt := 1, byText := false, msgs := [])));
  }

  lemma EnterKeepsBudget(l: Link, env: Env)
    ensures var r := Enter(l, env).ws;
            SameBudget(l.ws.(wait := if l.ws.state.Connected? then ToInt32(l.ws.cfg.timeoutConnect) else l.ws.wait), r)
  {
    hide RetryDelay, ToInt32, Min, EnterDisconnected, InsertTimer;
    DisconnectedKeepsBudget(l, env.resume);
    InsertBudget(l.(ws := l.ws.(conn := true)), env, env.now + l.ws.cfg.interval);
    InsertBudget(l.(ws := l.ws.(wait := ToInt32(l.ws.cfg.timeoutConnect))), env, env.now + l.ws.cfg.interval);
    InsertBudget(l, env, env.now + l.ws.cfg.timeoutInactivity);
    var n := (l.ws.retryCnt + 1) % 0x1_0000_0000;
    InsertBudget(l.(ws := l.ws.(retryCnt := n)), env,
                 Min(env.now + RetryDelay(l.ws.cfg.backoff, n, env.rnd), l.ws.deadline));
  }

  lemma InsertBudget(l: Link, env: Env, at: nat)
    ensures SameBudget(l.ws, InsertTimer(l, env, at).ws)
  {}

  lemma EffectBudget(l: Link, e: Event, env: Env)
    ensures SameBudget(l.ws.(wait := WaitAfter(l.ws, e, env)), Effect(l, e, env).ws)
  {
    var n := Next(l.ws.state, e);
    if n.Some? && n.value != l.ws.state {
      LeaveKeepsBudget(l, e, n.value);
      EnterKeepsBudget(Leave(l, e, n.value), env);
      TimeoutMoves(l.ws.state, e);
      hide Leave, Enter, ToInt32, Next, Internal;
    } else {
      InternalBudget(l, e, env);
      hide Leave, Enter, ToInt32, Next, Internal;
    }
  }

  lemma InternalBudget(l: Link, e: Event, env: Env)
    ensures Next(l.ws.state, e) == Some(l.ws.state) ==>
              SameBudget(l.ws.(wait := WaitAfter(l.ws, e, env)), Internal(l, e, env).ws)
    ensures Next(l.ws.state, e) == None ==> WaitAfter(l.ws, e, env) == l.ws.wait
  {
    hide ToInt32;
  }

  lemma TimeoutMoves(s: State, e: Event)
    requires Next(s, e).Some? && Next(s, e).value != s
    ensures s.Connecting? || s.Connected? ==> !e.TimeoutEv?
  {}

  // ---- updates of the timer ----

  lemma EmitUpdates(l: Link, c: Call)
    ensures Updates(Emit(l, c).ws.log) == Updates(l.ws.log) + (if c.TimerUpdated? then 1 else 0)
  {
    UpdatesAppend(l.ws.log, c);
  }

  lemma ClosePipeUpdates(l: Link)
    ensures Updates(ClosePipe(l).ws.log) == Updates(l.ws.log)
  {
    EmitUpdates(l, PipeClosed(l.ws.pipe));
    hide Updates;
  }

  lemma LeaveUpdates(l: Link, e: Event, t: State)
    ensures Updates(Leave(l, e, t).ws.log) == Updates(l.ws.log)
  {
    hide Updates, LeavingFor;
    var d := LeavingFor(l.ws.state, e, l.ws.closeStatus, Leaving(l.ws.streamWhy, l.ws.sessionWhy, false));
    var r := Reasons(l, d.streamWhy, d.sessionWhy);
    var s := SpeechStreamEnd(r, r.ws.streamWhy);
    EmitUpdates(r.(sess := r.sess.(pipeFd := NONE, firstStreamReq := true)), StreamEnded(r.ws.streamWhy));
    ClosePipeUpdates(s);
    var m := if d.endsStream then StreamEnd(r) else r;
    EmitUpdates(m, TimerRemoved(m.ws.timer));
    hide Emit, ClosePipe;
  }

  lemma EnterUpdates(l: Link, env: Env)
    ensures Updates(Enter(l, env).ws.log) == Updates(l.ws.log)
  {
    hide Updates, RetryDelay, ToInt32, Min, EnterDisconnected, InsertTimer, Emit;
    match l.ws.state
    case Disconnected => EnterDisconnectedUpdates(l, env.resume);
    case Disconnecting => EmitUpdates(l, ConnectionClosed);
    case Streaming =>
      EmitUpdates(l, ConnectNotified);
      EmitUpdates(Emit(l, ConnectNotified), StreamBegan);
    case Connecting => InsertUpdates(l.(ws := l.ws.(conn := true)), env, env.now + l.ws.cfg.interval);
    case Connected =>
      InsertUpdates(l.(ws := l.ws.(wait := ToInt32(l.ws.cfg.timeoutConnect))), env, env.now + l.ws.cfg.interval);
    case Established => InsertUpdates(l, env, env.now + l.ws.cfg.timeoutInactivity);
    case ConnectionRetry =>
      var n := (l.ws.retryCnt + 1) % 0x1_0000_0000;
      InsertUpdates(l.(ws := l.ws.(retryCnt := n)), env,
                    Min(env.now + RetryDelay(l.ws.cfg.backoff, n, env.rnd), l.ws.deadline));
    case _ =>
  }

  lemma InsertUpdates(l: Link, env: Env, at: nat)
    ensures Updates(InsertTimer(l, env, at).ws.log) == Updates(l.ws.log)
  {
    EmitUpdates(l.(ws := l.ws.(timer := env.timerId)), TimerInserted(env.timerId, at));
  }

  lemma EnterDisconnectedUpdates(l: Link, resume: bool)
    ensures Updates(EnterDisconnected(l, resume).ws.log) == Updates(l.ws.log)
  {
    hide Updates;
    var told := Emit(l, DisconnectNotified(l.ws.sessionWhy));
    EmitUpdates(l, DisconnectNotified(l.ws.sessionWhy));
    var t := told.(ws := told.ws.(resume := resume));
    EmitUpdates(t, SessionEnded(l.ws.sessionWhy));
    var m := SessionEnd(t, l.ws.sessionWhy);
    ClosePipeUpdates(m.(ws := m.ws.(socket := NONE, timer := NONE, src := SRC_INVALID,
                                   tx := m.ws.tx.(pending := false, retries := 0),
                                   resume := true, onClose := false, retryCnt := 1, byText := false, msgs := [])));
    hide ClosePipe, Emit;
  }

  /** Outside Established the only updates of a timer are reschedules. */
  lemma EffectUpdates(l: Link, e: Event, env: Env)
    requires !l.ws.state.Established?
    ensures Updates(Effect(l, e, env).ws.log)
            <= Updates(l.ws.log) + (if Reschedules(l.ws, e, env) then 1 else 0)
  {
    hide Updates, ToInt32;
    var n := Next(l.ws.state, e);
    if n.Some? {
      if n.value != l.ws.state {
        LeaveUpdates(l, e, n.value);
        EnterUpdates(Leave(l, e, n.value), env);
        hide Leave, Enter;
      } else {
        var w := l.ws.(wait := ToInt32(l.ws.wait - l.ws.cfg.interval));
        EmitUpdates(l.(ws := w), TimerUpdated(w.timer, env.now + w.cfg.interval));
      }
    }
  }

  // ---- one dispatch ----

  /** What a dispatch leaves of the two measures, from time lo to time hi. */
  predicate Progress(a: Ws, lo: nat, b: Ws, hi: nat, strictly: bool)
    requires InBudget(a)
  {
    Heading(b) ==>
      && InBudget(b) && b.cfg == a.cfg
      && Updates(b.log) + Reserve(b) <= Updates(a.log) + Reserve(a)
      && (if strictly then Rank(b, hi) < Rank(a, lo) else Rank(b, hi) <= Rank(a, lo))
  }

  lemma BudgetAfter(w: Ws, e: Event, env: Env)
    requires InBudget(w)
    ensures InBudget(w.(wait := WaitAfter(w, e, env)))
    ensures Reschedules(w, e, env) ==> WaitAfter(w, e, env) == w.wait - w.cfg.interval
    ensures Next(w.state, e) == Some(Connected) && !w.state.Connected? ==> WaitAfter(w, e, env) == w.cfg.timeoutConnect
  {}

  /** What an expiry posts. */
  function ExpiryPosts(w: Ws, env: Env): seq<Event>
  {
    var giveUp := if env.now >= w.deadline then ConnectTimeout else RetryEv;
    match w.state
    case Connecting => if env.connOk then [ConnectedEv] else if w.wait <= 0 then [giveUp] else []
    case Connected =>
      if w.conn && env.ready then [EstablishedEv] else if w.wait <= 0 then [EstablishTimeout] else []
    case _ => if env.connectOk then [] else [giveUp]
  }

  /** The expiry of the timer of a trying connection, as far as the measures see it. */
  predicate Expired(w: Ws, env: Env, r: Ws)
  {
    && r.cfg == w.cfg && r.deadline == w.deadline && r.queue == ExpiryPosts(w, env)
    && r.wait == (if Reschedules(w, TimeoutEv, env) then w.wait - w.cfg.interval else w.wait)
    && r.state == (if w.state.ConnectionRetry? then Connecting else w.state)
    && Updates(r.log) <= Updates(w.log) + (if Reschedules(w, TimeoutEv, env) then 1 else 0)
  }

  lemma StepExpires(l: Link, env: Env)
    requires Inv(l) && l.ws.queue == [TimeoutEv] && Trying(l.ws.state) && InBudget(l.ws)
    ensures Expired(Pop(l).ws, env, Step(l, env).ws)
  {
    hide Body, Updates, ToInt32, Intervals, Resting;
    var p := Pop(l);
    QueueStaysShort(l, env);
    StepTargets(p, TimeoutEv, env);
    EffectBudget(p, TimeoutEv, env);
    EffectUpdates(p, TimeoutEv, env);
    BudgetAfter(p.ws, TimeoutEv, env);
    TimeoutPosts(p, env);
    TimeoutLeadsOn(p.ws.state);
    hide Effect, Posts, WaitAfter, Next;
  }

  lemma TimeoutLeadsOn(s: State)
    requires Trying(s)
    ensures Next(s, TimeoutEv) == Some(if s.ConnectionRetry? then Connecting else s)
  {}

  lemma ExpiredProgress(w: Ws, env: Env, r: Ws, lo: nat, hi: nat)
    requires Expired(w, env, r) && w.queue == [] && Trying(w.state) && InBudget(w)
    requires lo < env.now <= hi
    ensures Progress(w, lo, r, hi, true)
  {
    hide Updates, Intervals;
    IntervalsStep(w);
    var q := ExpiryPosts(w, env);
    assert q == [] || (|q| == 1 && q[0] in {ConnectedEv, RetryEv, ConnectTimeout, EstablishedEv, EstablishTimeout});
    if Heading(r) {
      assert q == [] || q[0] in {ConnectedEv, RetryEv};
      assert InBudget(r);
    }
  }

  lemma IntervalsStep(w: Ws)
    requires InBudget(w)
    ensures w.wait > 0 ==> Intervals(w.wait, w.cfg.interval) == 1 + Intervals(w.wait - w.cfg.interval, w.cfg.interval)
    ensures w.wait <= 0 ==> Intervals(w.wait, w.cfg.interval) == 0
  {}

  lemma TimeoutPosts(l: Link, env: Env)
    requires Trying(l.ws.state)
    ensures var p := Posts(l, TimeoutEv, env);
            ExpiryPosts(l.ws, env) == (if p.Some? then [p.value] else [])
  {
    LeaveKeepsBudget(l, TimeoutEv, Connecting);
    hide Exit;
  }

  // ---- whole processing runs ----

  /** An internal event, as far as the measures see it. */
  predicate LedOn(w: Ws, e: Event, r: Ws)
  {
    if e.ConnectedEv? || e.RetryEv? then
      && r.queue == [] && r.cfg == w.cfg && r.deadline == w.deadline
      && Updates(r.log) <= Updates(w.log)
      && r.state == (if e.ConnectedEv? then Connected else ConnectionRetry)
      && r.wait == (if e.ConnectedEv? then w.cfg.timeoutConnect else w.wait)
    else !Heading(r)
  }

  lemma StepLeadsOn(l: Link, env: Env)
    requires Inv(l) && |l.ws.queue| == 1 && IsInternal(l.ws.queue[0])
    requires Heading(l.ws) ==> InBudget(l.ws)
    ensures LedOn(l.ws, l.ws.queue[0], Step(l, env).ws)
  {
    hide Body, Updates, ToInt32, Intervals, Resting, RetriesBounded, WaitAfter, Effect, Posts;
    var p, e := Pop(l), l.ws.queue[0];
    QueueStaysShort(l, env);
    HeadFits(l);
    StepTargets(p, e, env);
    PostedLeadsOn(p, e, env);
    assert l.ws.queue == [e];
    hide Fits, QueueTied, Next;
    if e.ConnectedEv? || e.RetryEv? {
      EffectBudget(p, e, env);
      BudgetAfter(p.ws, e, env);
      EffectUpdates(p, e, env);
      RetryKeepsWait(p.ws, env);
    } else {
      var r, posted := Step(l, env).ws, Posts(p, e, env);
      assert r.queue == (if posted.Some? then [posted.value] else []);
      if r.queue != [] { assert r.queue[0] == posted.value; }
      assert !Attempting(r.state);
    }
  }

  lemma RetryKeepsWait(w: Ws, env: Env)
    ensures w.state.Connecting? ==> WaitAfter(w, RetryEv, env) == w.wait
  {}

  /** An internal event leads where the measures already counted it. */
  lemma PostedProgress(l: Link, env: Env, t: nat)
    requires Inv(l) && |l.ws.queue| == 1 && IsInternal(l.ws.queue[0])
    requires Heading(l.ws) ==> InBudget(l.ws)
    ensures Heading(Step(l, env).ws) ==> Heading(l.ws) && Progress(l.ws, t, Step(l, env).ws, t, false)
  {
    StepLeadsOn(l, env);
    hide Body, Updates, ToInt32, Intervals, Resting, RetriesBounded, QueueTied, Step;
    assert l.ws.queue == [l.ws.queue[0]];
  }

  lemma PostedLeadsOn(l: Link, e: Event, env: Env)
    requires IsInternal(e) && PostedIn(l.ws, e)
    ensures e.ConnectedEv? ==> Next(l.ws.state, e) == Some(Connected) && Posts(l, e, env).None?
    ensures e.RetryEv? ==> Next(l.ws.state, e) == Some(ConnectionRetry) && Posts(l, e, env).None?
    ensures !e.ConnectedEv? && !e.RetryEv? ==>
              && Next(l.ws.state, e).Some? && !Attempting(Next(l.ws.state, e).value)
              && (var p := Posts(l, e, env); p.Some? ==> !p.value.ConnectedEv? && !p.value.RetryEv?)
  {
    hide Exit;
  }

  lemma ProgressChain(a: Ws, lo: nat, b: Ws, hi: nat, c: Ws, strictly: bool)
    requires InBudget(a) && Progress(a, lo, b, hi, strictly)
    requires Heading(c) ==> Heading(b) && InBudget(b) && Progress(b, hi, c, hi, false)
    ensures Progress(a, lo, c, hi, strictly)
  {
    hide Updates, Intervals, Heading, Rank, Reserve;
  }

  /** ... and so does the rest of the run. */
  lemma {:induction false} ProcessProgress(l: Link, envs: seq<Env>, t: nat)
    requires Inv(l) && (l.ws.queue == [] || (|l.ws.queue| == 1 && IsInternal(l.ws.queue[0])))
    requires Heading(l.ws) ==> InBudget(l.ws)
    ensures Heading(Process(l, envs).ws) ==> Heading(l.ws) && Progress(l.ws, t, Process(l, envs).ws, t, false)
    decreases QueueCost(l.ws.queue)
  {
    hide Body, Updates, Intervals, QueueTied, Step, Rank, Reserve;
    if l.ws.queue != [] {
      var env, r := First(envs), Process(l, envs);
      var s := Step(l, env);
      StepKeeps(l, env);
      StepCost(l, env);
      QueueStaysShort(l, env);
      PostsNoBegin(Pop(l), l.ws.queue[0], env);
      PostedProgress(l, env, t);
      assert l.ws.queue[1..] == [];
      hide Posts, Heading;
      ProcessProgress(s, Rest(envs), t);
      if Heading(r.ws) { ProgressChain(l.ws, t, s.ws, t, r.ws, false); }
    }
  }

  // ---- the inputs of the main loop ----

  /** The clock readings of one expiry: after lo and not after hi. */
  predicate Timed(envs: seq<Env>, lo: nat, hi: nat)
  {
    |envs| >= 2 && forall i :: 0 <= i < |envs| ==> lo < envs[i].now <= hi
  }

  /** A late EOS_PIPE means nothing to a connection that is not up. */
  lemma LatePipeDropped(l: Link, e: Event, env: Env)
    requires l.ws.queue == [EosPipe, e] && Next(l.ws.state, EosPipe).None?
    ensures Step(l, env) == l.(ws := l.ws.(queue := [e]))
  {
    hide Next;
  }

  lemma AttemptingDrops(s: State)
    requires Attempting(s)
    ensures Next(s, EosPipe).None? && (s.Buffering? || (Next(s, EosEv).None? && Next(s, StmEv).None?))
  {}

  /** An expiry brings a trying connection closer to its end. */
  lemma ExpiryProgress(l: Link, envs: seq<Env>, lo: nat, hi: nat)
    requires Quiet(l) && Trying(l.ws.state) && InBudget(l.ws) && Timed(envs, lo, hi)
    ensures Progress(l.ws, lo, Deliver(l, TimeoutEv, envs).ws, hi, true)
  {
    hide Process, Body, Updates, Intervals, Rank, Reserve, Step;
    PostKeeps(l, TimeoutEv);
    AttemptingDrops(l.ws.state);
    var p := Post(l, TimeoutEv);
    var q := l.(ws := l.ws.(queue := [TimeoutEv]));
    if l.ws.queue == [] {
      assert p == q;
      ExpiryRun(l, q, envs, lo, hi);
    } else {
      assert p.ws.queue == [EosPipe, TimeoutEv];
      LatePipeDropped(p, TimeoutEv, First(envs));
      StepKeeps(p, First(envs));
      assert Process(p, envs) == Process(q, Rest(envs)) by { ProcessStep(p, envs); }
      ExpiryRun(l, q, Rest(envs), lo, hi);
    }
  }

  lemma ExpiryRun(l: Link, q: Link, envs: seq<Env>, lo: nat, hi: nat)
    requires q == l.(ws := l.ws.(queue := [TimeoutEv])) && (l.ws.queue == [] || l.ws.queue == [EosPipe])
    requires Inv(q) && Trying(l.ws.state) && InBudget(l.ws) && envs != [] && lo < envs[0].now <= hi
    ensures Progress(l.ws, lo, Process(q, envs).ws, hi, true)
  {
    hide Body, Updates, Intervals, Step, QueueTied, Progress, Process;
    var env, idle := First(envs), l.ws.(queue := []);
    StepExpires(q, env);
    assert Pop(q).ws == idle;
    var s := Step(q, env);
    ExpiredProgress(idle, env, s.ws, lo, hi);
    StepKeeps(q, env);
    assert s.ws.queue == [] || (|s.ws.queue| == 1 && IsInternal(s.ws.queue[0]));
    hide Expired, ExpiryPosts;
    ExpiryRest(idle, lo, s, Rest(envs), hi);
    ProcessStep(q, envs);
    IdleMeasures(l.ws, lo, Process(q, envs).ws, hi);
  }

  lemma ExpiryRest(w: Ws, lo: nat, s: Link, envs: seq<Env>, hi: nat)
    requires InBudget(w) && Progress(w, lo, s.ws, hi, true)
    requires Inv(s) && (s.ws.queue == [] || (|s.ws.queue| == 1 && IsInternal(s.ws.queue[0])))
    ensures Progress(w, lo, Process(s, envs).ws, hi, true)
  {
    hide Body, Updates, Intervals, QueueTied, Rank, Reserve, Heading, Process;
    ProcessProgress(s, envs, hi);
    ProgressChain(w, lo, s.ws, hi, Process(s, envs).ws, true);
  }

  lemma IdleMeasures(w: Ws, lo: nat, r: Ws, hi: nat)
    requires InBudget(w) && (w.queue == [] || w.queue == [EosPipe]) && Trying(w.state)
    requires Progress(w.(queue := []), lo, r, hi, true)
    ensures Progress(w, lo, r, hi, true)
  {
    hide Updates, Intervals, Heading;
    assert Rank(w, lo) == Rank(w.(queue := []), lo) && Reserve(w) == Reserve(w.(queue := []));
  }

  // ---- the start of a connect sequence ----

  predicate Opens(w: Ws, e: Event) { (w.state.Buffering? && e.StmEv?) || (w.state.Disconnected? && IsBegin(e)) }

  /** The measures when an attempt begins. */
  predicate Opened(w: Ws, t: nat, r: Ws)
    requires InBudget(w)
  {
    Heading(r) ==>
      && InBudget(r) && r.cfg == w.cfg
      && Updates(r.log) + Reserve(r) <= Updates(w.log) + Full(w) + Left(w)
      && Rank(r, t) <= Full(w) + 2 + 2 * Remaining(w.deadline, t) + Left(w)
  }

  lemma OpeningPosts(l: Link, e: Event, env: Env)
    requires Opens(l.ws, e)
    ensures Next(l.ws.state, e) in {Some(Connecting), Some(Buffering)}
    ensures Next(l.ws.state, e) != Some(l.ws.state)
    ensures Posts(l, e, env) in {None, Some(RetryEv), Some(ConnectTimeout)}
    ensures WaitAfter(l.ws, e, env) == l.ws.wait
  {
    hide Exit, ToInt32;
  }

  lemma StepOpens(l: Link, env: Env, t: nat)
    requires Inv(l) && |l.ws.queue| == 1 && Opens(l.ws, l.ws.queue[0]) && InBudget(l.ws)
    ensures Opened(l.ws, t, Step(l, env).ws)
    ensures var q := Step(l, env).ws.queue; q == [] || (|q| == 1 && IsInternal(q[0]))
  {
    hide Body, Updates, ToInt32, Intervals, Resting, RetriesBounded, WaitAfter, Effect, Posts, QueueTied;
    var p, e := Pop(l), l.ws.queue[0];
    QueueStaysShort(l, env);
    StepTargets(p, e, env);
    OpeningPosts(p, e, env);
    EffectBudget(p, e, env);
    EffectUpdates(p, e, env);
    hide Next;
    var r, posted := Step(l, env).ws, Posts(p, e, env);
    assert r.queue == (if posted.Some? then [posted.value] else []);
    if r.queue != [] { assert r.queue[0] == posted.value; }
  }

  lemma ProcessOpens(l: Link, envs: seq<Env>, t: nat)
    requires Inv(l) && |l.ws.queue| == 1 && Opens(l.ws, l.ws.queue[0]) && InBudget(l.ws)
    ensures Opened(l.ws, t, Process(l, envs).ws)
  {
    hide Body, Updates, Intervals, QueueTied, Step, Rank, Reserve;
    var s := Step(l, First(envs));
    StepOpens(l, First(envs), t);
    StepKeeps(l, First(envs));
    ProcessProgress(s, Rest(envs), t);
    ProcessStep(l, envs);
    hide Heading, Process;
  }

  // ---- runs of a connect sequence ----

  /** An input and the time after it. */
  datatype Tick = Tick(input: Input, at: nat)

  /** The clock does not go back, and moves on from one expiry of an outstanding timer to the next. */
  predicate Ticks(l: Link, t: nat, k: Tick)
  {
    && Allowed(l, k.input) && t <= k.at
    && (k.input.TimerFired? ==> l.ws.timer >= 0 && Timed(k.input.envs, t, k.at))
  }

  lemma RankLater(w: Ws, t: nat, u: nat)
    requires InBudget(w) && t <= u
    ensures Rank(w, u) <= Rank(w, t)
  {
    hide Intervals;
  }

  lemma DropStep(l: Link, e: Event, env: Env)
    requires l.ws.queue == [e] && Next(l.ws.state, e).None?
    ensures Step(l, env) == l.(ws := l.ws.(queue := []))
  {
    hide Next;
  }

  lemma DropRun(l: Link, e: Event, envs: seq<Env>)
    requires l.ws.queue == [e] && Next(l.ws.state, e).None?
    ensures Process(l, envs) == l.(ws := l.ws.(queue := []))
  {
    DropStep(l, e, First(envs));
    ProcessStep(l, envs);
    hide Next, Step;
  }

  /** Delivering an event that means nothing here only empties the queue. */
  lemma DroppedDeliver(l: Link, e: Event, envs: seq<Env>)
    requires Resting(l.ws) && Next(l.ws.state, e).None? && Next(l.ws.state, EosPipe).None?
    ensures Deliver(l, e, envs) == l.(ws := l.ws.(queue := []))
  {
    hide Next, Process, Step;
    var p := Post(l, e);
    if l.ws.queue == [] {
      DropRun(p, e, envs);
      assert p == l.(ws := l.ws.(queue := [e]));
    } else {
      assert p.ws.queue == [EosPipe, e];
      LatePipeDropped(p, e, First(envs));
      ProcessStep(p, envs);
      DropRun(l.(ws := l.ws.(queue := [e])), e, Rest(envs));
    }
  }

  /** Inputs without the timer that only touch fields the measures do not look at. */
  lemma UnmeasuredKeeps(w: Ws, r: Ws, t: nat)
    requires InBudget(w) && Attempting(w.state) && (w.queue == [] || w.queue == [EosPipe])
    requires r.state == w.state && r.cfg == w.cfg && r.wait == w.wait && r.deadline == w.deadline
    requires r.queue == w.queue || r.queue == []
    requires Updates(r.log) == Updates(w.log)
    ensures Progress(w, t, r, t, false)
  {
    hide Updates, Intervals;
  }

  lemma SpeechProgress(l: Link, e: SpeechEvent, envs: seq<Env>, t: nat)
    requires Quiet(l) && Attempting(l.ws.state) && InBudget(l.ws)
    ensures Progress(l.ws, t, Speech(l, e, envs).ws, t, false)
  {
    hide Body, Process, Updates, Intervals, Rank, Reserve;
    AttemptingDrops(l.ws.state);
    if e.SpeechKeyword? {
      var m := l.(ws := l.ws.(tx := l.ws.tx.(kwdNotified := false, kwdBytes := e.bytes)));
      EmitUpdates(m, KeywordInfo(e.bytes));
      UnmeasuredKeeps(l.ws, Speech(l, e, envs).ws, t);
    } else {
      var m := if e.SpeechEos? then l else l.(ws := l.ws.(stm := true));
      var v := if e.SpeechEos? then EosEv else StmEv;
      assert Speech(l, e, envs) == Deliver(m, v, envs);
      if !l.ws.state.Buffering? {
        DroppedDeliver(m, v, envs);
        UnmeasuredKeeps(l.ws, Speech(l, e, envs).ws, t);
      } else {
        assert Quiet(m) by { StmQuiet(l, m.ws.stm); }
        BufferingProgress(m, v, envs, t);
        assert Rank(l.ws, t) == Rank(m.ws, t) && Reserve(l.ws) == Reserve(m.ws) by { StmUnmeasured(l.ws, m.ws.stm, t); }
      }
    }
  }

  lemma StmQuiet(l: Link, stm: bool)
    requires Quiet(l)
    ensures Quiet(l.(ws := l.ws.(stm := stm)))
  {
    hide Watch;
  }

  lemma StmUnmeasured(w: Ws, stm: bool, t: nat)
    requires InBudget(w)
    ensures Rank(w.(stm := stm), t) == Rank(w, t) && Reserve(w.(stm := stm)) == Reserve(w)
  {
    hide Intervals;
  }

  /** Buffering ends in a connect sequence or at once. */
  lemma BufferingProgress(l: Link, e: Event, envs: seq<Env>, t: nat)
    requires Quiet(l) && l.ws.state.Buffering? && InBudget(l.ws) && (e.StmEv? || e.EosEv?)
    ensures Progress(l.ws, t, Deliver(l, e, envs).ws, t, false)
  {
    hide Body, Process, Updates, Intervals, Step, QueueTied, Progress, Fits;
    PostKeeps(l, e);
    AttemptingDrops(l.ws.state);
    hide Next;
    var p := Post(l, e);
    var q := l.(ws := l.ws.(queue := [e]));
    var rest := envs;
    if l.ws.queue != [] {
      assert p.ws.queue == [EosPipe, e];
      LatePipeDropped(p, e, First(envs));
      StepKeeps(p, First(envs));
      ProcessStep(p, envs);
      rest := Rest(envs);
    } else {
      assert p == q;
    }
    assert Deliver(l, e, envs) == Process(q, rest);
    BufferingRun(l.ws, q, e, rest, t);
  }

  lemma BufferingRun(w: Ws, q: Link, e: Event, envs: seq<Env>, t: nat)
    requires Inv(q) && q.ws == w.(queue := [e]) && w.state.Buffering? && InBudget(w) && (e.StmEv? || e.EosEv?)
    requires w.queue == [] || w.queue == [EosPipe]
    ensures Progress(w, t, Process(q, envs).ws, t, false)
  {
    hide Body, Process, Updates, Intervals, QueueTied, Heading;
    if e.StmEv? {
      ProcessOpens(q, envs, t);
      assert Full(w) + 2 + 2 * Remaining(w.deadline, t) + Left(w) == Rank(w, t);
    } else {
      EosEndsBuffering(q, envs);
      NotHeading(Process(q, envs).ws);
    }
  }

  lemma NotHeading(w: Ws)
    requires w.state.Disconnected? && w.queue == []
    ensures !Heading(w)
  {}

  lemma EosEndsBuffering(l: Link, envs: seq<Env>)
    requires Inv(l) && l.ws.queue == [EosEv] && l.ws.state.Buffering?
    ensures Process(l, envs).ws.state.Disconnected? && Process(l, envs).ws.queue == []
  {
    hide Body, Step;
    StepTargets(Pop(l), EosEv, First(envs));
    StepKeeps(l, First(envs));
    NotStarting(l, First(envs));
    DrainsToDisconnected(Step(l, First(envs)), Rest(envs));
    ProcessRests(l, envs);
    ProcessStep(l, envs);
    hide Process;
  }

  lemma NotStarting(l: Link, env: Env)
    requires Inv(l) && l.ws.queue == [EosEv] && l.ws.state.Buffering?
    ensures Step(l, env).ws.state.Disconnected? && !Starting(Step(l, env).ws)
  {
    hide Body, Effect, Posts;
    StepTargets(Pop(l), EosEv, env);
    QueueStaysShort(l, env);
    PostsNoBegin(Pop(l), EosEv, env);
  }

  /** The descriptors have nothing for a connection that is not up. */
  lemma FdsIdle(l: Link, r: Ready, io: Io, a: Answers)
    requires Quiet(l) && Attempting(l.ws.state) && Reportable(l.ws, r)
    ensures HandleFds(l, r, io, a) == l
  {
    LivePipe(l);
    hide Quiet, ReadPending, WritePass, AudioPass;
  }

  /** Whatever the main loop does to a connection that attempts to connect: the measures never grow, and
      every expiry of the timer makes the rank smaller. */
  lemma InputProgress(l: Link, t: nat, k: Tick)
    requires Quiet(l) && Attempting(l.ws.state) && InBudget(l.ws) && Ticks(l, t, k)
    ensures Quiet(Apply(l, k.input))
    ensures if k.input.TimerFired? then Progress(l.ws, t, Apply(l, k.input).ws, k.at, true)
            else Progress(l.ws, t, Apply(l, k.input).ws, k.at, false)
  {
    hide Body, Updates, Intervals, Deliver, Resting, HandleFds, Configure, Speech, Timed;
    hide Progress, Process, Rank, Reserve;
    ApplyKeeps(l, k.input);
    var r := Apply(l, k.input).ws;
    match k.input {
    case Configured(_, _, _, _, _) => assert false;
    case SpeechIn(e, envs) => SpeechProgress(l, e, envs, t);
    case TimerFired(envs) =>
      TimerMeansTrying(l);
      ExpiryProgress(l, envs, t, k.at);
    case TerminateIn(envs) =>
      TerminateLands(l, envs);
      NotHeading(r);
      OverProgress(l.ws, t, r, t);
    case FdsIn(ready, io, a) =>
      FdsIdle(l, ready, io, a);
      RestingUnmeasured(l.ws, t);
    case TextQueued(msg) => RestingUnmeasured(l.ws, t);
    }
    if !k.input.TimerFired? { ProgressLater(l.ws, t, r, k.at); }
  }

  lemma OverProgress(w: Ws, t: nat, r: Ws, u: nat)
    requires InBudget(w) && !Heading(r)
    ensures Progress(w, t, r, u, false)
  {}

  lemma ProgressLater(w: Ws, t: nat, r: Ws, u: nat)
    requires InBudget(w) && Progress(w, t, r, t, false) && t <= u
    ensures Progress(w, t, r, u, false)
  {
    hide Updates, Intervals, Heading, Rank, Reserve;
    if InBudget(r) { RankLater(r, t, u); }
  }

  lemma TimerMeansTrying(l: Link)
    requires Quiet(l) && Attempting(l.ws.state) && l.ws.timer >= 0
    ensures Trying(l.ws.state)
  {
    hide Watch;
  }

  lemma RestingUnmeasured(w: Ws, t: nat)
    requires Resting(w) && Attempting(w.state) && InBudget(w)
    ensures Progress(w, t, w, t, false)
  {
    hide Updates, Intervals;
  }

  function Expiries(ticks: seq<Tick>): nat
  {
    if ticks == [] then 0 else (if ticks[0].input.TimerFired? then 1 else 0) + Expiries(ticks[1..])
  }

  /** The connection attempts to connect before and after every one of the inputs. */
  predicate StillAttempting(l: Link, t: nat, ticks: seq<Tick>)
    decreases |ticks|
  {
    && Attempting(l.ws.state)
    && (ticks != [] ==>
          Ticks(l, t, ticks[0]) && StillAttempting(Apply(l, ticks[0].input), ticks[0].at, ticks[1..]))
  }

  function After(l: Link, ticks: seq<Tick>): Link
    decreases |ticks|
  {
    if ticks == [] then l else After(Apply(l, ticks[0].input), ticks[1..])
  }

  /** An attempt that goes on has seen fewer expiries than its rank, and has taken no more check intervals
      out of its two budgets than there were. */
  lemma {:induction false} AttemptsEnd(l: Link, t: nat, ticks: seq<Tick>)
    requires Quiet(l) && InBudget(l.ws) && StillAttempting(l, t, ticks)
    ensures Expiries(ticks) <= Rank(l.ws, t)
    ensures var r := After(l, ticks).ws;
            InBudget(r) && r.cfg == l.ws.cfg && Updates(r.log) + Reserve(r) <= Updates(l.ws.log) + Reserve(l.ws)
    decreases |ticks|
  {
    hide Apply, Updates, Intervals, Rank, Reserve, Ticks, Body;
    if ticks != [] {
      var m := Apply(l, ticks[0].input);
      InputProgress(l, t, ticks[0]);
      AttemptsEnd(m, ticks[0].at, ticks[1..]);
    }
  }

  // ---- a session from its start ----

  predicate Parameters(c: Config) { 0 < c.interval < 0x8000_0000 && c.timeoutConnect < 0x8000_0000 }

  /** The connect timeout in check intervals, rounded up. */
  function Budget(c: Config): nat
    requires Parameters(c)
  {
    Intervals(c.timeoutConnect, c.interval)
  }

  lemma PrepareUpdates(q: Link, src: nat, now: nat)
    ensures Updates(Prepare(q, src, now).ws.log) == Updates(q.ws.log)
  {
    hide ToInt32;
    UpdatesAppend(q.ws.log, SessionStarted);
  }

  lemma StreamBeginUpdates(l: Link, p: PipeAnswer)
    requires l.sess.firstStreamReq && StreamBegin(l, p).1.Some?
    ensures Updates(StreamBegin(l, p).0.ws.log) == Updates(l.ws.log)
  {
    EmitUpdates(l, PipeOpened(p.fd));
    hide Updates;
  }

  /** A new session starts with both budgets full and the whole session timeout ahead. */
  lemma AttemptStarts(l: Link, src: nat, p: PipeAnswer, now: nat, streamTimeMin: nat, envs: seq<Env>)
    requires Quiet(l) && Configurable(l, src) && Parameters(l.ws.cfg)
    ensures var r, b := Configure(l, src, p, now, streamTimeMin, envs).ws, Budget(l.ws.cfg);
            Attempting(r.state) ==>
              && InBudget(r) && r.cfg == l.ws.cfg
              && Updates(r.log) + Reserve(r) <= Updates(l.ws.log) + 2 * b
              && Rank(r, now) <= 2 * b + 2 + 2 * l.ws.cfg.timeoutSession
  {
    hide Body, Process, Updates, Intervals, Rank, Reserve, QueueTied, Prepare;
    ConfigureKeeps(l, src, p, now, streamTimeMin, envs);
    StreamBeginTied(l, src, p);
    var (m, fd) := StreamBegin(l, p);
    if fd.Some? {
      var e := if streamTimeMin != 0 && !m.ws.byText && !m.ws.stm then SessionBeginStm else SessionBegin;
      var q := m.(ws := m.ws.(pipe := fd.value));
      var r := Prepare(q, src, now);
      PrepareTied(l, src, p, now, e);
      StreamBeginUpdates(l, p);
      PrepareUpdates(q, src, now);
      PrepareBudget(q, src, now);
      hide StreamBegin;
      BeginRun(r, e, envs, now);
      RestHeading(Process(Post(r, e), envs));
    }
  }

  /** The run that a begin event triggers, behind a late EOS_PIPE or not. */
  lemma BeginRun(r: Link, e: Event, envs: seq<Env>, t: nat)
    requires Inv(Post(r, e)) && r.ws.state.Disconnected? && IsBegin(e) && InBudget(r.ws)
    requires r.ws.queue == [] || r.ws.queue == [EosPipe]
    ensures Opened(r.ws, t, Process(Post(r, e), envs).ws)
  {
    hide Body, Process, Updates, Intervals, QueueTied, Step, Rank, Reserve;
    var p, q := Post(r, e), r.(ws := r.ws.(queue := [e]));
    if r.ws.queue == [] {
      assert p == q;
      ProcessOpens(q, envs, t);
    } else {
      assert p.ws.queue == [EosPipe, e];
      LatePipeDropped(p, e, First(envs));
      StepKeeps(p, First(envs));
      ProcessStep(p, envs);
      ProcessOpens(q, Rest(envs), t);
    }
    hide Inv, Opens, Heading;
  }

  lemma PrepareBudget(q: Link, src: nat, now: nat)
    requires Parameters(q.ws.cfg)
    ensures var r := Prepare(q, src, now).ws;
            && InBudget(r) && r.cfg == q.ws.cfg && r.wait == r.cfg.timeoutConnect
            && r.deadline == now + r.cfg.timeoutSession && r.state == q.ws.state && r.queue == q.ws.queue
  {}

  lemma RestHeading(l: Link)
    requires Quiet(l)
    ensures Attempting(l.ws.state) ==> Heading(l.ws)
  {
    hide Body;
  }

  /** Every connect sequence ends.  From the start of a session, while the connection still attempts to
      connect, its timer has expired no more than a fixed number of times; a check interval was taken out of
      the budget at most ceil(timeout / interval) times in Connecting, over all its visits, and at most that
      many times again in Connected. */
  lemma EveryAttemptEnds(l: Link, src: nat, p: PipeAnswer, now: nat, streamTimeMin: nat, envs: seq<Env>,
                         ticks: seq<Tick>)
    requires Quiet(l) && Configurable(l, src) && Parameters(l.ws.cfg)
    requires StillAttempting(Configure(l, src, p, now, streamTimeMin, envs), now, ticks)
    ensures var b := Budget(l.ws.cfg);
            var r := After(Configure(l, src, p, now, streamTimeMin, envs), ticks).ws;
            && Expiries(ticks) <= 2 * b + 2 + 2 * l.ws.cfg.timeoutSession
            && Updates(r.log) - Updates(l.ws.log) <= (if r.state.Connected? then 2 * b else b)
            && 0 < r.wait + l.ws.cfg.interval && r.wait <= l.ws.cfg.timeoutConnect
  {
    hide Body, Updates, Intervals, Rank, Configure, Apply, Ticks;
    var s := Configure(l, src, p, now, streamTimeMin, envs);
    AttemptStarts(l, src, p, now, streamTimeMin, envs);
    ConfigureKeeps(l, src, p, now, streamTimeMin, envs);
    AttemptsEnd(s, now, ticks);
    AttemptsRest(s, now, ticks);
  }

  lemma {:induction false} AttemptsRest(l: Link, t: nat, ticks: seq<Tick>)
    requires Quiet(l) && InBudget(l.ws) && StillAttempting(l, t, ticks)
    ensures Quiet(After(l, ticks)) && Attempting(After(l, ticks).ws.state)
    decreases |ticks|
  {
    hide Apply, Updates, Intervals, Rank, Reserve, Ticks, Body;
    if ticks != [] {
      InputProgress(l, t, ticks[0]);
      AttemptsRest(Apply(l, ticks[0].input), ticks[0].at, ticks[1..]);
    }
  }
}
