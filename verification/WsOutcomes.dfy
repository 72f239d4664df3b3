/** What an outside event does to a connection at rest, all in all: the state it comes to rest in and the calls it
    makes on the way.  Stated once for every state and event, without tables, handlers or posted events; the
    machine is proved to do just that. */
module WsOutcomes {
  import opened Types
  import opened Monitor
  import opened WsTables
  import opened WsSpec
  import opened WsIo
  import opened WsInvariant
  import opened WsRuns
  import opened WsInputs

  /** `wait`, `retryCnt` and `socket` are what these fields hold afterwards, unless the session is over. */
  datatype Outcome = Outcome(state: State, calls: seq<Call>, wait: int, retryCnt: nat, socket: int)

  function To(w: Ws, s: State, calls: seq<Call>): Outcome { Outcome(s, calls, w.wait, w.retryCnt, w.socket) }

  // ---- the calls that belong together ----

  function StreamOver(w: Ws, why: StreamWhy): seq<Call> { [StreamEnded(why), PipeClosed(w.pipe)] }

  function SessionOver(why: SessionWhy): seq<Call> { [DisconnectNotified(why), SessionEnded(why)] }

  /** The connection is closed, unless the peer did. */
  function HangUp(w: Ws): seq<Call> { if w.onClose then [] else [ConnectionClosed] }

  /** An attempt to connect: its check timer, or the wait for the next attempt, or past the deadline the end. */
  function Attempt(w: Ws, x: Env, y: Env, stop: seq<Call>): Outcome
  {
    if x.connectOk then To(w, Connecting, stop + [TimerInserted(x.timerId, x.now + w.cfg.interval)])
    else if x.now < w.deadline then Retry(w, y, stop)
    else To(w, Disconnected, stop + StreamOver(w, DidNotBegin) + SessionOver(ConnectFailure))
  }

  /** One more retry is counted, and the next attempt comes after the random delay, but not after the deadline. */
  function Retry(w: Ws, y: Env, stop: seq<Call>): Outcome
  {
    To(w, ConnectionRetry, stop + [RetryTimer(w, y)]).(retryCnt := OneMore(w.retryCnt))
  }

  function OneMore(n: nat): nat { (n + 1) % 0x1_0000_0000 }

  function RetryTimer(w: Ws, y: Env): Call
  {
    TimerInserted(y.timerId, Min(y.now + RetryDelay(w.cfg.backoff, OneMore(w.retryCnt), y.rnd), w.deadline))
  }

  /** One more check interval is waited. */
  function CheckLater(w: Ws, x: Env): Outcome
  {
    To(w, w.state, [TimerUpdated(w.timer, x.now + w.cfg.interval)]).(wait := ToInt32(w.wait - w.cfg.interval))
  }

  // ---- state by state; x and y are the answers to the first and the second dispatch ----

  function FromBuffering(w: Ws, e: Event, x: Env, y: Env): Outcome
  {
    if e.EosEv? then To(w, Disconnected, StreamOver(w, AudioEof) + SessionOver(AudioDurationError))
    else if e.TerminateEv? then To(w, Disconnected, StreamOver(w, DidNotBegin) + SessionOver(Terminated))
    else if e.StmEv? then Attempt(w, x, y, [])
    else To(w, Buffering, [])
  }

  function FromConnecting(w: Ws, e: Event, x: Env, y: Env): Outcome
  {
    var stop := [TimerRemoved(w.timer)];
    if e.TerminateEv? then To(w, Disconnected, StreamOver(w, DidNotBegin) + stop + SessionOver(Terminated))
    else if !e.TimeoutEv? then To(w, Connecting, [])
    else if x.connOk then
      To(w, Connected, stop + [TimerInserted(y.timerId, y.now + w.cfg.interval)])
        .(wait := ToInt32(w.cfg.timeoutConnect))
    else if w.wait > 0 then CheckLater(w, x)
    else if x.now < w.deadline then Retry(w, y, stop)
    else To(w, Disconnected, StreamOver(w, DidNotBegin) + stop + SessionOver(ConnectFailure))
  }

  function FromConnected(w: Ws, e: Event, x: Env, y: Env): Outcome
  {
    var stop := [TimerRemoved(w.timer)];
    if e.TerminateEv? then
      To(w, Disconnected, StreamOver(w, DidNotBegin) + stop + HangUp(w) + SessionOver(Terminated))
    else if e.WsClose? then To(w, Disconnected, StreamOver(w, RemoteDisconnect) + stop + SessionOver(ConnectFailure))
    else if !e.TimeoutEv? then To(w, Connected, [])
    else if x.ready then
      To(w, if w.byText && y.handlerOk then TextOnlySession else Streaming, stop + [ConnectNotified, StreamBegan])
        .(socket := x.socket)
    else if w.wait > 0 then CheckLater(w, x)
    else To(w, Disconnected, StreamOver(w, DidNotBegin) + stop + HangUp(w) + SessionOver(ConnectTimedOut))
  }

  function FromEstablished(w: Ws, e: Event, x: Env): Outcome
  {
    var stop := [TimerRemoved(w.timer)];
    match e
    case AppClose => To(w, Disconnected, stop + HangUp(w) + SessionOver(EndOfSpeech))
    case TerminateEv => To(w, Disconnected, stop + HangUp(w) + SessionOver(Terminated))
    case TimeoutEv => To(w, Disconnected, stop + HangUp(w) + SessionOver(SessionTimedOut))
    case WsClose => To(w, Disconnected, stop + SessionOver(EndOfSpeech))
    case MsgRecv => To(w, Established, [TimerUpdated(w.timer, x.now + w.cfg.timeoutInactivity)])
    case _ => To(w, Established, [])
  }

  /** While audio is sent, or in a text session. */
  function FromStreaming(w: Ws, e: Event, x: Env): Outcome
  {
    var wait := [TimerInserted(x.timerId, x.now + w.cfg.timeoutInactivity)];
    match e
    case EosPipe => To(w, Established, StreamOver(w, AudioEof) + wait)
    case AudioError => To(w, Established, StreamOver(w, AudioReadError) + wait)
    case TerminateEv => To(w, Disconnected, StreamOver(w, LocalDisconnect) + HangUp(w) + SessionOver(Terminated))
    case WsError => To(w, Disconnected, StreamOver(w, RemoteDisconnect) + HangUp(w) + SessionOver(WsSendError))
    case WsClose =>
      if w.state.TextOnlySession? then To(w, Disconnected, StreamOver(w, NoStreamReason) + SessionOver(EndOfText))
      else
        To(w, Disconnected, StreamOver(w, RemoteDisconnect)
                            + SessionOver(if w.closeStatus == 1000 then RemoteEnd else UnexpectedRemoteEnd))
    case _ => To(w, w.state, [])
  }

  function FromRetry(w: Ws, e: Event, x: Env, y: Env): Outcome
  {
    var stop := [TimerRemoved(w.timer)];
    if e.TerminateEv? then To(w, Disconnected, StreamOver(w, LocalDisconnect) + stop + SessionOver(Terminated))
    else if e.TimeoutEv? then Attempt(w, x, y, stop)
    else To(w, ConnectionRetry, [])
  }

  function Reaction(w: Ws, e: Event, x: Env, y: Env): Outcome
  {
    match w.state
    case Buffering => FromBuffering(w, e, x, y)
    case Connecting => FromConnecting(w, e, x, y)
    case Connected => FromConnected(w, e, x, y)
    case Established => FromEstablished(w, e, x)
    case Streaming | TextOnlySession => FromStreaming(w, e, x)
    case ConnectionRetry => FromRetry(w, e, x, y)
    case Disconnected | Disconnecting => To(w, w.state, [])
  }

  /** What is left of a connection after its session. */
  predicate GivenBack(w: Ws, r: Ws)
  {
    && r.timer == r.socket == NONE && r.pipe < 0 && r.src == SRC_INVALID
    && !r.tx.pending && r.tx.retries == 0 && r.msgs == [] && r.queue == []
    && !r.onClose && r.retryCnt == 1 && !r.byText && r.cfg == w.cfg
  }

  /** What a session keeps while it goes on. */
  predicate Kept(w: Ws, r: Ws)
  {
    && r.src == w.src && r.byText == w.byText && r.cfg == w.cfg && r.deadline == w.deadline && r.stm == w.stm
    && r.tx == w.tx && r.msgs == w.msgs && r.onClose == w.onClose && r.closeStatus == w.closeStatus && r.queue == []
  }

  predicate Reacts(l: Link, r: Link, o: Outcome)
  {
    && r.ws.state == o.state && r.ws.log == l.ws.log + o.calls
    && (if o.state.Disconnected? then GivenBack(l.ws, r.ws) && r.sess.src == SRC_INVALID
        else Kept(l.ws, r.ws) && r.ws.wait == o.wait && r.ws.retryCnt == o.retryCnt && r.ws.socket == o.socket)
  }

  // ---- the machine does just that ----

  /** A run from an empty queue is a dispatch followed by a run for what it posts. */
  lemma DeliverChain(l: Link, e: Event, envs: seq<Env>)
    requires l.ws.queue == []
    ensures Effect(l, e, First(envs)).ws.queue == []
    ensures Deliver(l, e, envs)
            == match Posts(l, e, First(envs))
               case None => Effect(l, e, First(envs))
               case Some(p) => Deliver(Effect(l, e, First(envs)), p, Rest(envs))
  {
    hide Effect, Posts, Process;
    var q, env := Post(l, e), First(envs);
    assert Pop(q) == l;
    ProcessStep(q, envs);
    if Posts(l, e, env).None? { NothingToProcess(Step(q, env), Rest(envs)); }
  }

  lemma NothingToProcess(l: Link, envs: seq<Env>)
    requires l.ws.queue == []
    ensures Process(l, envs) == l
  {}

  /** What rest means for the fields that the calls show. */
  predicate Poised(l: Link)
  {
    && l.ws.queue == [] && l.ws.src < SRC_INVALID && l.sess.src == l.ws.src
    && (l.ws.timer >= 0 ==> StopsTimer(l.ws.state))
    && (l.ws.pipe >= 0 <==> PhaseOf(l.ws.state) == Live)
    && (Linked(l.ws.state) ==> l.ws.conn)
  }

  lemma RestIsPoised(l: Link)
    requires Quiet(l) && l.ws.queue == [] && !l.ws.state.Disconnected?
    ensures Poised(l) && (StopsTimer(l.ws.state) ==> l.ws.timer >= 0) && !l.ws.state.Disconnecting?
  {
    hide Watch;
  }

  /** The calls of an exit. */
  lemma ExitCalls(l: Link, e: Event)
    requires l.ws.src < SRC_INVALID
    requires Plan(l, e).endsStream ==> l.ws.pipe >= 0
    ensures var d := Plan(l, e);
            var over := if d.endsStream then StreamOver(l.ws, d.streamWhy) else [];
            var stop := if StopsTimer(l.ws.state) && l.ws.timer >= 0 then [TimerRemoved(l.ws.timer)] else [];
            Exit(l, e) == Link(l.ws.(streamWhy := d.streamWhy, sessionWhy := d.sessionWhy,
                                     pipe := if d.endsStream then NONE else l.ws.pipe,
                                     timer := if StopsTimer(l.ws.state) && l.ws.timer >= 0 then NONE else l.ws.timer,
                                     log := l.ws.log + (over + stop)),
                               if d.endsStream then l.sess.(pipeFd := NONE, firstStreamReq := true) else l.sess)
  {
    hide LeavingFor;
    var d := Plan(l, e);
    var m := Reasons(l, d.streamWhy, d.sessionWhy);
    var n := if d.endsStream then StreamEnd(m) else m;
    if d.endsStream { assert n.ws.log == l.ws.log + StreamOver(l.ws, d.streamWhy); }
  }

  /** The calls of the end of a session, and what it leaves. */
  lemma EndCalls(l: Link, env: Env)
    requires l.ws.state.Disconnected? && l.sess.src == l.ws.src < SRC_INVALID && l.ws.pipe < 0 && l.ws.queue == []
    ensures var r := Enter(l, env);
            && r.ws.log == l.ws.log + SessionOver(l.ws.sessionWhy) && r.ws.state.Disconnected?
            && GivenBack(l.ws, r.ws) && r.sess.src == SRC_INVALID
  {}

  /** The calls of leaving a state for good. */
  function Goodbye(w: Ws, d: Leaving): seq<Call>
  {
    (if d.endsStream then StreamOver(w, d.streamWhy) else []) + (if w.timer >= 0 then [TimerRemoved(w.timer)] else [])
  }

  lemma LeaveCalls(l: Link, e: Event, t: State)
    requires Poised(l) && (Plan(l, e).endsStream ==> PhaseOf(l.ws.state) == Live)
    ensures var d, m := Plan(l, e), Leave(l, e, t);
            && m.ws.sessionWhy == d.sessionWhy && m.ws.conn == l.ws.conn && m.ws.src == l.ws.src && m.ws.queue == []
            && m.ws.timer < 0 && m.ws.pipe == (if d.endsStream then NONE else l.ws.pipe) && m.sess.src == l.sess.src
            && m.ws.state == t && m.ws.log == l.ws.log + Goodbye(l.ws, d) && SameBut(l.ws, m.ws)
  {
    ExitCalls(l, e);
    hide LeavingFor, Exit;
  }

  /** Nothing but state, reasons, handles of pipe, timer and connection, and the log may differ. */
  predicate SameBut(w: Ws, r: Ws)
  {
    Kept(w, r) && r.wait == w.wait && r.retryCnt == w.retryCnt && r.socket == w.socket
  }

  // ---- the calls of entering a state that is rested in ----

  lemma EntersEstablished(m: Link, env: Env)
    requires m.ws.state.Established? && m.ws.queue == []
    ensures var n := Enter(m, env);
            && n.ws.state.Established? && SameBut(m.ws, n.ws) && EnterPosts(m.ws, env).None?
            && n.ws.log == m.ws.log + [TimerInserted(env.timerId, env.now + m.ws.cfg.timeoutInactivity)]
  {}

  lemma EntersRetry(m: Link, env: Env)
    requires m.ws.state.ConnectionRetry? && m.ws.queue == []
    ensures var n := Enter(m, env);
            && n.ws.state.ConnectionRetry? && Kept(m.ws, n.ws) && EnterPosts(m.ws, env).None?
            && n.ws.wait == m.ws.wait && n.ws.socket == m.ws.socket && n.ws.retryCnt == OneMore(m.ws.retryCnt)
            && n.ws.log == m.ws.log + [RetryTimer(m.ws, env)]
  {
    hide RetryDelay, Min;
  }

  lemma EntersConnected(m: Link, env: Env)
    requires m.ws.state.Connected? && m.ws.queue == []
    ensures var n := Enter(m, env);
            && n.ws.state.Connected? && Kept(m.ws, n.ws) && EnterPosts(m.ws, env).None?
            && n.ws.wait == ToInt32(m.ws.cfg.timeoutConnect) && n.ws.socket == m.ws.socket
            && n.ws.retryCnt == m.ws.retryCnt
            && n.ws.log == m.ws.log + [TimerInserted(env.timerId, env.now + m.ws.cfg.interval)]
  {
    hide ToInt32;
  }

  lemma EntersStreaming(m: Link, env: Env)
    requires m.ws.state.Streaming? && m.ws.queue == []
    ensures var n := Enter(m, env);
            && n.ws.state.Streaming? && SameBut(m.ws, n.ws)
            && EnterPosts(m.ws, env) == (if m.ws.byText && env.handlerOk then Some(TextSessionSuccess) else None)
            && n.ws.log == m.ws.log + [ConnectNotified, StreamBegan]
  {}

  lemma EntersConnecting(m: Link, env: Env)
    requires m.ws.state.Connecting? && m.ws.queue == []
    ensures var n := Enter(m, env);
            && n.ws.state.Connecting? && SameBut(m.ws, n.ws)
            && (env.connectOk ==>
                  EnterPosts(m.ws, env).None?
                  && n.ws.log == m.ws.log + [TimerInserted(env.timerId, env.now + m.ws.cfg.interval)])
            && (!env.connectOk ==>
                  n == m.(ws := m.ws.(conn := false))
                  && EnterPosts(m.ws, env) == Some(if env.now < m.ws.deadline then RetryEv else ConnectTimeout))
  {}

  lemma MoveIs(l: Link, e: Event, t: State, env: Env)
    requires Next(l.ws.state, e) == Some(t) && t != l.ws.state
    ensures Effect(l, e, env) == Enter(Leave(l, e, t), env)
    ensures Posts(l, e, env) == EnterPosts(Leave(l, e, t).ws, env)
  {
    hide Leave, Enter, EnterPosts;
  }

  lemma SameGift(w: Ws, v: Ws, r: Ws)
    requires GivenBack(v, r) && w.cfg == v.cfg
    ensures GivenBack(w, r)
  {}

  lemma Regroup(log: seq<Call>, a: seq<Call>, b: seq<Call>, c: seq<Call>)
    ensures log + a + b + c == log + (a + b + c) && log + a + b == log + (a + b)
  {}

  /** Straight to Disconnected. */
  lemma EndsAtOnce(l: Link, e: Event, envs: seq<Env>)
    requires Poised(l) && Next(l.ws.state, e) == Some(Disconnected) && !l.ws.state.Disconnected?
    requires Plan(l, e).endsStream <==> PhaseOf(l.ws.state) == Live
    ensures var r := Deliver(l, e, envs);
            && r.ws.state.Disconnected? && GivenBack(l.ws, r.ws) && r.sess.src == SRC_INVALID
            && r.ws.log == l.ws.log + (Goodbye(l.ws, Plan(l, e)) + SessionOver(Plan(l, e).sessionWhy))
  {
    var env, m := First(envs), Leave(l, e, Disconnected);
    LeaveCalls(l, e, Disconnected);
    MoveIs(l, e, Disconnected, env);
    DeliverChain(l, e, envs);
    hide Next, LeavingFor, Leave, Effect, Posts, Deliver, Plan, Goodbye;
    assert EnterPosts(m.ws, env).None?;
    EndCalls(m, env);
    hide Enter, EnterPosts, GivenBack, SessionOver;
    SameGift(l.ws, m.ws, Enter(m, env).ws);
    Regroup(l.ws.log, Goodbye(l.ws, Plan(l, e)), SessionOver(Plan(l, e).sessionWhy), []);
  }

  /** Through Disconnecting. */
  lemma EndsByHangUp(l: Link, e: Event, envs: seq<Env>)
    requires Poised(l) && Next(l.ws.state, e) == Some(Disconnecting) && Linked(l.ws.state)
    requires Plan(l, e).endsStream <==> PhaseOf(l.ws.state) == Live
    ensures var r := Deliver(l, e, envs);
            && r.ws.state.Disconnected? && GivenBack(l.ws, r.ws) && r.sess.src == SRC_INVALID
            && r.ws.log == l.ws.log + (Goodbye(l.ws, Plan(l, e)) + HangUp(l.ws) + SessionOver(Plan(l, e).sessionWhy))
  {
    var m := Leave(l, e, Disconnecting);
    LeaveCalls(l, e, Disconnecting);
    MoveIs(l, e, Disconnecting, First(envs));
    DeliverChain(l, e, envs);
    hide Next, LeavingFor, Leave, Effect, Posts, Deliver, Plan, Goodbye, Enter, EnterPosts, GivenBack, SessionOver;
    var n := Enter(m, First(envs));
    HungUp(m, First(envs));
    DropsOut(n, Rest(envs));
    SameGift(l.ws, n.ws, Deliver(n, DisconnectedEv, Rest(envs)).ws);
    assert HangUp(m.ws) == HangUp(l.ws);
    hide HangUp;
    Regroup(l.ws.log, Goodbye(l.ws, Plan(l, e)), HangUp(l.ws), SessionOver(Plan(l, e).sessionWhy));
  }

  lemma HungUp(m: Link, env: Env)
    requires m.ws.state.Disconnecting? && m.ws.conn
    ensures Enter(m, env) == m.(ws := m.ws.(conn := false, log := m.ws.log + HangUp(m.ws)))
    ensures EnterPosts(m.ws, env) == Some(DisconnectedEv)
  {}

  lemma DropsOut(n: Link, envs: seq<Env>)
    requires n.ws.state.Disconnecting? && n.sess.src == n.ws.src < SRC_INVALID && n.ws.pipe < 0 && n.ws.timer < 0
    requires n.ws.queue == []
    ensures var r := Deliver(n, DisconnectedEv, envs);
            && r.ws.state.Disconnected? && GivenBack(n.ws, r.ws) && r.sess.src == SRC_INVALID
            && r.ws.log == n.ws.log + SessionOver(n.ws.sessionWhy)
  {
    var m := Leave(n, DisconnectedEv, Disconnected);
    assert m == n.(ws := n.ws.(state := Disconnected));
    MoveIs(n, DisconnectedEv, Disconnected, First(envs));
    DeliverChain(n, DisconnectedEv, envs);
    EndCalls(m, First(envs));
    hide Leave, Enter, Effect, Posts, Deliver;
  }

  // ---- one state after the other ----

  lemma Dropped(l: Link, e: Event, envs: seq<Env>)
    requires l.ws.queue == [] && Next(l.ws.state, e).None?
    ensures Deliver(l, e, envs) == l
  {
    DeliverChain(l, e, envs);
  }

  lemma Stays(l: Link, r: Link)
    requires r == l && l.ws.queue == [] && !l.ws.state.Disconnected?
    ensures Reacts(l, r, To(l.ws, l.ws.state, []))
  {}

  lemma BufferingReacts(l: Link, e: Event, envs: seq<Env>)
    requires Poised(l) && l.ws.state.Buffering? && IsExternal(e) && !IsBegin(e)
    ensures Reacts(l, Deliver(l, e, envs), FromBuffering(l.ws, e, First(envs), First(Rest(envs))))
  {
    hide Deliver, GivenBack;
    if e.EosEv? || e.TerminateEv? {
      EndsAtOnce(l, e, envs);
    } else if e.StmEv? {
      assert Plan(l, e) == Leaving(l.ws.streamWhy, l.ws.sessionWhy, false);
      LeaveCalls(l, e, Connecting);
      MoveIs(l, e, Connecting, First(envs));
      DeliverChain(l, e, envs);
      hide Effect, Posts;
      assert Goodbye(l.ws, Plan(l, e)) == [];
      var m := Leave(l, e, Connecting);
      hide Leave, Next, Plan;
      AttemptReacts(l, m, [], First(envs), Rest(envs));
      hide Enter, EnterPosts, Attempt;
    } else {
      Dropped(l, e, envs);
      Stays(l, l);
    }
  }

  lemma NoTimerNoCalls(w: Ws)
    requires w.timer < 0
    ensures Goodbye(w, NOTHING) == []
  {}

  /** The session goes on to wait for its next attempt. */
  lemma RetryReacts(l: Link, n: Link, stop: seq<Call>, envs: seq<Env>)
    requires Failing(l, n, stop)
    ensures Reacts(l, Deliver(n, RetryEv, envs), Retry(l.ws, First(envs), stop + Goodbye(n.ws, NOTHING)))
  {
    hide Deliver, Goodbye, GivenBack, RetryTimer, OneMore;
    var env := First(envs);
    var r := Deliver(n, RetryEv, envs);
    Retries(n, envs);
    SameRetry(l.ws, n.ws, env);
    KeptChain(l.ws, n.ws, r.ws);
    hide Kept, Poised;
    Regroup(l.ws.log, stop, Goodbye(n.ws, NOTHING), [RetryTimer(l.ws, env)]);
  }

  lemma SameRetry(w: Ws, n: Ws, env: Env)
    requires SameBut(w, n)
    ensures RetryTimer(n, env) == RetryTimer(w, env) && n.retryCnt == w.retryCnt
  {}

  lemma Retries(n: Link, envs: seq<Env>)
    requires Poised(n) && n.ws.state.Connecting?
    ensures var r := Deliver(n, RetryEv, envs);
            && r.ws.state.ConnectionRetry? && Kept(n.ws, r.ws)
            && r.ws.wait == n.ws.wait && r.ws.socket == n.ws.socket && r.ws.retryCnt == OneMore(n.ws.retryCnt)
            && r.ws.log == n.ws.log + Goodbye(n.ws, NOTHING) + [RetryTimer(n.ws, First(envs))]
  {
    var env := First(envs);
    assert Plan(n, RetryEv) == Leaving(n.ws.streamWhy, n.ws.sessionWhy, false);
    LeaveCalls(n, RetryEv, ConnectionRetry);
    MoveIs(n, RetryEv, ConnectionRetry, env);
    DeliverChain(n, RetryEv, envs);
    var m := Leave(n, RetryEv, ConnectionRetry);
    assert Goodbye(n.ws, Plan(n, RetryEv)) == Goodbye(n.ws, NOTHING);
    hide Leave, Next, Plan, Effect, Posts, Deliver, Goodbye, Enter, EnterPosts, RetryTimer, OneMore;
    EntersRetry(m, env);
    KeptChain(n.ws, m.ws, Enter(m, env).ws);
    SameRetry(n.ws, m.ws, env);
    hide Kept;
  }

  lemma KeptChain(a: Ws, b: Ws, c: Ws)
    requires Kept(a, b) && Kept(b, c)
    ensures Kept(a, c) && b.cfg == a.cfg && b.deadline == a.deadline && b.src == a.src && b.byText == a.byText
  {}

  lemma FailingSelf(l: Link)
    requires Poised(l) && l.ws.state.Connecting?
    ensures Failing(l, l, [])
  {
    assert l.ws.log + [] == l.ws.log;
  }

  /** The session is given up. */
  lemma GiveUpReacts(l: Link, n: Link, stop: seq<Call>, envs: seq<Env>)
    requires Failing(l, n, stop)
    ensures Reacts(l, Deliver(n, ConnectTimeout, envs),
                   To(l.ws, Disconnected,
                      stop + StreamOver(l.ws, DidNotBegin) + Goodbye(n.ws, NOTHING) + SessionOver(ConnectFailure)))
  {
    assert Plan(n, ConnectTimeout) == Leaving(DidNotBegin, ConnectFailure, true);
    hide Deliver, GivenBack, Plan;
    EndsAtOnce(n, ConnectTimeout, envs);
    assert n.ws.cfg == l.ws.cfg;
    hide Kept, Next;
    SameGift(l.ws, n.ws, Deliver(n, ConnectTimeout, envs).ws);
    assert Goodbye(n.ws, Leaving(DidNotBegin, ConnectFailure, true))
           == StreamOver(l.ws, DidNotBegin) + Goodbye(n.ws, NOTHING);
    hide Goodbye, SessionOver, StreamOver, Poised, Plan;
    RegroupAll(l.ws.log, stop, StreamOver(l.ws, DidNotBegin), Goodbye(n.ws, NOTHING), SessionOver(ConnectFailure));
  }

  lemma RegroupAll(log: seq<Call>, a: seq<Call>, b: seq<Call>, c: seq<Call>, d: seq<Call>)
    ensures log + a + (b + c + d) == log + (a + b + c + d)
  {}

  const NOTHING := Leaving(NoStreamReason, NoSessionReason, false)

  /** A connection that has just failed to connect: `stop` is what was called since l. */
  predicate Failing(l: Link, n: Link, stop: seq<Call>)
  {
    Poised(n) && n.ws.state.Connecting? && SameBut(l.ws, n.ws) && n.ws.pipe == l.ws.pipe && n.ws.log == l.ws.log + stop
  }

  /** An attempt that was just begun: `stop` is what was called since l. */
  lemma AttemptReacts(l: Link, m: Link, stop: seq<Call>, x: Env, rest: seq<Env>)
    requires m.ws.state.Connecting? && m.ws.timer < 0 && m.ws.pipe >= 0 && m.ws.queue == []
    requires m.sess.src == m.ws.src < SRC_INVALID
    requires SameBut(l.ws, m.ws) && m.ws.pipe == l.ws.pipe && m.ws.log == l.ws.log + stop
    ensures var n, p := Enter(m, x), EnterPosts(m.ws, x);
            Reacts(l, if p.None? then n else Deliver(n, p.value, rest), Attempt(l.ws, x, First(rest), stop))
  {
    hide Deliver, RetryDelay, Min, ToInt32, GivenBack;
    var n := Enter(m, x);
    EntersConnecting(m, x);
    hide Enter, EnterPosts;
    if !x.connectOk {
      if x.now < m.ws.deadline {
        RetryReacts(l, n, stop, rest);
      } else {
        GiveUpReacts(l, n, stop, rest);
      }
      hide Retry, StreamOver, SessionOver, Goodbye;
      assert Goodbye(n.ws, NOTHING) == [] by { NoTimerNoCalls(n.ws); }
      assert stop + [] == stop;
    } else {
      assert l.ws.log + stop + [TimerInserted(x.timerId, x.now + l.ws.cfg.interval)]
             == l.ws.log + (stop + [TimerInserted(x.timerId, x.now + l.ws.cfg.interval)]);
    }
  }

  lemma ConnectingReacts(l: Link, e: Event, envs: seq<Env>)
    requires Poised(l) && l.ws.state.Connecting? && l.ws.timer >= 0 && IsExternal(e) && !IsBegin(e)
    ensures Reacts(l, Deliver(l, e, envs), FromConnecting(l.ws, e, First(envs), First(Rest(envs))))
  {
    hide Deliver, GivenBack, Kept, ToInt32, Retry;
    var x := First(envs);
    if e.TerminateEv? {
      EndsAtOnce(l, e, envs);
    } else if e.TimeoutEv? {
      DeliverChain(l, e, envs);
      assert l.ws.log + [] == l.ws.log;
      if x.connOk {
        assert Posts(l, e, x) == Some(ConnectedEv) && Effect(l, e, x) == l;
        ConnectedReacts(l, Rest(envs));
      } else if l.ws.wait > 0 {
        assert Posts(l, e, x).None?;
        assert Reacts(l, Effect(l, e, x), CheckLater(l.ws, x)) by { CheckReacts(l, x); }
      } else {
        assert Effect(l, e, x) == l;
        FailingSelf(l);
        RetryReacts(l, l, [], Rest(envs));
        GiveUpReacts(l, l, [], Rest(envs));
        assert Goodbye(l.ws, NOTHING) == [TimerRemoved(l.ws.timer)];
      }
    } else {
      Dropped(l, e, envs);
      Stays(l, l);
    }
  }

  lemma CheckReacts(l: Link, x: Env)
    requires Poised(l) && l.ws.timer >= 0 && l.ws.wait > 0
    requires (l.ws.state.Connecting? && !x.connOk) || (l.ws.state.Connected? && !(l.ws.conn && x.ready))
    ensures Reacts(l, Effect(l, TimeoutEv, x), CheckLater(l.ws, x))
  {
    hide ToInt32;
  }

  lemma ConnectedReacts(l: Link, envs: seq<Env>)
    requires Poised(l) && l.ws.state.Connecting? && l.ws.timer >= 0
    ensures var y := First(envs);
            Reacts(l, Deliver(l, ConnectedEv, envs),
                   To(l.ws, Connected, [TimerRemoved(l.ws.timer), TimerInserted(y.timerId, y.now + l.ws.cfg.interval)])
                     .(wait := ToInt32(l.ws.cfg.timeoutConnect)))
  {
    var y := First(envs);
    assert Plan(l, ConnectedEv) == Leaving(l.ws.streamWhy, l.ws.sessionWhy, false);
    LeaveCalls(l, ConnectedEv, Connected);
    MoveIs(l, ConnectedEv, Connected, y);
    DeliverChain(l, ConnectedEv, envs);
    assert Goodbye(l.ws, Plan(l, ConnectedEv)) == [TimerRemoved(l.ws.timer)];
    hide Leave, Next, Plan, Effect, Posts, Deliver, GivenBack, Goodbye, ToInt32, Enter, EnterPosts, Kept;
    var m := Leave(l, ConnectedEv, Connected);
    EntersConnected(m, y);
    KeptChain(l.ws, m.ws, Enter(m, y).ws);
    assert l.ws.log + [TimerRemoved(l.ws.timer)] + [TimerInserted(y.timerId, y.now + l.ws.cfg.interval)]
           == l.ws.log + [TimerRemoved(l.ws.timer), TimerInserted(y.timerId, y.now + l.ws.cfg.interval)];
  }

  lemma ConnectedStateReacts(l: Link, e: Event, envs: seq<Env>)
    requires Poised(l) && l.ws.state.Connected? && l.ws.timer >= 0 && IsExternal(e) && !IsBegin(e)
    ensures Reacts(l, Deliver(l, e, envs), FromConnected(l.ws, e, First(envs), First(Rest(envs))))
  {
    hide Deliver, GivenBack, Kept, ToInt32;
    var x := First(envs);
    if e.TerminateEv? {
      EndsByHangUp(l, e, envs);
    } else if e.WsClose? {
      EndsAtOnce(l, e, envs);
    } else if e.TimeoutEv? {
      DeliverChain(l, e, envs);
      if x.ready {
        assert Posts(l, e, x) == Some(EstablishedEv);
        var m := l.(ws := l.ws.(socket := x.socket));
        assert Effect(l, e, x) == m;
        StreamingReacts(l, m, Rest(envs));
      } else if l.ws.wait > 0 {
        assert Posts(l, e, x).None?;
        CheckReacts(l, x);
      } else {
        assert Posts(l, e, x) == Some(EstablishTimeout) && Effect(l, e, x) == l;
        EndsByHangUp(l, EstablishTimeout, Rest(envs));
      }
    } else {
      Dropped(l, e, envs);
      Stays(l, l);
    }
  }

  /** The handshake is done: the application hears of the connection and the stream; a session by text goes on. */
  lemma StreamingReacts(l: Link, m: Link, envs: seq<Env>)
    requires Poised(m) && m.ws.state.Connected? && m.ws.timer >= 0 && m == l.(ws := l.ws.(socket := m.ws.socket))
    ensures var y := First(envs);
            Reacts(l, Deliver(m, EstablishedEv, envs),
                   To(l.ws, if l.ws.byText && y.handlerOk then TextOnlySession else Streaming,
                      [TimerRemoved(l.ws.timer), ConnectNotified, StreamBegan]).(socket := m.ws.socket))
  {
    var y := First(envs);
    assert Plan(m, EstablishedEv) == Leaving(m.ws.streamWhy, m.ws.sessionWhy, false);
    LeaveCalls(m, EstablishedEv, Streaming);
    MoveIs(m, EstablishedEv, Streaming, y);
    DeliverChain(m, EstablishedEv, envs);
    assert Goodbye(m.ws, Plan(m, EstablishedEv)) == [TimerRemoved(l.ws.timer)];
    hide Leave, Next, Plan, Effect, Posts, Deliver, GivenBack, Goodbye, Enter, EnterPosts;
    var left := Leave(m, EstablishedEv, Streaming);
    var n := Enter(left, y);
    EntersStreaming(left, y);
    KeptChain(m.ws, left.ws, n.ws);
    assert Kept(l.ws, m.ws);
    KeptChain(l.ws, m.ws, n.ws);
    assert n.ws.log == l.ws.log + [TimerRemoved(l.ws.timer), ConnectNotified, StreamBegan];
    if EnterPosts(left.ws, y).Some? { TextSwitch(n, Rest(envs)); }
  }

  lemma TextSwitch(n: Link, envs: seq<Env>)
    requires n.ws.state.Streaming? && n.ws.queue == []
    ensures Deliver(n, TextSessionSuccess, envs) == n.(ws := n.ws.(state := TextOnlySession))
  {
    DeliverChain(n, TextSessionSuccess, envs);
  }

  lemma EstablishedReacts(l: Link, e: Event, envs: seq<Env>)
    requires Poised(l) && l.ws.state.Established? && l.ws.timer >= 0 && IsExternal(e) && !IsBegin(e)
    ensures Reacts(l, Deliver(l, e, envs), FromEstablished(l.ws, e, First(envs)))
  {
    hide Deliver, GivenBack;
    match e
    case AppClose => EndsByHangUp(l, e, envs);
    case TerminateEv => EndsByHangUp(l, e, envs);
    case TimeoutEv => EndsByHangUp(l, e, envs);
    case WsClose => EndsAtOnce(l, e, envs);
    case MsgRecv => DeliverChain(l, e, envs);
    case EosEv =>
      DeliverChain(l, e, envs);
      Stays(l, l);
    case EosPipe =>
      DeliverChain(l, e, envs);
      Stays(l, l);
    case _ =>
      Dropped(l, e, envs);
      Stays(l, l);
  }

  /** The stream is over, the session waits for what the peer has to say. */
  lemma StreamEndReacts(l: Link, e: Event, envs: seq<Env>, why: StreamWhy)
    requires Poised(l) && Next(l.ws.state, e) == Some(Established) && PhaseOf(l.ws.state) == Live && l.ws.timer < 0
    requires Plan(l, e).endsStream && Plan(l, e).streamWhy == why
    ensures var x := First(envs);
            Reacts(l, Deliver(l, e, envs),
                   To(l.ws, Established,
                      StreamOver(l.ws, why) + [TimerInserted(x.timerId, x.now + l.ws.cfg.timeoutInactivity)]))
  {
    var x := First(envs);
    LeaveCalls(l, e, Established);
    MoveIs(l, e, Established, x);
    DeliverChain(l, e, envs);
    assert Goodbye(l.ws, Plan(l, e)) == StreamOver(l.ws, why);
    hide Leave, Next, Plan, Effect, Posts, Deliver, GivenBack, Goodbye, StreamOver, Enter, EnterPosts, Kept;
    var m := Leave(l, e, Established);
    EntersEstablished(m, x);
    KeptChain(l.ws, m.ws, Enter(m, x).ws);
    Regroup(l.ws.log, StreamOver(l.ws, why), [TimerInserted(x.timerId, x.now + l.ws.cfg.timeoutInactivity)], []);
  }

  lemma StreamingStateReacts(l: Link, e: Event, envs: seq<Env>)
    requires Poised(l) && (l.ws.state.Streaming? || l.ws.state.TextOnlySession?) && IsExternal(e) && !IsBegin(e)
    ensures Reacts(l, Deliver(l, e, envs), FromStreaming(l.ws, e, First(envs)))
  {
    hide Deliver, GivenBack;
    match e
    case EosPipe => StreamEndReacts(l, e, envs, AudioEof);
    case AudioError => StreamEndReacts(l, e, envs, AudioReadError);
    case TerminateEv => EndsByHangUp(l, e, envs);
    case WsError => EndsByHangUp(l, e, envs);
    case WsClose => EndsAtOnce(l, e, envs);
    case _ =>
      StreamingDrops(l, e, envs);
      Stays(l, l);
  }

  lemma StreamingDrops(l: Link, e: Event, envs: seq<Env>)
    requires (l.ws.state.Streaming? || l.ws.state.TextOnlySession?) && l.ws.queue == [] && IsExternal(e)
    requires !e.EosPipe? && !e.AudioError? && !e.TerminateEv? && !e.WsError? && !e.WsClose?
    ensures Deliver(l, e, envs) == l
  {
    StreamingKeeps(l, e, First(envs));
    DeliverChain(l, e, envs);
    hide Deliver, Effect, Posts;
  }

  lemma StreamingKeeps(l: Link, e: Event, env: Env)
    requires (l.ws.state.Streaming? || l.ws.state.TextOnlySession?) && IsExternal(e)
    requires !e.EosPipe? && !e.AudioError? && !e.TerminateEv? && !e.WsError? && !e.WsClose?
    ensures Effect(l, e, env) == l && Posts(l, e, env).None?
  {
    assert Next(l.ws.state, e) in {None, Some(l.ws.state)};
    hide Next, Leave, Enter, EnterPosts;
  }

  lemma RetryStateReacts(l: Link, e: Event, envs: seq<Env>)
    requires Poised(l) && l.ws.state.ConnectionRetry? && l.ws.timer >= 0 && IsExternal(e) && !IsBegin(e)
    ensures Reacts(l, Deliver(l, e, envs), FromRetry(l.ws, e, First(envs), First(Rest(envs))))
  {
    hide Deliver, GivenBack, Kept;
    if e.TerminateEv? {
      EndsAtOnce(l, e, envs);
    } else if e.TimeoutEv? {
      assert Plan(l, e) == Leaving(l.ws.streamWhy, l.ws.sessionWhy, false);
      LeaveCalls(l, e, Connecting);
      MoveIs(l, e, Connecting, First(envs));
      DeliverChain(l, e, envs);
      hide Effect, Posts;
      assert Goodbye(l.ws, Plan(l, e)) == [TimerRemoved(l.ws.timer)];
      var m := Leave(l, e, Connecting);
      hide Leave, Next, Plan;
      AttemptReacts(l, m, [TimerRemoved(l.ws.timer)], First(envs), Rest(envs));
      hide Enter, EnterPosts, Attempt;
    } else {
      Dropped(l, e, envs);
      Stays(l, l);
    }
  }

  // ---- all of them ----

  lemma DisconnectedDrops(l: Link, e: Event, envs: seq<Env>)
    requires l.ws.state.Disconnected? && l.ws.queue == [] && IsExternal(e) && !IsBegin(e)
    ensures Deliver(l, e, envs) == l
  {
    DeliverChain(l, e, envs);
  }

  /** An outside event takes a connection at rest to exactly the state, and with exactly the calls, that Reaction
      says; a disconnected one does not react at all. */
  lemma EventOutcome(l: Link, e: Event, envs: seq<Env>)
    requires Quiet(l) && l.ws.queue == [] && IsExternal(e) && !IsBegin(e)
    ensures var r := Deliver(l, e, envs);
            && Quiet(r)
            && (if l.ws.state.Disconnected? then r == l
                else Reacts(l, r, Reaction(l.ws, e, First(envs), First(Rest(envs)))))
  {
    hide Deliver, Reacts, FromBuffering, FromConnecting, FromConnected, FromEstablished, FromStreaming, FromRetry;
    DeliverKeeps(l, e, envs);
    if l.ws.state.Disconnected? {
      DisconnectedDrops(l, e, envs);
    } else {
      RestIsPoised(l);
      hide Quiet;
      match l.ws.state
      case Buffering => BufferingReacts(l, e, envs);
      case Connecting => ConnectingReacts(l, e, envs);
      case Connected => ConnectedStateReacts(l, e, envs);
      case Established => EstablishedReacts(l, e, envs);
      case Streaming => StreamingStateReacts(l, e, envs);
      case TextOnlySession => StreamingStateReacts(l, e, envs);
      case ConnectionRetry => RetryStateReacts(l, e, envs);
    }
  }

  /** With the late EOS_PIPE of a remote message still queued, an event comes second: the stream is ended first. */
  lemma LateEosPipeOutcome(l: Link, e: Event, envs: seq<Env>)
    requires Quiet(l) && l.ws.queue == [EosPipe] && IsExternal(e) && !IsBegin(e)
    ensures var m := Queued(l, []);
            && Quiet(m)
            && Deliver(l, e, envs) == Deliver(Deliver(m, EosPipe, [First(envs)]), e, Rest(envs))
  {
    hide Process;
    LateFirst(Queued(l, []), e, envs);
    assert l == Queued(Queued(l, []), [EosPipe]);
    EmptyIsQuiet(l);
    hide Quiet, Deliver;
  }

  lemma EmptyIsQuiet(l: Link)
    requires Quiet(l)
    ensures Quiet(Queued(l, []))
  {
    hide Watch;
  }

  lemma LateFirst(m: Link, e: Event, envs: seq<Env>)
    requires m.ws.queue == []
    ensures Deliver(Queued(m, [EosPipe]), e, envs) == Deliver(Deliver(m, EosPipe, [First(envs)]), e, Rest(envs))
  {
    hide Effect, Posts, Process;
    var l, env := Queued(m, [EosPipe]), First(envs);
    var p := Post(l, e);
    assert p.ws.queue == [EosPipe, e] && Pop(p) == Queued(m, [e]);
    DeliverChain(m, EosPipe, [env]);
    QueuedBehind(m, [e], env);
    ProcessStep(p, envs);
    assert Step(p, env) == Post(Effect(m, EosPipe, env), e);
  }

  function Queued(l: Link, q: seq<Event>): Link { l.(ws := l.ws.(queue := q)) }

  lemma StreamEndIgnoresQueue(l: Link, q: seq<Event>)
    ensures StreamEnd(Queued(l, q)) == Queued(StreamEnd(l), q)
  {
    var m := SpeechStreamEnd(l, l.ws.streamWhy);
    assert SpeechStreamEnd(Queued(l, q), l.ws.streamWhy) == Queued(m, q);
    hide SpeechStreamEnd;
    assert ClosePipe(Queued(m, q)) == Queued(ClosePipe(m), q);
  }

  /** Of the states that EOS_PIPE leaves, none holds a timer. */
  lemma LeaveIgnoresQueue(l: Link, q: seq<Event>)
    requires l.ws.state.Streaming? || l.ws.state.TextOnlySession?
    ensures Leave(Queued(l, q), EosPipe, Established) == Queued(Leave(l, EosPipe, Established), q)
  {
    var m := Reasons(l, AudioEof, EndOfSpeech);
    assert Reasons(Queued(l, q), AudioEof, EndOfSpeech) == Queued(m, q);
    StreamEndIgnoresQueue(m, q);
    assert Plan(l, EosPipe) == Plan(Queued(l, q), EosPipe) == Leaving(AudioEof, EndOfSpeech, true);
    hide StreamEnd, StopTimer, LeavingFor, Reasons;
  }

  lemma WaitIgnoresQueue(n: Link, q: seq<Event>, env: Env)
    requires n.ws.state.Established?
    ensures Enter(Queued(n, q), env) == Queued(Enter(n, env), q)
  {}

  /** What waits in the queue does not matter to a dispatch. */
  lemma QueuedBehind(m: Link, q: seq<Event>, env: Env)
    ensures Effect(Queued(m, q), EosPipe, env) == Queued(Effect(m, EosPipe, env), q)
    ensures Posts(Queued(m, q), EosPipe, env) == Posts(m, EosPipe, env) == None
  {
    if m.ws.state.Streaming? || m.ws.state.TextOnlySession? {
      LeaveIgnoresQueue(m, q);
      MoveIs(m, EosPipe, Established, env);
      MoveIs(Queued(m, q), EosPipe, Established, env);
      WaitIgnoresQueue(Leave(m, EosPipe, Established), q, env);
      LeaveState(m, q);
      hide Leave, Enter, Effect, Posts;
    } else {
      hide Leave, Enter, EnterPosts;
    }
  }

  lemma LeaveState(m: Link, q: seq<Event>)
    ensures Leave(m, EosPipe, Established).ws.state.Established?
    ensures Leave(Queued(m, q), EosPipe, Established).ws.state.Established?
  {
    hide Exit;
  }

  // ---- starting a session ----

  /** A connection whose session has just been handed a read end. */
  function Opened(l: Link, src: nat, fd: nat, now: nat): Link
  {
    Link(l.ws.(deadline := now + l.ws.cfg.timeoutSession, src := src, pipe := fd,
               wait := ToInt32(l.ws.cfg.timeoutConnect), onClose := false, closeStatus := -1,
               tx := l.ws.tx.(kwdNotified := true, kwdBytes := 0, txd := 0), queue := [],
               log := l.ws.log + [PipeOpened(fd), SessionStarted]),
         l.sess.(firstStreamReq := false, pipeFd := fd))
  }

  /** A configured session buffers its audio if there is a minimum time, it is spoken, and the minimum was not
      reached yet; otherwise it attempts to connect.  Its deadline and its budget come from the parameters.  Without
      a stream nothing starts. */
  lemma ConfigureOutcome(l: Link, src: nat, p: PipeAnswer, now: nat, streamTimeMin: nat, envs: seq<Env>)
    requires Quiet(l) && Configurable(l, src)
    ensures var r := Configure(l, src, p, now, streamTimeMin, envs);
            match p
            case PipeFails => r == l
            case AudioFails(fd) => r.ws == l.ws.(log := l.ws.log + [PipeOpened(fd), PipeClosed(fd)])
            case PipeReady(fd) =>
              var m, es := Opened(l, src, fd, now), if l.ws.queue == [] then envs else Rest(envs);
              Reacts(m, r, if streamTimeMin > 0 && !l.ws.byText && !l.ws.stm then To(m.ws, Buffering, [])
                           else Attempt(m.ws, First(es), First(Rest(es)), []))
  {
    hide Deliver, ToInt32, Attempt, Reacts, Watch, Quiet, Prepare, StreamBegin, Connect, Opened;
    IdleHasNoSource(l);
    match p
    case PipeFails => Refused(l, p);
    case AudioFails(fd) => Refused(l, p);
    case PipeReady(fd) =>
      QueueAtRest(l);
      OpenedIs(l, src, fd, now);
      var deferred := streamTimeMin > 0 && !l.ws.byText && !l.ws.stm;
      OpenedPoised(l, src, fd, now);
      BeginReacts(Opened(l, src, fd, now), l.ws.queue, deferred, envs);
      hide Queued;
      ConnectIs(l, src, fd, now, deferred, envs);
  }

  lemma Refused(l: Link, p: PipeAnswer)
    requires l.sess.firstStreamReq
    ensures p.PipeFails? ==> StreamBegin(l, p) == (l, None)
    ensures p.AudioFails? ==>
              var (m, fd) := StreamBegin(l, p);
              fd.None? && m.ws == l.ws.(log := l.ws.log + [PipeOpened(p.fd), PipeClosed(p.fd)])
  {
    if p.AudioFails? {
      assert l.ws.log + [PipeOpened(p.fd)] + [PipeClosed(p.fd)] == l.ws.log + [PipeOpened(p.fd), PipeClosed(p.fd)];
    }
  }

  lemma OpenedIs(l: Link, src: nat, fd: nat, now: nat)
    requires l.sess.firstStreamReq
    ensures var (m, r) := StreamBegin(l, PipeReady(fd));
            && r == Some(fd as int) && m.ws.byText == l.ws.byText && m.ws.stm == l.ws.stm
            && Prepare(m.(ws := m.ws.(pipe := fd)), src, now) == Queued(Opened(l, src, fd, now), l.ws.queue)
  {
    hide ToInt32;
    assert l.ws.log + [PipeOpened(fd)] + [SessionStarted] == l.ws.log + [PipeOpened(fd), SessionStarted];
  }

  lemma OpenedPoised(l: Link, src: nat, fd: nat, now: nat)
    requires Quiet(l) && Configurable(l, src)
    ensures var m := Opened(l, src, fd, now);
            && m.ws.state.Disconnected? && m.ws.queue == []
            && m.sess.src == m.ws.src < SRC_INVALID && m.ws.pipe >= 0 && m.ws.timer < 0
            && m.ws.byText == l.ws.byText
  {
    hide Watch, ToInt32;
  }

  lemma ConnectIs(l: Link, src: nat, fd: nat, now: nat, deferred: bool, envs: seq<Env>)
    requires l.sess.firstStreamReq
    ensures Connect(StreamBegin(l, PipeReady(fd)).0.(ws := StreamBegin(l, PipeReady(fd)).0.ws.(pipe := fd)),
                    src, now, deferred, envs)
            == Deliver(Queued(Opened(l, src, fd, now), l.ws.queue),
                       if deferred then SessionBeginStm else SessionBegin, envs)
  {
    OpenedIs(l, src, fd, now);
    hide Deliver, Prepare, StreamBegin, Opened, Queued;
  }

  lemma QueueAtRest(l: Link)
    requires Quiet(l)
    ensures l.ws.queue == [] || l.ws.queue == [EosPipe]
  {
    hide Watch, Body;
  }

  lemma BeginReacts(m: Link, q: seq<Event>, deferred: bool, envs: seq<Env>)
    requires m.ws.state.Disconnected? && m.ws.queue == [] && (q == [] || q == [EosPipe])
    requires m.sess.src == m.ws.src < SRC_INVALID && m.ws.pipe >= 0 && m.ws.timer < 0
    ensures var es := if q == [] then envs else Rest(envs);
            Reacts(m, Deliver(Queued(m, q), if deferred then SessionBeginStm else SessionBegin, envs),
                   if deferred then To(m.ws, Buffering, []) else Attempt(m.ws, First(es), First(Rest(es)), []))
  {
    hide Deliver, Reacts, Attempt;
    var e := if deferred then SessionBeginStm else SessionBegin;
    var es := if q == [] then envs else Rest(envs);
    BeginNow(m, deferred, es);
    if q == [] {
      assert Queued(m, q) == m;
    } else {
      LateFirst(m, e, envs);
      DisconnectedDrops(m, EosPipe, [First(envs)]);
    }
  }

  lemma BeginNow(m: Link, deferred: bool, envs: seq<Env>)
    requires m.ws.state.Disconnected? && m.ws.queue == [] && m.ws.pipe >= 0 && m.ws.timer < 0
    requires m.sess.src == m.ws.src < SRC_INVALID
    ensures Reacts(m, Deliver(m, if deferred then SessionBeginStm else SessionBegin, envs),
                   if deferred then To(m.ws, Buffering, []) else Attempt(m.ws, First(envs), First(Rest(envs)), []))
  {
    var e, t := if deferred then SessionBeginStm else SessionBegin, if deferred then Buffering else Connecting;
    var n := Leave(m, e, t);
    NothingToLeave(m, e, t);
    MoveIs(m, e, t, First(envs));
    DeliverChain(m, e, envs);
    hide Leave, Effect, Posts, Deliver, Next, GivenBack;
    if !deferred {
      assert m.ws.log + [] == m.ws.log;
      AttemptReacts(m, n, [], First(envs), Rest(envs));
      hide Enter, EnterPosts, Attempt, Reacts;
    }
  }

  lemma NothingToLeave(m: Link, e: Event, t: State)
    requires m.ws.state.Disconnected?
    ensures Leave(m, e, t) == m.(ws := m.ws.(state := t))
  {}
}
