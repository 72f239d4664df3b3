/** How many incomplete flushes in a row a session survives. */
module WsFlushes {
  import opened Types
  import opened Monitor
  import opened WsTables
  import opened WsSpec
  import opened WsIo
  import opened WsInvariant
  import opened WsRuns
  import opened WsReasons

  /** Incomplete flushes in a row after which the next one ends the session: one fewer for a session that
      inherited one. */
  function Survived(w: Watcher): nat { if w.carried then WRITE_PENDING_RETRY_MAX - 1 else WRITE_PENDING_RETRY_MAX }

  /** The counter of a connection counts the flushes of its session, and the inherited one. */
  lemma CounterIsTally(l: Link)
    requires Quiet(l) && !l.ws.state.Established?
    ensures l.ws.tx.retries == Tally(Seen(l)) <= WRITE_PENDING_RETRY_MAX
    ensures l.ws.state.Disconnected? ==> l.ws.tx.retries == (if Seen(l).carried then 1 else 0)
  {
    IdleStreak(l.ws.log);
    hide Watch;
  }

  /** An incomplete flush while streaming changes neither state nor queue as long as fewer were incomplete in a
      row than a session survives.  The next one ends the session with a send error - unless an EOS_PIPE was
      waiting, which ends only the stream, and the error is then ignored. */
  lemma SixthFlush(l: Link, envs: seq<Env>)
    requires Quiet(l) && (l.ws.state.Streaming? || l.ws.state.TextOnlySession?)
    ensures var w, r := Seen(l), FlushRetry(l, envs).ws;
            && w.streak <= Survived(w)
            && (if w.streak < Survived(w) then r.state == l.ws.state && r.queue == l.ws.queue
                else if l.ws.queue == [] then r.state.Disconnected? && LastReported(r.log) == Some(WsSendError)
                else r.state.Established?)
  {
    hide Process, LastReported, Deliver;
    CounterIsTally(l);
    CountFlushKeeps(l);
    hide Body;
    var m := CountFlush(l);
    if l.ws.tx.retries == WRITE_PENDING_RETRY_MAX {
      PostKeeps(m, WsError);
      SixthError(m, envs);
      hide Quiet;
    }
  }

  /** With nothing queued it ends the session exactly when the row is full. */
  lemma FillsRow(l: Link, envs: seq<Env>)
    requires Quiet(l) && (l.ws.state.Streaming? || l.ws.state.TextOnlySession?) && l.ws.queue == []
    ensures var r := FlushRetry(l, envs);
            Quiet(r) && (r.ws.state.Disconnected? <==> Seen(l).streak == Survived(Seen(l)))
  {
    hide FlushRetry, Quiet, Survived, LastReported;
    SixthFlush(l, envs);
    FlushRetryKeeps(l, envs);
  }

  lemma SixthError(m: Link, envs: seq<Env>)
    requires Inv(Post(m, WsError)) && (m.ws.state.Streaming? || m.ws.state.TextOnlySession?)
    requires m.ws.queue == [] || m.ws.queue == [EosPipe]
    ensures var r := Deliver(m, WsError, envs).ws;
            if m.ws.queue == [] then r.state.Disconnected? && LastReported(r.log) == Some(WsSendError)
            else r.state.Established?
  {
    hide Body, Process, LastReported, Step;
    var p := Post(m, WsError);
    if m.ws.queue == [] {
      assert p.ws.queue == [WsError];
      ReportsItsReason(p, WsError, envs);
    } else {
      assert p.ws.queue == [EosPipe, WsError];
      LateEosPipeFirst(p, WsError, First(envs));
      LateEosPipeEnds(p, First(envs));
      ProcessStep(p, envs);
      ErrorIgnored(Step(p, First(envs)), Rest(envs));
    }
    hide Inv;
  }

  lemma LateEosPipeEnds(l: Link, env: Env)
    requires l.ws.queue != [] && l.ws.queue[0].EosPipe? && (l.ws.state.Streaming? || l.ws.state.TextOnlySession?)
    ensures Step(l, env).ws.state.Established?
  {
    StepTargets(Pop(l), EosPipe, env);
    hide Effect, Posts;
  }

  lemma ErrorIgnored(l: Link, envs: seq<Env>)
    requires l.ws.queue == [WsError] && l.ws.state.Established?
    ensures Process(l, envs).ws.state.Established?
  {
    var s := Step(l, First(envs));
    assert s == l.(ws := l.ws.(queue := []));
    assert Process(s, Rest(envs)) == s;
  }

  // ---- a row of them ----

  /** Incomplete flushes, one pass after the other, for as long as bytes are pending. */
  function Flushing(l: Link, answers: seq<Answers>): Link
    decreases |answers|
  {
    if answers == [] || !l.ws.tx.pending then l
    else Flushing(FlushPending(l, Incomplete, answers[0]).0, answers[1..])
  }

  lemma FlushSeen(l: Link, envs: seq<Env>)
    requires Quiet(l) && (l.ws.state.Streaming? || l.ws.state.TextOnlySession?) && Seen(l).streak < Survived(Seen(l))
    ensures var r := FlushRetry(l, envs);
            && Seen(r) == Seen(l).(streak := Seen(l).streak + 1) && r.ws.queue == l.ws.queue
            && r.ws.state == l.ws.state && r.ws.tx.pending == l.ws.tx.pending
  {
    hide Quiet, Watch, Deliver, Survived;
    StreamingIsLive(l);
    FewRetries(l);
    assert FlushRetry(l, envs) == CountFlush(l);
    SeenCountFlush(l);
    hide FlushRetry;
  }

  lemma FewRetries(l: Link)
    requires Quiet(l) && (l.ws.state.Streaming? || l.ws.state.TextOnlySession?) && Seen(l).streak < Survived(Seen(l))
    ensures l.ws.tx.retries < WRITE_PENDING_RETRY_MAX
  {
    CounterIsTally(l);
    hide Quiet, Watch;
  }

  lemma StreamingIsLive(l: Link)
    requires Quiet(l) && (l.ws.state.Streaming? || l.ws.state.TextOnlySession?)
    ensures Seen(l).phase == Live
  {
    hide Watch;
  }

  lemma SeenCountFlush(l: Link)
    requires Seen(l).phase == Live
    ensures Seen(CountFlush(l)) == Seen(l).(streak := Seen(l).streak + 1)
  {
    SeenEmit(l.(ws := l.ws.(tx := l.ws.tx.(retries := (l.ws.tx.retries + 1) % 256))), FlushIncomplete);
    hide Watch;
  }

  /** A streaming session with pending bytes and nothing queued has ended after n further incomplete flushes in
      a row exactly when they make six in all, or five for a session that inherited one. */
  lemma {:induction false} EndsOnSixth(l: Link, answers: seq<Answers>)
    requires Quiet(l) && (l.ws.state.Streaming? || l.ws.state.TextOnlySession?)
    requires l.ws.tx.pending && l.ws.queue == []
    ensures Flushing(l, answers).ws.state.Disconnected? <==> Seen(l).streak + |answers| > Survived(Seen(l))
    decreases |answers|
  {
    hide FlushRetry, Body, Watch;
    CounterIsTally(l);
    assert Seen(l).streak <= Survived(Seen(l));
    if answers != [] {
      var envs := Ans(answers[0], 2);
      var r := FlushRetry(l, envs);
      assert FlushPending(l, Incomplete, answers[0]).0 == r;
      SixthFlush(l, envs);
      FlushRetryKeeps(l, envs);
      if Seen(l).streak < Survived(Seen(l)) {
        FlushSeen(l, envs);
        EndsOnSixth(r, answers[1..]);
      } else {
        NothingPendingIdle(r);
      }
    }
    hide Quiet, Tally;
  }

  lemma NothingPendingIdle(l: Link)
    requires Quiet(l) && l.ws.state.Disconnected?
    ensures !l.ws.tx.pending
  {
    hide Watch;
  }

  // ---- the inherited one ----

  lemma CloseReaches(l: Link, envs: seq<Env>)
    requires Inv(l) && Up(l.ws.state) && (l.ws.queue == [WsClose] || l.ws.queue == [EosPipe, WsClose])
    ensures Process(l, envs).ws.state.Disconnected?
    decreases |l.ws.queue|
  {
    hide Watch, Body, Process, Step;
    var s := Step(l, First(envs));
    StepKeeps(l, First(envs));
    ProcessStep(l, envs);
    if l.ws.queue == [WsClose] {
      CloseStep(l, First(envs));
      DrainsToDisconnected(s, Rest(envs));
    } else {
      LateEosPipeFirst(l, WsClose, First(envs));
      StillUpLateStep(l, First(envs));
      CloseReaches(s, Rest(envs));
    }
  }

  lemma CloseStep(l: Link, env: Env)
    requires l.ws.queue == [WsClose] && Up(l.ws.state)
    ensures Step(l, env).ws.state.Disconnected? && !Starting(Step(l, env).ws)
  {
    StepTargets(Pop(l), WsClose, env);
    PostsNoBegin(Pop(l), WsClose, env);
    hide Effect, Posts;
  }

  lemma StillUpLateStep(l: Link, env: Env)
    requires l.ws.queue != [] && l.ws.queue[0].EosPipe? && Up(l.ws.state)
    ensures Up(Step(l, env).ws.state)
  {
    StepTargets(Pop(l), EosPipe, env);
    hide Effect, Posts;
  }

  /** When the peer closes during a flush, the session ends first and the flush is counted afterwards: the
      machine rests in Disconnected with its counter at one, and the next session inherits that. */
  lemma CloseLeavesOne(l: Link, status: int, a: Answers)
    requires Quiet(l) && Up(l.ws.state)
    ensures var r := FlushPending(l, ClosedInFlush(status), a).0;
            && Quiet(r) && r.ws.state.Disconnected? && r.ws.tx.retries == 1 && Seen(r).carried
  {
    hide Watch, Process, Body, Deliver, StillUp;
    var closed := l.(ws := l.ws.(onClose := true, closeStatus := status));
    var c := OnClose(l, status, Ans(a, 2));
    OnCloseKeeps(l, status, Ans(a, 2));
    assert Quiet(closed) by { ClosedQuiet(l, status); }
    PostKeeps(closed, WsClose);
    assert c.ws.state.Disconnected? by { CloseRun(closed, Ans(a, 2)); }
    assert c.ws.tx.retries == 0 by { UpLosesRetries(l, status, Ans(a, 2)); }
    FlushRetryKeeps(c, Ans(a, 3));
    CounterIsTally(FlushRetry(c, Ans(a, 3)));
  }

  lemma ClosedQuiet(l: Link, status: int)
    requires Quiet(l)
    ensures Quiet(l.(ws := l.ws.(onClose := true, closeStatus := status)))
  {
    hide Watch;
  }

  lemma CloseRun(l: Link, envs: seq<Env>)
    requires Quiet(l) && Up(l.ws.state) && Inv(Post(l, WsClose))
    ensures Deliver(l, WsClose, envs).ws.state.Disconnected?
  {
    hide Process, Body;
    var p := Post(l, WsClose);
    assert p.ws.queue == [WsClose] || p.ws.queue == [EosPipe, WsClose];
    CloseReaches(p, envs);
  }

  lemma UpLosesRetries(l: Link, status: int, envs: seq<Env>)
    requires Quiet(l) && Up(l.ws.state) && OnClose(l, status, envs).ws.state.Disconnected?
    ensures OnClose(l, status, envs).ws.tx.retries == 0
  {
    hide Process, Body, Deliver;
    OnCloseKeeps(l, status, envs);
    hide OnClose;
  }

  /** Starting a session keeps the counter, so it survives one flush fewer exactly when the counter is one. */
  lemma StartInherits(l: Link, src: nat, now: nat)
    requires Quiet(l) && l.ws.state.Disconnected?
    ensures var r := Prepare(l, src, now);
            && r.ws.tx.retries == l.ws.tx.retries && Seen(r).streak == 0
            && (Survived(Seen(r)) == WRITE_PENDING_RETRY_MAX - 1 <==> l.ws.tx.retries == 1)
            && (Survived(Seen(r)) == WRITE_PENDING_RETRY_MAX <==> l.ws.tx.retries == 0)
  {
    CounterIsTally(l);
    WatchAppend(l.ws.log, SessionStarted);
    hide Watch, ToInt32;
  }
}
