/** When a failed attempt is retried, how long the delay is, and what becomes of a timer that fired. */
module WsTimers {
  import opened Arithmetic
  import opened Types
  import opened Monitor
  import opened WsTables
  import opened WsSpec
  import opened WsIo
  import opened WsInvariant
  import opened WsRuns

  // ---- the delay ----

  lemma {:induction false} Pow2Grows(m: nat, n: nat)
    requires m <= n
    ensures Pow2(m) <= Pow2(n)
    decreases n
  {
    if m < n { Pow2Grows(m, n - 1); }
  }

  lemma Pow2At18()
    ensures Pow2(18) == 262144
  {
    assert Pow2(6) == 64 by { assert Pow2(3) == 8; }
    assert Pow2(12) == 4096 by { assert Pow2(9) == 512; }
    assert Pow2(15) == 32768;
  }

  lemma NoWrap(backoff: nat, p: nat, rnd: nat)
    requires p >= 1 && backoff * (p - 1) < 0x1_0000_0000
    ensures (backoff * (rnd % p)) % 0x1_0000_0000 == backoff * (rnd % p)
  {
    var k := rnd % p;
    MulMonotone(backoff, k, p - 1);
    var x := backoff * k;
    assert x < 0x1_0000_0000;
  }

  lemma Wraps(backoff: nat, p: nat)
    requires p >= 1 && backoff * (p - 1) >= 0x1_0000_0000
    ensures (backoff * ((p - 1) % p)) % 0x1_0000_0000 != backoff * ((p - 1) % p)
  {
    assert (p - 1) % p == p - 1;
    var x := backoff * (p - 1);
    assert x % 0x1_0000_0000 < 0x1_0000_0000 <= x;
  }

  lemma DelayIs(backoff: nat, n: nat, rnd: nat)
    requires n < 32
    ensures RetryDelay(backoff, n, rnd) == (backoff * (rnd % Pow2(n))) % 0x1_0000_0000
  {
    assert n % 32 == n;
  }

  /** Retry n waits a random number of backoff bases, fewer than 2^n of them - for every random number exactly
      when the longest such wait fits in 32 bits. */
  lemma DelayExact(backoff: nat, n: nat)
    requires n < 32
    ensures (forall rnd: nat :: RetryDelay(backoff, n, rnd) == backoff * (rnd % Pow2(n)))
            <==> backoff * (Pow2(n) - 1) < 0x1_0000_0000
  {
    var p := Pow2(n);
    hide Pow2, RetryDelay;
    if backoff * (p - 1) < 0x1_0000_0000 {
      forall rnd: nat ensures RetryDelay(backoff, n, rnd) == backoff * (rnd % p) {
        DelayIs(backoff, n, rnd);
        NoWrap(backoff, p, rnd);
      }
    } else {
      DelayIs(backoff, n, p - 1);
      Wraps(backoff, p);
    }
  }

  /** Up to 18 retries and a base of up to ten seconds are safe. */
  lemma DelayBounded(backoff: nat, n: nat, rnd: nat)
    requires backoff <= 10000 && n <= 18
    ensures RetryDelay(backoff, n, rnd) == backoff * (rnd % Pow2(n)) <= backoff * (Pow2(n) - 1)
  {
    Pow2Grows(n, 18);
    Pow2At18();
    MulMonotone(backoff, Pow2(n) - 1, 262143);
    MulMonotone(backoff, rnd % Pow2(n), Pow2(n) - 1);
    DelayExact(backoff, n);
  }

  /** ... and one retry more is not. */
  lemma DelayWraps()
    ensures RetryDelay(10000, 19, 524287) < 10000 * (524287 % Pow2(19))
  {
    Pow2At18();
    assert Pow2(19) == 524288;
  }

  // ---- the deadline ----

  /** A failed attempt is retried exactly before the session deadline, and given up exactly from then on. */
  lemma RetriedBeforeDeadline(l: Link, e: Event, env: Env)
    ensures Posts(l, e, env) == Some(RetryEv) ==> env.now < l.ws.deadline
    ensures Posts(l, e, env) == Some(ConnectTimeout) ==> env.now >= l.ws.deadline
  {
    hide Leave, Next;
    var n := Next(l.ws.state, e);
    if n.Some? && n.value != l.ws.state {
      LeaveDeadline(l, e, n.value);
      EnterBeforeDeadline(Leave(l, e, n.value).ws, env);
      hide EnterPosts;
    }
  }

  lemma EnterBeforeDeadline(w: Ws, env: Env)
    ensures EnterPosts(w, env) == Some(RetryEv) ==> env.now < w.deadline
    ensures EnterPosts(w, env) == Some(ConnectTimeout) ==> env.now >= w.deadline
  {}

  lemma LeaveDeadline(l: Link, e: Event, t: State)
    ensures Leave(l, e, t).ws.deadline == l.ws.deadline && Leave(l, e, t).ws.cfg == l.ws.cfg
    ensures Leave(l, e, t).ws.retryCnt == l.ws.retryCnt
  {
    hide LeavingFor, StreamEnd, StopTimer;
    var d := LeavingFor(l.ws.state, e, l.ws.closeStatus, Leaving(l.ws.streamWhy, l.ws.sessionWhy, false));
    var r := Reasons(l, d.streamWhy, d.sessionWhy);
    StopKeepsDeadline(r);
    StreamEndKeepsDeadline(r);
    StopKeepsDeadline(StreamEnd(r));
  }

  lemma StopKeepsDeadline(l: Link)
    ensures var r := StopTimer(l).ws;
            r.deadline == l.ws.deadline && r.cfg == l.ws.cfg && r.retryCnt == l.ws.retryCnt
  {}

  lemma StreamEndKeepsDeadline(l: Link)
    ensures var r := StreamEnd(l).ws;
            r.deadline == l.ws.deadline && r.cfg == l.ws.cfg && r.retryCnt == l.ws.retryCnt
  {}

  /** The retry timer: one more retry is counted, and the timer expires after the random delay but never
      after the session deadline. */
  lemma RetryTimer(l: Link, env: Env)
    requires l.ws.state.Connecting? && l.ws.retryCnt < 0xFFFF_FFFF
    ensures var r, n := Effect(l, RetryEv, env).ws, l.ws.retryCnt + 1;
            && r.state.ConnectionRetry? && r.retryCnt == n && r.log != []
            && (var c := r.log[|r.log| - 1];
                c == TimerInserted(r.timer, Min(env.now + RetryDelay(l.ws.cfg.backoff, n, env.rnd), l.ws.deadline))
                && c.at <= r.deadline == l.ws.deadline
                && (env.now <= l.ws.deadline ==> env.now <= c.at))
  {
    hide Leave, RetryDelay;
    var m := Leave(l, RetryEv, ConnectionRetry);
    LeaveDeadline(l, RetryEv, ConnectionRetry);
    EnterRetryTimer(m, env);
    hide Enter;
  }

  lemma EnterRetryTimer(l: Link, env: Env)
    requires l.ws.state.ConnectionRetry? && l.ws.retryCnt < 0xFFFF_FFFF
    ensures var r, n := Enter(l, env).ws, l.ws.retryCnt + 1;
            && r.state.ConnectionRetry? && r.retryCnt == n && r.log != [] && r.deadline == l.ws.deadline
            && r.log[|r.log| - 1]
               == TimerInserted(r.timer, Min(env.now + RetryDelay(l.ws.cfg.backoff, n, env.rnd), l.ws.deadline))
  {
    hide RetryDelay, Min;
  }

  // ---- timers that fired ----

  /** A call after the first n says what becomes of the timer. */
  predicate Served(log: seq<Call>, n: nat, id: int)
  {
    exists i :: n <= i < |log| && (log[i] == TimerRemoved(id) || (log[i].TimerUpdated? && log[i].id == id))
  }

  lemma ServedLater(log: seq<Call>, n: nat, id: int, longer: seq<Call>)
    requires Served(log, n, id) && Continues(log, longer)
    ensures Served(longer, n, id)
  {
    var i :| n <= i < |log| && (log[i] == TimerRemoved(id) || (log[i].TimerUpdated? && log[i].id == id));
    assert longer[i] == log[i];
  }

  lemma StopTimerGrows(l: Link)
    ensures Continues(l.ws.log, StopTimer(l).ws.log)
    ensures l.ws.timer >= 0 ==> Served(StopTimer(l).ws.log, |l.ws.log|, l.ws.timer)
  {
    var r := StopTimer(l).ws.log;
    if l.ws.timer >= 0 { assert r[|l.ws.log|] == TimerRemoved(l.ws.timer); }
  }

  lemma ClosePipeGrows(l: Link)
    ensures Continues(l.ws.log, ClosePipe(l).ws.log) && ClosePipe(l).ws.timer == l.ws.timer
  {}

  lemma StreamEndGrows(l: Link)
    ensures Continues(l.ws.log, StreamEnd(l).ws.log) && StreamEnd(l).ws.timer == l.ws.timer
  {
    ClosePipeGrows(SpeechStreamEnd(l, l.ws.streamWhy));
    hide ClosePipe;
  }

  lemma LeaveGrows(l: Link, e: Event, t: State)
    ensures Continues(l.ws.log, Leave(l, e, t).ws.log)
    ensures StopsTimer(l.ws.state) && l.ws.timer >= 0 ==> Served(Leave(l, e, t).ws.log, |l.ws.log|, l.ws.timer)
  {
    hide LeavingFor, StreamEnd, StopTimer, Served, Continues;
    var d := LeavingFor(l.ws.state, e, l.ws.closeStatus, Leaving(l.ws.streamWhy, l.ws.sessionWhy, false));
    var r := Reasons(l, d.streamWhy, d.sessionWhy);
    StreamEndGrows(r);
    var m := if d.endsStream then StreamEnd(r) else r;
    ContinuesSelf(l.ws.log);
    StopTimerGrows(m);
    ContinuesChain(l.ws.log, m.ws.log, StopTimer(m).ws.log);
    if l.ws.timer >= 0 { ServedEarlier(StopTimer(m).ws.log, |l.ws.log|, |m.ws.log|, l.ws.timer); }
  }

  lemma ServedEarlier(log: seq<Call>, n: nat, k: nat, id: int)
    requires n <= k && Served(log, k, id)
    ensures Served(log, n, id)
  {}

  lemma InsertTimerGrows(l: Link, env: Env, at: nat)
    ensures Continues(l.ws.log, InsertTimer(l, env, at).ws.log)
  {}

  lemma EnterGrows(l: Link, env: Env)
    ensures Continues(l.ws.log, Enter(l, env).ws.log)
  {
    hide RetryDelay, ToInt32, Min, EnterDisconnected, InsertTimer;
    EnterDisconnectedGrows(l, env.resume);
    InsertTimerGrows(l.(ws := l.ws.(conn := true)), env, env.now + l.ws.cfg.interval);
    InsertTimerGrows(l.(ws := l.ws.(wait := ToInt32(l.ws.cfg.timeoutConnect))), env, env.now + l.ws.cfg.interval);
    InsertTimerGrows(l, env, env.now + l.ws.cfg.timeoutInactivity);
    var n := (l.ws.retryCnt + 1) % 0x1_0000_0000;
    InsertTimerGrows(l.(ws := l.ws.(retryCnt := n)), env,
                     Min(env.now + RetryDelay(l.ws.cfg.backoff, n, env.rnd), l.ws.deadline));
  }

  lemma EnterDisconnectedGrows(l: Link, resume: bool)
    ensures Continues(l.ws.log, EnterDisconnected(l, resume).ws.log)
  {
    hide ClosePipe;
    var told := Emit(l, DisconnectNotified(l.ws.sessionWhy));
    var m := SessionEnd(told.(ws := told.ws.(resume := resume)), l.ws.sessionWhy);
    assert Continues(l.ws.log, m.ws.log);
    hide SessionEnd;
    ClosePipeGrows(m.(ws := m.ws.(socket := NONE, timer := NONE, src := SRC_INVALID,
                                  tx := m.ws.tx.(pending := false, retries := 0),
                                  resume := true, onClose := false, retryCnt := 1, byText := false, msgs := [])));
  }

  lemma EffectGrows(l: Link, e: Event, env: Env)
    ensures Continues(l.ws.log, Effect(l, e, env).ws.log)
    ensures var n := Next(l.ws.state, e);
            n.Some? && n.value != l.ws.state && StopsTimer(l.ws.state) && l.ws.timer >= 0 ==>
              Served(Effect(l, e, env).ws.log, |l.ws.log|, l.ws.timer)
  {
    hide Leave, Enter, Next, Served;
    var n := Next(l.ws.state, e);
    if n.Some? && n.value != l.ws.state {
      LeaveGrows(l, e, n.value);
      EnterGrows(Leave(l, e, n.value), env);
      if StopsTimer(l.ws.state) && l.ws.timer >= 0 {
        ServedLater(Leave(l, e, n.value).ws.log, |l.ws.log|, l.ws.timer, Effect(l, e, env).ws.log);
      }
    } else {
      InternalGrows(l, e, env);
    }
  }

  lemma InternalGrows(l: Link, e: Event, env: Env)
    ensures Continues(l.ws.log, Internal(l, e, env).ws.log)
  {
    UpdateTimerGrows(l.(ws := l.ws.(wait := ToInt32(l.ws.wait - l.ws.cfg.interval))), env.now + l.ws.cfg.interval);
    UpdateTimerGrows(l, env.now + l.ws.cfg.timeoutInactivity);
    ContinuesSelf(l.ws.log);
    hide ToInt32, UpdateTimer, Continues;
  }

  lemma UpdateTimerGrows(l: Link, at: nat)
    ensures Continues(l.ws.log, UpdateTimer(l, at).ws.log)
  {}

  lemma {:induction false} ProcessGrows(l: Link, envs: seq<Env>)
    ensures Continues(l.ws.log, Process(l, envs).ws.log)
    decreases QueueCost(l.ws.queue)
  {
    if l.ws.queue != [] {
      EffectGrows(Pop(l), l.ws.queue[0], First(envs));
      StepCost(l, First(envs));
      ProcessGrows(Step(l, First(envs)), Rest(envs));
      hide Effect, Posts;
    }
  }

  /** What an expiry does to its timer at once, or leaves to the event it posts. */
  lemma ExpiryServes(l: Link, env: Env)
    requires StopsTimer(l.ws.state) && l.ws.timer >= 0
    ensures var r, p := Effect(l, TimeoutEv, env), Posts(l, TimeoutEv, env);
            || Served(r.ws.log, |l.ws.log|, l.ws.timer)
            || (p.Some? && r.ws.state == l.ws.state && r.ws.timer == l.ws.timer && r.ws.log == l.ws.log
                && Next(l.ws.state, p.value).Some? && Next(l.ws.state, p.value).value != l.ws.state)
  {
    EffectGrows(l, TimeoutEv, env);
    if l.ws.state.Connecting? || l.ws.state.Connected? {
      InternalServes(l, env);
    }
    hide Leave, Enter, Internal, Served;
  }

  lemma InternalServes(l: Link, env: Env)
    requires (l.ws.state.Connecting? || l.ws.state.Connected?) && l.ws.timer >= 0
    ensures var r, p := Internal(l, TimeoutEv, env), InternalPosts(l.ws, TimeoutEv, env);
            || Served(r.ws.log, |l.ws.log|, l.ws.timer)
            || (p.Some? && r.ws.state == l.ws.state && r.ws.timer == l.ws.timer && r.ws.log == l.ws.log)
  {
    hide ToInt32;
    var log := Internal(l, TimeoutEv, env).ws.log;
    if InternalPosts(l.ws, TimeoutEv, env).None? {
      assert log[|l.ws.log|] == TimerUpdated(l.ws.timer, env.now + l.ws.cfg.interval);
    }
  }

  lemma ExpiryRunServes(l: Link, envs: seq<Env>)
    requires Inv(l) && l.ws.queue == [TimeoutEv] && l.ws.timer >= 0 && StopsTimer(l.ws.state)
    ensures Served(Process(l, envs).ws.log, |l.ws.log|, l.ws.timer)
  {
    hide Body, Effect, Posts, Next, Served, Fits;
    var env := First(envs);
    var s := Step(l, env);
    var n, id := |l.ws.log|, l.ws.timer;
    ExpiryServes(Pop(l), env);
    StepKeeps(l, env);
    QueueStaysShort(l, env);
    ProcessGrows(s, Rest(envs));
    if Served(s.ws.log, n, id) {
      ServedLater(s.ws.log, n, id, Process(l, envs).ws.log);
    } else {
      var r := Step(s, First(Rest(envs)));
      EffectGrows(Pop(s), s.ws.queue[0], First(Rest(envs)));
      ProcessGrows(r, Rest(Rest(envs)));
      ServedLater(r.ws.log, n, id, Process(l, envs).ws.log);
    }
  }

  /** A timer that fired is removed or rescheduled by its own timeout event, in the same processing run. */
  lemma FiredTimerIsServed(l: Link, envs: seq<Env>)
    requires Quiet(l) && l.ws.timer >= 0
    ensures Served(Deliver(l, TimeoutEv, envs).ws.log, |l.ws.log|, l.ws.timer)
  {
    hide Process, Served, Body, Step;
    var p := Post(l, TimeoutEv);
    PostKeeps(l, TimeoutEv);
    TimerState(l);
    if l.ws.queue == [] {
      assert p.ws.queue == [TimeoutEv];
      ExpiryRunServes(p, envs);
    } else {
      assert p.ws.queue == [EosPipe, TimeoutEv];
      LateEosPipeFirst(p, TimeoutEv, First(envs));
      LateEosPipeIdle(p, First(envs));
      ExpiryRunServes(Step(p, First(envs)), Rest(envs));
      assert Process(p, envs) == Process(Step(p, First(envs)), Rest(envs)) by { ProcessStep(p, envs); }
    }
  }

  lemma TimerState(l: Link)
    requires Quiet(l) && l.ws.timer >= 0
    ensures StopsTimer(l.ws.state)
  {
    hide Watch;
  }

  /** A connection with a timer does not end its stream on a late EOS_PIPE. */
  lemma LateEosPipeIdle(l: Link, env: Env)
    requires l.ws.queue != [] && l.ws.queue[0].EosPipe? && StopsTimer(l.ws.state)
    ensures var r := Step(l, env).ws; r.log == l.ws.log && r.timer == l.ws.timer && r.state == l.ws.state
  {
    StepTargets(Pop(l), EosPipe, env);
    EosPipePostsNothing(Pop(l), env);
    hide Effect;
  }
}
