/** What an outside event does to an HTTP connection at rest, all in all: the state it comes to rest in and the calls
    it makes on the way, without tables, handlers or posted events. */
module HttpOutcomes {
  import opened Types
  import opened Monitor
  import opened HttpSpec
  import opened HttpProofs

  datatype Outcome = Outcome(state: State, calls: seq<Call>)

  function SessionOver(why: SessionWhy): seq<Call> { [DisconnectNotified(why), SessionEnded(why)] }

  /** The transfer is set up, or the session is over at once; a session by text goes on to its own state. */
  function Attempt(h: Http, x: Env): Outcome
  {
    if x.connectOk then Outcome(if h.byText then TextOnlySession else Streaming, [ConnectNotified, StreamBegan])
    else Outcome(Disconnected, [StreamEnded(DidNotBegin)] + SessionOver(ConnectFailure))
  }

  function FromBuffering(h: Http, e: Event, x: Env): Outcome
  {
    match e
    case EosEv => Outcome(Disconnected, [StreamEnded(DidNotBegin)] + SessionOver(AudioDurationError))
    case TerminateEv => Outcome(Disconnected, [StreamEnded(DidNotBegin)] + SessionOver(Terminated))
    case StmEv => Attempt(h, x)
    case _ => Outcome(Buffering, [])
  }

  /** The audio is sent and the answer is awaited: it comes, or it is late, or nobody wants it any more. */
  function FromConnected(h: Http, e: Event): Outcome
  {
    var stop := [TimerRemoved(h.timer)];
    match e
    case MsgRecv => Outcome(Disconnected, stop + SessionOver(EndOfSpeech))
    case TimeoutEv => Outcome(Disconnected, stop + SessionOver(SessionTimedOut))
    case TerminateEv => Outcome(Disconnected, stop + SessionOver(Terminated))
    case _ => Outcome(Connected, [])
  }

  /** While audio is sent, or in a text session. */
  function FromStreaming(h: Http, e: Event, x: Env): Outcome
  {
    match e
    case PipeEos => Outcome(Connected, [StreamEnded(AudioEof), TimerInserted(x.timerId, x.now + 10000)])
    case TerminateEv => Outcome(Disconnected, [StreamEnded(LocalDisconnect)] + SessionOver(Terminated))
    case MsgRecv =>
      if h.state.TextOnlySession? then Outcome(Disconnected, [StreamEnded(NoStreamReason)] + SessionOver(EndOfText))
      else Outcome(Disconnected, [StreamEnded(RemoteDisconnect)] + SessionOver(ConnectFailure))
    case _ => Outcome(h.state, [])
  }

  function Reaction(h: Http, e: Event, x: Env): Outcome
  {
    match h.state
    case Disconnected | Connecting => Outcome(h.state, [])
    case Buffering => FromBuffering(h, e, x)
    case Connected => FromConnected(h, e)
    case Streaming | TextOnlySession => FromStreaming(h, e, x)
  }

  predicate Reacts(l: Link, r: Link, o: Outcome)
  {
    && r.http.state == o.state && r.http.log == l.http.log + o.calls && r.http.queue == []
    && (if o.state.Disconnected? then
          r.sess.src == SRC_INVALID == r.http.src && r.http.timer < 0 && !r.http.byText && r.http.reason == EndOfSpeech
        else
          r.sess.src == l.sess.src && r.http.src == l.http.src && r.http.byText == l.http.byText
          && (o == Outcome(l.http.state, []) ==> r == l))
  }

  // ---- the machine does just that ----

  lemma DeliverChain(l: Link, e: Event, envs: seq<Env>)
    requires l.http.queue == []
    ensures Effect(l, e, First(envs)).http.queue == []
    ensures Deliver(l, e, envs)
            == match Posts(l, e, First(envs))
               case None => Effect(l, e, First(envs))
               case Some(p) => Deliver(Effect(l, e, First(envs)), p, Rest(envs))
  {
    var q, env := Post(l, e), First(envs);
    assert Pop(q) == l;
    hide Effect, Posts;
    var s := Step(q, env);
    assert Process(q, envs) == Process(s, Rest(envs));
    if Posts(l, e, env).None? { assert Process(s, Rest(envs)) == s; }
  }

  /** What rest means for the fields. */
  predicate Poised(l: Link)
  {
    && l.http.queue == [] && l.sess.src == l.http.src < SRC_INVALID && l.http.reason == EndOfSpeech
    && (l.http.timer >= 0 ==> l.http.state.Connected?)
  }

  lemma RestIsPoised(l: Link)
    requires Quiet(l) && !l.http.state.Disconnected?
    ensures Poised(l) && !l.http.state.Connecting? && (l.http.state.Connected? ==> l.http.timer >= 0)
  {
    hide Watch;
  }

  /** The calls of the end of a session. */
  lemma EndCalls(m: Link, env: Env)
    requires m.http.state.Disconnected? && m.sess.src == m.http.src < SRC_INVALID && m.http.timer < 0
    ensures var r := Enter(m, env);
            && r.http.log == m.http.log + SessionOver(m.http.reason) && r.http.state.Disconnected?
            && r.http.queue == m.http.queue && r.sess.src == SRC_INVALID == r.http.src && r.http.timer < 0
            && !r.http.byText && r.http.reason == EndOfSpeech
  {}

  /** A move to Disconnected whose exit makes the given calls. */
  lemma Ends(l: Link, e: Event, envs: seq<Env>, calls: seq<Call>)
    requires Poised(l) && Next(l.http.state, e) == Some(Disconnected)
    requires var m := Exit(l, e); m.http.log == l.http.log + calls && m.http.timer < 0
    ensures Reacts(l, Deliver(l, e, envs), Outcome(Disconnected, calls + SessionOver(Exit(l, e).http.reason)))
  {
    DeliverChain(l, e, envs);
    var m := Leave(l, e, Disconnected);
    hide Exit;
    EndCalls(m, First(envs));
    hide Enter, Next, Deliver;
    assert l.http.log + calls + SessionOver(m.http.reason) == l.http.log + (calls + SessionOver(m.http.reason));
  }

  lemma Dropped(l: Link, e: Event, envs: seq<Env>)
    requires l.http.queue == [] && Next(l.http.state, e).None?
    ensures Deliver(l, e, envs) == l
  {
    DeliverChain(l, e, envs);
  }

  /** From Connecting on, which is never rested in. */
  lemma AttemptReacts(l: Link, m: Link, x: Env, envs: seq<Env>, before: seq<Call>)
    requires Poised(m) && m.http.state.Connecting? && m.http.log == l.http.log + before
    requires m.sess.src == l.sess.src && m.http == l.http.(state := Connecting, log := m.http.log)
    ensures var o := Attempt(l.http, x);
            Reacts(l, Deliver(m, if x.connectOk then ConnectedEv else DisconnectedEv, envs),
                   o.(calls := before + o.calls))
  {
    hide Deliver;
    if x.connectOk {
      ComesUpWith(m, envs);
      assert l.http.log + before + [ConnectNotified, StreamBegan]
             == l.http.log + (before + [ConnectNotified, StreamBegan]);
    } else {
      Ends(m, DisconnectedEv, envs, [StreamEnded(DidNotBegin)]);
      assert l.http.log + before + ([StreamEnded(DidNotBegin)] + SessionOver(ConnectFailure))
             == l.http.log + (before + ([StreamEnded(DidNotBegin)] + SessionOver(ConnectFailure)));
    }
  }

  lemma ComesUpWith(m: Link, envs: seq<Env>)
    requires Poised(m) && m.http.state.Connecting?
    ensures Deliver(m, ConnectedEv, envs)
            == m.(http := m.http.(state := if m.http.byText then TextOnlySession else Streaming,
                                  log := m.http.log + [ConnectNotified, StreamBegan]))
  {
    DeliverChain(m, ConnectedEv, envs);
    var s := m.(http := m.http.(state := Streaming, log := m.http.log + [ConnectNotified, StreamBegan]));
    assert m.http.log + [ConnectNotified] + [StreamBegan] == s.http.log;
    assert Effect(m, ConnectedEv, First(envs)) == s;
    hide Deliver;
    if m.http.byText { Switches(s, Rest(envs)); }
  }

  lemma Switches(s: Link, envs: seq<Env>)
    requires s.http.state.Streaming? && s.http.queue == []
    ensures Deliver(s, TextSessionSuccess, envs) == s.(http := s.http.(state := TextOnlySession))
  {
    DeliverChain(s, TextSessionSuccess, envs);
  }

  lemma BufferingReacts(l: Link, e: Event, envs: seq<Env>)
    requires Poised(l) && l.http.state.Buffering? && !IsInternal(e) && !IsBegin(e)
    ensures Reacts(l, Deliver(l, e, envs), FromBuffering(l.http, e, First(envs)))
  {
    hide Deliver;
    match e
    case EosEv => Ends(l, e, envs, [StreamEnded(DidNotBegin)]);
    case TerminateEv => Ends(l, e, envs, [StreamEnded(DidNotBegin)]);
    case StmEv =>
      DeliverChain(l, e, envs);
      var m := l.(http := l.http.(state := Connecting));
      assert Effect(l, e, First(envs)) == m;
      assert l.http.log + [] == l.http.log;
      AttemptReacts(l, m, First(envs), Rest(envs), []);
      assert [] + Attempt(l.http, First(envs)).calls == Attempt(l.http, First(envs)).calls;
    case _ => Dropped(l, e, envs);
  }

  lemma ConnectedReacts(l: Link, e: Event, envs: seq<Env>)
    requires Poised(l) && l.http.state.Connected? && l.http.timer >= 0 && !IsInternal(e) && !IsBegin(e)
    ensures Reacts(l, Deliver(l, e, envs), FromConnected(l.http, e))
  {
    hide Deliver;
    match e
    case MsgRecv => Ends(l, e, envs, [TimerRemoved(l.http.timer)]);
    case TimeoutEv => Ends(l, e, envs, [TimerRemoved(l.http.timer)]);
    case TerminateEv => Ends(l, e, envs, [TimerRemoved(l.http.timer)]);
    case _ => Dropped(l, e, envs);
  }

  lemma StreamingReacts(l: Link, e: Event, envs: seq<Env>)
    requires Poised(l) && (l.http.state.Streaming? || l.http.state.TextOnlySession?) && !IsInternal(e) && !IsBegin(e)
    ensures Reacts(l, Deliver(l, e, envs), FromStreaming(l.http, e, First(envs)))
  {
    hide Deliver;
    match e
    case PipeEos => AnswerAwaited(l, envs);
    case TerminateEv => Ends(l, e, envs, [StreamEnded(LocalDisconnect)]);
    case MsgRecv =>
      Ends(l, e, envs, [StreamEnded(if l.http.state.TextOnlySession? then NoStreamReason else RemoteDisconnect)]);
    case _ => Dropped(l, e, envs);
  }

  lemma AnswerAwaited(l: Link, envs: seq<Env>)
    requires Poised(l) && (l.http.state.Streaming? || l.http.state.TextOnlySession?)
    ensures Reacts(l, Deliver(l, PipeEos, envs), FromStreaming(l.http, PipeEos, First(envs)))
  {
    DeliverChain(l, PipeEos, envs);
    var x := First(envs);
    assert l.http.log + [StreamEnded(AudioEof)] + [TimerInserted(x.timerId, x.now + 10000)]
           == l.http.log + [StreamEnded(AudioEof), TimerInserted(x.timerId, x.now + 10000)];
    hide Deliver;
  }

  /** An outside event takes a connection at rest to exactly the state, and with exactly the calls, that Reaction
      says; a disconnected one does not react at all. */
  lemma EventOutcome(l: Link, e: Event, envs: seq<Env>)
    requires Quiet(l) && !IsInternal(e) && !IsBegin(e)
    ensures var r := Deliver(l, e, envs);
            && Quiet(r)
            && (if l.http.state.Disconnected? then r == l else Reacts(l, r, Reaction(l.http, e, First(envs))))
  {
    hide Deliver, Reacts, FromBuffering, FromConnected, FromStreaming;
    assert Quiet(Deliver(l, e, envs)) by {
      hide Quiet;
      ApplyKeeps(l, Given(e, envs));
    }
    if l.http.state.Disconnected? {
      DroppedAtRest(l, e, envs);
    } else {
      RestIsPoised(l);
      hide Quiet;
      match l.http.state
      case Buffering => BufferingReacts(l, e, envs);
      case Connected => ConnectedReacts(l, e, envs);
      case Streaming => StreamingReacts(l, e, envs);
      case TextOnlySession => StreamingReacts(l, e, envs);
    }
  }

  /** A begin for a free group gives it to the source and notes the kind of session; any other changes nothing. */
  lemma BeginOutcome(l: Link, src: nat, byText: bool)
    requires Quiet(l)
    ensures var r := Begin(l, src, byText);
            if src < SRC_INVALID && l.sess.src >= SRC_INVALID then
              && r.http.state.Disconnected? && r.sess == l.sess.(src := src) && r.http.byText == byText
              && r.http == l.http.(byText := byText)
            else r == l
  {
    hide Quiet;
    if l.sess.src >= SRC_INVALID { FreeMeansDisconnected(l); }
  }

  /** A session starts with a call of its own; it buffers its audio if it is deferred, and otherwise attempts. */
  lemma ConnectOutcome(l: Link, src: nat, deferred: bool, envs: seq<Env>)
    requires Quiet(l) && l.http.state.Disconnected? && l.sess.src == src < SRC_INVALID
    ensures var m := l.(http := l.http.(src := src, log := l.http.log + [SessionStarted]));
            Reacts(m, Connect(l, src, deferred, envs),
                   if deferred then Outcome(Buffering, []) else Attempt(m.http, First(envs)))
  {
    var m := l.(http := l.http.(src := src, log := l.http.log + [SessionStarted]));
    assert Poised(m) by { hide Watch; }
    hide Quiet;
    DeliverChain(m, if deferred then SessionBeginStm else SessionBegin, envs);
    hide Deliver;
    if !deferred {
      var n := m.(http := m.http.(state := Connecting));
      assert Effect(m, SessionBegin, First(envs)) == n;
      assert m.http.log + [] == m.http.log;
      AttemptReacts(m, n, First(envs), Rest(envs), []);
      assert [] + Attempt(m.http, First(envs)).calls == Attempt(m.http, First(envs)).calls;
      hide Reacts, Attempt;
    } else {
      assert Effect(m, SessionBeginStm, First(envs)) == m.(http := m.http.(state := Buffering));
    }
  }

  // ---- what a user of the machine relies on ----

  lemma ReportedLast(log: seq<Call>, before: seq<Call>, why: SessionWhy)
    ensures LastReported(log + (before + SessionOver(why))) == Some(why)
  {
    var all := log + (before + SessionOver(why));
    assert all[|all| - 1] == SessionEnded(why);
  }

  /** A finished transfer ends the session, whatever state it was in: the group is free, no timer is left, and the
      reason tells a complete session, one cut short and one by text apart. */
  lemma AnswerEnds(l: Link, envs: seq<Env>)
    requires Quiet(l) && l.http.state in {Connected, Streaming, TextOnlySession}
    ensures var r := Deliver(l, MsgRecv, envs);
            && r.http.state.Disconnected? && r.sess.src == SRC_INVALID && r.http.timer < 0
            && LastReported(r.http.log) == Some(if l.http.state.Connected? then EndOfSpeech
                                                else if l.http.state.Streaming? then ConnectFailure else EndOfText)
  {
    EventOutcome(l, MsgRecv, envs);
    hide Deliver, Quiet, LastReported, SessionOver;
    ReportedLast(l.http.log, [TimerRemoved(l.http.timer)], EndOfSpeech);
    ReportedLast(l.http.log, [StreamEnded(RemoteDisconnect)], ConnectFailure);
    ReportedLast(l.http.log, [StreamEnded(NoStreamReason)], EndOfText);
  }

  /** The end of the audio starts ten seconds for the answer; when they are over the session has timed out. */
  lemma AnswerTimesOut(l: Link, envs: seq<Env>, late: seq<Env>)
    requires Quiet(l) && l.http.state in {Streaming, TextOnlySession}
    ensures var m, x := Deliver(l, PipeEos, envs), First(envs);
            var r := Deliver(m, TimeoutEv, late);
            && m.http.state.Connected? && m.http.timer == x.timerId && m.sess.src == l.sess.src
            && m.http.log == l.http.log + [StreamEnded(AudioEof), TimerInserted(x.timerId, x.now + 10000)]
            && r.http.state.Disconnected? && r.sess.src == SRC_INVALID && r.http.timer < 0
            && LastReported(r.http.log) == Some(SessionTimedOut)
  {
    hide Deliver, Quiet, LastReported, Reacts, Reaction;
    var m := Deliver(l, PipeEos, envs);
    AudioEnds(l, envs);
    TimeoutEnds(m, late);
  }

  lemma AudioEnds(l: Link, envs: seq<Env>)
    requires Quiet(l) && l.http.state in {Streaming, TextOnlySession}
    ensures var m, x := Deliver(l, PipeEos, envs), First(envs);
            && Quiet(m) && m.http.state.Connected? && m.http.timer == x.timerId && m.sess.src == l.sess.src
            && m.http.log == l.http.log + [StreamEnded(AudioEof), TimerInserted(x.timerId, x.now + 10000)]
  {
    var m, x := Deliver(l, PipeEos, envs), First(envs);
    EventOutcome(l, PipeEos, envs);
    hide Deliver, Quiet, SessionOver;
    var before := l.http.log + [StreamEnded(AudioEof)];
    assert m.http.log == before + [TimerInserted(x.timerId, x.now + 10000)];
    TimerIsLast(m, before, x.timerId, x.now + 10000);
  }

  lemma TimeoutEnds(m: Link, envs: seq<Env>)
    requires Quiet(m) && m.http.state.Connected?
    ensures var r := Deliver(m, TimeoutEv, envs);
            && r.http.state.Disconnected? && r.sess.src == SRC_INVALID && r.http.timer < 0
            && LastReported(r.http.log) == Some(SessionTimedOut)
  {
    EventOutcome(m, TimeoutEv, envs);
    hide Deliver, Quiet, LastReported, SessionOver;
    ReportedLast(m.http.log, [TimerRemoved(m.http.timer)], SessionTimedOut);
  }

  lemma TimerIsLast(r: Link, before: seq<Call>, id: nat, at: nat)
    requires Quiet(r) && r.http.log == before + [TimerInserted(id, at)]
    ensures r.http.timer == id
  {
    WatchAppend(before, TimerInserted(id, at));
    hide Watch;
    assert id in Seen(r).timers;
  }

  /** The minimum stream time ends the buffering: audio or text is sent, or the session is over. */
  lemma MinimumEndsBuffering(l: Link, envs: seq<Env>)
    requires Quiet(l) && l.http.state.Buffering?
    ensures var r := Deliver(l, StmEv, envs);
            if First(envs).connectOk then r.http.state == if l.http.byText then TextOnlySession else Streaming
            else r.http.state.Disconnected? && LastReported(r.http.log) == Some(ConnectFailure)
  {
    EventOutcome(l, StmEv, envs);
    hide Deliver, Quiet, LastReported, SessionOver;
    ReportedLast(l.http.log, [StreamEnded(DidNotBegin)], ConnectFailure);
  }
}
