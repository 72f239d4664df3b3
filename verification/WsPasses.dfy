/** What one pass over the descriptors, one speech event and one application message do to a connection at rest,
    call by call. */
module WsPasses {
  import opened Types
  import opened Monitor
  import opened WsTables
  import opened WsSpec
  import opened WsIo
  import opened WsInvariant
  import opened WsRuns
  import opened WsInputs
  import opened WsOutcomes

  // ---- what is asked for ----

  /** A connection that is up wants to read; it wants to write exactly while a frame is unfinished or a message
      waits, and audio exactly while its stream lives and no frame is unfinished. */
  lemma WantedExactly(l: Link)
    requires Quiet(l)
    ensures var q := Wanted(l.ws);
            && (q.read <==> Up(l.ws.state))
            && (q.write <==> Seen(l).blocked || l.ws.msgs != [])
            && (q.audio <==> Up(l.ws.state) && Seen(l).phase == Live && !Seen(l).blocked)
  {
    hide Watch;
  }

  // ---- sending ----

  /** The library took all of n bytes, a part of them, or none yet. */
  predicate Accepts(s: Sent, n: nat) { s.WouldBlock? || (s.Bytes? && 0 < s.n <= n) }

  /** An audio frame of n bytes: unless it failed, the connection is pending afterwards exactly when the library did
      not take all of it, and exactly the bytes taken are counted.  A failure raises an error, after the close
      callback if the library ran that, and counts nothing. */
  lemma FrameOutcome(l: Link, n: nat, s: Sent, a: Answers)
    requires Quiet(l) && Up(l.ws.state) && l.ws.pipe >= 0 && !l.ws.tx.pending && (s.Bytes? ==> s.n <= n)
    ensures var r, m := SendFrame(l, n, s, a), Emit(Emit(l, AudioRead(n)), AudioSent(n, ReplyOf(s)));
            var k := if s.Bytes? then s.n else 0;
            && (Accepts(s, n) ==>
                  r.ws == l.ws.(tx := l.ws.tx.(pending := s.WouldBlock? || k < n,
                                               txd := (l.ws.tx.txd + k) % 0x1_0000_0000),
                                log := l.ws.log + [AudioRead(n), AudioSent(n, ReplyOf(s))]) && r.sess == l.sess)
            && (s == Bytes(0) || s.Failed? ==> r == Deliver(m, WsError, Ans(a, 6)))
            && (s.ClosedInSend? ==> r == Deliver(OnClose(m, s.status, Ans(a, 7)), WsError, Ans(a, 6)))
            && (!Accepts(s, n) ==> Quiet(m))
  {
    FrameIs(l, n, s);
    AudioKeeps(l, n, ReplyOf(s));
    hide Quiet, Deliver, OnClose, Emit, Block, CountSent;
  }

  /** The oldest message: taken out of its slot and handed over whole; it is left pending, and the pass stops,
      exactly when the library did not take all of it. */
  lemma TextOutcome(l: Link, s: Sent, a: Answers)
    requires Quiet(l) && Up(l.ws.state) && !l.ws.tx.pending && l.ws.msgs != []
    ensures var (r, on), t := SendText(l, s, a), l.ws.msgs[0];
            var m := l.(ws := l.ws.(msgs := l.ws.msgs[1..], log := l.ws.log + [TextSent(t, ReplyOf(s))]));
            && (s.WouldBlock? || (s.Bytes? && s.n > 0) ==>
                  && r == m.(ws := m.ws.(tx := m.ws.tx.(pending := s != Bytes(|t|))))
                  && on == (s == Bytes(|t|)))
            && (s == Bytes(0) || s.Failed? ==> on && Quiet(m) && r == Deliver(m, WsError, Ans(a, 4)))
            && (s.ClosedInSend? ==>
                  on && Quiet(m) && r == Deliver(OnClose(m, s.status, Ans(a, 5)), WsError, Ans(a, 4)))
  {
    TextIs(l, s, a);
    TextKeeps(l, ReplyOf(s));
    hide Quiet, Deliver, OnClose, SendText;
  }

  /** Pending bytes go first: once they are out nothing is pending and the pass goes on, to a message if one waits;
      as long as they are not it stops. */
  lemma WriteOutcome(l: Link, io: Io, a: Answers)
    ensures var (r, on) := WritePass(l, io, a);
            var m := l.(ws := l.ws.(tx := l.ws.tx.(pending := false, retries := 0), log := l.ws.log + [WriteFlushed]));
            && (l.ws.tx.pending && !io.flush.Flushed? ==> !on)
            && (l.ws.tx.pending && io.flush == Incomplete ==> r == FlushRetry(l, Ans(a, 2)))
            && (l.ws.tx.pending && io.flush.ClosedInFlush? ==>
                  r == FlushRetry(OnClose(l, io.flush.status, Ans(a, 2)), Ans(a, 3)))
            && (l.ws.tx.pending && io.flush.Flushed? ==>
                  (r, on) == if l.ws.msgs == [] then (m, true) else SendText(m, io.text, a))
            && (!l.ws.tx.pending ==> (r, on) == if l.ws.msgs == [] then (l, true) else SendText(l, io.text, a))
  {
    hide SendText, FlushRetry, OnClose;
  }

  /** The end of the audio and a read error end the stream, and the session waits in Established. */
  lemma AudioEndOutcome(l: Link, io: Io, a: Answers)
    requires Quiet(l) && l.ws.queue == [] && (l.ws.state.Streaming? || l.ws.state.TextOnlySession?) && !io.audio.Data?
    ensures var r, x := AudioPass(l, io, a).ws, First(Ans(a, 6));
            && r.state.Established? && r.pipe < 0
            && r.log == l.ws.log + ([StreamEnded(if io.audio.Eof? then AudioEof else AudioReadError),
                                     PipeClosed(l.ws.pipe)]
                                    + [TimerInserted(x.timerId, x.now + l.ws.cfg.timeoutInactivity)])
  {
    hide Deliver;
    var e := if io.audio.Eof? then EosPipe else AudioError;
    EventOutcome(l, e, Ans(a, 6));
    NoPipeEstablished(Deliver(l, e, Ans(a, 6)));
    hide Quiet, GivenBack, Kept;
  }

  lemma NoPipeEstablished(l: Link)
    requires Quiet(l) && l.ws.state.Established?
    ensures l.ws.pipe < 0
  {
    hide Watch;
  }

  // ---- the keyword ----

  /** After a frame, as long as the session goes on, no keyword-info event is left unanswered whose bytes are
      counted; and it is answered with the count, as the last call. */
  lemma KeywordAnnounced(l: Link, n: nat, s: Sent, a: Answers)
    requires Quiet(l) && Up(l.ws.state) && l.ws.pipe >= 0 && !l.ws.tx.pending && (s.Bytes? ==> s.n <= n)
    ensures var m := SendFrame(l, n, s, a);
            var r := AnnounceKeyword(m);
            && (Seen(r).phase != Idle && Seen(r).armed.Some? ==> In32(Seen(r).counted) < Seen(r).armed.value)
            && (Seen(m).phase != Idle && Seen(m).armed.Some? && In32(Seen(m).counted) >= Seen(m).armed.value ==>
                  r.ws.log == m.ws.log + [KeywordRaised(In32(Seen(m).counted))])
  {
    SendFrameKeeps(l, n, s, a);
    hide SendFrame;
    Announces(SendFrame(l, n, s, a));
  }

  lemma Announces(m: Link)
    requires Quiet(m)
    ensures var r := AnnounceKeyword(m);
            && (Seen(r).phase != Idle && Seen(r).armed.Some? ==> In32(Seen(r).counted) < Seen(r).armed.value)
            && (Seen(m).phase != Idle && Seen(m).armed.Some? && In32(Seen(m).counted) >= Seen(m).armed.value ==>
                  r.ws.log == m.ws.log + [KeywordRaised(In32(Seen(m).counted))])
  {
    hide Watch, In32;
    SeenEmit(m, KeywordRaised(m.ws.tx.txd));
  }

  // ---- receiving ----

  /** A message for which the application asks to close ends an established session: it is announced, and then the
      connection is hung up. */
  lemma CloseAskedEnds(l: Link, a: Answers)
    requires Quiet(l) && l.ws.state.Established? && l.ws.queue == []
    ensures var r, x := ReadPending(l, Message(true, NoRecvEvent), a), First(Ans(a, 0));
            && r.ws.state.Disconnected? && r.sess.src == SRC_INVALID && GivenBack(l.ws, r.ws)
            && LastReported(r.ws.log) == Some(EndOfSpeech)
            && r.ws.log == l.ws.log + ([TimerUpdated(l.ws.timer, x.now + l.ws.cfg.timeoutInactivity)]
                                       + ([TimerRemoved(l.ws.timer)] + HangUp(l.ws) + SessionOver(EndOfSpeech)))
  {
    hide Deliver, Quiet, HangUp, SessionOver, GivenBack, LastReported, Reaction, Kept;
    var m := Deliver(l, MsgRecv, Ans(a, 0));
    EventOutcome(l, MsgRecv, Ans(a, 0));
    EstablishedReactsInPlace(l, Ans(a, 0));
    HoldsTimer(l);
    EventOutcome(m, AppClose, Ans(a, 1));
    CloseReaction(l, m, First(Ans(a, 1)), First(Rest(Ans(a, 1))));
    var x := First(Ans(a, 0));
    var u, v := [TimerUpdated(l.ws.timer, x.now + l.ws.cfg.timeoutInactivity)],
                [TimerRemoved(l.ws.timer)] + HangUp(l.ws);
    var r := Deliver(m, AppClose, Ans(a, 1));
    SameGift(l.ws, m.ws, r.ws);
    ReportedLast(l.ws.log + u + v, EndOfSpeech);
    Regroup(l.ws.log + u, v, SessionOver(EndOfSpeech), []);
    Regroup(l.ws.log, u, v + SessionOver(EndOfSpeech), []);
  }

  lemma HoldsTimer(l: Link)
    requires Quiet(l) && l.ws.state.Established?
    ensures l.ws.timer >= 0
  {
    hide Watch;
  }

  lemma CloseReaction(l: Link, m: Link, x: Env, y: Env)
    requires m.ws.state.Established? && m.ws.timer == l.ws.timer && m.ws.onClose == l.ws.onClose
    ensures Reaction(m.ws, AppClose, x, y)
            == To(m.ws, Disconnected, [TimerRemoved(l.ws.timer)] + HangUp(l.ws) + SessionOver(EndOfSpeech))
  {
    assert HangUp(m.ws) == HangUp(l.ws);
  }

  /** A message leaves an established connection as it is, but for the timer's new time. */
  lemma EstablishedReactsInPlace(l: Link, envs: seq<Env>)
    requires l.ws.state.Established? && l.ws.queue == []
    ensures var x := First(envs);
            Deliver(l, MsgRecv, envs) == UpdateTimer(l, x.now + l.ws.cfg.timeoutInactivity)
  {
    DeliverChain(l, MsgRecv, envs);
    hide Deliver;
  }

  lemma ReportedLast(log: seq<Call>, why: SessionWhy)
    ensures LastReported(log + SessionOver(why)) == Some(why)
  {
    var all := log + SessionOver(why);
    assert all[|all| - 1] == SessionEnded(why);
  }

  /** What the peer's close, and a message, do to a connection at rest. */
  lemma ReadOutcome(l: Link, r: Incoming, a: Answers)
    requires Quiet(l) && l.ws.queue == [] && Up(l.ws.state)
    ensures var m := ReadPending(l, r, a);
            match r
            case Nothing => m == l
            case PeerClosed(status) =>
              var c := l.(ws := l.ws.(onClose := true, closeStatus := status));
              && m.ws.state.Disconnected? && m.sess.src == SRC_INVALID
              && LastReported(m.ws.log)
                 == Some(if l.ws.state.Established? then EndOfSpeech
                         else if l.ws.state.TextOnlySession? then EndOfText
                         else if status == 1000 then RemoteEnd else UnexpectedRemoteEnd)
              && Reacts(c, m, Reaction(c.ws, WsClose, First(Ans(a, 0)), First(Rest(Ans(a, 0)))))
            case Message(closeAsked, recv) =>
              && (recv.NoRecvEvent? ==> m.ws.queue == [])
              && (!recv.NoRecvEvent? ==> m.ws.queue == [EosPipe])
              && (!l.ws.state.Established? ==>
                    m.ws.state == l.ws.state && m.ws.log == l.ws.log && m.ws.tx == l.ws.tx && m.sess == l.sess)
              && (l.ws.state.Established? ==> (m.ws.state.Disconnected? <==> closeAsked))
  {
    hide Deliver, Reacts, Reaction, Quiet, LastReported;
    match r
    case Nothing =>
    case PeerClosed(status) =>
      var c := l.(ws := l.ws.(onClose := true, closeStatus := status));
      ClosedIsQuiet(l, status);
      EventOutcome(c, WsClose, Ans(a, 0));
      CloseReason(c, OnClose(l, status, Ans(a, 0)), First(Ans(a, 0)), First(Rest(Ans(a, 0))));
    case Message(closeAsked, recv) =>
      if l.ws.state.Established? {
        MessageEstablished(l, closeAsked, a);
      } else {
        StreamingDrops(l, MsgRecv, Ans(a, 0));
        StreamingDrops(l, AppClose, Ans(a, 1));
      }
  }

  lemma MessageEstablished(l: Link, closeAsked: bool, a: Answers)
    requires Quiet(l) && l.ws.queue == [] && l.ws.state.Established?
    ensures var m := Deliver(l, MsgRecv, Ans(a, 0));
            var c := if closeAsked then Deliver(m, AppClose, Ans(a, 1)) else m;
            c.ws.queue == [] && (c.ws.state.Disconnected? <==> closeAsked)
  {
    hide Deliver, Quiet, LastReported, HangUp, SessionOver, GivenBack;
    EstablishedReactsInPlace(l, Ans(a, 0));
    CloseAskedEnds(l, a);
    DeliverKeeps(l, MsgRecv, Ans(a, 0));
    DeliverKeeps(Deliver(l, MsgRecv, Ans(a, 0)), AppClose, Ans(a, 1));
    hide Evolves;
  }

  lemma ClosedIsQuiet(l: Link, status: int)
    requires Quiet(l)
    ensures Quiet(l.(ws := l.ws.(onClose := true, closeStatus := status)))
  {
    hide Watch;
  }

  /** The reason a closed connection reports. */
  lemma CloseReason(c: Link, m: Link, x: Env, y: Env)
    requires Up(c.ws.state) && Reacts(c, m, Reaction(c.ws, WsClose, x, y))
    ensures m.ws.state.Disconnected? && m.sess.src == SRC_INVALID
    ensures LastReported(m.ws.log)
            == Some(if c.ws.state.Established? then EndOfSpeech
                    else if c.ws.state.TextOnlySession? then EndOfText
                    else if c.ws.closeStatus == 1000 then RemoteEnd else UnexpectedRemoteEnd)
  {
    hide LastReported;
    var why := if c.ws.state.Established? then EndOfSpeech
               else if c.ws.state.TextOnlySession? then EndOfText
               else if c.ws.closeStatus == 1000 then RemoteEnd else UnexpectedRemoteEnd;
    var before := if c.ws.state.Established? then [TimerRemoved(c.ws.timer)]
                  else StreamOver(c.ws, if c.ws.state.TextOnlySession? then NoStreamReason else RemoteDisconnect);
    ReportedLast(c.ws.log + before, why);
    Regroup(c.ws.log, before, SessionOver(why), []);
  }

  // ---- speech events and messages ----

  function WithMinimum(l: Link): Link { l.(ws := l.ws.(stm := true)) }

  /** The end of speech and the minimum stream time are events to a running session; the minimum time is
      remembered, also before the session is configured; the keyword is armed. */
  lemma SpeechOutcome(l: Link, e: SpeechEvent, envs: seq<Env>)
    requires Quiet(l) && l.ws.queue == []
    ensures var r, x, y := Speech(l, e, envs), First(envs), First(Rest(envs));
            match e
            case SpeechEos => if l.ws.state.Disconnected? then r == l else Reacts(l, r, Reaction(l.ws, EosEv, x, y))
            case SpeechTimeMinimum =>
              var m := WithMinimum(l);
              if l.ws.state.Disconnected? then r == m else Reacts(m, r, Reaction(m.ws, StmEv, x, y))
            case SpeechKeyword(n) =>
              r.ws == l.ws.(tx := l.ws.tx.(kwdNotified := false, kwdBytes := n), log := l.ws.log + [KeywordInfo(n)])
  {
    hide Deliver, Reacts, Reaction;
    match e
    case SpeechEos => EventOutcome(l, EosEv, envs);
    case SpeechTimeMinimum =>
      MinimumIsQuiet(l);
      EventOutcome(WithMinimum(l), StmEv, envs);
    case SpeechKeyword(n) =>
    hide Quiet;
  }

  lemma MinimumIsQuiet(l: Link)
    requires Quiet(l)
    ensures Quiet(WithMinimum(l))
  {
    hide Watch;
  }

  /** The minimum stream time takes a buffering session to its attempt to connect: to a check timer, or to a retry
      before the deadline, or to its end past the deadline. */
  lemma MinimumStartsAttempt(l: Link, envs: seq<Env>)
    requires Quiet(l) && l.ws.queue == [] && l.ws.state.Buffering?
    ensures var r, x := Speech(l, SpeechTimeMinimum, envs).ws, First(envs);
            && (x.connectOk ==>
                  && r.state.Connecting? && r.timer == x.timerId
                  && r.log == l.ws.log + [TimerInserted(x.timerId, x.now + l.ws.cfg.interval)])
            && (!x.connectOk && x.now < l.ws.deadline ==>
                  r.state.ConnectionRetry? && r.retryCnt == (l.ws.retryCnt + 1) % 0x1_0000_0000)
            && (!x.connectOk && x.now >= l.ws.deadline ==>
                  r.state.Disconnected? && LastReported(r.log) == Some(ConnectFailure))
  {
    hide Deliver, LastReported, GivenBack, Kept, Quiet, RetryTimer, Reaction;
    MinimumIsQuiet(l);
    var m, x := WithMinimum(l), First(envs);
    var r := Deliver(m, StmEv, envs);
    EventOutcome(m, StmEv, envs);
    MinimumReaction(m.ws, x, First(Rest(envs)));
    if x.connectOk {
      TimerIsLast(r, l.ws.log, x.timerId, x.now + l.ws.cfg.interval);
    } else if x.now >= l.ws.deadline {
      ReportedLast(l.ws.log + StreamOver(m.ws, DidNotBegin), ConnectFailure);
      hide StreamOver, SessionOver;
      Regroup(l.ws.log, StreamOver(m.ws, DidNotBegin), SessionOver(ConnectFailure), []);
    }
  }

  lemma MinimumReaction(w: Ws, x: Env, y: Env)
    requires w.state.Buffering?
    ensures Reaction(w, StmEv, x, y)
            == (if x.connectOk then To(w, Connecting, [TimerInserted(x.timerId, x.now + w.cfg.interval)])
                else if x.now < w.deadline then
                  To(w, ConnectionRetry, [RetryTimer(w, y)]).(retryCnt := OneMore(w.retryCnt))
                else To(w, Disconnected, StreamOver(w, DidNotBegin) + SessionOver(ConnectFailure)))
  {
    hide RetryTimer;
    assert [] + [RetryTimer(w, y)] == [RetryTimer(w, y)];
    assert [] + StreamOver(w, DidNotBegin) == StreamOver(w, DidNotBegin);
    var c := TimerInserted(x.timerId, x.now + w.cfg.interval);
    assert [] + [c] == [c];
  }

  /** The timer inserted last is the one that is held. */
  lemma TimerIsLast(r: Link, before: seq<Call>, id: nat, at: nat)
    requires Quiet(r) && r.ws.log == before + [TimerInserted(id, at)]
    ensures r.ws.timer == id
  {
    WatchAppend(before, TimerInserted(id, at));
    hide Watch;
    assert id in Seen(r).timers;
  }

  // ---- a whole pass ----

  const ALL := Ready(true, true, true)

  /** Everything ready: reading comes first, and after a close nothing is sent; then the oldest message, and after
      an unfinished one no audio is read; then one audio frame. */
  lemma PassInOrder(l: Link, io: Io, a: Answers, n: nat)
    requires Quiet(l) && l.ws.queue == [] && l.ws.state.Streaming? && !l.ws.tx.pending && l.ws.msgs != []
    requires n > 0 && io.audio == Data(n) && io.frame == Bytes(n) && l.ws.tx.kwdNotified
    requires l.ws.msgs[0] != [] && (io.text.WouldBlock? || io.text == Bytes(|l.ws.msgs[0]|))
    requires io.incoming.PeerClosed? || io.incoming == Message(false, NoRecvEvent)
    ensures var r, text := HandleFds(l, ALL, io, a), TextSent(l.ws.msgs[0], ReplyOf(io.text));
            && (io.incoming.PeerClosed? ==> r.ws.state.Disconnected? && r == ReadPending(l, io.incoming, a))
            && (!io.incoming.PeerClosed? && io.text.WouldBlock? ==>
                  r.ws.log == l.ws.log + [text] && r.ws.tx.pending && r.ws.msgs == l.ws.msgs[1..])
            && (!io.incoming.PeerClosed? && io.text.Bytes? ==>
                  && r.ws.log == l.ws.log + [text, AudioRead(n), AudioSent(n, Took(n))]
                  && !r.ws.tx.pending && r.ws.msgs == l.ws.msgs[1..])
  {
    hide ReadPending, WritePass, AudioPass, Quiet, LastReported, SendText, Reacts, Reaction;
    StreamingHolds(l);
    ReadOutcome(l, io.incoming, a);
    var l1 := ReadPending(l, io.incoming, a);
    if io.incoming.PeerClosed? {
      ReadPendingKeeps(l, io.incoming, a);
      NothingHeld(l1);
    } else {
      MessageKeepsStreaming(l, a);
      WriteOutcome(l, io, a);
      TextOutcome(l, io.text, a);
      if io.text.Bytes? {
        var m := WritePass(l, io, a).0;
        assert m.ws.log == l.ws.log + [TextSent(l.ws.msgs[0], ReplyOf(io.text))];
        AudioFollows(l, m, io, a, n);
      }
    }
  }

  lemma MessageKeepsStreaming(l: Link, a: Answers)
    requires l.ws.state.Streaming? && l.ws.queue == []
    ensures ReadPending(l, Message(false, NoRecvEvent), a) == l
  {
    StreamingDrops(l, MsgRecv, Ans(a, 0));
    hide Deliver;
  }

  lemma AudioFollows(l: Link, m: Link, io: Io, a: Answers, n: nat)
    requires Quiet(l) && l.ws.state.Streaming? && !l.ws.tx.pending && l.ws.msgs != [] && l.ws.tx.kwdNotified
    requires n > 0 && io.audio == Data(n) && io.frame == Bytes(n)
    requires io.text == Bytes(|l.ws.msgs[0]|) && l.ws.msgs[0] != []
    requires m == TextFramed(l, ReplyOf(io.text))
    ensures var r := AudioPass(m, io, a);
            && r.ws.log == m.ws.log + [AudioRead(n), AudioSent(n, Took(n))] && !r.ws.tx.pending
            && r.ws.msgs == m.ws.msgs
  {
    TextKeeps(l, ReplyOf(io.text));
    StreamingHolds(l);
    FrameOutcome(m, n, io.frame, a);
    hide SendFrame, Quiet;
  }

  lemma StreamingHolds(l: Link)
    requires Quiet(l) && l.ws.state.Streaming?
    ensures l.ws.socket >= 0 && l.ws.pipe >= 0
  {
    hide Watch;
  }

  lemma NothingHeld(l: Link)
    requires Quiet(l) && l.ws.state.Disconnected?
    ensures l.ws.socket < 0 && l.ws.pipe < 0
  {
    hide Watch;
  }
}
