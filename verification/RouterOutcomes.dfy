/** What each kind of step does to the connection it is meant for, and that it does nothing to the others. */
module RouterOutcomes {
  import opened Types
  import opened Monitor
  import opened WsTables
  import opened WsSpec
  import opened WsIo
  import opened WsInvariant
  import opened WsRuns
  import opened WsInputs
  import opened WsTimers
  import opened WsOutcomes
  import opened WsPasses
  import opened RouterSpec
  import opened RouterProofs

  /** Two sources share a group unless the microphone tap, with a group of its own, is one of them. */
  lemma SharedGroups(tap: bool, a: nat, b: nat)
    requires a < SRC_INVALID && b < SRC_INVALID && a != b
    ensures Rivals(tap, a, b) <==> !tap || (a != SRC_MICROPHONE_TAP && b != SRC_MICROPHONE_TAP)
  {}

  // ---- messages ----

  /** A begin for a free group: the source holds it, the kind of session is noted, and no minimum time is remembered
      from before.  Any other begin changes nothing. */
  lemma BeginTakesGroup(w: World, src: nat, byText: bool, p: PipeAnswer)
    requires WorldInv(w)
    ensures var r := Begin(w, src, byText, p);
            if src < SRC_INVALID && w.groups[GroupOf(w.tap, src)].src == SRC_INVALID then
              && Shaped(r) && r.tap == w.tap && OnlyTouches(w, r, src)
              && r.conns[src] == w.conns[src].(byText := byText, stm := false)
              && r.groups[GroupOf(w.tap, src)] == w.groups[GroupOf(w.tap, src)].(src := src)
            else r == w
  {
    BeginFindsDisconnected(w, src);
    hide WorldInv, ContinueStream;
  }

  /** A config message reaches the source that holds the group, if it carries its uuid; otherwise nothing changes. */
  lemma ConfigOutcome(w: World, m: Msg)
    requires WorldInv(w) && m.MsgConfig?
    ensures var r := Handle(w, m);
            var o := if m.src < SRC_INVALID then w.groups[GroupOf(w.tap, m.src)].src else SRC_INVALID;
            if o < SRC_INVALID && m.uuidMatches then
              && Shaped(r) && r.tap == w.tap && OnlyTouches(w, r, o)
              && LinkOf(r, o) == Configure(LinkOf(w, o), o, m.p, m.now, m.streamTimeMin, m.envs)
            else r == w
  {
    hide Configure, Quiet;
    if m.src < SRC_INVALID { assert GroupTied(w, GroupOf(w.tap, m.src)); }
  }

  /** A speech event reaches the connection of its source while that is active; a stream error terminates it. */
  lemma AudioOutcome(w: World, src: nat, e: AudioEvent, envs: seq<Env>)
    requires WorldInv(w)
    ensures var r := AudioIn(w, src, e, envs);
            && Shaped(r) && r.tap == w.tap
            && (src >= SRC_INVALID || !SourceActive(w.groups, src) ==> r == w)
            && (src < SRC_INVALID && SourceActive(w.groups, src) ==> OnlyTouches(w, r, src))
            && (src < SRC_INVALID && SourceActive(w.groups, src) && e.SpeechSeen? ==>
                  LinkOf(r, src) == Speech(LinkOf(w, src), e.e, envs))
            && (src < SRC_INVALID && SourceActive(w.groups, src) && e.StreamError? ==>
                  r.conns[src].state.Disconnected?)
  {
    hide Speech, Terminate, GroupsTied, SourceTied, Watch;
    if src < SRC_INVALID && SourceActive(w.groups, src) && e.StreamError? {
      TerminateReleases(w, src, envs);
      ReleasedState(w, Terminate(w, src, envs), src);
    }
    hide Clean;
  }

  /** A session that is begun and configured has its deadline, its budget and its check interval from the parameters
      its source has then. */
  lemma SessionUsesParams(w: World, b: World, byText: bool, p: PipeAnswer, m: Msg)
    requires WorldInv(w) && m.MsgConfig? && m.src < SRC_INVALID && m.uuidMatches && m.p.PipeReady?
    requires b == Begin(w, m.src, byText, p) && Shaped(b)
    requires w.groups[GroupOf(w.tap, m.src)].src == SRC_INVALID
    ensures var r, c := Handle(b, m).conns[m.src], w.conns[m.src].cfg;
            && (!r.state.Disconnected? ==>
                  r.deadline == m.now + c.timeoutSession && r.wait == ToInt32(c.timeoutConnect))
            && (r.state.Connecting? ==> r.log != [] && HoldsCheckTimer(r, c))
  {
    hide Begin, Handle, Quiet, ToInt32, HoldsCheckTimer;
    BeginFindsDisconnected(w, m.src);
    BeginTakesGroup(w, m.src, byText, p);
    BeginKeeps(w, m.src, byText, p);
    ConfigOutcome(b, m);
    assert SourceTied(b, m.src) && GroupTied(b, GroupOf(b.tap, m.src));
    SessionUses(LinkOf(b, m.src), m);
  }

  /** The last call set the timer that is held, a check interval after some moment. */
  predicate HoldsCheckTimer(r: Ws, c: Config)
    requires r.log != []
  {
    var last := r.log[|r.log| - 1];
    last.TimerInserted? && last.id == r.timer && last.at >= c.interval
  }

  lemma SessionUses(l: Link, m: Msg)
    requires Quiet(l) && m.MsgConfig? && Configurable(l, m.src) && m.p.PipeReady?
    ensures var r, c := Configure(l, m.src, m.p, m.now, m.streamTimeMin, m.envs).ws, l.ws.cfg;
            && (!r.state.Disconnected? ==>
                  r.deadline == m.now + c.timeoutSession && r.wait == ToInt32(c.timeoutConnect))
            && (r.state.Connecting? ==> r.log != [] && HoldsCheckTimer(r, c))
  {
    hide Configure, Quiet, ToInt32, RetryDelay, Min;
    ConfigureOutcome(l, m.src, m.p, m.now, m.streamTimeMin, m.envs);
    ConfigureKeeps(l, m.src, m.p, m.now, m.streamTimeMin, m.envs);
    var r := Configure(l, m.src, m.p, m.now, m.streamTimeMin, m.envs);
    if r.ws.state.Connecting? {
      var es := if l.ws.queue == [] then m.envs else Rest(m.envs);
      var x, o := First(es), Opened(l, m.src, m.p.fd, m.now);
      assert r.ws.log == o.ws.log + ([] + [TimerInserted(x.timerId, x.now + l.ws.cfg.interval)]);
      assert r.ws.log == o.ws.log + [TimerInserted(x.timerId, x.now + l.ws.cfg.interval)];
      TimerIsLast(r, o.ws.log, x.timerId, x.now + l.ws.cfg.interval);
    }
  }

  // ---- the main loop ----

  /** The descriptor loop serves every running source once, as if it were alone: which sources come before does
      not matter. */
  lemma {:induction false} ServedOnce(w: World, src: nat, fds: seq<Fds>, i: nat)
    requires WorldInv(w) && src <= SRC_QTY && |fds| == SRC_QTY && AllReportable(w, src, fds) && i < SRC_QTY
    ensures var r := HandleAll(w, src, fds);
            if src <= i && !w.conns[i].state.Disconnected? then
              LinkOf(r, i) == HandleFds(LinkOf(w, i), fds[i].ready, fds[i].io, fds[i].a)
            else r.conns[i] == w.conns[i]
    decreases SRC_QTY - src
  {
    hide Watch, Quiet, HandleFds;
    if src < SRC_QTY {
      assert SourceTied(w, src) && SourceTied(w, i);
      var f := fds[src];
      var m := w;
      if !w.conns[src].state.Disconnected? {
        HandleFdsKeeps(LinkOf(w, src), f.ready, f.io, f.a);
        m := Put(w, src, HandleFds(LinkOf(w, src), f.ready, f.io, f.a));
        EvolvePut(w, src, HandleFds(LinkOf(w, src), f.ready, f.io, f.a));
      }
      ServedOnce(m, src + 1, fds, i);
      if src == i && !w.conns[i].state.Disconnected? {
        RivalsRest(w, i);
        GroupLeft(m, src + 1, fds, GroupOf(w.tap, i));
      }
    }
  }

  /** While a source runs, no other of its group does. */
  lemma RivalsRest(w: World, i: nat)
    requires WorldInv(w) && i < SRC_QTY && !w.conns[i].state.Disconnected?
    ensures forall j :: 0 <= j < SRC_QTY && j != i && GroupOf(w.tap, j) == GroupOf(w.tap, i) ==>
              w.conns[j].state.Disconnected?
  {
    hide Quiet;
    assert SourceTied(w, i);
    forall j | 0 <= j < SRC_QTY && j != i && GroupOf(w.tap, j) == GroupOf(w.tap, i)
      ensures w.conns[j].state.Disconnected?
    {
      assert SourceTied(w, j);
    }
  }

  /** The loop leaves a group alone of which no source that is still to be served runs. */
  lemma {:induction false} GroupLeft(w: World, src: nat, fds: seq<Fds>, g: nat)
    requires Shaped(w) && src <= SRC_QTY && |fds| == SRC_QTY && g < |w.groups|
    requires forall j :: src <= j < SRC_QTY && GroupOf(w.tap, j) == g ==> w.conns[j].state.Disconnected?
    ensures HandleAll(w, src, fds).groups[g] == w.groups[g]
    decreases SRC_QTY - src
  {
    hide HandleFds;
    if src < SRC_QTY {
      var f := fds[src];
      GroupLeft(if w.conns[src].state.Disconnected? then w
                else Put(w, src, HandleFds(LinkOf(w, src), f.ready, f.io, f.a)), src + 1, fds, g);
    }
  }

  /** In a round the message comes first: a source that it disconnects is not served any more. */
  lemma MessageFirst(w: World, m: Msg, fds: seq<Fds>, i: nat)
    requires WorldInv(w) && Contract(w, Iterate(m, fds)) && i < SRC_QTY
    ensures var h, r := Handle(w, m), Advance(w, Iterate(m, fds));
            && WorldInv(h)
            && (if h.conns[i].state.Disconnected? then r.conns[i] == h.conns[i]
                else LinkOf(r, i) == HandleFds(LinkOf(h, i), fds[i].ready, fds[i].io, fds[i].a))
  {
    hide Handle, HandleAll, HandleFds, Quiet, Watch, Wanted;
    HandleKeeps(w, m);
    StillReportable(w, Handle(w, m), fds);
    ServedOnce(Handle(w, m), 0, fds, i);
  }

  /** An expiry serves the timer of its connection, and touches no other. */
  lemma ExpiryServed(w: World, src: nat, envs: seq<Env>)
    requires WorldInv(w) && Contract(w, Expire(src, envs))
    ensures var r := Advance(w, Expire(src, envs));
            && Shaped(r) && r.tap == w.tap && OnlyTouches(w, r, src)
            && Served(r.conns[src].log, |w.conns[src].log|, w.conns[src].timer)
  {
    hide Deliver, Quiet, Served;
    assert SourceTied(w, src);
    FiredTimerIsServed(LinkOf(w, src), envs);
  }

  /** A message of the application is queued last while the connection is up and a slot is free. */
  lemma SendQueues(w: World, src: nat, msg: seq<char>)
    requires WorldInv(w) && src < SRC_QTY
    ensures var r, c := Advance(w, Send(src, msg)), w.conns[src];
            && r.groups == w.groups && OnlyTouches(w, r, src)
            && r.conns[src] == c.(msgs := if Up(c.state) && |c.msgs| < MSG_OUT_MAX then c.msgs + [msg] else c.msgs)
  {
    var g := GroupOf(w.tap, src);
    assert w.groups[g := w.groups[g]] == w.groups;
    hide GroupsTied, SourceTied;
  }
}
