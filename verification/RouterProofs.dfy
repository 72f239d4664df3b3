/** Safety of the whole router over every run. */
module RouterProofs {
  import opened Types
  import opened Monitor
  import opened WsTables
  import opened WsSpec
  import opened WsIo
  import opened WsInvariant
  import opened WsRuns
  import opened WsInputs
  import opened RouterSpec

  /** A group that is held is held by one of its own sources, and outside a session no stream is open. */
  predicate GroupsTied(w: World)
    requires Shaped(w)
  {
    forall g :: 0 <= g < |w.groups| ==> GroupTied(w, g)
  }

  predicate GroupTied(w: World, g: nat)
    requires Shaped(w) && g < |w.groups|
  {
    var s := w.groups[g].src;
    && s <= SRC_INVALID
    && (s < SRC_INVALID ==> GroupOf(w.tap, s) == g)
    && (s == SRC_INVALID || w.conns[s].state.Disconnected? ==> w.groups[g].firstStreamReq)
  }

  /** A machine that is not disconnected belongs to the source that holds its group. */
  predicate SourceTied(w: World, src: nat)
    requires Shaped(w) && src < SRC_QTY
  {
    && Quiet(LinkOf(w, src))
    && (!w.conns[src].state.Disconnected? ==> w.conns[src].src == src && w.groups[GroupOf(w.tap, src)].src == src)
  }

  predicate WorldInv(w: World)
  {
    && Shaped(w)
    && GroupsTied(w)
    && (forall src :: 0 <= src < SRC_QTY ==> SourceTied(w, src))
  }

  /** What the environment guarantees: select reports only what was asked for, a session is configured
      once, and only an outstanding timer fires. */
  predicate Contract(w: World, s: Step)
    requires Shaped(w)
  {
    match s
    case Iterate(m, fds) =>
      && MsgFits(m) && |fds| == SRC_QTY
      && ConfiguredOnce(w, m)
      && (forall i :: 0 <= i < SRC_QTY ==> Within(fds[i].ready, Wanted(w.conns[i])) && IoOk(fds[i].io))
    case Expire(src, _) => src < SRC_QTY && w.conns[src].timer >= 0
    case Send(src, _) => src < SRC_QTY
  }

  predicate ConfiguredOnce(w: World, m: Msg)
    requires Shaped(w)
  {
    m.MsgConfig? && m.uuidMatches && m.src < SRC_INVALID ==>
      var owner := w.groups[GroupOf(w.tap, m.src)].src;
      owner < SRC_INVALID ==> w.conns[owner].state.Disconnected?
  }

  // ---- putting a changed connection back ----

  /** What a change of one connection may do to the record of its group. */
  predicate Settled(l: Link, src: nat)
  {
    && Quiet(l)
    && (if l.ws.state.Disconnected? then true else l.ws.src == src && l.sess.src == src)
  }

  lemma PutKeeps(w: World, src: nat, l: Link)
    requires WorldInv(w) && src < SRC_QTY && Settled(l, src)
    requires l.sess == w.groups[GroupOf(w.tap, src)]
             || (w.groups[GroupOf(w.tap, src)].src in {src, SRC_INVALID} && l.sess.src in {src, SRC_INVALID})
    requires l.ws.state.Disconnected? ==>
               (l.sess.src in {src, SRC_INVALID} ==> l.sess.firstStreamReq)
    ensures WorldInv(Put(w, src, l))
  {
    hide Watch, Resting;
    var g := GroupOf(w.tap, src);
    var r := Put(w, src, l);
    forall s | 0 <= s < SRC_QTY ensures SourceTied(r, s) {
      assert SourceTied(w, s);
      if s != src && GroupOf(w.tap, s) == g {
        if l.sess != w.groups[g] { OtherKeeps(LinkOf(w, s), l); }
      }
    }
    forall h | 0 <= h < |r.groups| ensures GroupTied(r, h) {
      assert GroupTied(w, h);
    }
  }

  /** A disconnected connection does not mind what another source does to the shared record. */
  lemma OtherKeeps(other: Link, l: Link)
    requires Quiet(other) && other.ws.state.Disconnected? && Quiet(l)
    ensures Quiet(Link(other.ws, l.sess))
  {
    hide Watch;
  }

  lemma EvolvePut(w: World, src: nat, l: Link)
    requires WorldInv(w) && src < SRC_QTY && Quiet(l) && Evolves(LinkOf(w, src), l)
    ensures WorldInv(Put(w, src, l))
  {
    hide Watch, Body, Resting;
    assert SourceTied(w, src);
    assert GroupTied(w, GroupOf(w.tap, src));
    RestingNotStarting(LinkOf(w, src));
    RestingNotStarting(l);
    PutKeeps(w, src, l);
  }

  lemma RestingNotStarting(l: Link)
    requires Quiet(l)
    ensures SessionPhase(l.ws) == PhaseOf(l.ws.state)
    ensures PhaseOf(l.ws.state) == Idle <==> l.ws.state.Disconnected?
  {
    hide Watch, Body;
  }

  // ---- what a message leaves for the descriptor pass ----

  /** Audio that was asked for is still there to be read, or the stream has ended. */
  predicate AudioKept(a: Ws, b: Ws) { Wanted(a).audio && b.pipe >= 0 ==> Up(b.state) && !b.tx.pending }

  predicate AllAudioKept(w: World, r: World)
    requires Shaped(w) && Shaped(r)
  {
    forall i :: 0 <= i < SRC_QTY ==> AudioKept(w.conns[i], r.conns[i])
  }

  lemma DeliverKeepsAudio(l: Link, e: WsTables.Event, envs: seq<Env>)
    requires Quiet(l) && IsExternal(e) && !IsBegin(e)
    ensures AudioKept(l.ws, Deliver(l, e, envs).ws)
  {
    hide Watch, Process, Deliver;
    DeliverKeeps(l, e, envs);
    DeliverStaysUp(l, e, envs);
    LivePipe(Deliver(l, e, envs));
    hide Body;
  }

  lemma SpeechKeepsAudio(l: Link, e: SpeechEvent, envs: seq<Env>)
    requires Quiet(l)
    ensures AudioKept(l.ws, Speech(l, e, envs).ws)
  {
    hide Watch, Process, Deliver;
    match e
    case SpeechEos => DeliverKeepsAudio(l, EosEv, envs);
    case SpeechKeyword(n) =>
    case SpeechTimeMinimum =>
      assert Quiet(l.(ws := l.ws.(stm := true)));
      DeliverKeepsAudio(l.(ws := l.ws.(stm := true)), StmEv, envs);
  }

  // ---- messages ----

  /** An accepted begin always finds its machine disconnected, so the two other branches are dead. */
  lemma BeginFindsDisconnected(w: World, src: nat)
    requires WorldInv(w)
    ensures OutcomeOfBegin(w, src) in {Ignored, GroupBusy, Accepted}
    ensures OutcomeOfBegin(w, src) == Accepted <==>
              src < SRC_INVALID && w.groups[GroupOf(w.tap, src)].src == SRC_INVALID
  {
    hide Watch, Quiet;
    if src < SRC_INVALID {
      assert SourceTied(w, src);
      assert GroupTied(w, GroupOf(w.tap, src));
      if SourceActive(w.groups, src) {
        ActiveInOwnGroup(w, src);
      }
    }
  }

  /** A source can only be active in its own group. */
  lemma ActiveInOwnGroup(w: World, src: nat)
    requires WorldInv(w) && src < SRC_INVALID
    ensures SourceActive(w.groups, src) <==> w.groups[GroupOf(w.tap, src)].src == src
  {
    hide Watch, Quiet;
    if SourceActive(w.groups, src) {
      var g :| 0 <= g < |w.groups| && w.groups[g].src == src;
      assert GroupTied(w, g);
    }
  }

  lemma BeginKeeps(w: World, src: nat, byText: bool, p: PipeAnswer)
    requires WorldInv(w)
    ensures WorldInv(Begin(w, src, byText, p)) && AllAudioKept(w, Begin(w, src, byText, p))
  {
    hide Watch, Resting;
    BeginFindsDisconnected(w, src);
    if OutcomeOfBegin(w, src) == Accepted {
      assert SourceTied(w, src);
      assert GroupTied(w, GroupOf(w.tap, src));
      var l := LinkOf(w, src);
      var held := Link(l.ws.(byText := byText, stm := false), l.sess.(src := src));
      BegunQuiet(l, src, byText);
      PutKeeps(w, src, held);
      SameAudio(w, Put(w, src, held));
    } else {
      SameAudio(w, w);
    }
  }

  lemma BegunQuiet(l: Link, src: nat, byText: bool)
    requires Quiet(l) && l.ws.state.Disconnected?
    ensures Quiet(Link(l.ws.(byText := byText, stm := false), l.sess.(src := src)))
  {
    hide Watch;
  }

  lemma SameAudio(w: World, r: World)
    requires WorldInv(w) && Shaped(r)
    requires forall i :: 0 <= i < SRC_QTY ==>
               r.conns[i] == w.conns[i] || w.conns[i].state.Disconnected?
    ensures AllAudioKept(w, r)
  {
    hide Watch, Quiet;
  }

  lemma ConfigKeeps(w: World, m: Msg)
    requires WorldInv(w) && m.MsgConfig? && ConfiguredOnce(w, m)
    ensures WorldInv(Handle(w, m)) && AllAudioKept(w, Handle(w, m))
  {
    hide Watch, Resting, Body;
    var r := Handle(w, m);
    var owner := if m.src < SRC_INVALID then w.groups[GroupOf(w.tap, m.src)].src else SRC_INVALID;
    if m.src < SRC_INVALID && owner < SRC_INVALID && m.uuidMatches {
      assert GroupTied(w, GroupOf(w.tap, m.src));
      assert SourceTied(w, owner);
      ConfigureKeeps(LinkOf(w, owner), owner, m.p, m.now, m.streamTimeMin, m.envs);
      hide Configure, StreamBegin;
      PutKeeps(w, owner, Configure(LinkOf(w, owner), owner, m.p, m.now, m.streamTimeMin, m.envs));
      SameAudio(w, r);
    } else {
      SameAudio(w, w);
    }
  }

  /** Everything a step on one source must leave alone. */
  predicate OnlyTouches(w: World, r: World, src: nat)
    requires Shaped(w) && Shaped(r) && r.tap == w.tap
  {
    && (forall i :: 0 <= i < SRC_QTY && i != src ==> r.conns[i] == w.conns[i])
    && (forall h :: 0 <= h < |w.groups| && h != GroupOf(w.tap, src) ==> r.groups[h] == w.groups[h])
  }

  /** Terminating an active source releases its group exactly when its machine had started; then the
      connection holds nothing, and nobody else is touched. */
  lemma TerminateReleases(w: World, src: nat, envs: seq<Env>)
    requires WorldInv(w) && src < SRC_INVALID && SourceActive(w.groups, src)
    ensures var r := Terminate(w, src, envs);
            && WorldInv(r) && AllAudioKept(w, r) && OnlyTouches(w, r, src)
            && (r.groups[GroupOf(w.tap, src)].src == SRC_INVALID <==> !w.conns[src].state.Disconnected?)
            && (if w.conns[src].state.Disconnected? then r == w else Clean(LinkOf(r, src)))
  {
    hide Watch, Resting, Process, Deliver;
    ActiveInOwnGroup(w, src);
    assert SourceTied(w, src);
    var l := LinkOf(w, src);
    if !l.ws.state.Disconnected? {
      TerminateLands(l, envs);
      DeliverKeeps(l, TerminateEv, envs);
      DeliverKeepsAudio(l, TerminateEv, envs);
      var m := Deliver(l, TerminateEv, envs);
      EvolvePut(w, src, m);
      RestingNotStarting(l);
      RestingNotStarting(m);
      hide Body, Clean;
      assert LinkOf(Put(w, src, m), src) == m;
    } else {
      SameAudio(w, w);
    }
  }

  lemma TerminateKeeps(w: World, src: nat, envs: seq<Env>)
    requires WorldInv(w)
    ensures WorldInv(Terminate(w, src, envs)) && AllAudioKept(w, Terminate(w, src, envs))
  {
    hide Watch, Quiet, Deliver;
    if src < SRC_INVALID && SourceActive(w.groups, src) {
      TerminateReleases(w, src, envs);
    } else {
      WorldAudio(w);
    }
  }

  lemma WorldAudio(w: World)
    requires WorldInv(w)
    ensures AllAudioKept(w, w)
  {
    hide Watch, Quiet;
  }

  lemma AudioInKeeps(w: World, src: nat, e: AudioEvent, envs: seq<Env>)
    requires WorldInv(w)
    ensures WorldInv(AudioIn(w, src, e, envs)) && AllAudioKept(w, AudioIn(w, src, e, envs))
  {
    hide Watch, Deliver, Speech, Terminate, Body, Resting;
    WorldAudio(w);
    if src < SRC_INVALID && SourceActive(w.groups, src) {
      match e
      case StreamError => TerminateKeeps(w, src, envs);
      case SpeechSeen(s) =>
        assert SourceTied(w, src);
        SpeechKeeps(LinkOf(w, src), s, envs);
        SpeechKeepsAudio(LinkOf(w, src), s, envs);
        EvolvePut(w, src, Speech(LinkOf(w, src), s, envs));
    }
  }

  /** Every connection is as it was or disconnected. */
  predicate OnlyEnds(w: World, r: World)
    requires Shaped(w) && Shaped(r)
  {
    forall i :: 0 <= i < SRC_QTY ==> r.conns[i] == w.conns[i] || r.conns[i].state.Disconnected?
  }

  /** Which groups a termination loop from group g on releases. */
  predicate Released(w: World, r: World, g: nat)
    requires Shaped(w) && Shaped(r) && r.tap == w.tap
  {
    forall h :: 0 <= h < |w.groups| ==> GroupReleased(w, r, g, h)
  }

  predicate GroupReleased(w: World, r: World, g: nat, h: nat)
    requires Shaped(w) && Shaped(r) && r.tap == w.tap && h < |w.groups|
  {
    var s := w.groups[h].src;
    if h < g || s >= SRC_INVALID || w.conns[s].state.Disconnected? then r.groups[h] == w.groups[h]
    else r.groups[h].src == SRC_INVALID && r.conns[s].state.Disconnected?
  }

  lemma {:induction false} TerminateGroupsReleases(w: World, g: nat, a: Answers)
    requires WorldInv(w) && g <= |w.groups|
    ensures var r := TerminateGroups(w, g, a);
            WorldInv(r) && OnlyEnds(w, r) && Released(w, r, g)
    decreases |w.groups| - g
  {
    hide Watch, Quiet, Terminate, Clean;
    if g < |w.groups| {
      var s := w.groups[g].src;
      assert GroupTied(w, g);
      var m := Terminate(w, s, Ans(a, g));
      if s < SRC_INVALID {
        assert SourceActive(w.groups, s);
        TerminateReleases(w, s, Ans(a, g));
        ReleasedState(w, m, s);
      } else {
        TerminateInvalid(w, s, Ans(a, g));
      }
      TerminateGroupsReleases(m, g + 1, a);
      var r := TerminateGroups(w, g, a);
      assert r == TerminateGroups(m, g + 1, a);
      forall h | 0 <= h < |w.groups|
        ensures GroupReleased(w, r, g, h)
      {
        assert GroupTied(w, h) && GroupTied(m, h) && GroupReleased(m, r, g + 1, h);
      }
    }
  }

  lemma TerminateInvalid(w: World, src: nat, envs: seq<Env>)
    requires Shaped(w) && src >= SRC_INVALID
    ensures Terminate(w, src, envs) == w
  {
    hide Deliver;
  }

  lemma ReleasedState(w: World, r: World, src: nat)
    requires Shaped(w) && Shaped(r) && src < SRC_QTY
    requires if w.conns[src].state.Disconnected? then r == w else Clean(LinkOf(r, src))
    ensures r.conns[src].state.Disconnected?
  {
    hide Watch;
  }

  lemma SetParamsKeeps(w: World, cfgs: seq<Config>)
    requires WorldInv(w) && |cfgs| == SRC_QTY
    ensures WorldInv(SetParams(w, cfgs)) && SetParams(w, cfgs).groups == w.groups
    ensures forall i :: 0 <= i < SRC_QTY ==> SetParams(w, cfgs).conns[i] == w.conns[i].(cfg := cfgs[i])
  {
    hide Watch, Quiet;
    var r := SetParams(w, cfgs);
    forall s | 0 <= s < SRC_QTY ensures SourceTied(r, s) {
      assert SourceTied(w, s);
      ParamsQuiet(LinkOf(w, s), cfgs[s]);
    }
    forall h | 0 <= h < |r.groups| ensures GroupTied(r, h) { assert GroupTied(w, h); }
  }

  lemma ParamsQuiet(l: Link, cfg: Config)
    requires Quiet(l)
    ensures Quiet(l.(ws := l.ws.(cfg := cfg)))
  {
    hide Watch;
  }

  /** Leaving full power disconnects every machine and releases exactly the groups whose machine had
      started; staying at full power ends nothing.  In every mode every source has its new parameters afterwards. */
  lemma PowerModeReleases(w: World, full: bool, cfgs: seq<Config>, a: Answers)
    requires WorldInv(w) && |cfgs| == SRC_QTY
    ensures var r := PowerMode(w, full, cfgs, a);
            && WorldInv(r)
            && (forall i :: 0 <= i < SRC_QTY ==> r.conns[i].cfg == cfgs[i])
            && (full ==> r.groups == w.groups
                         && forall i :: 0 <= i < SRC_QTY ==> r.conns[i] == w.conns[i].(cfg := cfgs[i]))
            && (!full ==> Released(w, r, 0) && forall i :: 0 <= i < SRC_QTY ==> r.conns[i].state.Disconnected?)
  {
    hide Watch, Quiet, TerminateGroups;
    TerminateGroupsReleases(w, 0, a);
    var m := if full then w else TerminateGroups(w, 0, a);
    SetParamsKeeps(m, cfgs);
    if !full {
      forall h | 0 <= h < |w.groups| ensures GroupReleased(w, PowerMode(w, full, cfgs, a), 0, h) {
        assert GroupTied(w, h) && GroupReleased(w, m, 0, h);
      }
      forall i | 0 <= i < SRC_QTY ensures m.conns[i].state.Disconnected? {
        assert SourceTied(w, i);
        assert GroupTied(w, GroupOf(w.tap, i)) && GroupReleased(w, m, 0, GroupOf(w.tap, i));
      }
    }
  }

  lemma PowerKeepsAudio(w: World, full: bool, cfgs: seq<Config>, a: Answers)
    requires WorldInv(w) && |cfgs| == SRC_QTY
    ensures AllAudioKept(w, PowerMode(w, full, cfgs, a))
  {
    hide Watch, TerminateGroups, Body;
    PowerModeReleases(w, full, cfgs, a);
    var r := PowerMode(w, full, cfgs, a);
    forall i | 0 <= i < SRC_QTY ensures AudioKept(w.conns[i], r.conns[i]) {
      assert SourceTied(r, i);
      LivePipe(LinkOf(r, i));
    }
    hide Quiet;
  }

  lemma HandleKeeps(w: World, m: Msg)
    requires WorldInv(w) && MsgFits(m) && ConfiguredOnce(w, m)
    ensures WorldInv(Handle(w, m)) && AllAudioKept(w, Handle(w, m))
  {
    hide Watch, Quiet, Begin, ConfigIn, Terminate, AudioIn, PowerMode;
    match m
    case MsgBegin(src, byText, p) => BeginKeeps(w, src, byText, p);
    case MsgConfig(_, _, _, _, _, _) => ConfigKeeps(w, m);
    case MsgTerminate(src, envs) => TerminateKeeps(w, src, envs);
    case MsgAudio(src, e, envs) => AudioInKeeps(w, src, e, envs);
    case MsgPower(full, cfgs, a) =>
      PowerModeReleases(w, full, cfgs, a);
      PowerKeepsAudio(w, full, cfgs, a);
    case NoMsg => WorldAudio(w);
  }

  // ---- the descriptor loop and whole runs ----

  predicate AllReportable(w: World, from: nat, fds: seq<Fds>)
    requires Shaped(w) && |fds| == SRC_QTY
  {
    forall i :: from <= i < SRC_QTY ==> Reportable(w.conns[i], fds[i].ready) && IoOk(fds[i].io)
  }

  lemma {:induction false} HandleAllKeeps(w: World, src: nat, fds: seq<Fds>)
    requires WorldInv(w) && src <= SRC_QTY && |fds| == SRC_QTY && AllReportable(w, src, fds)
    ensures WorldInv(HandleAll(w, src, fds))
    decreases SRC_QTY - src
  {
    hide Watch, Quiet, HandleFds;
    if src < SRC_QTY {
      assert SourceTied(w, src);
      var f := fds[src];
      var m := w;
      if !w.conns[src].state.Disconnected? {
        HandleFdsKeeps(LinkOf(w, src), f.ready, f.io, f.a);
        m := Put(w, src, HandleFds(LinkOf(w, src), f.ready, f.io, f.a));
        EvolvePut(w, src, HandleFds(LinkOf(w, src), f.ready, f.io, f.a));
      }
      HandleAllKeeps(m, src + 1, fds);
    }
  }

  /** What select reported before the message is still fit to be handled after it. */
  lemma StillReportable(w: World, r: World, fds: seq<Fds>)
    requires WorldInv(w) && Shaped(r) && AllAudioKept(w, r) && |fds| == SRC_QTY
    requires forall i :: 0 <= i < SRC_QTY ==> Within(fds[i].ready, Wanted(w.conns[i])) && IoOk(fds[i].io)
    ensures AllReportable(r, 0, fds)
  {
    hide Watch, Quiet;
    forall i | 0 <= i < SRC_QTY ensures Reportable(r.conns[i], fds[i].ready) {
      assert AudioKept(w.conns[i], r.conns[i]);
    }
  }

  /** Every step the environment may take keeps the router invariant. */
  lemma AdvanceKeeps(w: World, s: Step)
    requires WorldInv(w) && Contract(w, s)
    ensures StepFits(s) && WorldInv(Advance(w, s))
  {
    hide Watch, Quiet, Handle, HandleAll, Deliver, QueueText;
    match s
    case Iterate(m, fds) =>
      HandleKeeps(w, m);
      StillReportable(w, Handle(w, m), fds);
      HandleAllKeeps(Handle(w, m), 0, fds);
    case Expire(src, envs) =>
      assert SourceTied(w, src);
      DeliverKeeps(LinkOf(w, src), TimeoutEv, envs);
      EvolvePut(w, src, Deliver(LinkOf(w, src), TimeoutEv, envs));
    case Send(src, msg) =>
      assert SourceTied(w, src);
      QueueTextKeeps(LinkOf(w, src), msg);
      EvolvePut(w, src, QueueText(LinkOf(w, src), msg));
  }

  /** A run of the router: each step taken under the environment's guarantees. */
  predicate Run(w: World, steps: seq<Step>, r: World)
    requires Shaped(w)
    decreases |steps|
  {
    if steps == [] then r == w
    else
      && StepFits(steps[0]) && Contract(w, steps[0])
      && Shaped(Advance(w, steps[0]))
      && Run(Advance(w, steps[0]), steps[1..], r)
  }

  lemma InitialInv(w: World)
    requires Initial(w)
    ensures WorldInv(w)
  {
    forall s | 0 <= s < SRC_QTY ensures SourceTied(w, s) { assert IsFresh(w.conns[s]); }
  }

  lemma {:induction false} RunKeeps(w: World, steps: seq<Step>, r: World)
    requires WorldInv(w) && Run(w, steps, r)
    ensures WorldInv(r)
    decreases |steps|
  {
    if steps != [] {
      AdvanceKeeps(w, steps[0]);
      RunKeeps(Advance(w, steps[0]), steps[1..], r);
    }
    hide Advance, Watch, Quiet;
  }

  /** Worlds a run from an initial one can reach. */
  ghost predicate Reachable(r: World)
  {
    exists w: World, steps: seq<Step> :: Initial(w) && Run(w, steps, r)
  }

  lemma ReachableInv(r: World)
    requires Reachable(r)
    ensures WorldInv(r)
  {
    hide Watch, Quiet;
    var w, steps :| Initial(w) && Run(w, steps, r);
    InitialInv(w);
    RunKeeps(w, steps, r);
  }

  /** Two sources of one group. */
  predicate Rivals(tap: bool, a: nat, b: nat) { a != b && GroupOf(tap, a) == GroupOf(tap, b) }

  /** What every reachable router looks like between main-loop steps, said without the invariant. */
  lemma ReachableSafe(w: World, src: nat)
    requires Reachable(w) && src < SRC_QTY
    ensures Shaped(w)
    ensures var c := w.conns[src];
            var g := w.groups[GroupOf(w.tap, src)];
            var m := Watch(c.log);
            // every call was in order, and the session is where the machine is
            && m.ok
            && (c.state.Disconnected? <==> m.phase == Idle)
            && (c.state.Established? <==> m.phase == Ended)
            // a running machine's source holds the group, so no other source of the group runs
            && (!c.state.Disconnected? ==> g.src == src)
            && (!c.state.Disconnected? ==>
                  forall o :: 0 <= o < SRC_QTY && Rivals(w.tap, o, src) ==> w.conns[o].state.Disconnected?)
            // nothing is half done
            && (c.queue == [] || c.queue == [EosPipe]) && !c.state.Disconnecting?
            // one timer, exactly in four states
            && (c.timer >= 0 <==>
                  c.state.Connecting? || c.state.Connected? || c.state.Established? || c.state.ConnectionRetry?)
            && m.timers == (if c.timer >= 0 then {c.timer} else {})
            // one read end, exactly while the stream lives, and it is the one the group keeps
            && (c.pipe >= 0 <==> m.phase == Live)
            && m.fds == (if c.pipe >= 0 then {c.pipe} else {})
            && (m.phase == Live ==> g.pipeFd == c.pipe)
            && (g.firstStreamReq <==> g.pipeFd < 0)
            // a socket exactly while the connection is up
            && (c.socket >= 0 <==> c.state.Streaming? || c.state.TextOnlySession? || c.state.Established?)
            // at most five incomplete flushes in a row while streaming
            && (c.state.Streaming? || c.state.TextOnlySession? ==> m.streak <= WRITE_PENDING_RETRY_MAX)
  {
    ReachableInv(w);
    assert SourceTied(w, src);
    forall o | 0 <= o < SRC_QTY && Rivals(w.tap, o, src) && !w.conns[src].state.Disconnected?
      ensures w.conns[o].state.Disconnected?
    {
      assert SourceTied(w, o);
    }
    RestSafe(LinkOf(w, src));
    hide Watch, Quiet, Reachable, GroupsTied;
  }

  /** At every moment of every run each session of a connection has had at most one stream end and then at
      most one session end, every read end at most one close, and each timer was removed before the next. */
  lemma ReachableCounts(w: World, src: nat, k: nat, fd: int)
    requires Reachable(w) && Shaped(w) && src < SRC_QTY && k <= |w.conns[src].log|
    ensures var now, p := w.conns[src].log, w.conns[src].log[..k];
            && SessionEnds(p) <= StreamEnds(p) <= Starts(p) <= SessionEnds(p) + 1
            && Closes(p, fd) <= Opens(p, fd) <= Closes(p, fd) + 1
            && Removes(p) <= Inserts(p) <= Removes(p) + 1
            && Raises(p) <= Infos(p)
            && (w.conns[src].state.Disconnected? ==>
                  Starts(now) == StreamEnds(now) == SessionEnds(now)
                  && Opens(now, fd) == Closes(now, fd) && Inserts(now) == Removes(now))
  {
    hide Watch, Reachable;
    ReachableSafe(w, src);
    var log := w.conns[src].log;
    InOrderPrefixes(log, k, fd);
    SessionCounts(log);
    PipeCounts(log, fd);
    TimerCounts(log);
  }

  lemma RestSafe(l: Link)
    requires Quiet(l)
    ensures var c := l.ws;
            var m := Watch(c.log);
            && m.ok && m.phase == PhaseOf(c.state)
            && (c.queue == [] || c.queue == [EosPipe]) && !c.state.Disconnecting?
            && (c.timer >= 0 <==> StopsTimer(c.state))
            && m.timers == Held(c.timer) && m.fds == Held(c.pipe)
            && (c.pipe >= 0 <==> m.phase == Live)
            && (m.phase == Live ==> l.sess.pipeFd == c.pipe)
            && (l.sess.firstStreamReq <==> l.sess.pipeFd < 0)
            && (c.socket >= 0 <==> Up(c.state))
            && (c.state.Streaming? || c.state.TextOnlySession? ==> m.streak <= WRITE_PENDING_RETRY_MAX)
  {
    hide Watch;
  }
}
