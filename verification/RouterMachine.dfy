/** The router object: its message handlers and loops update the session groups and the connections in place,
    and do to them exactly what the functions of RouterSpec say. */
module RouterMachine {
  import opened Types
  import opened WsTables
  import opened WsSpec
  import opened WsIo
  import opened WsTimers
  import opened MsgOut
  import opened WsConnection
  import opened RouterSpec
  import opened RouterProofs
  import opened RouterOutcomes

  lemma InvalidNotTerminated(w: World, src: nat, envs: seq<Env>)
    requires Shaped(w) && src >= SRC_INVALID
    ensures Terminate(w, src, envs) == w
  {}

  lemma BeginTakes(w: World, src: nat, byText: bool, p: PipeAnswer)
    requires WorldInv(w)
    ensures src < SRC_INVALID && w.groups[GroupOf(w.tap, src)].src == SRC_INVALID ==>
              var r := Begin(w, src, byText, p);
              && Shaped(r) && r.groups[GroupOf(w.tap, src)].src == src && r.conns[src].state.Disconnected?
              && r.conns[src].byText == byText && !r.conns[src].stm
  {
    BeginFindsDisconnected(w, src);
    BeginTakesGroup(w, src, byText, p);
    hide WorldInv, Begin;
  }

  lemma KeywordArmed(l: Link, n: nat, envs: seq<Env>)
    ensures Speech(l, SpeechKeyword(n), envs).ws
            == l.ws.(tx := l.ws.tx.(kwdNotified := false, kwdBytes := n), log := l.ws.log + [KeywordInfo(n)])
  {}

  lemma TerminateFrees(w: World, src: nat, envs: seq<Env>)
    requires WorldInv(w)
    ensures src < SRC_INVALID && !w.conns[src].state.Disconnected? ==>
              var r := Terminate(w, src, envs);
              r.conns[src].state.Disconnected? && r.groups[GroupOf(w.tap, src)].src == SRC_INVALID
  {
    if src < SRC_INVALID && !w.conns[src].state.Disconnected? {
      assert SourceTied(w, src);
      assert SourceActive(w.groups, src);
      TerminateReleases(w, src, envs);
      ReleasedState(w, Terminate(w, src, envs), src);
    }
    hide Terminate;
  }

  /** g_xrsr: the session groups and one websocket connection per source. */
  class Router {
    const tap: bool
    const groups: seq<Group>
    const conns: seq<Connection>

    ghost const outs: seq<MsgSlots>
    ghost const slots: seq<array<Option<string>>>

    ghost predicate Apart()
    {
      && |groups| == GroupQty(tap) && |conns| == |outs| == |slots| == SRC_QTY
      && (forall i, j :: 0 <= i < j < |groups| ==> groups[i] != groups[j])
      && (forall i, j :: 0 <= i < j < SRC_QTY ==>
            conns[i] != conns[j] && outs[i] != outs[j] && slots[i] != slots[j])
      && (forall i :: 0 <= i < SRC_QTY ==>
            conns[i].group == groups[GroupOf(tap, i)] && conns[i].out == outs[i] && outs[i].slots == slots[i])
    }

    ghost predicate Valid()
      reads conns, outs, slots
    {
      Apart() && forall i :: 0 <= i < SRC_QTY ==> conns[i].Valid()
    }

    /** The router as a value. */
    ghost predicate Shows(w: World)
      reads groups, conns, outs, slots
    {
      && Valid() && Shaped(w) && w.tap == tap
      && (forall g :: 0 <= g < |groups| ==> w.groups[g] == groups[g].Record())
      && (forall i :: 0 <= i < SRC_QTY ==> w.conns[i] == conns[i].Fields())
    }

    /** xrsr_is_source_active. */
    method IsSourceActive(ghost w: World, src: nat) returns (active: bool)
      requires Shows(w)
      ensures active == SourceActive(w.groups, src)
    {
      var g := 0;
      while g < |groups|
        invariant 0 <= g <= |groups|
        invariant forall h :: 0 <= h < g ==> w.groups[h].src != src
      {
        assert w.groups[g] == groups[g].Record();
        if groups[g].src == src { return true; }
        g := g + 1;
      }
      return false;
    }

    /** Everything but one connection and its group shows as in w. */
    ghost predicate ShowsElsewhere(w: World, src: nat)
      requires Shaped(w) && src < SRC_QTY && Apart() && w.tap == tap
      reads groups, conns, outs, slots
    {
      && (forall i :: 0 <= i < SRC_QTY && i != src ==> conns[i].Valid() && w.conns[i] == conns[i].Fields())
      && (forall g :: 0 <= g < |groups| && g != GroupOf(tap, src) ==> w.groups[g] == groups[g].Record())
    }

    lemma OneChanged(w: World, src: nat)
      requires Shaped(w) && src < SRC_QTY && Apart() && w.tap == tap
      requires ShowsElsewhere(w, src) && conns[src].Valid()
      ensures Shows(Put(w, src, conns[src].Abs()))
    {}

    // ---- messages ----

    /** xrsr_msg_session_begin: a source that is active or whose group is held is refused. */
    method SessionBegin(ghost w: World, src: nat, byText: bool, p: PipeAnswer)
      requires Shows(w)
      modifies groups, conns, outs, slots
      ensures Shows(Begin(w, src, byText, p))
      ensures WorldInv(w) ==> WorldInv(Begin(w, src, byText, p))
      ensures WorldInv(w) && src < SRC_INVALID && old(groups[GroupOf(tap, src)].src) == SRC_INVALID ==>
                && groups[GroupOf(tap, src)].src == src && conns[src].state.Disconnected?
                && conns[src].isSessionByText == byText && !conns[src].streamTimeMinRxd
    {
      hide WorldInv;
      if WorldInv(w) {
        BeginKeeps(w, src, byText, p);
        BeginTakes(w, src, byText, p);
      }
      if src >= SRC_INVALID { return; }
      var active := IsSourceActive(w, src);
      if active { return; }
      var g := GroupOf(tap, src);
      assert w.groups[g] == groups[g].Record() && w.conns[src] == conns[src].Fields();
      if groups[g].src < SRC_INVALID { return; }
      BeginOnConnection(w, src, byText, p);
    }

    /** The part of a begin message after the two refusals. */
    method BeginOnConnection(ghost w: World, src: nat, byText: bool, p: PipeAnswer)
      requires Shows(w) && src < SRC_QTY && OutcomeOfBegin(w, src) !in {Ignored, GroupBusy}
      modifies groups, conns, outs, slots
      ensures Shows(Begin(w, src, byText, p))
    {
      hide ContinueStream;
      assert conns[src].Abs() == LinkOf(w, src);
      conns[src].BeginSession(src, byText, p);
      OneChanged(w, src);
      hide Begun;
    }

    /** xrsr_msg_session_config_in. */
    method SessionConfigIn(ghost w: World, src: nat, uuidMatches: bool, p: PipeAnswer, now: nat,
                           streamTimeMin: nat, envs: seq<Env>)
      requires Shows(w)
      modifies groups, conns, outs, slots
      ensures Shows(ConfigIn(w, src, uuidMatches, p, now, streamTimeMin, envs))
      ensures WorldInv(w) && ConfiguredOnce(w, MsgConfig(src, uuidMatches, p, now, streamTimeMin, envs)) ==>
                WorldInv(ConfigIn(w, src, uuidMatches, p, now, streamTimeMin, envs))
    {
      hide Configure, WorldInv, ConfiguredOnce;
      ghost var m := MsgConfig(src, uuidMatches, p, now, streamTimeMin, envs);
      if WorldInv(w) && ConfiguredOnce(w, m) { ConfigKeeps(w, m); }
      if src >= SRC_INVALID { return; }
      var g := GroupOf(tap, src);
      assert w.groups[g] == groups[g].Record();
      var owner := groups[g].src;
      if owner >= SRC_INVALID || !uuidMatches { return; }
      ConfigureOwner(w, owner, p, now, streamTimeMin, envs);
    }

    method ConfigureOwner(ghost w: World, owner: nat, p: PipeAnswer, now: nat, streamTimeMin: nat, envs: seq<Env>)
      requires Shows(w) && owner < SRC_QTY
      modifies groups, conns, outs, slots
      ensures Shows(Put(w, owner, Configure(LinkOf(w, owner), owner, p, now, streamTimeMin, envs)))
    {
      hide Configure;
      assert conns[owner].Abs() == LinkOf(w, owner);
      conns[owner].ConfigureSession(owner, p, now, streamTimeMin, envs);
      OneChanged(w, owner);
    }

    /** xrsr_msg_session_terminate. */
    method SessionTerminate(ghost w: World, src: nat, envs: seq<Env>)
      requires Shows(w)
      modifies groups, conns, outs, slots
      ensures Shows(Terminate(w, src, envs))
      ensures WorldInv(w) ==> WorldInv(Terminate(w, src, envs))
      ensures WorldInv(w) && src < SRC_INVALID && !old(conns[src].state).Disconnected? ==>
                conns[src].state.Disconnected? && groups[GroupOf(tap, src)].src == SRC_INVALID
    {
      hide Deliver, WorldInv;
      if WorldInv(w) {
        TerminateKeeps(w, src, envs);
        TerminateFrees(w, src, envs);
      }
      if src >= SRC_INVALID { return; }
      var active := IsSourceActive(w, src);
      if !active { return; }
      TerminateOnConnection(w, src, envs);
    }

    method TerminateOnConnection(ghost w: World, src: nat, envs: seq<Env>)
      requires Shows(w) && src < SRC_QTY && SourceActive(w.groups, src)
      modifies groups, conns, outs, slots
      ensures Shows(Terminate(w, src, envs))
    {
      hide Deliver;
      assert conns[src].Abs() == LinkOf(w, src);
      if !conns[src].state.Disconnected? {
        conns[src].Terminate(envs);
        OneChanged(w, src);
      }
    }

    /** xrsr_msg_xraudio_event. */
    method AudioMessage(ghost w: World, src: nat, e: AudioEvent, envs: seq<Env>)
      requires Shows(w)
      modifies groups, conns, outs, slots
      ensures Shows(AudioIn(w, src, e, envs))
      ensures WorldInv(w) ==> WorldInv(AudioIn(w, src, e, envs))
      ensures WorldInv(w) && src < SRC_INVALID && SourceActive(w.groups, src) && e.StreamError? ==>
                conns[src].state.Disconnected?
      ensures WorldInv(w) && src < SRC_INVALID && SourceActive(w.groups, src) && e.SpeechSeen? && e.e.SpeechKeyword? ==>
                && !conns[src].kwdNotified && conns[src].kwdBytes == e.e.bytes
                && conns[src].log == old(conns[src].log) + [KeywordInfo(e.e.bytes)]
    {
      hide Speech, Terminate, WorldInv;
      if WorldInv(w) {
        AudioInKeeps(w, src, e, envs);
        AudioOutcome(w, src, e, envs);
        if e.SpeechSeen? && e.e.SpeechKeyword? && src < SRC_QTY { KeywordArmed(LinkOf(w, src), e.e.bytes, envs); }
      }
      if src >= SRC_INVALID { return; }
      var active := IsSourceActive(w, src);
      if !active { return; }
      match e
      case StreamError => SessionTerminate(w, src, envs);
      case SpeechSeen(s) => SpeechOnConnection(w, src, s, envs);
    }

    method SpeechOnConnection(ghost w: World, src: nat, e: SpeechEvent, envs: seq<Env>)
      requires Shows(w) && src < SRC_QTY
      modifies groups, conns, outs, slots
      ensures Shows(Put(w, src, Speech(LinkOf(w, src), e, envs)))
    {
      hide Speech;
      assert conns[src].Abs() == LinkOf(w, src);
      conns[src].HandleSpeech(e, envs);
      OneChanged(w, src);
    }

    /** The terminations of xrsr_msg_power_mode_update. */
    method TerminateAll(ghost w: World, a: Answers)
      requires Shows(w)
      modifies groups, conns, outs, slots
      ensures Shows(TerminateGroups(w, 0, a))
    {
      hide Terminate, WorldInv;
      var g := 0;
      ghost var x := w;
      while g < |groups|
        invariant 0 <= g <= |groups| && Shows(x)
        invariant TerminateGroups(x, g, a) == TerminateGroups(w, 0, a)
      {
        assert x.groups[g] == groups[g].Record();
        ghost var y := Terminate(x, x.groups[g].src, Ans(a, g));
        if groups[g].src < SRC_INVALID {
          SessionTerminate(x, groups[g].src, Ans(a, g));
        } else {
          InvalidNotTerminated(x, x.groups[g].src, Ans(a, g));
        }
        x := y;
        g := g + 1;
      }
    }

    /** xrsr_ws_update_dst_params for every source. */
    method UpdateParams(ghost w: World, cfgs: seq<Config>)
      requires Shows(w) && |cfgs| == SRC_QTY
      modifies conns
      ensures Shows(SetParams(w, cfgs))
      ensures forall i :: 0 <= i < SRC_QTY ==> conns[i].cfg == cfgs[i]
    {
      var i := 0;
      ghost var x := w;
      while i < SRC_QTY
        invariant 0 <= i <= SRC_QTY && Shows(x)
        invariant x.tap == w.tap && x.groups == w.groups
        invariant forall j :: 0 <= j < i ==> x.conns[j] == w.conns[j].(cfg := cfgs[j])
        invariant forall j :: i <= j < SRC_QTY ==> x.conns[j] == w.conns[j]
      {
        UpdateParamsOf(x, i, cfgs[i]);
        x := x.(conns := x.conns[i := x.conns[i].(cfg := cfgs[i])]);
        i := i + 1;
      }
      assert x.conns == SetParams(w, cfgs).conns;
    }

    method UpdateParamsOf(ghost w: World, src: nat, c: Config)
      requires Shows(w) && src < SRC_QTY
      modifies conns
      ensures Shows(w.(conns := w.conns[src := w.conns[src].(cfg := c)]))
    {
      assert conns[src].Abs() == LinkOf(w, src);
      conns[src].SetConfig(c);
      OneChanged(w, src);
      assert Put(w, src, conns[src].Abs()).groups == w.groups;
    }

    /** xrsr_msg_power_mode_update. */
    method PowerModeUpdate(ghost w: World, full: bool, cfgs: seq<Config>, a: Answers)
      requires Shows(w) && |cfgs| == SRC_QTY
      modifies groups, conns, outs, slots
      ensures Shows(PowerMode(w, full, cfgs, a))
      ensures WorldInv(w) ==> WorldInv(PowerMode(w, full, cfgs, a))
      ensures WorldInv(w) && !full ==> forall i :: 0 <= i < SRC_QTY ==> conns[i].state.Disconnected?
      ensures forall i :: 0 <= i < SRC_QTY ==> conns[i].cfg == cfgs[i]
    {
      hide TerminateGroups, SetParams, WorldInv, Released;
      if WorldInv(w) { PowerModeReleases(w, full, cfgs, a); }
      if full {
        UpdateParams(w, cfgs);
      } else {
        TerminateAll(w, a);
        UpdateParams(TerminateGroups(w, 0, a), cfgs);
      }
    }

    /** The handler table of the main loop. */
    method HandleMessage(ghost w: World, m: Msg)
      requires Shows(w) && MsgFits(m)
      modifies groups, conns, outs, slots
      ensures Shows(Handle(w, m))
      ensures WorldInv(w) && ConfiguredOnce(w, m) ==> WorldInv(Handle(w, m))
    {
      hide Begin, ConfigIn, Terminate, AudioIn, PowerMode, WorldInv, ConfiguredOnce;
      match m
      case MsgBegin(src, byText, p) => SessionBegin(w, src, byText, p);
      case MsgConfig(src, uuidMatches, p, now, streamTimeMin, envs) =>
        SessionConfigIn(w, src, uuidMatches, p, now, streamTimeMin, envs);
      case MsgTerminate(src, envs) => SessionTerminate(w, src, envs);
      case MsgAudio(src, e, envs) => AudioMessage(w, src, e, envs);
      case MsgPower(full, cfgs, a) => PowerModeUpdate(w, full, cfgs, a);
      case NoMsg =>
    }

    // ---- the main loop ----

    /** The descriptors of one source. */
    method HandleSource(ghost w: World, src: nat, f: Fds) returns (ghost r: World)
      requires Shows(w) && src < SRC_QTY
      modifies groups, conns, outs, slots
      ensures r == (if w.conns[src].state.Disconnected? then w
                    else Put(w, src, HandleFds(LinkOf(w, src), f.ready, f.io, f.a)))
      ensures Shows(r) && Shaped(r)
    {
      hide HandleFds;
      assert conns[src].Abs() == LinkOf(w, src);
      r := w;
      if !conns[src].state.Disconnected? {
        conns[src].HandleDescriptors(f.ready, f.io, f.a);
        OneChanged(w, src);
        r := Put(w, src, conns[src].Abs());
      }
    }

    /** The descriptor loop after select. */
    method HandleAllDescriptors(ghost w: World, fds: seq<Fds>)
      requires Shows(w) && Shaped(w) && |fds| == SRC_QTY
      modifies groups, conns, outs, slots
      ensures Shows(HandleAll(w, 0, fds))
      ensures WorldInv(w) && AllReportable(w, 0, fds) ==> WorldInv(HandleAll(w, 0, fds))
    {
      hide HandleFds, Put, LinkOf, Shows, WorldInv, AllReportable;
      if WorldInv(w) && AllReportable(w, 0, fds) { HandleAllKeeps(w, 0, fds); }
      var src := 0;
      ghost var x := w;
      while src < SRC_QTY
        invariant 0 <= src <= SRC_QTY && Shows(x) && Shaped(x)
        invariant HandleAll(x, src, fds) == HandleAll(w, 0, fds)
      {
        x := HandleSource(x, src, fds[src]);
        src := src + 1;
      }
    }

    /** One round of the main loop in which select reported descriptors. */
    method Round(ghost w: World, m: Msg, fds: seq<Fds>)
      requires Shows(w) && StepFits(Iterate(m, fds))
      modifies groups, conns, outs, slots
      ensures Shows(Advance(w, Iterate(m, fds)))
      ensures WorldInv(w) && Contract(w, Iterate(m, fds)) ==> WorldInv(Advance(w, Iterate(m, fds)))
    {
      hide Handle, HandleAll, WorldInv, Contract;
      if WorldInv(w) && Contract(w, Iterate(m, fds)) { AdvanceKeeps(w, Iterate(m, fds)); }
      HandleMessage(w, m);
      HandleAllDescriptors(Handle(w, m), fds);
    }

    /** One round in which a timer expired. */
    method TimerRound(ghost w: World, src: nat, envs: seq<Env>)
      requires Shows(w) && src < SRC_QTY
      modifies groups, conns, outs, slots
      ensures Shows(Advance(w, Expire(src, envs)))
      ensures WorldInv(w) && Contract(w, Expire(src, envs)) ==>
                && WorldInv(Advance(w, Expire(src, envs)))
                && Served(conns[src].log, |old(conns[src].log)|, old(conns[src].timerId))
    {
      hide Deliver, WorldInv, Contract, Served;
      if WorldInv(w) && Contract(w, Expire(src, envs)) {
        AdvanceKeeps(w, Expire(src, envs));
        ExpiryServed(w, src, envs);
      }
      ExpireOnConnection(w, src, envs);
    }

    method ExpireOnConnection(ghost w: World, src: nat, envs: seq<Env>)
      requires Shows(w) && src < SRC_QTY
      modifies groups, conns, outs, slots
      ensures Shows(Put(w, src, Deliver(LinkOf(w, src), TimeoutEv, envs)))
    {
      hide Deliver;
      assert conns[src].Abs() == LinkOf(w, src);
      conns[src].ProcessTimeout(envs);
      OneChanged(w, src);
    }
  }
}
