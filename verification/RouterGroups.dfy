/** A group whose holder's machine never started: how it comes about and why it stays. */
module RouterGroups {
  import opened Types
  import opened WsTables
  import opened WsSpec
  import opened WsIo
  import opened WsInvariant
  import opened WsRuns
  import opened WsInputs
  import opened RouterSpec
  import opened RouterProofs

  /** Group g is held by source src, whose machine is disconnected. */
  predicate Stuck(w: World, g: nat, src: nat)
    requires Shaped(w)
  {
    g < |w.groups| && w.groups[g].src == src < SRC_INVALID && w.conns[src].state.Disconnected?
  }

  /** A config message that reaches the session of group g. */
  predicate Configures(w: World, s: RouterSpec.Step, g: nat)
    requires Shaped(w)
  {
    s.Iterate? && s.m.MsgConfig? && s.m.uuidMatches && s.m.src < SRC_INVALID && GroupOf(w.tap, s.m.src) == g
  }

  // ---- how a group gets stuck ----

  /** A config message leaves its group stuck exactly when the audio stream could not be requested. */
  lemma ConfigStrands(w: World, m: Msg)
    requires WorldInv(w) && m.MsgConfig? && m.uuidMatches && m.src < SRC_INVALID
    requires Stuck(w, GroupOf(w.tap, m.src), w.groups[GroupOf(w.tap, m.src)].src)
    ensures var g := GroupOf(w.tap, m.src);
            Stuck(Handle(w, m), g, w.groups[g].src) <==> !m.p.PipeReady?
  {
    hide Quiet;
    var g := GroupOf(w.tap, m.src);
    var owner := w.groups[g].src;
    assert GroupTied(w, g);
    assert SourceTied(w, owner);
    ConfigureKeeps(LinkOf(w, owner), owner, m.p, m.now, m.streamTimeMin, m.envs);
    hide Configure;
  }

  // ---- why it stays stuck ----

  lemma PutElsewhere(w: World, src: nat, l: Link, g: nat, owner: nat)
    requires WorldInv(w) && Stuck(w, g, owner) && src < SRC_QTY
    requires GroupOf(w.tap, src) != g || l == LinkOf(w, src)
             || (src == owner && l.ws.state.Disconnected? && l.sess.src == owner)
    ensures Stuck(Put(w, src, l), g, owner)
  {
    hide Quiet;
    assert GroupTied(w, g);
  }

  /** A machine that runs belongs to another group. */
  lemma RunsElsewhere(w: World, src: nat, g: nat, owner: nat)
    requires WorldInv(w) && Stuck(w, g, owner) && src < SRC_QTY
    requires !w.conns[src].state.Disconnected? || (SourceActive(w.groups, src) && src != owner)
    ensures GroupOf(w.tap, src) != g
  {
    hide Quiet;
    assert SourceTied(w, src);
    ActiveInOwnGroup(w, src);
  }

  /** Begins for a stuck group are refused, whichever source asks. */
  lemma StuckRefuses(w: World, g: nat, owner: nat, src: nat)
    requires WorldInv(w) && Stuck(w, g, owner) && src < SRC_INVALID && GroupOf(w.tap, src) == g
    ensures OutcomeOfBegin(w, src) == (if src == owner then Ignored else GroupBusy)
  {
    hide Quiet;
    ActiveInOwnGroup(w, src);
    ActiveInOwnGroup(w, owner);
  }

  lemma BeginStays(w: World, m: Msg, g: nat, owner: nat)
    requires WorldInv(w) && Stuck(w, g, owner) && m.MsgBegin?
    ensures Stuck(Handle(w, m), g, owner)
  {
    hide Quiet;
    BeginFindsDisconnected(w, m.src);
    if OutcomeOfBegin(w, m.src) == Accepted {
      var l := LinkOf(w, m.src);
      PutElsewhere(w, m.src, Link(l.ws.(byText := m.byText, stm := false), l.sess.(src := m.src)), g, owner);
    }
  }

  lemma ConfigStays(w: World, m: Msg, g: nat, owner: nat)
    requires WorldInv(w) && Stuck(w, g, owner) && m.MsgConfig?
    requires !(m.uuidMatches && m.src < SRC_INVALID && GroupOf(w.tap, m.src) == g)
    ensures Stuck(Handle(w, m), g, owner)
  {
    hide Quiet;
    if m.src < SRC_INVALID {
      var o := w.groups[GroupOf(w.tap, m.src)].src;
      assert GroupTied(w, GroupOf(w.tap, m.src));
      if o < SRC_INVALID && m.uuidMatches {
        PutElsewhere(w, o, Configure(LinkOf(w, o), o, m.p, m.now, m.streamTimeMin, m.envs), g, owner);
      }
    }
  }

  lemma TerminateStays(w: World, src: nat, envs: seq<Env>, g: nat, owner: nat)
    requires WorldInv(w) && Stuck(w, g, owner)
    ensures Stuck(Terminate(w, src, envs), g, owner)
  {
    hide Quiet, Deliver;
    if src < SRC_INVALID && !w.conns[src].state.Disconnected? {
      RunsElsewhere(w, src, g, owner);
      PutElsewhere(w, src, Deliver(LinkOf(w, src), TerminateEv, envs), g, owner);
    }
  }

  lemma AudioStays(w: World, m: Msg, g: nat, owner: nat)
    requires WorldInv(w) && Stuck(w, g, owner) && m.MsgAudio?
    ensures Stuck(Handle(w, m), g, owner)
  {
    hide Quiet, Terminate, Speech;
    if m.src < SRC_INVALID && SourceActive(w.groups, m.src) {
      match m.e
      case StreamError => TerminateStays(w, m.src, m.envs, g, owner);
      case SpeechSeen(e) =>
        var l := LinkOf(w, m.src);
        assert SourceTied(w, m.src);
        SpeechKeeps(l, e, m.envs);
        RestingNotStarting(l);
        RestingNotStarting(Speech(l, e, m.envs));
        if m.src != owner { RunsElsewhere(w, m.src, g, owner); }
        PutElsewhere(w, m.src, Speech(l, e, m.envs), g, owner);
    }
  }

  lemma PowerStays(w: World, m: Msg, g: nat, owner: nat)
    requires WorldInv(w) && Stuck(w, g, owner) && m.MsgPower? && MsgFits(m)
    ensures Stuck(Handle(w, m), g, owner)
  {
    hide Quiet, TerminateGroups;
    PowerModeReleases(w, m.full, m.cfgs, m.a);
    assert !m.full ==> GroupReleased(w, PowerMode(w, m.full, m.cfgs, m.a), 0, g);
  }

  lemma HandleStays(w: World, m: Msg, g: nat, owner: nat)
    requires WorldInv(w) && Stuck(w, g, owner) && MsgFits(m)
    requires !(m.MsgConfig? && m.uuidMatches && m.src < SRC_INVALID && GroupOf(w.tap, m.src) == g)
    ensures Stuck(Handle(w, m), g, owner)
  {
    match m
    case MsgBegin(_, _, _) => BeginStays(w, m, g, owner);
    case MsgConfig(_, _, _, _, _, _) => ConfigStays(w, m, g, owner);
    case MsgTerminate(src, envs) => TerminateStays(w, src, envs, g, owner);
    case MsgAudio(_, _, _) => AudioStays(w, m, g, owner);
    case MsgPower(_, _, _) => PowerStays(w, m, g, owner);
    case NoMsg =>
    hide Quiet, Begin, ConfigIn, Terminate, AudioIn, PowerMode;
  }

  lemma {:induction false} HandleAllStays(w: World, src: nat, fds: seq<Fds>, g: nat, owner: nat)
    requires WorldInv(w) && src <= SRC_QTY && |fds| == SRC_QTY && AllReportable(w, src, fds) && Stuck(w, g, owner)
    ensures Stuck(HandleAll(w, src, fds), g, owner)
    decreases SRC_QTY - src
  {
    hide Quiet, HandleFds;
    if src < SRC_QTY {
      assert SourceTied(w, src);
      var f := fds[src];
      var m := w;
      if !w.conns[src].state.Disconnected? {
        HandleFdsKeeps(LinkOf(w, src), f.ready, f.io, f.a);
        m := Put(w, src, HandleFds(LinkOf(w, src), f.ready, f.io, f.a));
        EvolvePut(w, src, HandleFds(LinkOf(w, src), f.ready, f.io, f.a));
        RunsElsewhere(w, src, g, owner);
        PutElsewhere(w, src, HandleFds(LinkOf(w, src), f.ready, f.io, f.a), g, owner);
      }
      HandleAllStays(m, src + 1, fds, g, owner);
    }
  }

  /** Nothing but a config message for the group can end it: neither a terminate message, nor a change of
      power mode, nor an audio error, nor a timer. */
  lemma StuckStays(w: World, s: RouterSpec.Step, g: nat, owner: nat)
    requires WorldInv(w) && Contract(w, s) && Stuck(w, g, owner) && !Configures(w, s, g)
    ensures StepFits(s) && Stuck(Advance(w, s), g, owner)
  {
    hide Quiet, Handle, HandleAll, Deliver;
    match s
    case Iterate(m, fds) =>
      HandleStays(w, m, g, owner);
      HandleKeeps(w, m);
      StillReportable(w, Handle(w, m), fds);
      HandleAllStays(Handle(w, m), 0, fds, g, owner);
    case Expire(src, envs) =>
      assert SourceTied(w, src);
      TimerMeansRunning(LinkOf(w, src));
      RunsElsewhere(w, src, g, owner);
      PutElsewhere(w, src, Deliver(LinkOf(w, src), TimeoutEv, envs), g, owner);
    case Send(src, msg) =>
      if w.conns[src].state.Disconnected? {
        assert QueueText(LinkOf(w, src), msg) == LinkOf(w, src);
      } else {
        RunsElsewhere(w, src, g, owner);
      }
      PutElsewhere(w, src, QueueText(LinkOf(w, src), msg), g, owner);
  }

  lemma TimerMeansRunning(l: Link)
    requires Quiet(l) && l.ws.timer >= 0
    ensures !l.ws.state.Disconnected?
  {}

  /** No step of the run configures group g. */
  predicate NeverConfigures(w: World, steps: seq<RouterSpec.Step>, g: nat)
    requires Shaped(w)
  {
    forall i :: 0 <= i < |steps| ==> !Configures(w, steps[i], g)
  }

  /** After a refused audio stream the group is lost for every later run without a second config message:
      the same source holds it, its machine never runs, and no source of the group can begin a session. */
  lemma {:induction false} StuckForever(w: World, steps: seq<RouterSpec.Step>, r: World, g: nat, owner: nat, src: nat)
    requires WorldInv(w) && Run(w, steps, r) && Stuck(w, g, owner) && NeverConfigures(w, steps, g)
    requires src < SRC_INVALID && GroupOf(w.tap, src) == g
    ensures WorldInv(r) && r.tap == w.tap && Stuck(r, g, owner) && OutcomeOfBegin(r, src) in {Ignored, GroupBusy}
    decreases |steps|
  {
    if steps == [] {
      StuckRefuses(w, g, owner, src);
    } else {
      var m := Advance(w, steps[0]);
      AdvanceKeeps(w, steps[0]);
      StuckStays(w, steps[0], g, owner);
      TapStays(w, steps[0]);
      assert forall i :: 0 <= i < |steps| - 1 ==> steps[1..][i] == steps[i + 1];
      StuckForever(m, steps[1..], r, g, owner, src);
    }
    hide Advance, Quiet;
  }

  lemma TapStays(w: World, s: RouterSpec.Step)
    requires Shaped(w) && StepFits(s)
    ensures Advance(w, s).tap == w.tap
  {
    hide Deliver, Configure, Speech, HandleFds, QueueText, ContinueStream;
    if s.Iterate? { HandleTap(w, s.m); }
    hide Handle;
  }

  lemma HandleTap(w: World, m: Msg)
    requires Shaped(w) && MsgFits(m)
    ensures Handle(w, m).tap == w.tap && Shaped(Handle(w, m))
  {
    hide Deliver, Configure, Speech, ContinueStream;
  }
}
