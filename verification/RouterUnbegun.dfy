/** Over every run of the router: when the application hears that a stream ended without having heard that it
    began. */
module RouterUnbegun {
  import opened Types
  import opened Monitor
  import opened WsTables
  import opened WsSpec
  import opened WsIo
  import opened WsInvariant
  import opened WsRuns
  import opened WsInputs
  import opened WsTimers
  import opened WsUnbegun
  import opened RouterSpec
  import opened RouterProofs

  /** How many stream ends of a source the application heard of without a begin. */
  function UnbegunOf(w: World, src: nat): nat
    requires Shaped(w) && src < SRC_QTY
  {
    Unbegun(LinkOf(w, src))
  }

  /** A message that ends the stream of a source silently: its audio ends while it is still buffered, or its
      session is terminated - on request, for a stream error, or for a power mode - between two attempts. */
  predicate Silences(w: World, m: Msg, src: nat)
    requires Shaped(w) && src < SRC_QTY
  {
    var s := w.conns[src].state;
    match m
    case MsgTerminate(x, _) => x == src && s.ConnectionRetry?
    case MsgAudio(x, e, _) =>
      x == src && (if e.StreamError? then s.ConnectionRetry? else e.e.SpeechEos? && s.Buffering?)
    case MsgPower(full, _, _) => !full && s.ConnectionRetry?
    case _ => false
  }

  function Bit(b: bool): nat { if b then 1 else 0 }

  lemma UnbegunPut(w: World, x: nat, l: Link, src: nat)
    requires Shaped(w) && x < SRC_QTY && src < SRC_QTY
    ensures UnbegunOf(Put(w, x, l), src) == if x == src then Unbegun(l) else UnbegunOf(w, src)
  {
    hide Watch;
  }

  /** A machine that runs has its source active. */
  lemma RunningIsActive(w: World, src: nat)
    requires WorldInv(w) && src < SRC_QTY && !w.conns[src].state.Disconnected?
    ensures SourceActive(w.groups, src)
  {
    assert SourceTied(w, src);
    ActiveInOwnGroup(w, src);
    hide Quiet;
  }

  // ---- messages ----

  lemma UnbegunBegin(w: World, x: nat, byText: bool, p: PipeAnswer, src: nat)
    requires WorldInv(w) && src < SRC_QTY
    ensures UnbegunOf(Begin(w, x, byText, p), src) == UnbegunOf(w, src)
  {
    hide Watch, Quiet, Unbegun;
    BeginFindsDisconnected(w, x);
    if OutcomeOfBegin(w, x) == Accepted {
      var b := Begun(LinkOf(w, x), x, byText, p);
      UnbegunPut(w, x, b, src);
      UnbegunOfLog(LinkOf(w, x), b);
    }
  }

  lemma UnbegunConfigIn(w: World, m: Msg, src: nat)
    requires WorldInv(w) && m.MsgConfig? && ConfiguredOnce(w, m) && src < SRC_QTY
    ensures UnbegunOf(Handle(w, m), src) == UnbegunOf(w, src)
  {
    hide Watch, Quiet, Unbegun, Configure;
    var o := if m.src < SRC_INVALID then w.groups[GroupOf(w.tap, m.src)].src else SRC_INVALID;
    if o < SRC_INVALID && m.uuidMatches {
      assert GroupTied(w, GroupOf(w.tap, m.src));
      assert SourceTied(w, o);
      UnbegunConfigure(LinkOf(w, o), o, m.p, m.now, m.streamTimeMin, m.envs);
      UnbegunPut(w, o, Configure(LinkOf(w, o), o, m.p, m.now, m.streamTimeMin, m.envs), src);
    }
  }

  lemma UnbegunTerminate(w: World, x: nat, envs: seq<Env>, src: nat)
    requires WorldInv(w) && src < SRC_QTY
    ensures UnbegunOf(Terminate(w, x, envs), src)
            == UnbegunOf(w, src) + Bit(x == src && w.conns[src].state.ConnectionRetry?)
  {
    hide Watch, Quiet, Unbegun, Deliver;
    if x < SRC_INVALID && !w.conns[x].state.Disconnected? {
      RunningIsActive(w, x);
      assert SourceTied(w, x);
      UnbegunDeliver(LinkOf(w, x), TerminateEv, envs);
      UnbegunPut(w, x, Deliver(LinkOf(w, x), TerminateEv, envs), src);
    }
  }

  lemma UnbegunAudioIn(w: World, m: Msg, src: nat)
    requires WorldInv(w) && m.MsgAudio? && src < SRC_QTY
    ensures UnbegunOf(Handle(w, m), src) == UnbegunOf(w, src) + Bit(Silences(w, m, src))
  {
    hide Watch, Quiet, Unbegun, Speech, Terminate;
    var x := m.src;
    if x < SRC_INVALID && SourceActive(w.groups, x) {
      match m.e
      case StreamError => UnbegunTerminate(w, x, m.envs, src);
      case SpeechSeen(e) =>
        assert SourceTied(w, x);
        UnbegunSpeech(LinkOf(w, x), e, m.envs);
        UnbegunPut(w, x, Speech(LinkOf(w, x), e, m.envs), src);
    } else if x == src && !w.conns[src].state.Disconnected? {
      RunningIsActive(w, src);
    }
  }

  lemma {:induction false} UnbegunGroups(w: World, g: nat, a: Answers, src: nat)
    requires WorldInv(w) && g <= |w.groups| && src < SRC_QTY
    ensures UnbegunOf(TerminateGroups(w, g, a), src)
            == UnbegunOf(w, src) + Bit(w.conns[src].state.ConnectionRetry? && GroupOf(w.tap, src) >= g)
    decreases |w.groups| - g
  {
    hide Watch, Quiet, Unbegun, Terminate, Clean, UnbegunOf;
    if g < |w.groups| {
      var s := w.groups[g].src;
      assert GroupTied(w, g) && SourceTied(w, src);
      var m := Terminate(w, s, Ans(a, g));
      UnbegunTerminate(w, s, Ans(a, g), src);
      if s < SRC_INVALID {
        assert SourceActive(w.groups, s);
        TerminateReleases(w, s, Ans(a, g));
        ReleasedState(w, m, s);
      } else {
        TerminateInvalid(w, s, Ans(a, g));
      }
      UnbegunGroups(m, g + 1, a, src);
    }
  }

  lemma UnbegunPower(w: World, full: bool, cfgs: seq<Config>, a: Answers, src: nat)
    requires WorldInv(w) && |cfgs| == SRC_QTY && src < SRC_QTY
    ensures UnbegunOf(PowerMode(w, full, cfgs, a), src)
            == UnbegunOf(w, src) + Bit(!full && w.conns[src].state.ConnectionRetry?)
  {
    hide Watch, Quiet, TerminateGroups;
    UnbegunGroups(w, 0, a, src);
  }

  lemma UnbegunHandle(w: World, m: Msg, src: nat)
    requires WorldInv(w) && MsgFits(m) && ConfiguredOnce(w, m) && src < SRC_QTY
    ensures UnbegunOf(Handle(w, m), src) == UnbegunOf(w, src) + Bit(Silences(w, m, src))
  {
    hide Quiet, Begin, ConfigIn, Terminate, AudioIn, PowerMode, UnbegunOf;
    match m
    case MsgBegin(x, byText, p) => UnbegunBegin(w, x, byText, p, src);
    case MsgConfig(_, _, _, _, _, _) => UnbegunConfigIn(w, m, src);
    case MsgTerminate(x, envs) => UnbegunTerminate(w, x, envs, src);
    case MsgAudio(_, _, _) => UnbegunAudioIn(w, m, src);
    case MsgPower(full, cfgs, a) => UnbegunPower(w, full, cfgs, a, src);
    case NoMsg =>
  }

  // ---- the main loop ----

  lemma {:induction false} UnbegunHandleAll(w: World, x: nat, fds: seq<Fds>, src: nat)
    requires WorldInv(w) && x <= SRC_QTY && |fds| == SRC_QTY && AllReportable(w, x, fds) && src < SRC_QTY
    ensures UnbegunOf(HandleAll(w, x, fds), src) == UnbegunOf(w, src)
    decreases SRC_QTY - x
  {
    hide Watch, Quiet, HandleFds, Unbegun;
    if x < SRC_QTY {
      assert SourceTied(w, x);
      var f, m := fds[x], w;
      if !w.conns[x].state.Disconnected? {
        var l := HandleFds(LinkOf(w, x), f.ready, f.io, f.a);
        HandleFdsKeeps(LinkOf(w, x), f.ready, f.io, f.a);
        UnbegunFds(LinkOf(w, x), f.ready, f.io, f.a);
        m := Put(w, x, l);
        EvolvePut(w, x, l);
        UnbegunPut(w, x, l, src);
      }
      UnbegunHandleAll(m, x + 1, fds, src);
    }
  }

  /** What a step adds for a source. */
  predicate SilentStep(w: World, s: RouterSpec.Step, src: nat)
    requires Shaped(w) && src < SRC_QTY
  {
    s.Iterate? && Silences(w, s.m, src)
  }

  lemma UnbegunAdvance(w: World, s: RouterSpec.Step, src: nat)
    requires WorldInv(w) && Contract(w, s) && src < SRC_QTY
    ensures StepFits(s) && Shaped(Advance(w, s))
    ensures UnbegunOf(Advance(w, s), src) == UnbegunOf(w, src) + Bit(SilentStep(w, s, src))
  {
    hide Watch, Quiet, Handle, HandleAll, Deliver, Unbegun, Wanted;
    match s
    case Iterate(m, fds) =>
      HandleKeeps(w, m);
      StillReportable(w, Handle(w, m), fds);
      UnbegunHandle(w, m, src);
      UnbegunHandleAll(Handle(w, m), 0, fds, src);
    case Expire(x, envs) =>
      assert SourceTied(w, x);
      UnbegunDeliver(LinkOf(w, x), TimeoutEv, envs);
      UnbegunPut(w, x, Deliver(LinkOf(w, x), TimeoutEv, envs), src);
    case Send(x, msg) =>
      UnbegunOfLog(LinkOf(w, x), QueueText(LinkOf(w, x), msg));
      UnbegunPut(w, x, QueueText(LinkOf(w, x), msg), src);
  }

  /** The silent steps of a run. */
  function SilentSteps(w: World, steps: seq<RouterSpec.Step>, r: World, src: nat): nat
    requires Shaped(w) && Run(w, steps, r) && src < SRC_QTY
    decreases |steps|
  {
    if steps == [] then 0
    else Bit(SilentStep(w, steps[0], src)) + SilentSteps(Advance(w, steps[0]), steps[1..], r, src)
  }

  lemma {:induction false} UnbegunRun(w: World, steps: seq<RouterSpec.Step>, r: World, src: nat)
    requires WorldInv(w) && Run(w, steps, r) && src < SRC_QTY
    ensures Shaped(r) && UnbegunOf(r, src) == UnbegunOf(w, src) + SilentSteps(w, steps, r, src)
    decreases |steps|
  {
    if steps != [] {
      AdvanceKeeps(w, steps[0]);
      UnbegunAdvance(w, steps[0], src);
      UnbegunRun(Advance(w, steps[0]), steps[1..], r, src);
    }
    hide Advance, Contract, WorldInv, UnbegunOf, SilentStep;
  }

  /** Over every run the application hears of an end without a begin once for each silent step, and never
      otherwise. */
  lemma UnbegunExactly(w: World, steps: seq<RouterSpec.Step>, r: World, src: nat)
    requires Initial(w) && Run(w, steps, r) && src < SRC_QTY
    ensures Shaped(r) && Watch(r.conns[src].log).unbegun == SilentSteps(w, steps, r, src)
  {
    InitialInv(w);
    UnbegunRun(w, steps, r, src);
    assert IsFresh(w.conns[src]);
    hide Advance, Contract, WorldInv, SilentSteps, Run;
  }

  // ---- both kinds of silent step occur ----

  const IDLE := Fds(Ready(false, false, false), Io(Nothing, Flushed, Bytes(0), Eof, Bytes(0)), [])

  const NO_FDS := [IDLE, IDLE, IDLE, IDLE]

  lemma {:induction false} IdlePass(w: World, src: nat)
    requires Shaped(w) && src <= SRC_QTY
    ensures HandleAll(w, src, NO_FDS) == w
    decreases SRC_QTY - src
  {
    if src < SRC_QTY {
      var l := LinkOf(w, src);
      assert NO_FDS[src] == IDLE;
      assert HandleFds(l, IDLE.ready, IDLE.io, IDLE.a) == l;
      assert w.conns[src := l.ws] == w.conns && w.groups[GroupOf(w.tap, src) := l.sess] == w.groups;
      assert Put(w, src, l) == w;
      IdlePass(w, src + 1);
    }
    hide HandleFds;
  }

  lemma NothingReady(w: World, m: Msg)
    requires Shaped(w) && MsgFits(m) && ConfiguredOnce(w, m)
    ensures Contract(w, Iterate(m, NO_FDS))
  {
    hide Wanted, ConfiguredOnce;
    assert forall i :: 0 <= i < SRC_QTY ==> NO_FDS[i] == IDLE;
  }

  /** A round with a message and no ready descriptor, put in front of a run. */
  lemma Before(w: World, m: Msg, steps: seq<RouterSpec.Step>, r: World)
    requires Shaped(w) && MsgFits(m) && ConfiguredOnce(w, m) && Shaped(Handle(w, m)) && Run(Handle(w, m), steps, r)
    ensures Run(w, [Iterate(m, NO_FDS)] + steps, r)
  {
    var s := Iterate(m, NO_FDS);
    IdlePass(Handle(w, m), 0);
    assert Advance(w, s) == Handle(w, m) by { hide Handle, HandleAll, Contract, ConfiguredOnce, Run; }
    assert ([s] + steps)[1..] == steps;
    NothingReady(w, m);
    hide Handle, HandleAll, Advance, ConfiguredOnce, Contract;
  }

  /** A session for source 0 in a fresh router, up to its configuration. */
  lemma Configured(w: World, streamTimeMin: nat) returns (a: World, b: World)
    requires Initial(w) && (streamTimeMin == 0 ==> w.conns[0].cfg.timeoutSession > 0)
    ensures var m := MsgConfig(0, true, PipeReady(5), 0, streamTimeMin, [QUIET]);
            && a == Handle(w, MsgBegin(0, false, PipeFails)) && WorldInv(w) && WorldInv(a) && ConfiguredOnce(a, m)
            && b == Handle(a, m) && WorldInv(b)
            && (if streamTimeMin != 0 then b.conns[0].state.Buffering? else b.conns[0].state.ConnectionRetry?)
  {
    hide Watch, Quiet, Process, Prepare;
    InitialInv(w);
    assert IsFresh(w.conns[0]) && w.groups[0] == Session(true, SRC_INVALID, NONE);
    a := Handle(w, MsgBegin(0, false, PipeFails));
    BeginFindsDisconnected(w, 0);
    BeginKeeps(w, 0, false, PipeFails);
    var l := LinkOf(a, 0);
    assert l.ws == w.conns[0].(byText := false, stm := false) && l.sess == Session(true, 0, NONE);
    var m := MsgConfig(0, true, PipeReady(5), 0, streamTimeMin, [QUIET]);
    b := Handle(a, m);
    ConfigKeeps(a, m);
    FirstSession(l, streamTimeMin);
    hide Configure;
  }

  /** Every fresh router has a run in which audio ends before it is sent, and the application hears only of the
      end; */
  lemma BufferedEndsSilently(w: World)
    requires Initial(w)
    ensures exists steps, r :: Run(w, steps, r) && Shaped(r) && Watch(r.conns[0].log).unbegun == 1
  {
    hide Handle, WorldInv, Initial;
    var a, b := Configured(w, 1);
    OneSilentStep(w, a, b, 1, MsgAudio(0, SpeechSeen(SpeechEos), []));
  }

  /** and one in which the session is terminated while it waits for the next attempt. */
  lemma RetryEndsSilently(w: World)
    requires Initial(w) && w.conns[0].cfg.timeoutSession > 0
    ensures exists steps, r :: Run(w, steps, r) && Shaped(r) && Watch(r.conns[0].log).unbegun == 1
  {
    hide Handle, WorldInv, Initial;
    var a, b := Configured(w, 0);
    OneSilentStep(w, a, b, 0, MsgTerminate(0, []));
  }

  lemma OneSilentStep(w: World, a: World, b: World, streamTimeMin: nat, m: Msg)
    requires Initial(w) && WorldInv(w) && WorldInv(a) && WorldInv(b) && MsgFits(m) && ConfiguredOnce(b, m)
    requires var c := MsgConfig(0, true, PipeReady(5), 0, streamTimeMin, [QUIET]);
             a == Handle(w, MsgBegin(0, false, PipeFails)) && ConfiguredOnce(a, c) && b == Handle(a, c)
    requires Silences(b, m, 0)
    ensures exists steps, r :: Run(w, steps, r) && Shaped(r) && Watch(r.conns[0].log).unbegun == 1
  {
    hide Handle, Watch, Quiet, Silences, Advance, Contract;
    var c := MsgConfig(0, true, PipeReady(5), 0, streamTimeMin, [QUIET]);
    HandleKeeps(b, m);
    var r := Handle(b, m);
    hide WorldInv;
    Before(b, m, [], r);
    Before(a, c, [Iterate(m, NO_FDS)] + [], r);
    Before(w, MsgBegin(0, false, PipeFails), [Iterate(c, NO_FDS)] + ([Iterate(m, NO_FDS)] + []), r);
    UnbegunHandle(w, MsgBegin(0, false, PipeFails), 0);
    UnbegunHandle(a, c, 0);
    UnbegunHandle(b, m, 0);
    assert Watch(w.conns[0].log).unbegun == 0 by { FreshUnbegun(w); }
    NeitherSilences(w, a, streamTimeMin);
  }

  lemma FreshUnbegun(w: World)
    requires Initial(w)
    ensures Watch(w.conns[0].log).unbegun == 0
  {
    assert IsFresh(w.conns[0]);
  }

  lemma NeitherSilences(w: World, a: World, streamTimeMin: nat)
    requires Shaped(w) && Shaped(a)
    ensures !Silences(w, MsgBegin(0, false, PipeFails), 0)
    ensures !Silences(a, MsgConfig(0, true, PipeReady(5), 0, streamTimeMin, [QUIET]), 0)
  {}
}
