/** The reasons a connection reports, over every run of the router: none is left over from an earlier session,
    and what a remote message records is never reported. */
module RouterReasons {
  import opened Types
  import opened Monitor
  import opened WsTables
  import opened WsSpec
  import opened WsIo
  import opened WsInvariant
  import opened WsRuns
  import opened WsReasons
  import opened RouterSpec
  import opened RouterProofs

  /** Two routers that differ at most in the reasons recorded in their connections. */
  predicate TwinWorlds(a: World, b: World)
  {
    && Shaped(a) && Shaped(b) && a.tap == b.tap && a.groups == b.groups
    && forall i :: 0 <= i < SRC_QTY ==> Alike(LinkOf(a, i), LinkOf(b, i))
  }

  predicate SameLogs(a: World, b: World)
    requires Shaped(a) && Shaped(b)
  {
    forall i :: 0 <= i < SRC_QTY ==> a.conns[i].log == b.conns[i].log
  }

  lemma TwinsShowTheSame(a: World, b: World)
    requires TwinWorlds(a, b)
    ensures SameLogs(a, b)
    ensures forall i :: 0 <= i < SRC_QTY ==>
              && a.conns[i].state == b.conns[i].state && a.conns[i].timer == b.conns[i].timer
              && Wanted(a.conns[i]) == Wanted(b.conns[i])
  {
    forall i | 0 <= i < SRC_QTY
      ensures a.conns[i] == b.conns[i].(streamWhy := a.conns[i].streamWhy, sessionWhy := a.conns[i].sessionWhy)
    {
      assert Alike(LinkOf(a, i), LinkOf(b, i));
    }
  }

  lemma TwinPut(a: World, b: World, src: nat, l: Link, m: Link)
    requires TwinWorlds(a, b) && src < SRC_QTY && Alike(l, m)
    ensures TwinWorlds(Put(a, src, l), Put(b, src, m))
  {
    var x, y := Put(a, src, l), Put(b, src, m);
    forall i | 0 <= i < SRC_QTY ensures Alike(LinkOf(x, i), LinkOf(y, i)) {
      assert Alike(LinkOf(a, i), LinkOf(b, i));
    }
  }

  // ---- messages ----

  lemma AlikeContinue(a: Link, b: Link, src: nat, p: PipeAnswer)
    requires Alike(a, b)
    ensures Alike(ContinueStream(a, src, p), ContinueStream(b, src, p))
  {
    hide StreamBegin, SessionEnd, Emit;
    var x, y := a.(ws := a.ws.(src := src)), b.(ws := b.ws.(src := src));
    AlikeStreamBegin(x, y, p);
    var (c, fd) := StreamBegin(x, p);
    var (d, _) := StreamBegin(y, p);
    AlikeSessionEnd(c, d, AudioBeginError);
    if fd.Some? { AlikeEmit(c.(ws := c.ws.(pipe := fd.value)), d.(ws := d.ws.(pipe := fd.value)), StreamBegan); }
  }

  lemma AlikeBegun(a: Link, b: Link, src: nat, byText: bool, p: PipeAnswer)
    requires Alike(a, b)
    ensures Alike(Begun(a, src, byText, p), Begun(b, src, byText, p))
  {
    hide ContinueStream;
    AlikeContinue(Link(a.ws.(byText := byText), a.sess.(src := src)),
                  Link(b.ws.(byText := byText), b.sess.(src := src)), src, p);
  }

  lemma TwinBegin(a: World, b: World, src: nat, byText: bool, p: PipeAnswer)
    requires TwinWorlds(a, b)
    ensures TwinWorlds(Begin(a, src, byText, p), Begin(b, src, byText, p))
  {
    TwinsShowTheSame(a, b);
    if src < SRC_INVALID {
      AlikeBegun(LinkOf(a, src), LinkOf(b, src), src, byText, p);
      TwinPut(a, b, src, Begun(LinkOf(a, src), src, byText, p), Begun(LinkOf(b, src), src, byText, p));
    }
    hide Begun, Put, Alike;
  }

  lemma TwinConfigIn(a: World, b: World, m: Msg)
    requires TwinWorlds(a, b) && m.MsgConfig?
    ensures TwinWorlds(Handle(a, m), Handle(b, m))
  {
    if m.src < SRC_INVALID && m.uuidMatches && a.groups[GroupOf(a.tap, m.src)].src < SRC_INVALID {
      var o := a.groups[GroupOf(a.tap, m.src)].src;
      AlikeConfigure(LinkOf(a, o), LinkOf(b, o), o, m.p, m.now, m.streamTimeMin, m.envs);
      TwinPut(a, b, o, Configure(LinkOf(a, o), o, m.p, m.now, m.streamTimeMin, m.envs),
              Configure(LinkOf(b, o), o, m.p, m.now, m.streamTimeMin, m.envs));
    }
    hide Configure, Put, Alike;
  }

  lemma TwinDeliver(a: World, b: World, src: nat, e: WsTables.Event, envs: seq<Env>)
    requires TwinWorlds(a, b) && src < SRC_QTY && !e.XrsrError?
    ensures TwinWorlds(Put(a, src, Deliver(LinkOf(a, src), e, envs)), Put(b, src, Deliver(LinkOf(b, src), e, envs)))
  {
    hide Deliver, Put;
    AlikeDeliver(LinkOf(a, src), LinkOf(b, src), e, envs);
    TwinPut(a, b, src, Deliver(LinkOf(a, src), e, envs), Deliver(LinkOf(b, src), e, envs));
  }

  lemma TwinTerminate(a: World, b: World, src: nat, envs: seq<Env>)
    requires TwinWorlds(a, b)
    ensures TwinWorlds(Terminate(a, src, envs), Terminate(b, src, envs))
  {
    TwinsShowTheSame(a, b);
    if src < SRC_INVALID { TwinDeliver(a, b, src, TerminateEv, envs); }
    hide Deliver, Put, Alike;
  }

  lemma TwinAudioIn(a: World, b: World, src: nat, e: AudioEvent, envs: seq<Env>)
    requires TwinWorlds(a, b)
    ensures TwinWorlds(AudioIn(a, src, e, envs), AudioIn(b, src, e, envs))
  {
    hide Terminate;
    if src < SRC_INVALID {
      match e
      case StreamError => TwinTerminate(a, b, src, envs);
      case SpeechSeen(s) =>
        AlikeSpeech(LinkOf(a, src), LinkOf(b, src), s, envs);
        TwinPut(a, b, src, Speech(LinkOf(a, src), s, envs), Speech(LinkOf(b, src), s, envs));
    }
    hide Speech, Put, Alike;
  }

  lemma {:induction false} TwinTerminateGroups(a: World, b: World, g: nat, x: Answers)
    requires TwinWorlds(a, b) && g <= |a.groups|
    ensures TwinWorlds(TerminateGroups(a, g, x), TerminateGroups(b, g, x))
    decreases |a.groups| - g
  {
    hide Terminate, Alike;
    if g < |a.groups| {
      TwinTerminate(a, b, a.groups[g].src, Ans(x, g));
      TwinTerminateGroups(Terminate(a, a.groups[g].src, Ans(x, g)), Terminate(b, a.groups[g].src, Ans(x, g)), g + 1, x);
    }
  }

  lemma TwinSetParams(a: World, b: World, cfgs: seq<Config>)
    requires TwinWorlds(a, b) && |cfgs| == SRC_QTY
    ensures TwinWorlds(SetParams(a, cfgs), SetParams(b, cfgs))
  {
    var x, y := SetParams(a, cfgs), SetParams(b, cfgs);
    forall i | 0 <= i < SRC_QTY ensures Alike(LinkOf(x, i), LinkOf(y, i)) {
      assert Alike(LinkOf(a, i), LinkOf(b, i));
    }
  }

  lemma TwinPower(a: World, b: World, full: bool, cfgs: seq<Config>, x: Answers)
    requires TwinWorlds(a, b) && |cfgs| == SRC_QTY
    ensures TwinWorlds(PowerMode(a, full, cfgs, x), PowerMode(b, full, cfgs, x))
  {
    hide TerminateGroups, SetParams, Alike;
    TwinTerminateGroups(a, b, 0, x);
    TwinSetParams(if full then a else TerminateGroups(a, 0, x), if full then b else TerminateGroups(b, 0, x), cfgs);
  }

  lemma TwinHandle(a: World, b: World, m: Msg)
    requires TwinWorlds(a, b) && MsgFits(m)
    ensures TwinWorlds(Handle(a, m), Handle(b, m))
  {
    hide Begin, ConfigIn, Terminate, AudioIn, PowerMode, TwinWorlds;
    match m
    case MsgBegin(src, byText, p) => TwinBegin(a, b, src, byText, p);
    case MsgConfig(_, _, _, _, _, _) => TwinConfigIn(a, b, m);
    case MsgTerminate(src, envs) => TwinTerminate(a, b, src, envs);
    case MsgAudio(src, e, envs) => TwinAudioIn(a, b, src, e, envs);
    case MsgPower(full, cfgs, x) => TwinPower(a, b, full, cfgs, x);
    case NoMsg =>
  }

  // ---- the main loop ----

  lemma {:induction false} TwinHandleAll(a: World, b: World, src: nat, fds: seq<Fds>)
    requires TwinWorlds(a, b) && src <= SRC_QTY && |fds| == SRC_QTY
    ensures TwinWorlds(HandleAll(a, src, fds), HandleAll(b, src, fds))
    decreases SRC_QTY - src
  {
    hide HandleFds, Put, Alike;
    if src < SRC_QTY {
      TwinsShowTheSame(a, b);
      var f, x, y := fds[src], a, b;
      if !a.conns[src].state.Disconnected? {
        AlikeFds(LinkOf(a, src), LinkOf(b, src), f.ready, f.io, f.a);
        x := Put(a, src, HandleFds(LinkOf(a, src), f.ready, f.io, f.a));
        y := Put(b, src, HandleFds(LinkOf(b, src), f.ready, f.io, f.a));
        TwinPut(a, b, src, HandleFds(LinkOf(a, src), f.ready, f.io, f.a),
                HandleFds(LinkOf(b, src), f.ready, f.io, f.a));
      }
      TwinHandleAll(x, y, src + 1, fds);
    }
  }

  lemma TwinSend(a: World, b: World, src: nat, msg: seq<char>)
    requires TwinWorlds(a, b) && src < SRC_QTY
    ensures TwinWorlds(Put(a, src, QueueText(LinkOf(a, src), msg)), Put(b, src, QueueText(LinkOf(b, src), msg)))
  {
    hide Put;
    assert Alike(LinkOf(a, src), LinkOf(b, src));
    TwinPut(a, b, src, QueueText(LinkOf(a, src), msg), QueueText(LinkOf(b, src), msg));
  }

  lemma TwinAdvance(a: World, b: World, s: RouterSpec.Step)
    requires TwinWorlds(a, b) && StepFits(s)
    ensures TwinWorlds(Advance(a, s), Advance(b, s))
  {
    hide Handle, HandleAll, Deliver, Put, QueueText, LinkOf, Alike;
    match s
    case Iterate(m, fds) =>
      TwinHandle(a, b, m);
      TwinHandleAll(Handle(a, m), Handle(b, m), 0, fds);
    case Expire(src, envs) => TwinDeliver(a, b, src, TimeoutEv, envs);
    case Send(src, msg) => TwinSend(a, b, src, msg);
  }

  lemma TwinContract(a: World, b: World, s: RouterSpec.Step)
    requires TwinWorlds(a, b) && Contract(a, s)
    ensures Contract(b, s)
  {
    TwinsShowTheSame(a, b);
    hide Wanted, Alike;
  }

  /** Whatever reasons are recorded when a run begins - by earlier sessions, or by remote messages - every
      connection shows the same from then on, every reported reason included, over any number of sessions. */
  lemma {:induction false} NoStaleReasons(a: World, b: World, steps: seq<RouterSpec.Step>, r: World) returns (x: World)
    requires TwinWorlds(a, b) && Run(a, steps, r)
    ensures Run(b, steps, x) && TwinWorlds(r, x) && SameLogs(r, x)
    decreases |steps|
  {
    if steps == [] {
      x := b;
    } else {
      TwinContract(a, b, steps[0]);
      TwinAdvance(a, b, steps[0]);
      x := NoStaleReasons(Advance(a, steps[0]), Advance(b, steps[0]), steps[1..], r);
    }
    TwinsShowTheSame(r, x);
    hide Advance, Contract, TwinWorlds;
  }

  // ---- a router that records nothing for remote messages ----

  /** ReadPending without the two reasons that a remote event records. */
  function ReadPendingBare(l: Link, r: Incoming, a: Answers): Link
  {
    match r
    case Nothing => l
    case PeerClosed(status) => OnClose(l, status, Ans(a, 0))
    case Message(closeAsked, recv) =>
      var m := Deliver(l, MsgRecv, Ans(a, 0));
      var c := if closeAsked then Deliver(m, AppClose, Ans(a, 1)) else m;
      if recv.NoRecvEvent? then c else Post(c, EosPipe)
  }

  function HandleFdsBare(l: Link, r: Ready, io: Io, a: Answers): Link
  {
    var l1 := if l.ws.socket >= 0 && r.read then ReadPendingBare(l, io.incoming, a) else l;
    var (l2, on) := if l1.ws.socket >= 0 && r.write then WritePass(l1, io, a) else (l1, true);
    if on && l2.ws.pipe >= 0 && r.audio then AudioPass(l2, io, a) else l2
  }

  function HandleAllBare(w: World, src: nat, fds: seq<Fds>): (r: World)
    requires Shaped(w) && src <= SRC_QTY && |fds| == SRC_QTY
    ensures Shaped(r) && r.tap == w.tap
    decreases SRC_QTY - src
  {
    if src == SRC_QTY then w
    else
      HandleAllBare(if w.conns[src].state.Disconnected? then w
                    else Put(w, src, HandleFdsBare(LinkOf(w, src), fds[src].ready, fds[src].io, fds[src].a)),
                    src + 1, fds)
  }

  function AdvanceBare(w: World, s: RouterSpec.Step): World
    requires Shaped(w) && StepFits(s)
  {
    if s.Iterate? then HandleAllBare(Handle(w, s.m), 0, s.fds) else Advance(w, s)
  }

  predicate RunBare(w: World, steps: seq<RouterSpec.Step>, r: World)
    requires Shaped(w)
    decreases |steps|
  {
    if steps == [] then r == w
    else
      && StepFits(steps[0]) && Contract(w, steps[0])
      && Shaped(AdvanceBare(w, steps[0]))
      && RunBare(AdvanceBare(w, steps[0]), steps[1..], r)
  }

  lemma AlikeLate(c: Link, d: Link, x: StreamWhy, y: SessionWhy)
    requires Alike(c, d) && !c.ws.state.Disconnecting?
    ensures Alike(Post(Reasons(c, x, y), EosPipe), Post(d, EosPipe))
  {}

  lemma NotDisconnecting(l: Link)
    requires Quiet(l)
    ensures !l.ws.state.Disconnecting?
  {
    hide Watch, Body;
  }

  lemma AlikeReadBare(a: Link, b: Link, r: Incoming, ans: Answers)
    requires Alike(a, b) && Quiet(a)
    ensures Alike(ReadPending(a, r, ans), ReadPendingBare(b, r, ans))
  {
    hide Deliver, OnClose, Reasons, Post, Quiet, Alike;
    match r
    case Nothing =>
    case PeerClosed(status) => AlikeClose(a, b, status, Ans(ans, 0));
    case Message(closeAsked, recv) =>
      AlikeDeliver(a, b, MsgRecv, Ans(ans, 0));
      DeliverKeeps(a, MsgRecv, Ans(ans, 0));
      var c, d := Deliver(a, MsgRecv, Ans(ans, 0)), Deliver(b, MsgRecv, Ans(ans, 0));
      if closeAsked {
        AlikeDeliver(c, d, AppClose, Ans(ans, 1));
        DeliverKeeps(c, AppClose, Ans(ans, 1));
        c, d := Deliver(c, AppClose, Ans(ans, 1)), Deliver(d, AppClose, Ans(ans, 1));
      }
      NotDisconnecting(c);
      if recv.EosServer? { AlikeLate(c, d, AudioEof, EndOfSpeech); }
      if recv.PeerLeft? { AlikeLate(c, d, RemoteDisconnect, WsSendError); }
  }

  lemma AlikeFdsBare(a: Link, b: Link, r: Ready, io: Io, ans: Answers)
    requires Alike(a, b) && Quiet(a)
    ensures Alike(HandleFds(a, r, io, ans), HandleFdsBare(b, r, io, ans))
  {
    hide ReadPending, ReadPendingBare, WritePass, AudioPass, Quiet;
    var read := a.ws.socket >= 0 && r.read;
    if read { AlikeReadBare(a, b, io.incoming, ans); }
    var a1 := if read then ReadPending(a, io.incoming, ans) else a;
    var b1 := if read then ReadPendingBare(b, io.incoming, ans) else b;
    AlikeWritePass(a1, b1, io, ans);
    var write := a1.ws.socket >= 0 && r.write;
    var a2 := if write then WritePass(a1, io, ans).0 else a1;
    var b2 := if write then WritePass(b1, io, ans).0 else b1;
    AlikeAudio(a2, b2, io, ans);
  }

  lemma {:induction false} BareHandleAll(a: World, b: World, src: nat, fds: seq<Fds>)
    requires TwinWorlds(a, b) && src <= SRC_QTY && |fds| == SRC_QTY
    requires WorldInv(a) && AllReportable(a, src, fds)
    ensures TwinWorlds(HandleAll(a, src, fds), HandleAllBare(b, src, fds))
    decreases SRC_QTY - src
  {
    hide HandleFds, HandleFdsBare, Alike, Watch, Quiet;
    if src < SRC_QTY {
      TwinsShowTheSame(a, b);
      assert SourceTied(a, src);
      var f, x, y := fds[src], a, b;
      if !a.conns[src].state.Disconnected? {
        AlikeFdsBare(LinkOf(a, src), LinkOf(b, src), f.ready, f.io, f.a);
        HandleFdsKeeps(LinkOf(a, src), f.ready, f.io, f.a);
        x := Put(a, src, HandleFds(LinkOf(a, src), f.ready, f.io, f.a));
        y := Put(b, src, HandleFdsBare(LinkOf(b, src), f.ready, f.io, f.a));
        EvolvePut(a, src, HandleFds(LinkOf(a, src), f.ready, f.io, f.a));
        TwinPut(a, b, src, HandleFds(LinkOf(a, src), f.ready, f.io, f.a),
                HandleFdsBare(LinkOf(b, src), f.ready, f.io, f.a));
      }
      BareHandleAll(x, y, src + 1, fds);
    }
  }

  lemma BareAdvance(a: World, b: World, s: RouterSpec.Step)
    requires TwinWorlds(a, b) && WorldInv(a) && Contract(a, s)
    ensures TwinWorlds(Advance(a, s), AdvanceBare(b, s))
  {
    hide Handle, HandleAll, HandleAllBare, Deliver, Put, QueueText, LinkOf, Alike, Quiet, Wanted;
    match s
    case Iterate(m, fds) =>
      HandleKeeps(a, m);
      StillReportable(a, Handle(a, m), fds);
      TwinHandle(a, b, m);
      BareHandleAll(Handle(a, m), Handle(b, m), 0, fds);
    case _ => TwinAdvance(a, b, s);
  }

  /** A router that records no reasons for remote messages shows the same over every run: the assignments are
      dead stores. */
  lemma {:induction false} RemoteReasonsAreDead(a: World, b: World, steps: seq<RouterSpec.Step>, r: World)
    returns (x: World)
    requires TwinWorlds(a, b) && WorldInv(a) && Run(a, steps, r)
    ensures RunBare(b, steps, x) && TwinWorlds(r, x) && SameLogs(r, x)
    decreases |steps|
  {
    if steps == [] {
      x := b;
    } else {
      TwinContract(a, b, steps[0]);
      AdvanceKeeps(a, steps[0]);
      BareAdvance(a, b, steps[0]);
      x := RemoteReasonsAreDead(Advance(a, steps[0]), AdvanceBare(b, steps[0]), steps[1..], r);
    }
    TwinsShowTheSame(r, x);
    hide Advance, AdvanceBare, Contract, TwinWorlds, WorldInv;
  }

  /** ... from the start: nothing recorded for a remote message is ever reported. */
  lemma RecordingChangesNothing(w: World, steps: seq<RouterSpec.Step>, r: World)
    requires Initial(w) && Run(w, steps, r)
    ensures exists x :: RunBare(w, steps, x) && Shaped(x) && Shaped(r) && SameLogs(r, x)
  {
    InitialInv(w);
    SelfTwin(w);
    var x := RemoteReasonsAreDead(w, w, steps, r);
    hide WorldInv, Run, RunBare, SameLogs;
  }

  lemma SelfTwin(w: World)
    requires Initial(w)
    ensures TwinWorlds(w, w)
  {
    forall i | 0 <= i < SRC_QTY ensures Alike(LinkOf(w, i), LinkOf(w, i)) { assert IsFresh(w.conns[i]); }
  }
}
