/** The session layer over one websocket connection per source: what each message, timer and pass over
    the descriptors does to the whole router. */
module RouterSpec {
  import opened Types
  import opened WsTables
  import opened WsSpec
  import opened WsIo

  /** `tap` says whether the microphone tap has a group of its own. */
  datatype World = World(tap: bool, groups: seq<Session>, conns: seq<Ws>)

  function GroupQty(tap: bool): nat { if tap then 2 else 1 }

  /** xrsr_source_to_group. */
  function GroupOf(tap: bool, src: nat): (g: nat)
    ensures g < GroupQty(tap)
  {
    if tap && src == SRC_MICROPHONE_TAP then 1 else 0
  }

  predicate Shaped(w: World) { |w.groups| == GroupQty(w.tap) && |w.conns| == SRC_QTY }

  function LinkOf(w: World, src: nat): Link
    requires Shaped(w) && src < SRC_QTY
  {
    Link(w.conns[src], w.groups[GroupOf(w.tap, src)])
  }

  function Put(w: World, src: nat, l: Link): World
    requires Shaped(w) && src < SRC_QTY
  {
    w.(conns := w.conns[src := l.ws], groups := w.groups[GroupOf(w.tap, src) := l.sess])
  }

  /** xrsr_is_source_active. */
  predicate SourceActive(groups: seq<Session>, src: nat)
  {
    exists g :: 0 <= g < |groups| && groups[g].src == src
  }

  /** xrsr_is_group_active. */
  predicate GroupActive(groups: seq<Session>, g: nat)
    requires g < |groups|
  {
    groups[g].src < SRC_INVALID
  }

  // ---- messages ----

  datatype BeginOutcome = Ignored | GroupBusy | Accepted | Continued | InvalidState

  /** Which branch of xrsr_msg_session_begin a begin message takes; begin messages never ask for a retry. */
  function OutcomeOfBegin(w: World, src: nat): BeginOutcome
    requires Shaped(w)
  {
    if src >= SRC_INVALID || SourceActive(w.groups, src) then Ignored
    else if GroupActive(w.groups, GroupOf(w.tap, src)) then GroupBusy
    else if w.conns[src].state.Disconnected? then Accepted
    else if IsEstablished(w.conns[src].state) then Continued
    else InvalidState
  }

  /** xrsr_msg_session_begin. */
  function Begin(w: World, src: nat, byText: bool, p: PipeAnswer): World
    requires Shaped(w)
  {
    var o := OutcomeOfBegin(w, src);
    if o.Ignored? || o.GroupBusy? then w else Put(w, src, Begun(LinkOf(w, src), src, byText, p))
  }

  /** xrsr_msg_session_config_in: the session is found through the group of the source, by its uuid. */
  function ConfigIn(w: World, src: nat, uuidMatches: bool, p: PipeAnswer, now: nat, streamTimeMin: nat,
                    envs: seq<Env>): World
    requires Shaped(w)
  {
    if src >= SRC_INVALID then w
    else
      var owner := w.groups[GroupOf(w.tap, src)].src;
      if owner >= SRC_INVALID || !uuidMatches then w
      else Put(w, owner, Configure(LinkOf(w, owner), owner, p, now, streamTimeMin, envs))
  }

  /** xrsr_msg_session_terminate. */
  function Terminate(w: World, src: nat, envs: seq<Env>): (r: World)
    requires Shaped(w)
    ensures Shaped(r) && r.tap == w.tap
  {
    if src >= SRC_INVALID || !SourceActive(w.groups, src) || w.conns[src].state.Disconnected? then w
    else Put(w, src, Deliver(LinkOf(w, src), TerminateEv, envs))
  }

  /** xrsr_msg_xraudio_event: a stream error terminates the session of its source. */
  datatype AudioEvent = StreamError | SpeechSeen(e: SpeechEvent)

  function AudioIn(w: World, src: nat, e: AudioEvent, envs: seq<Env>): World
    requires Shaped(w)
  {
    if src >= SRC_INVALID || !SourceActive(w.groups, src) then w
    else
      match e
      case StreamError => Terminate(w, src, envs)
      case SpeechSeen(s) => Put(w, src, Speech(LinkOf(w, src), s, envs))
  }

  /** The termination loop of a power mode update, from group g on. */
  function TerminateGroups(w: World, g: nat, a: Answers): (r: World)
    requires Shaped(w) && g <= |w.groups|
    ensures Shaped(r) && r.tap == w.tap
    decreases |w.groups| - g
  {
    if g == |w.groups| then w
    else TerminateGroups(Terminate(w, w.groups[g].src, Ans(a, g)), g + 1, a)
  }

  /** New connection parameters for every source. */
  function SetParams(w: World, cfgs: seq<Config>): World
    requires Shaped(w) && |cfgs| == SRC_QTY
  {
    w.(conns := seq(SRC_QTY, i requires 0 <= i < SRC_QTY => w.conns[i].(cfg := cfgs[i])))
  }

  /** xrsr_msg_power_mode_update. */
  function PowerMode(w: World, full: bool, cfgs: seq<Config>, a: Answers): World
    requires Shaped(w) && |cfgs| == SRC_QTY
  {
    SetParams(if full then w else TerminateGroups(w, 0, a), cfgs)
  }

  // ---- the main loop ----

  datatype Msg =
    | MsgBegin(src: nat, byText: bool, p: PipeAnswer)
    | MsgConfig(src: nat, uuidMatches: bool, p: PipeAnswer, now: nat, streamTimeMin: nat, envs: seq<Env>)
    | MsgTerminate(src: nat, envs: seq<Env>)
    | MsgAudio(src: nat, e: AudioEvent, envs: seq<Env>)
    | MsgPower(full: bool, cfgs: seq<Config>, a: Answers)
    | NoMsg

  predicate MsgFits(m: Msg) { m.MsgPower? ==> |m.cfgs| == SRC_QTY }

  function Handle(w: World, m: Msg): World
    requires Shaped(w) && MsgFits(m)
  {
    match m
    case MsgBegin(src, byText, p) => Begin(w, src, byText, p)
    case MsgConfig(src, uuidMatches, p, now, streamTimeMin, envs) =>
      ConfigIn(w, src, uuidMatches, p, now, streamTimeMin, envs)
    case MsgTerminate(src, envs) => Terminate(w, src, envs)
    case MsgAudio(src, e, envs) => AudioIn(w, src, e, envs)
    case MsgPower(full, cfgs, a) => PowerMode(w, full, cfgs, a)
    case NoMsg => w
  }

  /** What select and the libraries answer for one source in one iteration. */
  datatype Fds = Fds(ready: Ready, io: Io, a: Answers)

  /** The descriptor loop of one iteration, from source src on. */
  function HandleAll(w: World, src: nat, fds: seq<Fds>): (r: World)
    requires Shaped(w) && src <= SRC_QTY && |fds| == SRC_QTY
    ensures Shaped(r) && r.tap == w.tap
    decreases SRC_QTY - src
  {
    if src == SRC_QTY then w
    else
      HandleAll(if w.conns[src].state.Disconnected? then w
                else Put(w, src, HandleFds(LinkOf(w, src), fds[src].ready, fds[src].io, fds[src].a)),
                src + 1, fds)
  }

  datatype Step =
    | Iterate(m: Msg, fds: seq<Fds>)         // select returned: one message, then the descriptors
    | Expire(src: nat, envs: seq<Env>)       // the timer of a connection fired
    | Send(src: nat, msg: seq<char>)         // an application thread sends a message

  predicate StepFits(s: Step)
  {
    match s
    case Iterate(m, fds) => MsgFits(m) && |fds| == SRC_QTY
    case Expire(src, _) => src < SRC_QTY
    case Send(src, _) => src < SRC_QTY
  }

  function Advance(w: World, s: Step): World
    requires Shaped(w) && StepFits(s)
  {
    match s
    case Iterate(m, fds) => HandleAll(Handle(w, m), 0, fds)
    case Expire(src, envs) => Put(w, src, Deliver(LinkOf(w, src), TimeoutEv, envs))
    case Send(src, msg) => Put(w, src, QueueText(LinkOf(w, src), msg))
  }

  // ---- the start, and runs ----

  predicate IsFresh(w: Ws)
  {
    && w.state.Disconnected? && w.queue == [] && w.timer == NONE && w.src == SRC_INVALID && w.pipe == NONE
    && w.socket == NONE && !w.tx.pending && w.tx.retries == 0 && w.tx.kwdNotified && w.tx.txd == 0
    && w.msgs == [] && w.log == []
  }

  /** After xrsr_open and route set-up. */
  predicate Initial(w: World)
  {
    && Shaped(w)
    && (forall g :: 0 <= g < |w.groups| ==> w.groups[g] == Session(true, SRC_INVALID, NONE))
    && (forall s :: 0 <= s < SRC_QTY ==> IsFresh(w.conns[s]))
  }
}
