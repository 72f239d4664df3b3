/** An independent reader of call logs.  It knows nothing of any state machine: it only says which
    orders of calls are acceptable and what is outstanding after them. */
module Monitor {
  import opened Types

  // Idle: no session.  Live: the session has a stream.  Ended: the stream is over, the session is not.
  datatype Phase = Idle | Live | Ended

  datatype Watcher = Watcher(
    ok: bool,               // no call was out of order so far
    phase: Phase,
    begun: bool,            // the application was told that the stream began
    fds: set<int>,          // read ends handed over and not yet closed
    timers: set<int>,       // timers inserted and not yet removed
    armed: Option<nat>,     // a keyword-info event that was not answered yet
    bytesRead: nat,         // audio bytes read from the pipe in this session
    unsent: nat,            // of these, the ones not handed to the library yet
    counted: nat,           // of these, the ones the library took at once
    blocked: bool,          // a frame is still partly unsent
    streak: nat,            // incomplete flushes in a row in this session
    carried: bool,          // a flush was incomplete after the last session had ended, and none was completed since
    unbegun: nat)           // stream ends the application heard of without having heard of a begin

  const START := Watcher(true, Idle, false, {}, {}, None, 0, 0, 0, false, 0, false, 0)

  /** Incomplete flushes as they add up for a session: its own, and the one it may have inherited. */
  function Tally(w: Watcher): nat { w.streak + (if w.carried then 1 else 0) }

  /** A frame of which the library took only a part, or nothing yet. */
  predicate Unfinished(offered: nat, r: Reply) { r.TryLater? || (r.Took? && 0 < r.n && r.n != offered) }

  function Taken(r: Reply): nat { if r.Took? then r.n else 0 }

  /** A number as a 32-bit counter shows it. */
  function In32(n: nat): (r: nat)
    ensures r <= n
  {
    n % 0x1_0000_0000
  }

  lemma In32Adds(n: nat, k: nat)
    ensures (In32(n) + k) % 0x1_0000_0000 == In32(n + k)
  {}

  /** The set of handles a field stands for. */
  function Held(x: int): set<int> { if x >= 0 then {x} else {} }

  function Observe(w: Watcher, c: Call): Watcher
  {
    match c
    case PipeOpened(fd)     => w.(ok := w.ok && fd !in w.fds, fds := w.fds + {fd})
    case PipeClosed(fd)     => w.(ok := w.ok && fd in w.fds, fds := w.fds - {fd})
    case SessionStarted     => w.(ok := w.ok && w.phase == Idle && !w.blocked,
                                  phase := Live, begun := false, armed := None,
                                  bytesRead := 0, unsent := 0, counted := 0, streak := 0)
    case StreamBegan        => w.(ok := w.ok && w.phase == Live && !w.begun, begun := true)
    case StreamEnded(why)   => w.(ok := w.ok && w.phase == Live && (w.begun ==> why != DidNotBegin),
                                  phase := Ended, begun := false,
                                  unbegun := w.unbegun + (if !w.begun && why != DidNotBegin then 1 else 0))
    case SessionEnded(_)    => w.(ok := w.ok && w.phase == Ended, phase := Idle, blocked := false,
                                  streak := 0, carried := false)
    case ConnectNotified    => w.(ok := w.ok && w.phase == Live)
    case DisconnectNotified(_) => w.(ok := w.ok && w.phase == Ended)
    case ConnectionClosed   => w.(ok := w.ok && w.phase == Ended)
    case TimerInserted(id, _) => w.(ok := w.ok && w.timers == {}, timers := w.timers + {id})
    case TimerUpdated(id, _)  => w.(ok := w.ok && id in w.timers)
    case TimerRemoved(id)     => w.(ok := w.ok && id in w.timers, timers := w.timers - {id})
    case KeywordInfo(n)     => w.(armed := Some(n))
    case KeywordRaised(n)   => w.(ok := w.ok && w.armed.Some? && w.armed.value <= n == In32(w.counted) <= w.bytesRead,
                                  armed := None)
    case AudioRead(n)       => w.(ok := w.ok && w.phase == Live && !w.blocked && w.unsent == 0,
                                  bytesRead := w.bytesRead + n, unsent := n)
    case AudioSent(n, r)    => w.(ok := w.ok && w.phase == Live && !w.blocked && n == w.unsent,
                                  unsent := 0, counted := w.counted + Taken(r), blocked := Unfinished(n, r))
    case TextSent(t, r)     => w.(ok := w.ok && w.phase != Idle && !w.blocked, blocked := Unfinished(|t|, r))
    case WriteFlushed       => w.(ok := w.ok && w.blocked, blocked := false, streak := 0, carried := false)
    case FlushIncomplete    => if w.phase == Idle then w.(carried := true) else w.(streak := w.streak + 1)
  }

  function Watch(log: seq<Call>): Watcher
  {
    if log == [] then START else Observe(Watch(log[..|log| - 1]), log[|log| - 1])
  }

  lemma WatchAppend(log: seq<Call>, c: Call)
    ensures Watch(log + [c]) == Observe(Watch(log), c)
  {
    assert (log + [c])[..|log|] == log;
  }

  lemma WatchLast(log: seq<Call>)
    requires log != []
    ensures Watch(log) == Observe(Watch(log[..|log| - 1]), log[|log| - 1])
  {
    hide Observe;
  }

  /** The reason reported by the latest session end. */
  function LastReported(log: seq<Call>): Option<SessionWhy>
  {
    if log == [] then None
    else if log[|log| - 1].SessionEnded? then Some(log[|log| - 1].sessionWhy)
    else LastReported(log[..|log| - 1])
  }

  /** Between two sessions no flush counts as one in a row. */
  lemma {:induction false} IdleStreak(log: seq<Call>)
    ensures Watch(log).phase == Idle ==> Watch(log).streak == 0
  {
    if log != [] {
      var before, c := log[..|log| - 1], log[|log| - 1];
      IdleStreak(before);
      IdleStreakNext(Watch(before), c);
      assert Watch(log) == Observe(Watch(before), c);
    }
    hide Observe, Watch;
  }

  lemma IdleStreakNext(w: Watcher, c: Call)
    requires w.phase == Idle ==> w.streak == 0
    ensures Observe(w, c).phase == Idle ==> Observe(w, c).streak == 0
  {}

  // ---- what a log with every call in order looks like, counted ----

  function Count(log: seq<Call>, p: Call -> bool): nat
  {
    if log == [] then 0 else Count(log[..|log| - 1], p) + (if p(log[|log| - 1]) then 1 else 0)
  }

  function Starts(log: seq<Call>): nat { Count(log, (c: Call) => c.SessionStarted?) }

  function StreamEnds(log: seq<Call>): nat { Count(log, (c: Call) => c.StreamEnded?) }

  function SessionEnds(log: seq<Call>): nat { Count(log, (c: Call) => c.SessionEnded?) }

  function Opens(log: seq<Call>, fd: int): nat { Count(log, (c: Call) => c == PipeOpened(fd)) }

  function Closes(log: seq<Call>, fd: int): nat { Count(log, (c: Call) => c == PipeClosed(fd)) }

  function Inserts(log: seq<Call>): nat { Count(log, (c: Call) => c.TimerInserted?) }

  function Removes(log: seq<Call>): nat { Count(log, (c: Call) => c.TimerRemoved?) }

  function Updates(log: seq<Call>): nat { Count(log, (c: Call) => c.TimerUpdated?) }

  function Infos(log: seq<Call>): nat { Count(log, (c: Call) => c.KeywordInfo?) }

  function Raises(log: seq<Call>): nat { Count(log, (c: Call) => c.KeywordRaised?) }

  lemma UpdatesAppend(log: seq<Call>, c: Call)
    ensures Updates(log + [c]) == Updates(log) + (if c.TimerUpdated? then 1 else 0)
  {
    assert (log + [c])[..|log|] == log;
  }

  /** A log and a later one of the same session: nothing was taken back, and no session began. */
  predicate Continues(a: seq<Call>, b: seq<Call>)
  {
    a <= b && forall i :: |a| <= i < |b| ==> !b[i].SessionStarted?
  }

  lemma ContinuesChain(a: seq<Call>, b: seq<Call>, c: seq<Call>)
    requires Continues(a, b) && Continues(b, c)
    ensures Continues(a, c) && |a| <= |b| <= |c|
  {}

  lemma ContinuesSelf(a: seq<Call>)
    ensures Continues(a, a)
  {}

  lemma {:induction false} ContinuesStarts(a: seq<Call>, b: seq<Call>)
    requires Continues(a, b)
    ensures Starts(b) == Starts(a)
    decreases |b|
  {
    if |b| > |a| {
      assert a <= b[..|b| - 1];
      ContinuesStarts(a, b[..|b| - 1]);
    } else {
      assert a == b;
    }
  }

  /** Order is never repaired: a log in order was in order all along. */
  lemma {:induction false} OkAllAlong(log: seq<Call>, k: nat)
    requires k <= |log| && Watch(log).ok
    ensures Watch(log[..k]).ok
  {
    if k == |log| {
      assert log[..k] == log;
    } else {
      OkAllAlong(log[..|log| - 1], k);
      assert log[..|log| - 1][..k] == log[..k];
    }
  }

  /** In a log in order, every session has one stream end and then one session end; */
  lemma {:induction false} SessionCounts(log: seq<Call>)
    requires Watch(log).ok
    ensures Starts(log) == SessionEnds(log) + (if Watch(log).phase == Idle then 0 else 1)
    ensures Starts(log) == StreamEnds(log) + (if Watch(log).phase == Live then 1 else 0)
  {
    if log != [] {
      var before, c := log[..|log| - 1], log[|log| - 1];
      OkAllAlong(log, |log| - 1);
      SessionCounts(before);
      PhaseMoves(Watch(before), c);
      assert Watch(log) == Observe(Watch(before), c);
      hide Observe;
    }
  }

  lemma PhaseMoves(w: Watcher, c: Call)
    requires Observe(w, c).ok
    ensures var v := Observe(w, c);
            if c.SessionStarted? then w.phase == Idle && v.phase == Live
            else if c.StreamEnded? then w.phase == Live && v.phase == Ended
            else if c.SessionEnded? then w.phase == Ended && v.phase == Idle
            else v.phase == w.phase
  {}

  /** every read end is closed as often as it was opened, or is the one still held; */
  lemma {:induction false} PipeCounts(log: seq<Call>, fd: int)
    requires Watch(log).ok
    ensures Opens(log, fd) == Closes(log, fd) + (if fd in Watch(log).fds then 1 else 0)
  {
    if log != [] {
      var before, c := log[..|log| - 1], log[|log| - 1];
      OkAllAlong(log, |log| - 1);
      PipeCounts(before, fd);
      PipesMove(Watch(before), c, fd);
      WatchLast(log);
      hide Observe, Watch;
    }
  }

  lemma PipesMove(w: Watcher, c: Call, fd: int)
    requires Observe(w, c).ok
    ensures fd in Observe(w, c).fds <==> c == PipeOpened(fd) || (fd in w.fds && c != PipeClosed(fd))
    ensures (c == PipeOpened(fd) ==> fd !in w.fds) && (c == PipeClosed(fd) ==> fd in w.fds)
  {}

  predicate AtMostOne(ids: set<int>) { forall x, y :: x in ids && y in ids ==> x == y }

  lemma TimersMove(w: Watcher, c: Call)
    requires Observe(w, c).ok && AtMostOne(w.timers)
    ensures w.ok && AtMostOne(Observe(w, c).timers)
    ensures c.TimerInserted? ==> w.timers == {} && Observe(w, c).timers != {}
    ensures c.TimerRemoved? ==> w.timers != {} && Observe(w, c).timers == {}
    ensures !c.TimerInserted? && !c.TimerRemoved? ==> Observe(w, c).timers == w.timers
  {
    if c.TimerInserted? { assert c.id in Observe(w, c).timers; }
    if c.TimerRemoved? {
      assert c.id in w.timers;
      assert forall x :: x in w.timers - {c.id} ==> false;
    }
  }

  /** at most one timer is outstanding; */
  lemma {:induction false} TimerCounts(log: seq<Call>)
    requires Watch(log).ok
    ensures AtMostOne(Watch(log).timers)
    ensures Inserts(log) == Removes(log) + (if Watch(log).timers == {} then 0 else 1)
  {
    if log != [] {
      var before, c := log[..|log| - 1], log[|log| - 1];
      OkAllAlong(log, |log| - 1);
      TimerCounts(before);
      TimersMove(Watch(before), c);
      assert Watch(log) == Observe(Watch(before), c);
      hide Observe;
    }
  }

  /** the keyword is announced at most once for each keyword-info event. */
  lemma {:induction false} KeywordCounts(log: seq<Call>)
    requires Watch(log).ok
    ensures Raises(log) + (if Watch(log).armed.Some? then 1 else 0) <= Infos(log)
  {
    if log != [] {
      var before, c := log[..|log| - 1], log[|log| - 1];
      OkAllAlong(log, |log| - 1);
      KeywordCounts(before);
      KeywordMoves(Watch(before), c);
      WatchLast(log);
      hide Observe, Watch;
    }
  }

  lemma KeywordMoves(w: Watcher, c: Call)
    requires Observe(w, c).ok
    ensures c.KeywordRaised? ==> w.armed.Some? && Observe(w, c).armed.None?
    ensures !c.KeywordRaised? && !c.KeywordInfo? && Observe(w, c).armed.Some? ==> w.armed.Some?
  {
    hide In32;
  }

  /** ... and so it was at every moment of the run. */
  lemma InOrderPrefixes(log: seq<Call>, k: nat, fd: int)
    requires Watch(log).ok && k <= |log|
    ensures var p := log[..k];
            && SessionEnds(p) <= StreamEnds(p) <= Starts(p) <= SessionEnds(p) + 1
            && Closes(p, fd) <= Opens(p, fd) <= Closes(p, fd) + 1
            && Removes(p) <= Inserts(p) <= Removes(p) + 1
            && Raises(p) <= Infos(p)
  {
    OkAllAlong(log, k);
    SessionCounts(log[..k]);
    PipeCounts(log[..k], fd);
    TimerCounts(log[..k]);
    KeywordCounts(log[..k]);
    hide Watch;
  }

  // ---- ... and read ----

  /** A frame that was handed to the library and not taken whole. */
  predicate LeftUnfinished(c: Call)
  {
    (c.TextSent? && Unfinished(|c.text|, c.textReply)) || (c.AudioSent? && Unfinished(c.offered, c.audioReply))
  }

  /** An unfinished frame stays so until it is flushed or the session ends. */
  lemma {:induction false} StaysBlocked(log: seq<Call>, i: nat, j: nat)
    requires Watch(log).ok && i < j <= |log| && LeftUnfinished(log[i])
    requires forall k :: i < k < j ==> !log[k].WriteFlushed? && !log[k].SessionEnded?
    ensures Watch(log[..j]).blocked
    decreases j
  {
    hide Observe, Watch, LeftUnfinished;
    OkAllAlong(log, j);
    WatchLast(log[..j]);
    assert log[..j][..j - 1] == log[..j - 1];
    if j > i + 1 { StaysBlocked(log, i, j - 1); }
    BlockedOn(Watch(log[..j - 1]), log[j - 1]);
  }

  lemma BlockedOn(w: Watcher, c: Call)
    requires Observe(w, c).ok && (LeftUnfinished(c) || (w.blocked && !c.WriteFlushed? && !c.SessionEnded?))
    ensures Observe(w, c).blocked
  {}

  /** In a log in order nothing is sent and no audio is read while part of an earlier frame is unsent. */
  lemma NothingSentWhileBlocked(log: seq<Call>, i: nat, j: nat)
    requires Watch(log).ok && i < j < |log| && LeftUnfinished(log[i])
    requires log[j].TextSent? || log[j].AudioSent? || log[j].AudioRead?
    ensures exists k :: i < k < j && (log[k].WriteFlushed? || log[k].SessionEnded?)
  {
    hide Watch, Observe, LeftUnfinished;
    if forall k :: i < k < j ==> !log[k].WriteFlushed? && !log[k].SessionEnded? {
      StaysBlocked(log, i, j);
      OkAllAlong(log, j + 1);
      assert log[..j + 1][..j] == log[..j];
      WatchLast(log[..j + 1]);
      NothingSent(Watch(log[..j]), log[j]);
    }
  }

  lemma NothingSent(w: Watcher, c: Call)
    requires w.blocked && Observe(w, c).ok
    ensures !c.TextSent? && !c.AudioSent? && !c.AudioRead?
  {}

  /** Nothing was announced and no session began after the first i + 1 calls. */
  predicate Unanswered(log: seq<Call>, i: nat)
  {
    forall k :: i < k < |log| ==> !log[k].KeywordRaised? && !log[k].SessionStarted?
  }

  /** An event that is still to be answered is the latest one, and came in this session. */
  lemma {:induction false} ArmedBy(log: seq<Call>) returns (i: nat)
    requires Watch(log).armed.Some?
    ensures i < |log| && log[i] == KeywordInfo(Watch(log).armed.value) && Unanswered(log, i)
  {
    var c, before := log[|log| - 1], log[..|log| - 1];
    StillArmed(Watch(before), c);
    assert Watch(log) == Observe(Watch(before), c);
    if c.KeywordInfo? {
      i := |log| - 1;
    } else {
      i := ArmedBy(before);
      assert before[i] == log[i];
      forall k | i < k < |log| ensures !log[k].KeywordRaised? && !log[k].SessionStarted? {
        if k < |before| { assert log[k] == before[k]; }
      }
    }
    hide Observe, Watch;
  }

  lemma StillArmed(w: Watcher, c: Call)
    requires Observe(w, c).armed.Some?
    ensures !c.KeywordRaised? && !c.SessionStarted?
    ensures if c.KeywordInfo? then Observe(w, c).armed == Some(c.wanted) else w.armed == Observe(w, c).armed
  {}

  /** In a log in order every announced keyword answers an event of the same session that asked for no more
      bytes than are then counted as sent, and nothing was announced in between. */
  lemma KeywordAnswers(log: seq<Call>, j: nat)
    requires Watch(log).ok && j < |log| && log[j].KeywordRaised?
    ensures exists i :: 0 <= i < j && log[i].KeywordInfo? && log[i].wanted <= log[j].sent && Unanswered(log[..j], i)
    ensures log[j].sent == In32(Watch(log[..j]).counted) <= Watch(log[..j]).bytesRead
  {
    OkAllAlong(log, j + 1);
    assert log[..j + 1][..j] == log[..j];
    var w := Watch(log[..j]);
    assert Watch(log[..j + 1]) == Observe(w, log[j]);
    hide Watch;
    assert w.armed.Some? && w.armed.value <= log[j].sent <= w.bytesRead;
    var i := ArmedBy(log[..j]);
    assert log[i] == log[..j][i];
  }

  /** In a log in order, once a stream has begun or has ended, no stream of the same session ends unbegun. */
  lemma {:induction false} NoneUnbegunAfter(a: seq<Call>, b: seq<Call>)
    requires Continues(a, b) && Watch(b).ok && (Watch(a).phase != Live || Watch(a).begun)
    ensures Watch(b).unbegun == Watch(a).unbegun && (Watch(b).phase != Live || Watch(b).begun)
    decreases |b|
  {
    hide Observe, Watch;
    if |b| > |a| {
      var before := b[..|b| - 1];
      assert a <= before;
      OkAllAlong(b, |before|);
      NoneUnbegunAfter(a, before);
      WatchLast(b);
      NoneUnbegunNext(Watch(before), b[|b| - 1]);
    } else {
      assert a == b;
    }
  }

  lemma NoneUnbegunNext(w: Watcher, c: Call)
    requires Observe(w, c).ok && !c.SessionStarted? && (w.phase != Live || w.begun)
    ensures Observe(w, c).unbegun == w.unbegun && (Observe(w, c).phase != Live || Observe(w, c).begun)
  {}

  /** A session has an inherited flush against it exactly when it started with one and no flush was completed
      since. */
  lemma {:induction false} InheritedUntilFlushed(log: seq<Call>, i: nat)
    requires i < |log| && log[i].SessionStarted?
    requires forall k :: i < k < |log| ==> !log[k].SessionStarted? && !log[k].SessionEnded?
    ensures Watch(log).phase != Idle
    ensures Watch(log).carried <==>
              Watch(log[..i]).carried && forall k :: i < k < |log| ==> !log[k].WriteFlushed?
    decreases |log|
  {
    var before, c := log[..|log| - 1], log[|log| - 1];
    CarriedOn(Watch(before), c);
    assert Watch(log) == Observe(Watch(before), c);
    hide Observe, Watch;
    if i < |log| - 1 {
      assert before[..i] == log[..i];
      assert forall k :: 0 <= k < |before| ==> before[k] == log[k];
      InheritedUntilFlushed(before, i);
    }
  }

  lemma CarriedOn(w: Watcher, c: Call)
    ensures c.SessionStarted? ==> Observe(w, c).phase != Idle && Observe(w, c).carried == w.carried
    ensures w.phase != Idle && !c.SessionStarted? && !c.SessionEnded? ==>
              Observe(w, c).phase != Idle && (Observe(w, c).carried <==> w.carried && !c.WriteFlushed?)
  {}
}
