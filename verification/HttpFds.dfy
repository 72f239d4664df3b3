/** The two five-slot arrays that remember which sockets curl wants watched. */
module HttpFds {
  import opened FdSets

  const CURL_FD_MAX: nat := 5

  datatype What = PollIn | PollOut | PollInOut | PollRemove | PollNone

  datatype Interest = In | Out | InOut

  // ---- the map the arrays stand for ----

  /** What curl asked for: a later callback for a socket replaces the earlier one. */
  function Update(m: map<int, Interest>, s: int, what: What): map<int, Interest>
  {
    match what
    case PollIn => m[s := In]
    case PollOut => m[s := Out]
    case PollInOut => m[s := InOut]
    case PollRemove => m - {s}
    case PollNone => m
  }

  function Readers(m: map<int, Interest>): set<int> { set s | s in m && m[s] != Out }

  function Writers(m: map<int, Interest>): set<int> { set s | s in m && m[s] != In }

  /** What a callback asks for: its socket is watched in just the directions it names, and no other socket is
      touched. */
  lemma WishIs(m: map<int, Interest>, s: int, what: What)
    ensures var n := Update(m, s, what);
            && Readers(n) - {s} == Readers(m) - {s} && Writers(n) - {s} == Writers(m) - {s}
            && (s in Readers(n) <==> what.PollIn? || what.PollInOut? || (what.PollNone? && s in Readers(m)))
            && (s in Writers(n) <==> what.PollOut? || what.PollInOut? || (what.PollNone? && s in Writers(m)))
  {}

  // ---- the arrays as values ----

  function Fds(list: seq<int>): set<int> { set x | x in list && x >= 0 }

  predicate NoDuplicates(list: seq<int>)
  {
    forall i, j :: 0 <= i < j < |list| && list[i] >= 0 ==> list[i] != list[j]
  }

  predicate Free(list: seq<int>) { exists i :: 0 <= i < |list| && list[i] < 0 }

  /** The first free slot is taken; a full list drops the descriptor. */
  function AddTo(list: seq<int>, fd: int): (r: seq<int>)
    ensures |r| == |list|
  {
    if list == [] then []
    else if list[0] < 0 then [fd] + list[1..]
    else [list[0]] + AddTo(list[1..], fd)
  }

  function RemoveFrom(list: seq<int>, fd: int): (r: seq<int>)
    ensures |r| == |list|
  {
    seq(|list|, i requires 0 <= i < |list| => if list[i] == fd then -1 else list[i])
  }

  datatype Lists = Lists(rd: seq<int>, wr: seq<int>)

  /** _xrsr_http_socket_function. */
  function Socket(l: Lists, s: int, what: What): Lists
  {
    var r, w := RemoveFrom(l.rd, s), RemoveFrom(l.wr, s);
    match what
    case PollIn => Lists(AddTo(r, s), w)
    case PollOut => Lists(r, AddTo(w, s))
    case PollInOut => Lists(AddTo(r, s), AddTo(w, s))
    case PollRemove => Lists(r, w)
    case PollNone => l
  }

  /** The arrays hold exactly the sockets of the map, each once. */
  predicate Represents(l: Lists, m: map<int, Interest>)
  {
    && |l.rd| == |l.wr| == CURL_FD_MAX
    && NoDuplicates(l.rd) && NoDuplicates(l.wr)
    && Fds(l.rd) == Readers(m) && Fds(l.wr) == Writers(m)
    && forall s :: s in m ==> s >= 0
  }

  // ---- lists and their sets ----

  lemma FdsSplit(list: seq<int>)
    requires list != []
    ensures Fds(list) == Fds(list[1..]) + (if list[0] >= 0 then {list[0]} else {})
  {
    assert list == [list[0]] + list[1..];
  }

  lemma NoDuplicatesSplit(list: seq<int>)
    requires list != []
    ensures NoDuplicates(list) <==> NoDuplicates(list[1..]) && list[0] !in Fds(list[1..])
  {
    if NoDuplicates(list[1..]) && list[0] !in Fds(list[1..]) {
      forall i, j | 0 <= i < j < |list| && list[i] >= 0 ensures list[i] != list[j] {
        if i == 0 {
          assert list[j] == list[1..][j - 1];
        } else {
          assert list[i] == list[1..][i - 1] && list[j] == list[1..][j - 1];
        }
      }
    }
    if NoDuplicates(list) {
      forall i, j | 0 <= i < j < |list| - 1 && list[1..][i] >= 0 ensures list[1..][i] != list[1..][j] {
        assert list[1..][i] == list[i + 1] && list[1..][j] == list[j + 1];
      }
    }
  }

  /** A list without duplicates has room exactly when it holds fewer descriptors than slots. */
  lemma {:induction false} FreeMeansRoom(list: seq<int>)
    requires NoDuplicates(list)
    ensures |Fds(list)| <= |list| && (Free(list) <==> |Fds(list)| < |list|)
  {
    if list != [] {
      NoDuplicatesSplit(list);
      FdsSplit(list);
      FreeMeansRoom(list[1..]);
      if Free(list[1..]) {
        var i :| 0 <= i < |list| - 1 && list[1..][i] < 0;
        assert list[i + 1] < 0;
      }
      if i :| 1 <= i < |list| && list[i] < 0 { assert list[1..][i - 1] < 0; }
    }
  }

  lemma {:induction false} AddedTo(list: seq<int>, fd: int)
    requires NoDuplicates(list) && fd >= 0 && fd !in Fds(list)
    ensures NoDuplicates(AddTo(list, fd))
    ensures Fds(AddTo(list, fd)) == if Free(list) then Fds(list) + {fd} else Fds(list)
  {
    if list != [] {
      var r := AddTo(list, fd);
      FdsSplit(list);
      NoDuplicatesSplit(list);
      FdsSplit(r);
      NoDuplicatesSplit(r);
      if list[0] < 0 {
        assert r[1..] == list[1..];
      } else {
        AddedTo(list[1..], fd);
        assert r[1..] == AddTo(list[1..], fd);
        if Free(list) {
          var i :| 0 <= i < |list| && list[i] < 0;
          assert list[1..][i - 1] < 0;
        }
        if Free(list[1..]) {
          var i :| 0 <= i < |list| - 1 && list[1..][i] < 0;
          assert list[i + 1] < 0;
        }
      }
    }
  }

  lemma {:induction false} AddedAt(list: seq<int>, i: nat, fd: int)
    requires i < |list| && list[i] < 0 && forall k :: 0 <= k < i ==> list[k] >= 0
    ensures AddTo(list, fd) == list[i := fd]
  {
    if i > 0 {
      AddedAt(list[1..], i - 1, fd);
      assert list[i := fd] == [list[0]] + list[1..][i - 1 := fd];
    }
  }

  lemma {:induction false} NotAdded(list: seq<int>, fd: int)
    requires forall k :: 0 <= k < |list| ==> list[k] >= 0
    ensures AddTo(list, fd) == list
  {
    if list != [] { NotAdded(list[1..], fd); }
  }

  lemma RemovedFrom(list: seq<int>, fd: int)
    requires NoDuplicates(list) && fd >= 0
    ensures NoDuplicates(RemoveFrom(list, fd)) && Fds(RemoveFrom(list, fd)) == Fds(list) - {fd}
  {
    var r := RemoveFrom(list, fd);
    forall x ensures x in Fds(r) <==> x in Fds(list) - {fd} {
      if x in Fds(list) - {fd} {
        var i :| 0 <= i < |list| && list[i] == x;
        assert r[i] == x;
      }
    }
  }

  lemma OneMore(a: set<int>, x: int)
    requires x !in a
    ensures |a + {x}| == |a| + 1 && a + {x} != a
  {
    assert x in a + {x};
  }

  lemma ReaddedTo(list: seq<int>, s: int)
    requires NoDuplicates(list) && |list| == CURL_FD_MAX && s >= 0
    ensures var r := AddTo(RemoveFrom(list, s), s);
            && NoDuplicates(r)
            && (Fds(r) == Fds(list) + {s} <==> |Fds(list) + {s}| <= CURL_FD_MAX)
  {
    hide AddTo, RemoveFrom, Fds, NoDuplicates, Free;
    var l := RemoveFrom(list, s);
    RemovedFrom(list, s);
    FreeMeansRoom(l);
    AddedTo(l, s);
    OneMore(Fds(l), s);
    assert Fds(list) + {s} == Fds(l) + {s};
  }

  // ---- one callback ----

  lemma ReadersAfter(m: map<int, Interest>, s: int, what: What)
    ensures Readers(Update(m, s, what)) == match what
              case PollIn => Readers(m) + {s}
              case PollInOut => Readers(m) + {s}
              case PollNone => Readers(m)
              case _ => Readers(m) - {s}
    ensures Writers(Update(m, s, what)) == match what
              case PollOut => Writers(m) + {s}
              case PollInOut => Writers(m) + {s}
              case PollNone => Writers(m)
              case _ => Writers(m) - {s}
  {}

  /** A callback is recorded exactly when no direction then has more than five sockets. */
  lemma SocketRecorded(l: Lists, m: map<int, Interest>, s: int, what: What)
    requires Represents(l, m) && s >= 0
    ensures Represents(Socket(l, s, what), Update(m, s, what))
            <==> |Readers(Update(m, s, what))| <= CURL_FD_MAX && |Writers(Update(m, s, what))| <= CURL_FD_MAX
  {
    ReadersAfter(m, s, what);
    FreeMeansRoom(l.rd);
    FreeMeansRoom(l.wr);
    RemovedFrom(l.rd, s);
    RemovedFrom(l.wr, s);
    FreeMeansRoom(RemoveFrom(l.rd, s));
    FreeMeansRoom(RemoveFrom(l.wr, s));
    ReaddedTo(l.rd, s);
    ReaddedTo(l.wr, s);
    UpdatedKeys(m, s, what);
    hide AddTo, RemoveFrom, Fds, NoDuplicates, Free, Readers, Writers, Update;
  }

  lemma UpdatedKeys(m: map<int, Interest>, s: int, what: What)
    requires s >= 0 && forall x :: x in m ==> x >= 0
    ensures forall x :: x in Update(m, s, what) ==> x >= 0
  {}

  // ---- any sequence of callbacks ----

  datatype Call = Call(socket: int, what: What)

  function After(l: Lists, calls: seq<Call>): Lists
    decreases |calls|
  {
    if calls == [] then l else After(Socket(l, calls[0].socket, calls[0].what), calls[1..])
  }

  function Wanted(m: map<int, Interest>, calls: seq<Call>): map<int, Interest>
    decreases |calls|
  {
    if calls == [] then m else Wanted(Update(m, calls[0].socket, calls[0].what), calls[1..])
  }

  /** Never more than five sockets in one direction. */
  predicate Modest(m: map<int, Interest>, calls: seq<Call>)
    decreases |calls|
  {
    calls == [] ||
    (var u := Update(m, calls[0].socket, calls[0].what);
     calls[0].socket >= 0 && |Readers(u)| <= CURL_FD_MAX && |Writers(u)| <= CURL_FD_MAX && Modest(u, calls[1..]))
  }

  /** The arrays stand for exactly the map that any such sequence of callbacks asks for. */
  lemma {:induction false} CallbacksRecorded(l: Lists, m: map<int, Interest>, calls: seq<Call>)
    requires Represents(l, m) && Modest(m, calls)
    ensures Represents(After(l, calls), Wanted(m, calls))
    decreases |calls|
  {
    if calls != [] {
      SocketRecorded(l, m, calls[0].socket, calls[0].what);
      CallbacksRecorded(Socket(l, calls[0].socket, calls[0].what), Update(m, calls[0].socket, calls[0].what),
                        calls[1..]);
    }
    hide Represents, Socket, Update;
  }

  lemma ClearedRepresents(l: Lists)
    requires |l.rd| == |l.wr| == CURL_FD_MAX
    requires (forall i :: 0 <= i < CURL_FD_MAX ==> l.rd[i] == -1 && l.wr[i] == -1)
    ensures Represents(l, map[])
  {}

  // ---- the arrays ----

  /** readfds and writefds of g_http. */
  class CurlFds {
    const readfds: array<int>
    const writefds: array<int>

    ghost predicate Valid() { readfds.Length == writefds.Length == CURL_FD_MAX && readfds != writefds }

    ghost function Value(): Lists
      reads readfds, writefds
    {
      Lists(readfds[..], writefds[..])
    }

    constructor ()
      ensures Valid() && fresh(readfds) && fresh(writefds) && Represents(Value(), map[])
    {
      readfds := new int[CURL_FD_MAX];
      writefds := new int[CURL_FD_MAX];
      new;
      FdClear(readfds);
      FdClear(writefds);
      ClearedRepresents(Value());
    }

    /** _xrsr_http_fd_add. */
    static method FdAdd(fd: int, list: array<int>)
      modifies list
      ensures list[..] == AddTo(old(list[..]), fd)
    {
      ghost var all := list[..];
      var i := 0;
      while i < list.Length
        invariant 0 <= i <= list.Length && list[..] == all
        invariant forall k :: 0 <= k < i ==> all[k] >= 0
      {
        if list[i] < 0 {
          list[i] := fd;
          AddedAt(all, i, fd);
          return;
        }
        i := i + 1;
      }
      NotAdded(all, fd);
    }

    /** _xrsr_http_fd_remove. */
    static method FdRemove(fd: int, list: array<int>)
      modifies list
      ensures list[..] == RemoveFrom(old(list[..]), fd)
    {
      ghost var all := list[..];
      var i := 0;
      while i < list.Length
        invariant 0 <= i <= list.Length
        invariant forall k :: 0 <= k < i ==> list[k] == RemoveFrom(all, fd)[k]
        invariant forall k :: i <= k < list.Length ==> list[k] == all[k]
      {
        if list[i] == fd { list[i] := -1; }
        i := i + 1;
      }
      assert list[..] == RemoveFrom(all, fd);
    }

    /** _xrsr_http_fd_clear. */
    static method FdClear(list: array<int>)
      modifies list
      ensures forall i :: 0 <= i < list.Length ==> list[i] == -1
    {
      var i := 0;
      while i < list.Length
        invariant 0 <= i <= list.Length
        invariant forall k :: 0 <= k < i ==> list[k] == -1
      {
        list[i] := -1;
        i := i + 1;
      }
    }

    /** _xrsr_http_socket_function: what the arrays stand for follows curl's wish exactly when no direction then
        has more than five sockets. */
    method SocketFunction(s: int, what: What, ghost m: map<int, Interest>)
      requires Valid() && s >= 0 && Represents(Value(), m)
      modifies readfds, writefds
      ensures Value() == Socket(old(Value()), s, what)
      ensures Represents(Value(), Update(m, s, what))
              <==> |Readers(Update(m, s, what))| <= CURL_FD_MAX && |Writers(Update(m, s, what))| <= CURL_FD_MAX
    {
      SocketRecorded(Value(), m, s, what);
      hide AddTo, RemoveFrom, Represents, Readers, Writers, Update;
      match what
      case PollIn =>
        FdRemove(s, readfds);
        FdRemove(s, writefds);
        FdAdd(s, readfds);
      case PollOut =>
        FdRemove(s, readfds);
        FdRemove(s, writefds);
        FdAdd(s, writefds);
      case PollInOut =>
        FdRemove(s, readfds);
        FdRemove(s, writefds);
        FdAdd(s, readfds);
        FdAdd(s, writefds);
      case PollRemove =>
        FdRemove(s, readfds);
        FdRemove(s, writefds);
      case PollNone =>
    }

    static method SetAll(list: array<int>, nfds: nat, fds: set<int>, ghost others: set<int>)
      returns (n: nat, r: set<int>)
      requires Tight(nfds, fds, others)
      ensures r == fds + Fds(list[..]) && Tight(n, r, others)
    {
      n, r := nfds, fds;
      var i := 0;
      while i < list.Length
        invariant 0 <= i <= list.Length
        invariant r == fds + Fds(list[..i]) && Tight(n, r, others)
      {
        assert list[..i + 1] == list[..i] + [list[i]];
        if list[i] >= 0 {
          r := r + {list[i]};
          if list[i] >= n { n := list[i] + 1; }
        }
        i := i + 1;
      }
      assert list[..i] == list[..];
    }

    /** xrsr_http_fd_set: exactly the recorded sockets are watched, and nfds stays one above the largest
        descriptor of both sets. */
    method FdSet(nfds: nat, rfds: set<int>, wfds: set<int>, ghost m: map<int, Interest>)
      returns (n: nat, r: set<int>, w: set<int>)
      requires Valid() && Represents(Value(), m) && Tight(nfds, rfds, wfds)
      ensures r == rfds + Readers(m) && w == wfds + Writers(m) && Tight(n, r, w)
    {
      n, r := SetAll(readfds, nfds, rfds, wfds);
      TightSwap(n, r, wfds);
      n, w := SetAll(writefds, n, wfds, r);
      TightSwap(n, w, r);
    }
  }

  lemma TightSwap(nfds: nat, a: set<int>, b: set<int>)
    ensures Tight(nfds, a, b) <==> Tight(nfds, b, a)
  {
    assert a + b == b + a;
  }
}
