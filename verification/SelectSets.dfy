/** The descriptor sets the main loop hands to select, collected over routes of both protocols. */
module SelectSets {
  import opened WsSpec
  import WsIo
  import opened FdSets
  import opened WsConnection
  import HttpSpec
  import opened HttpConnection
  import opened HttpFds

  /** The destination of a source: a connection of one of the two protocols, or none. */
  datatype Route = WsRoute(conn: Connection) | HttpRoute(http: HttpState) | NoRoute

  /** What a route asks for: the state of its connection decides. */
  datatype Asks = WsAsks(ws: Ws) | HttpAsks(state: HttpSpec.State) | AsksNothing

  /** xrsr_http_is_connected. */
  predicate IsConnected(s: HttpSpec.State) { s.Connected? || s.Streaming? || s.TextOnlySession? }

  ghost predicate Describes(q: Asks, r: Route)
    reads if r.WsRoute? then {r.conn, r.conn.out, r.conn.out.slots} else {}
    reads if r.HttpRoute? then {r.http} else {}
  {
    match r
    case WsRoute(c) => q.WsAsks? && c.Valid() && q.ws == c.Fields()
    case HttpRoute(h) => q.HttpAsks? && q.state == h.state
    case NoRoute => q.AsksNothing?
  }

  /** What one route wants read and written; m is what curl asked for, the same for every HTTP route. */
  ghost function WantsRead(q: Asks, m: map<int, Interest>): set<int>
  {
    match q
    case WsAsks(w) => (if WsIo.Wanted(w).read then {w.socket} else {}) + (if WsIo.Wanted(w).audio then {w.pipe} else {})
    case HttpAsks(s) => if IsConnected(s) then Readers(m) else {}
    case AsksNothing => {}
  }

  ghost function WantsWritten(q: Asks, m: map<int, Interest>): set<int>
  {
    match q
    case WsAsks(w) => if WsIo.Wanted(w).write then {w.socket} else {}
    case HttpAsks(s) => if IsConnected(s) then Writers(m) else {}
    case AsksNothing => {}
  }

  ghost function AllRead(qs: seq<Asks>, m: map<int, Interest>): set<int>
  {
    if qs == [] then {} else AllRead(qs[..|qs| - 1], m) + WantsRead(qs[|qs| - 1], m)
  }

  ghost function AllWritten(qs: seq<Asks>, m: map<int, Interest>): set<int>
  {
    if qs == [] then {} else AllWritten(qs[..|qs| - 1], m) + WantsWritten(qs[|qs| - 1], m)
  }

  /** One route: its descriptors are added, and nfds stays one above the largest. */
  method AskRoute(route: Route, curl: CurlFds, ghost q: Asks, ghost m: map<int, Interest>,
                  nfds: nat, rfds: set<int>, wfds: set<int>)
    returns (n: nat, r: set<int>, w: set<int>)
    requires Describes(q, route) && curl.Valid() && Represents(curl.Value(), m) && Tight(nfds, rfds, wfds)
    ensures r == rfds + WantsRead(q, m) && w == wfds + WantsWritten(q, m) && Tight(n, r, w)
  {
    hide Tight, WsIo.Wanted, Represents, Readers, Writers;
    n, r, w := nfds, rfds, wfds;
    match route
    case WsRoute(conn) => n, r, w := conn.FdSet(nfds, rfds, wfds);
    case HttpRoute(http) =>
      if IsConnected(http.state) { n, r, w := curl.FdSet(nfds, rfds, wfds, m); }
    case NoRoute =>
  }

  /** The collection before select: the message queue and exactly what the routes of both protocols want, and nfds
      is one more than the largest descriptor of them all. */
  method Collect(routes: seq<Route>, curl: CurlFds, msgq: nat, ghost qs: seq<Asks>, ghost m: map<int, Interest>)
    returns (nfds: nat, rfds: set<int>, wfds: set<int>)
    requires |qs| == |routes| && forall i :: 0 <= i < |routes| ==> Describes(qs[i], routes[i])
    requires curl.Valid() && Represents(curl.Value(), m)
    ensures rfds == {msgq as int} + AllRead(qs, m) && wfds == AllWritten(qs, m)
    ensures Tight(nfds, rfds, wfds)
  {
    hide Represents, WantsRead, WantsWritten, Describes;
    nfds, rfds, wfds := msgq + 1, {msgq}, {};
    assert Tight(nfds, rfds, wfds);
    hide Tight;
    var i := 0;
    while i < |routes|
      invariant 0 <= i <= |routes| && Tight(nfds, rfds, wfds)
      invariant rfds == {msgq as int} + AllRead(qs[..i], m) && wfds == AllWritten(qs[..i], m)
    {
      nfds, rfds, wfds := AskRoute(routes[i], curl, qs[i], m, nfds, rfds, wfds);
      assert qs[..i + 1][..i] == qs[..i];
      i := i + 1;
    }
    assert qs[..|routes|] == qs;
  }
}
