/** xrsr_url_parse as it works: one allocated buffer, cut into pieces in place. */
module UrlBuffer {
  import opened Types
  import opened CStrings
  import opened Url

  /** xrsr_url_parts_t; the pieces are offsets into the buffer. */
  datatype UrlParts = UrlParts(buf: array<char>, urle: nat, user: Option<nat>, host: nat, path: nat, port: nat,
                               prot: Protocol, portInt: nat, hasQuery: bool, hasParam: bool, hasFragment: bool)

  /** Something stands behind the first question mark. */
  predicate HasParam(url: string) { Find(url, '?') + 1 < |url| }

  /** The text and the number of the port, named or by default. */
  function PortTextOf(t: Target): string { if t.port.Some? then t.port.value else Decimal(DefaultPort(t.prot)) }

  function PortNumberOf(t: Target, max: nat): nat
  {
    if t.port.Some? && PortOf(t.port.value, max).Some? then PortOf(t.port.value, max).value else DefaultPort(t.prot)
  }

  /** The offsets lie in the buffer and denote the pieces of the URL. */
  ghost predicate Denotes(p: UrlParts, url: string, t: Target, max: nat)
    reads p.buf
  {
    var b := p.buf[..];
    && p.urle <= |b| && p.host <= |b| && p.path <= |b| && p.port <= |b| && (p.user.Some? ==> p.user.value <= |b|)
    && At(b, p.urle) == url && At(b, p.path) == t.path && At(b, p.host) == t.host
    && (p.user.Some? <==> t.user.Some?) && (p.user.Some? ==> At(b, p.user.value) == t.user.value)
    && At(b, p.port) == PortTextOf(t) && p.portInt == PortNumberOf(t, max) && p.prot == t.prot
    && (p.hasQuery <==> '?' in url) && (p.hasParam <==> HasParam(url)) && (p.hasFragment <==> '#' in url)
  }

  /** A text and its NUL stand in the buffer. */
  predicate Region(buf: seq<char>, off: nat, text: string)
  {
    off + |text| < |buf| && buf[off..off + |text|] == text && buf[off + |text|] == NUL
  }

  lemma RegionAt(buf: seq<char>, off: nat, text: string)
    requires Region(buf, off, text) && NUL !in text
    ensures off <= |buf| && At(buf, off) == text
  {
    AtText(buf, off, text);
  }

  /** A change outside a region leaves it alone. */
  lemma RegionStays(before: seq<char>, after: seq<char>, off: nat, text: string)
    requires Region(before, off, text) && |after| == |before|
    requires forall i :: off <= i <= off + |text| ==> after[i] == before[i]
    ensures Region(after, off, text)
  {
    assert after[off..off + |text|] == before[off..off + |text|];
  }

  /** The end of a region is a region. */
  lemma RegionEnd(buf: seq<char>, off: nat, text: string, k: nat)
    requires Region(buf, off, text) && k <= |text|
    ensures Region(buf, off + k, text[k..])
  {
    assert buf[off + k..off + |text|] == buf[off..off + |text|][k..];
  }

  /** A region cut at one of its characters is two regions. */
  lemma RegionCut(before: seq<char>, after: seq<char>, off: nat, text: string, k: nat)
    requires Region(before, off, text) && k < |text| && after == before[off + k := NUL]
    ensures Region(after, off, text[..k]) && Region(after, off + k + 1, text[k + 1..])
  {
    assert after[off..off + k] == before[off..off + |text|][..k];
    assert after[off + k + 1..off + |text|] == before[off..off + |text|][k + 1..];
  }

  /** strlcpy of a whole text. */
  method Strlcpy(buf: array<char>, off: nat, text: string)
    requires off + |text| < buf.Length
    modifies buf
    ensures Region(buf[..], off, text)
    ensures forall i :: 0 <= i < off || off + |text| < i < buf.Length ==> buf[i] == old(buf[i])
  {
    forall i | 0 <= i < |text| { buf[off + i] := text[i]; }
    buf[off + |text|] := NUL;
  }

  /** strchr: a position in the string that starts at off. */
  method Strchr(buf: array<char>, off: nat, c: char, ghost text: string) returns (pos: Option<nat>)
    requires Region(buf[..], off, text) && NUL !in text
    ensures pos == if Find(text, c) < |text| then Some(off + Find(text, c)) else None
  {
    RegionAt(buf[..], off, text);
    hide Region, At;
    var s := At(buf[..], off);
    var i := Find(s, c);
    pos := if i < |s| then Some(off + i) else None;
  }

  /** The piece before the first c is cut off, where there is one; nothing outside the text changes. */
  method CutAt(buf: array<char>, off: nat, c: char, ghost text: string) returns (pos: Option<nat>)
    requires Region(buf[..], off, text) && NUL !in text
    modifies buf
    ensures var i := Find(text, c);
            && pos == (if i < |text| then Some(off + i) else None)
            && Region(buf[..], off, text[..i])
            && (pos.Some? ==> Region(buf[..], off + i + 1, text[i + 1..]))
    ensures forall i :: 0 <= i < off || off + |text| <= i < buf.Length ==> buf[i] == old(buf[i])
  {
    ghost var before := buf[..];
    pos := Strchr(buf, off, c, text);
    if pos.Some? {
      buf[pos.value] := NUL;
      RegionCut(before, buf[..], off, text, Find(text, c));
    } else {
      WholeText(text, c);
    }
    hide Region;
  }

  lemma WholeText(text: string, c: char)
    requires Find(text, c) == |text|
    ensures text[..Find(text, c)] == text
  {}

  /** One allocation holds the URL, then user, host and port, then room for a default port. */
  method Copy(url: string, index: nat, pathAt: nat) returns (buf: array<char>)
    requires index <= pathAt <= |url|
    ensures fresh(buf) && buf.Length == (|url| + 1) + (pathAt - index + 1) + PORT_LEN_MAX
    ensures Region(buf[..], 0, url) && Region(buf[..], |url| + 1, url[index..pathAt])
  {
    var lenUrl := |url| + 1;
    var lenUhp := lenUrl - (|url| - pathAt) - index;
    buf := new char[lenUrl + lenUhp + PORT_LEN_MAX];
    Strlcpy(buf, 0, url);
    ghost var before := buf[..];
    Strlcpy(buf, lenUrl, url[index..pathAt]);
    RegionStays(before, buf[..], 0, url);
  }

  /** The user, where there is one, and where host and port start. */
  method CutUser(buf: array<char>, off: nat, ghost uhp: string) returns (user: Option<nat>, host: nat)
    requires Region(buf[..], off, uhp) && NUL !in uhp
    modifies buf
    ensures var (u, hp) := SplitUser(uhp);
            && off <= host && host + |hp| == off + |uhp| && Region(buf[..], host, hp) && NUL !in hp
            && (user.Some? <==> u.Some?)
            && (u.Some? ==> user.value == off && host == off + |u.value| + 1 && NUL !in u.value
                            && Region(buf[..], off, u.value))
    ensures forall i :: 0 <= i < off || off + |uhp| <= i < buf.Length ==> buf[i] == old(buf[i])
  {
    user, host := None, off;
    var at := CutAt(buf, off, '@', uhp);
    if at.Some? {
      user := Some(off);
      host := at.value + 1;
    } else {
      assert uhp[..Find(uhp, '@')] == uhp;
    }
  }

  /** The port, where there is one. */
  method CutPort(buf: array<char>, host: nat, ghost hp: string) returns (port: Option<nat>)
    requires Region(buf[..], host, hp) && NUL !in hp
    modifies buf
    ensures var (h, p) := SplitPort(hp);
            && Region(buf[..], host, h) && NUL !in h
            && (port.Some? <==> p.Some?)
            && (p.Some? ==> Region(buf[..], port.value, p.value) && NUL !in p.value
                            && port.value + |p.value| == host + |hp|)
    ensures forall i :: 0 <= i < host || host + |hp| <= i < buf.Length ==> buf[i] == old(buf[i])
  {
    port := None;
    var colon := CutAt(buf, host, ':', hp);
    if colon.Some? { port := Some(colon.value + 1); }
  }

  /** A text and its NUL stand in the buffer below end. */
  predicate Below(b: seq<char>, end: nat, off: nat, text: string)
  {
    Region(b, off, text) && off + |text| < end <= |b| && NUL !in text
  }

  lemma BelowStays(before: seq<char>, after: seq<char>, end: nat, off: nat, text: string)
    requires Below(before, end, off, text) && |after| == |before|
    requires forall i :: 0 <= i < end ==> after[i] == before[i]
    ensures Below(after, end, off, text)
  {
    RegionStays(before, after, off, text);
  }

  /** The URL itself, and its pieces but the port, as they stand after user, host and port were cut. */
  predicate Pieced(b: seq<char>, end: nat, url: string, path: nat, user: Option<nat>, host: nat, t: Target)
  {
    && Below(b, end, 0, url) && Below(b, end, path, t.path) && Below(b, end, host, t.host)
    && (user.Some? <==> t.user.Some?) && (user.Some? ==> Below(b, end, user.value, t.user.value))
  }

  lemma PiecedStays(before: seq<char>, after: seq<char>, end: nat, url: string, path: nat, user: Option<nat>,
                    host: nat, t: Target)
    requires Pieced(before, end, url, path, user, host, t) && |after| == |before|
    requires forall i :: 0 <= i < end ==> after[i] == before[i]
    ensures Pieced(after, end, url, path, user, host, t)
  {
    BelowStays(before, after, end, 0, url);
    BelowStays(before, after, end, path, t.path);
    BelowStays(before, after, end, host, t.host);
    if user.Some? { BelowStays(before, after, end, user.value, t.user.value); }
    hide Below;
  }

  /** The URL copied and cut. */
  method CutUp(url: string, prot: Protocol) returns (buf: array<char>, user: Option<nat>, host: nat, path: nat,
                                                     port: Option<nat>, end: nat)
    requires NUL !in url && Scheme(prot) <= url
    ensures fresh(buf) && end + PORT_LEN_MAX == buf.Length
    ensures Pieced(buf[..], end, url, path, user, host, Cut(url, prot))
    ensures var t := Cut(url, prot);
            && (port.Some? <==> t.port.Some?)
            && (port.Some? ==> Below(buf[..], end, port.value, t.port.value))
  {
    hide Scheme, Cut, SplitUser, SplitPort, Region;
    var index := |Scheme(prot)|;
    path := index + Find(url[index..], '/');
    CutIs(url, prot, path);
    buf := Copy(url, index, path);
    user, host, port := CutAuthority(buf, |url| + 1, url, index, path);
    end := (|url| + 1) + (path - index) + 1;
    PathBelow(buf[..], end, url, path);
    hide Below, Find;
  }

  lemma PathBelow(b: seq<char>, end: nat, url: string, path: nat)
    requires Region(b, 0, url) && NUL !in url && path <= |url| < end <= |b|
    ensures Below(b, end, 0, url) && Below(b, end, path, url[path..])
  {
    RegionEnd(b, 0, url, path);
  }

  /** User, host and port cut out of the second region; the first stays. */
  method CutAuthority(buf: array<char>, lenUrl: nat, ghost url: string, ghost index: nat, ghost path: nat)
    returns (user: Option<nat>, host: nat, port: Option<nat>)
    requires NUL !in url && index <= path <= |url| && lenUrl == |url| + 1
    requires Region(buf[..], 0, url) && Region(buf[..], |url| + 1, url[index..path])
    modifies buf
    ensures Region(buf[..], 0, url)
    ensures var (u, hp) := SplitUser(url[index..path]);
            var (h, p) := SplitPort(hp);
            var end := (|url| + 1) + (path - index) + 1;
            && Below(buf[..], end, host, h)
            && (user.Some? <==> u.Some?) && (user.Some? ==> Below(buf[..], end, user.value, u.value))
            && (port.Some? <==> p.Some?) && (port.Some? ==> Below(buf[..], end, port.value, p.value))
  {
    hide SplitUser, SplitPort, Region;
    ghost var b0 := buf[..];
    user, host := CutUser(buf, lenUrl, url[index..path]);
    ghost var b1 := buf[..];
    RegionStays(b0, b1, 0, url);
    ghost var (u, hp) := SplitUser(url[index..path]);
    SplitPortShortens(hp);
    port := CutPort(buf, host, hp);
    ghost var b2 := buf[..];
    RegionStays(b1, b2, 0, url);
    if user.Some? { RegionStays(b1, b2, user.value, u.value); }
  }

  lemma CutIs(url: string, prot: Protocol, path: nat)
    requires Scheme(prot) <= url && path == |Scheme(prot)| + Find(url[|Scheme(prot)|..], '/')
    ensures path <= |url|
    ensures var (u, hp) := SplitUser(url[|Scheme(prot)|..path]);
            var (h, p) := SplitPort(hp);
            Cut(url, prot) == Target(prot, u, h, p, url[path..])
  {
    hide Scheme, SplitUser, SplitPort;
    var rest := url[|Scheme(prot)|..];
    var slash := Find(rest, '/');
    assert rest[..slash] == url[|Scheme(prot)|..path] && rest[slash..] == url[path..];
  }

  lemma SplitPortShortens(hp: string)
    ensures |SplitPort(hp).0| <= |hp|
    ensures var p := SplitPort(hp).1; p.Some? ==> |SplitPort(hp).0| + 1 + |p.value| == |hp|
  {}

  lemma DenotesPieces(b: seq<char>, end: nat, url: string, path: nat, user: Option<nat>, host: nat, t: Target)
    requires Pieced(b, end, url, path, user, host, t)
    ensures path <= |b| && host <= |b| && At(b, 0) == url && At(b, path) == t.path && At(b, host) == t.host
    ensures (user.Some? <==> t.user.Some?) && (user.Some? ==> user.value <= |b| && At(b, user.value) == t.user.value)
  {
    RegionAt(b, 0, url);
    RegionAt(b, path, t.path);
    RegionAt(b, host, t.host);
    if user.Some? { RegionAt(b, user.value, t.user.value); }
    hide At, Region;
  }

  lemma DefaultPortFits(prot: Protocol)
    ensures |Decimal(DefaultPort(prot))| < PORT_LEN_MAX && NUL !in Decimal(DefaultPort(prot))
  {
    assert Pow10(3) == 1000 by { assert Pow10(2) == 100; }
    DecimalLength(DefaultPort(prot), 3);
  }

  /** xrsr_url_parse: it succeeds exactly on the URLs that have pieces, allocates once, writes only inside the
      allocation, and the offsets it returns denote the pieces. */
  method Parse(url: string, max: nat, mallocOk: bool) returns (r: Option<UrlParts>)
    requires NUL !in url
    ensures r.Some? <==> mallocOk && Pieces(url, max).Some?
    ensures r.Some? ==> fresh(r.value.buf) && Denotes(r.value, url, Pieces(url, max).value, max)
    ensures r.Some? && Pieces(url, max).value.port.None? ==>
              && r.value.portInt == (if "wss://" <= url || "https://" <= url then 443 else 80)
              && r.value.port <= r.value.buf.Length && At(r.value.buf[..], r.value.port) == Decimal(r.value.portInt)
  {
    hide Scheme, Cut, Pieced, At, Decimal, Strtoul;
    var known := ProtocolOf(url);
    KnownSchemes(url);
    if known.None? || !mallocOk { return None; }
    var prot := known.value;
    ghost var t := Cut(url, prot);
    var port := DefaultPort(prot);
    var buf, user, host, path, named, end := CutUp(url, prot);
    var question := Find(url, '?');
    var hasQuery := question < |url|;
    var hasParam := hasQuery && question + 1 < |url|;
    var hasFragment := Find(url, '#') < |url|;
    var portAt := end;
    if named.Some? {
      portAt := named.value;
      RegionAt(buf[..], portAt, t.port.value);
      var n := Strtoul(At(buf[..], portAt), max);
      if n.outOfRange { return None; }
      if n.value > PORT_MAX { return None; }
      port := n.value;
    } else {
      DefaultPortFits(prot);
      ghost var before := buf[..];
      Strlcpy(buf, portAt, Decimal(port));
      PiecedStays(before, buf[..], end, url, path, user, host, t);
      RegionAt(buf[..], portAt, Decimal(port));
    }
    DenotesPieces(buf[..], end, url, path, user, host, t);
    CutHasProtocol(url, prot);
    assert At(buf[..], portAt) == PortTextOf(t) && port == PortNumberOf(t, max);
    assert Pieces(url, max) == Some(t);
    r := Some(UrlParts(buf, 0, user, host, path, portAt, prot, port, hasQuery, hasParam, hasFragment));
  }

  lemma CutHasProtocol(url: string, prot: Protocol)
    requires Scheme(prot) <= url
    ensures Cut(url, prot).prot == prot
  {}
}
