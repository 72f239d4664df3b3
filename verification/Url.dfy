/** Parsing a URL, and printing one. */
module Url {
  import opened Arithmetic
  import opened Types
  import opened CStrings

  datatype Protocol = Wss | Https | Ws | Http | Sdt

  function Scheme(p: Protocol): string
  {
    match p
    case Wss => "wss://"
    case Https => "https://"
    case Ws => "ws://"
    case Http => "http://"
    case Sdt => "sdt://"
  }

  function DefaultPort(p: Protocol): nat { if p.Wss? || p.Https? then 443 else 80 }

  const PORT_MAX: nat := 65535
  const PORT_LEN_MAX: nat := 6

  /** The scheme a URL starts with. */
  function ProtocolOf(url: string): (r: Option<Protocol>)
    ensures r.Some? ==> Scheme(r.value) <= url
  {
    if Scheme(Wss) <= url then Some(Wss)
    else if Scheme(Https) <= url then Some(Https)
    else if Scheme(Ws) <= url then Some(Ws)
    else if Scheme(Http) <= url then Some(Http)
    else if Scheme(Sdt) <= url then Some(Sdt)
    else None
  }

  /** The port a port text stands for, on a machine whose unsigned long goes up to max. */
  function PortOf(text: string, max: nat): Option<nat>
  {
    var n := Strtoul(text, max);
    if n.outOfRange || n.value > PORT_MAX then None else Some(n.value)
  }

  /** What the pieces of a URL say; `port` is None where the URL names none. */
  datatype Target = Target(prot: Protocol, user: Option<string>, host: string, port: Option<string>, path: string)

  function UserText(user: Option<string>): string { if user.Some? then user.value + "@" else "" }

  function PortText(port: Option<string>): string { if port.Some? then ":" + port.value else "" }

  /** user@host:port */
  function AuthorityText(t: Target): string { UserText(t.user) + (t.host + PortText(t.port)) }

  function Print(t: Target): string { Scheme(t.prot) + (AuthorityText(t) + t.path) }

  /** Pieces that a URL can be cut into: the first '/' starts the path, the first '@' before it ends the user,
      the first ':' after that ends the host. */
  predicate WellFormed(t: Target)
  {
    && '/' !in AuthorityText(t) && (t.path == [] || t.path[0] == '/')
    && (if t.user.Some? then '@' !in t.user.value else '@' !in t.host + PortText(t.port))
    && ':' !in t.host
  }

  function SplitUser(uhp: string): (Option<string>, string)
  {
    var at := Find(uhp, '@');
    if at < |uhp| then (Some(uhp[..at]), uhp[at + 1..]) else (None, uhp)
  }

  function SplitPort(hp: string): (string, Option<string>)
  {
    var colon := Find(hp, ':');
    (hp[..colon], if colon < |hp| then Some(hp[colon + 1..]) else None)
  }

  /** The pieces between the scheme and the path. */
  function Authority(prot: Protocol, uhp: string, path: string): Target
  {
    var (user, hp) := SplitUser(uhp);
    var (host, port) := SplitPort(hp);
    Target(prot, user, host, port, path)
  }

  function Cut(url: string, prot: Protocol): Target
    requires Scheme(prot) <= url
  {
    var rest := url[|Scheme(prot)|..];
    var slash := Find(rest, '/');
    Authority(prot, rest[..slash], rest[slash..])
  }

  /** The pieces of a URL, if its scheme is known and its port, where it names one, is a port. */
  function Pieces(url: string, max: nat): Option<Target>
  {
    var prot := ProtocolOf(url);
    if prot.None? then None
    else
      var t := Cut(url, prot.value);
      if t.port.Some? && PortOf(t.port.value, max).None? then None else Some(t)
  }

  // ---- round trips ----

  lemma SchemeLeads(prot: Protocol, rest: string)
    ensures ProtocolOf(Scheme(prot) + rest) == Some(prot)
  {
    var url := Scheme(prot) + rest;
    assert url[0] == Scheme(prot)[0] && url[1] == Scheme(prot)[1] && url[2] == Scheme(prot)[2];
    assert url[3] == Scheme(prot)[3] && url[4] == Scheme(prot)[4];
    forall p: Protocol | Scheme(p) <= url ensures p == prot {
      assert url[0] == Scheme(p)[0] && url[1] == Scheme(p)[1] && url[2] == Scheme(p)[2];
      assert url[3] == Scheme(p)[3] && url[4] == Scheme(p)[4];
    }
  }

  /** The five schemes, and nothing else, are known. */
  lemma KnownSchemes(url: string)
    ensures ProtocolOf(url) == Some(Wss) <==> "wss://" <= url
    ensures ProtocolOf(url) == Some(Https) <==> "https://" <= url
    ensures ProtocolOf(url) == Some(Ws) <==> "ws://" <= url
    ensures ProtocolOf(url) == Some(Http) <==> "http://" <= url
    ensures ProtocolOf(url) == Some(Sdt) <==> "sdt://" <= url
  {
    var p := ProtocolOf(url);
    forall s: Protocol | Scheme(s) <= url ensures p == Some(s) {
      SchemeLeads(s, url[|Scheme(s)|..]);
      PrefixSplits(Scheme(s), url);
    }
    assert Scheme(Wss) == "wss://" && Scheme(Https) == "https://" && Scheme(Ws) == "ws://";
    assert Scheme(Http) == "http://" && Scheme(Sdt) == "sdt://";
    hide Scheme;
  }

  lemma SplitUserRejoins(uhp: string)
    ensures var (user, hp) := SplitUser(uhp);
            UserText(user) + hp == uhp && (if user.Some? then '@' !in user.value else '@' !in hp)
  {}

  lemma SplitPortRejoins(hp: string)
    ensures var (host, port) := SplitPort(hp);
            host + PortText(port) == hp && ':' !in host
  {}

  lemma UserSplits(user: Option<string>, hp: string)
    requires if user.Some? then '@' !in user.value else '@' !in hp
    ensures SplitUser(UserText(user) + hp) == (user, hp)
  {
    var uhp := UserText(user) + hp;
    if user.Some? {
      assert uhp[..|user.value|] == user.value;
      FindUnique(uhp, '@', |user.value|);
      assert uhp[|user.value| + 1..] == hp;
    } else {
      assert uhp == hp;
    }
  }

  lemma FindAfter(a: string, c: char, b: string)
    requires c !in a
    ensures Find(a + ([c] + b), c) == |a|
  {
    var s := a + ([c] + b);
    assert s[..|a|] == a;
    FindUnique(s, c, |a|);
  }

  lemma PortSplits(host: string, port: Option<string>)
    requires ':' !in host
    ensures SplitPort(host + PortText(port)) == (host, port)
  {
    var hp := host + PortText(port);
    if port.Some? {
      FindAfter(host, ':', port.value);
      assert hp[..|host|] == host && hp[|host| + 1..] == port.value;
    } else {
      assert hp == host;
    }
  }

  /** The pieces between scheme and path say what they were cut from. */
  lemma AuthorityRejoins(prot: Protocol, uhp: string, path: string)
    requires '/' !in uhp && (path == [] || path[0] == '/')
    ensures AuthorityText(Authority(prot, uhp, path)) == uhp && WellFormed(Authority(prot, uhp, path))
    ensures Authority(prot, uhp, path).path == path && Authority(prot, uhp, path).prot == prot
  {
    SplitUserRejoins(uhp);
    SplitPortRejoins(SplitUser(uhp).1);
    hide SplitUser, SplitPort, UserText, PortText;
  }

  lemma PrefixSplits(p: string, s: string)
    requires p <= s
    ensures p + s[|p|..] == s
  {}

  lemma SliceSplits(s: string, n: nat)
    requires n <= |s|
    ensures s[..n] + s[n..] == s
  {}

  lemma CutRejoins(url: string, prot: Protocol)
    requires Scheme(prot) <= url
    ensures Print(Cut(url, prot)) == url && WellFormed(Cut(url, prot))
  {
    hide Scheme, WellFormed, AuthorityText, Authority;
    var rest := url[|Scheme(prot)|..];
    var slash := Find(rest, '/');
    AuthorityRejoins(prot, rest[..slash], rest[slash..]);
    SliceSplits(rest, slash);
    PrefixSplits(Scheme(prot), url);
  }

  /** Every accepted URL is the print of its pieces, and its pieces are well formed. */
  lemma ParsePrint(url: string, max: nat)
    requires Pieces(url, max).Some?
    ensures Print(Pieces(url, max).value) == url && WellFormed(Pieces(url, max).value)
  {
    CutRejoins(url, ProtocolOf(url).value);
    hide Print, Cut, WellFormed, ProtocolOf, PortOf, Scheme;
  }

  /** Parsing a printed well-formed target gives the target back, exactly when its port is a port. */
  lemma PrintParse(t: Target, max: nat)
    requires WellFormed(t)
    ensures Pieces(Print(t), max) == if t.port.Some? && PortOf(t.port.value, max).None? then None else Some(t)
  {
    var uhp := AuthorityText(t);
    var rest := uhp + t.path;
    SchemeLeads(t.prot, rest);
    hide ProtocolOf, PortOf, Scheme;
    PiecesRejoin(t);
    assert rest[..|uhp|] == uhp && rest[|uhp|..] == t.path;
    FindUnique(rest, '/', |uhp|);
    DropPrefix(Scheme(t.prot), rest);
    hide AuthorityText, Authority;
  }

  lemma PiecesRejoin(t: Target)
    requires WellFormed(t)
    ensures Authority(t.prot, AuthorityText(t), t.path) == t
  {
    UserSplits(t.user, t.host + PortText(t.port));
    PortSplits(t.host, t.port);
    hide SplitUser, SplitPort, UserText, PortText;
  }

  lemma DropPrefix(p: string, s: string)
    ensures (p + s)[|p|..] == s && p <= p + s
  {}

  // ---- ports ----

  /** A sign and a value that make a small number: one that is small, or with a minus sign zero or one that
      wraps around to a small number. */
  predicate MakesPort(minus: bool, v: nat, max: nat)
  {
    if minus then v == 0 || max - PORT_MAX < v <= max else v <= PORT_MAX
  }

  /** Which texts are accepted, and for which port: only the sign and the first run of digits count. */
  lemma AcceptedPorts(text: string, max: nat)
    requires max >= PORT_MAX
    ensures var (minus, d) := SignAndDigits(text);
            && (PortOf(text, max).Some? <==> MakesPort(minus, Value(d), max))
            && (PortOf(text, max).Some? ==>
                  PortOf(text, max).value == if minus && Value(d) > 0 then max + 1 - Value(d) else Value(d))
  {
    hide SignAndDigits, Value;
    var (minus, d) := SignAndDigits(text);
    var v := Value(d);
    if minus && 0 < v <= max {
      SmallMod(max + 1 - v, max + 1);
    }
  }

  /** A decimal number without sign, white space or tail. */
  predicate Numeral(text: string) { text != [] && AllDigits(text) }

  /** A numeral is accepted exactly up to 65535, and means its value; */
  lemma NumeralPorts(text: string, max: nat)
    requires Numeral(text) && max >= PORT_MAX
    ensures PortOf(text, max) == if Value(text) <= PORT_MAX then Some(Value(text)) else None
  {
    AcceptedPorts(text, max);
    PlainDigits(text);
    hide SignAndDigits, Value, AllDigits;
  }

  /** and a text that is no numeral is accepted exactly when its sign and its first digits, none at all counting
      as zero, make a small number.  So what is accepted is a numeral up to 65535 exactly for numerals and for
      texts whose sign and digits make none. */
  lemma OnlyNumeralsAccepted(text: string, max: nat)
    requires max >= PORT_MAX
    ensures var (minus, d) := SignAndDigits(text);
            (PortOf(text, max).Some? ==> Numeral(text) && Value(text) <= PORT_MAX)
            <==> Numeral(text) || !MakesPort(minus, Value(d), max)
  {
    AcceptedPorts(text, max);
    if Numeral(text) { NumeralPorts(text, max); }
    hide SignAndDigits, Value, PortOf, MakesPort, AllDigits;
  }

  /** Texts of the other kind: none at all, a number with something around it, and a negative number that wraps
      around to a small one. */
  lemma OddPorts(max: nat)
    requires max >= PORT_MAX
    ensures PortOf("", max) == Some(0) && !Numeral("")
    ensures PortOf(" +80x", max) == Some(80) && !Numeral(" +80x")
    ensures PortOf("-" + Decimal(max), max) == Some(1) && !Numeral("-" + Decimal(max))
  {
    PlainDigits("");
    AcceptedPorts("", max);
    EightyAround();
    AcceptedPorts(" +80x", max);
    MinusDigits(Decimal(max));
    DecimalValue(max);
    AcceptedPorts("-" + Decimal(max), max);
    assert !IsDigit(" +80x"[0]) && !IsDigit(("-" + Decimal(max))[0]);
    hide SignAndDigits, Value, Decimal, PortOf;
    assert Value("") == 0 by { NoDigits(); }
  }

  lemma NoDigits()
    ensures Value("") == 0
  {}

  lemma EightyAround()
    ensures AllDigits("80") && SignAndDigits(" +80x") == (false, "80") && Value("80") == 80
  {
    var w, t := " +80x", "+80x";
    assert w[1..] == t && SkipSpaces(w) == SkipSpaces(t) == t;
    assert t[1..] == "80x" && "80x"[1..] == "0x" && "0x"[1..] == "x";
    assert Digits("80x") == ['8'] + (['0'] + Digits("x")) == "80";
    assert "80"[..1] == "8" && "8"[..0] == "";
    assert Value("8") == 8;
  }
}
