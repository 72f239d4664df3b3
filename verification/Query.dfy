/** Query strings: the list merged from a preset one and the application's, and the URL built with it. */
module Query {
  import opened CStrings
  import opened Types
  import opened UrlBuffer

  const QUERY_QTY_MAX: nat := 24
  const URL_SIZE_MAX: nat := 2048

  function Take<T>(s: seq<T>, n: nat): (r: seq<T>)
    ensures r <= s && |r| <= n
  {
    if |s| <= n then s else s[..n]
  }

  /** The elements before the first NULL. */
  function ListOf(a: seq<Option<string>>): (r: seq<string>)
    ensures |r| <= |a|
    ensures forall i :: 0 <= i < |r| ==> a[i] == Some(r[i])
    ensures |r| < |a| ==> a[|r|].None?
  {
    if a == [] || a[0].None? then [] else [a[0].value] + ListOf(a[1..])
  }

  lemma {:induction false} ListIs(a: seq<Option<string>>, r: seq<string>)
    requires |r| <= |a| && (|r| < |a| ==> a[|r|].None?) && forall i :: 0 <= i < |r| ==> a[i] == Some(r[i])
    ensures ListOf(a) == r
  {
    if r != [] {
      ListIs(a[1..], r[1..]);
      assert r == [r[0]] + r[1..];
    }
  }

  /** xrsr_queue_msg_session_config_in_t from its string list on.  The two keyword fields follow the list, in the
      place of one more pointer. */
  class ConfigMessage {
    const strs: array<Option<string>>
    var keywordBegin: nat
    var keywordDuration: nat

    ghost predicate Valid() { strs.Length == QUERY_QTY_MAX }

    constructor ()
      ensures Valid() && fresh(strs)
    {
      strs := new Option<string>[QUERY_QTY_MAX](_ => None);
      keywordBegin, keywordDuration := 0, 0;
    }

    /** The list stands for the application's strings, as many as there is room for. */
    ghost predicate Holds(app: seq<string>)
      requires Valid()
      reads strs
    {
      ListOf(strs[..]) == Take(app, QUERY_QTY_MAX)
    }

    /** xrsr_callback_session_config_in_ws and _http: the strings are copied, a NULL follows, and then the keyword
        fields are set.  With 24 strings or more the NULL is written past the list, onto the keyword fields; what
        it leaves there does not last. */
    method Fill(app: seq<string>, keywordBegin: nat, keywordDuration: nat) returns (past: bool)
      requires Valid()
      modifies this, strs
      ensures Holds(app)
      ensures past <==> |app| >= QUERY_QTY_MAX
      ensures this.keywordBegin == keywordBegin && this.keywordDuration == keywordDuration
    {
      var i := 0;
      while i < |app|
        invariant i <= |app| && i <= QUERY_QTY_MAX
        invariant forall j :: 0 <= j < i ==> strs[j] == Some(app[j])
      {
        if i >= QUERY_QTY_MAX { break; }
        strs[i] := Some(app[i]);
        i := i + 1;
      }
      past := i == QUERY_QTY_MAX;
      if past {
        this.keywordBegin, this.keywordDuration := 0, 0;
      } else {
        strs[i] := None;
      }
      this.keywordBegin := keywordBegin;
      this.keywordDuration := keywordDuration;
      ListIs(strs[..], Take(app, QUERY_QTY_MAX));
    }

    /** Whether a reader that has come to index k finds a NULL; behind the list it looks at the keyword fields. */
    method IsNullAt(k: nat) returns (r: bool)
      requires Valid() && k <= QUERY_QTY_MAX
      ensures r == if k < QUERY_QTY_MAX then strs[k].None? else keywordBegin == keywordDuration == 0
    {
      if k < QUERY_QTY_MAX {
        r := strs[k].None?;
      } else {
        r := keywordBegin == 0 && keywordDuration == 0;
      }
    }
  }

  /** The end of a list that is not longer than the maximum. */
  method LocateEnd(a: array<Option<string>>) returns (i: nat)
    requires a.Length == QUERY_QTY_MAX + 1
    ensures i == |Take(ListOf(a[..]), QUERY_QTY_MAX)|
  {
    i := 0;
    while a[i].Some?
      invariant 0 <= i <= QUERY_QTY_MAX && i <= |ListOf(a[..])|
      decreases QUERY_QTY_MAX - i
    {
      if i >= QUERY_QTY_MAX { break; }
      i := i + 1;
    }
  }

  function Least(x: nat, y: nat): nat { if x <= y then x else y }

  /** The application's strings behind the first ones of a list, as far as they fit, and a NULL. */
  method AppendMessage(a: array<Option<string>>, start: nat, msg: ConfigMessage, ghost app: seq<string>)
    requires a.Length == QUERY_QTY_MAX + 1 && start <= QUERY_QTY_MAX && msg.Valid() && msg.Holds(app) && a != msg.strs
    modifies a
    ensures var end := Least(start + |app|, QUERY_QTY_MAX);
            && a[..start] == old(a[..start]) && a[end].None?
            && forall j :: start <= j < end ==> a[j] == Some(app[j - start])
  {
    ghost var had := Take(app, QUERY_QTY_MAX);
    var i, k := start, 0;
    var ended := msg.IsNullAt(k);
    while !ended
      invariant k <= |had| && i == start + k <= QUERY_QTY_MAX
      invariant k < QUERY_QTY_MAX ==> ended == msg.strs[k].None?
      invariant a[..start] == old(a[..start])
      invariant forall j :: start <= j < i ==> a[j] == Some(app[j - start])
      decreases QUERY_QTY_MAX - k, !ended
    {
      if i >= QUERY_QTY_MAX { break; }
      assert msg.strs[k] == Some(had[k]) && had[k] == app[k];
      a[i] := msg.strs[k];
      i := i + 1;
      k := k + 1;
      ended := msg.IsNullAt(k);
    }
    a[i] := None;
  }

  lemma MergedIs(list: seq<Option<string>>, preset: seq<string>, app: seq<string>)
    requires |list| == QUERY_QTY_MAX + 1
    requires var start := |Take(preset, QUERY_QTY_MAX)|;
             var end := Least(start + |app|, QUERY_QTY_MAX);
             && (forall j :: 0 <= j < start ==> list[j] == Some(preset[j])) && list[end].None?
             && forall j :: start <= j < end ==> list[j] == Some(app[j - start])
    ensures ListOf(list) == Take(preset + app, QUERY_QTY_MAX)
  {
    ListIs(list, Take(preset + app, QUERY_QTY_MAX));
    hide ListOf;
  }

  /** The list part of xrsr_msg_session_config_in: whatever the application's strings were, the merged list is the
      first strings of the preset ones followed by them, and ends in NULL inside its array; what follows the list
      in the message is never taken for a string. */
  method Merge(a: array<Option<string>>, msg: ConfigMessage, ghost app: seq<string>)
    requires a.Length == QUERY_QTY_MAX + 1 && msg.Valid() && msg.Holds(app) && a != msg.strs
    modifies a
    ensures ListOf(a[..]) == Take(ListOf(old(a[..])) + app, QUERY_QTY_MAX)
  {
    ghost var preset := ListOf(a[..]);
    var start := LocateEnd(a);
    ghost var before := a[..];
    AppendMessage(a, start, msg, app);
    assert forall j :: 0 <= j < start ==> a[j] == before[..start][j];
    MergedIs(a[..], preset, app);
  }

  // ---- the URL ----

  /** strlcat into a buffer of the URL size. */
  function Strlcat(s: string, t: string): string { Take(s + t, URL_SIZE_MAX - 1) }

  function Join(strs: seq<string>): string
  {
    if strs == [] then "" else if |strs| == 1 then strs[0] else strs[0] + "&" + Join(strs[1..])
  }

  /** The URL without a limit. */
  function FullUrl(url: string, separator: string, strs: seq<string>): string
  {
    if strs == [] then url else url + (separator + Join(strs))
  }

  /** What the websocket and the HTTP connect function put between the URL and the first string. */
  function WsSeparator(hasQuery: bool): string { if hasQuery then "&" else "?" }

  function HttpSeparator(hasQuery: bool, hasParam: bool): string
  {
    if !hasQuery then "?" else if hasParam then "&" else ""
  }

  lemma StrlcatTwice(s: string, t: string, u: string)
    ensures Strlcat(Take(s, URL_SIZE_MAX - 1), t) == Take(s + t, URL_SIZE_MAX - 1)
    ensures Strlcat(Strlcat(s, t), u) == Strlcat(s, t + u)
  {
    assert s + (t + u) == s + t + u;
  }

  /** The strings from index k on, each with the '&' before it. */
  function Tail(strs: seq<string>, k: nat): string
    requires k <= |strs|
    decreases |strs| - k
  {
    if k == |strs| then "" else "&" + strs[k] + Tail(strs, k + 1)
  }

  lemma {:induction false} JoinIsTail(strs: seq<string>, k: nat)
    requires k < |strs|
    ensures Join(strs[k..]) == strs[k] + Tail(strs, k + 1)
    decreases |strs| - k
  {
    var s := strs[k..];
    if k + 1 < |strs| {
      JoinIsTail(strs, k + 1);
      assert s[1..] == strs[k + 1..];
      assert strs[k] + "&" + Join(s[1..]) == strs[k] + ("&" + strs[k + 1] + Tail(strs, k + 2));
    } else {
      assert Tail(strs, k + 1) == "";
      assert s == [strs[k]];
    }
  }

  lemma AppendOne(url0: string, done: string, s: string, rest: string)
    ensures Strlcat(Strlcat(Strlcat(url0, done), "&"), s) == Strlcat(url0, done + "&" + s)
    ensures done + ("&" + s + rest) == (done + "&" + s) + rest
  {
    StrlcatTwice(url0, done, "&");
    StrlcatTwice(url0, done + "&", s);
  }

  /** The string loop of both connect functions: starting with or without an '&', one string after another. */
  method AppendStrings(url0: string, delimit0: bool, strs: seq<string>) returns (url: string)
    requires strs != [] && |url0| < URL_SIZE_MAX
    ensures url == Strlcat(url0, (if delimit0 then "&" else "") + Join(strs))
  {
    hide Strlcat;
    url := url0;
    var delimit := delimit0;
    if delimit { url := Strlcat(url, "&"); }
    url := Strlcat(url, strs[0]);
    ghost var lead := if delimit0 then "&" else "";
    StrlcatTwice(url0, lead, strs[0]);
    assert url == Strlcat(url0, lead + strs[0]) by { assert delimit0 || (lead + strs[0] == strs[0]); }
    delimit := true;
    var k := 1;
    ghost var done := lead + strs[0];
    while k < |strs|
      invariant 1 <= k <= |strs| && delimit && url == Strlcat(url0, done)
      invariant done + Tail(strs, k) == lead + strs[0] + Tail(strs, 1)
    {
      url := Strlcat(url, "&");
      url := Strlcat(url, strs[k]);
      AppendOne(url0, done, strs[k], Tail(strs, k + 1));
      done := done + "&" + strs[k];
      k := k + 1;
    }
    assert done + "" == done;
    JoinIsTail(strs, 0);
    assert strs[0..] == strs;
    assert lead + Join(strs) == lead + strs[0] + Tail(strs, 1);
  }

  /** The URL part of xrsr_ws_connect: the URL, the separator and the strings joined by '&', cut to what the
      buffer holds. */
  method WsUrl(urle: string, hasQuery: bool, strs: seq<string>) returns (url: string)
    ensures url == Take(FullUrl(urle, WsSeparator(hasQuery), strs), URL_SIZE_MAX - 1)
  {
    url := Take(urle, URL_SIZE_MAX - 1);
    if strs != [] {
      var delimit := true;
      if !hasQuery {
        url := Strlcat(url, "?");
        delimit := false;
      }
      url := AppendStrings(url, delimit, strs);
      Assembled(urle, if hasQuery then "" else "?", if delimit then "&" else "", Join(strs));
      assert (if hasQuery then "" else "?") + (if delimit then "&" else "") == WsSeparator(hasQuery);
      assert Strlcat(Take(urle, URL_SIZE_MAX - 1), "") == Take(urle, URL_SIZE_MAX - 1) by { assert urle + "" == urle; }
    }
  }

  /** The same for xrsr_http_connect, which leaves the '&' out behind a bare question mark. */
  method HttpUrl(urle: string, hasQuery: bool, hasParam: bool, strs: seq<string>) returns (url: string)
    ensures url == Take(FullUrl(urle, HttpSeparator(hasQuery, hasParam), strs), URL_SIZE_MAX - 1)
  {
    url := Take(urle, URL_SIZE_MAX - 1);
    if strs != [] {
      var delimit := hasParam;
      if !hasQuery {
        url := Strlcat(url, "?");
        delimit := false;
      }
      url := AppendStrings(url, delimit, strs);
      Assembled(urle, if hasQuery then "" else "?", if delimit then "&" else "", Join(strs));
      assert (if hasQuery then "" else "?") + (if delimit then "&" else "") == HttpSeparator(hasQuery, hasParam);
      assert Strlcat(Take(urle, URL_SIZE_MAX - 1), "") == Take(urle, URL_SIZE_MAX - 1) by { assert urle + "" == urle; }
    }
  }

  lemma Assembled(urle: string, mark: string, lead: string, joined: string)
    ensures Strlcat(Strlcat(Take(urle, URL_SIZE_MAX - 1), mark), lead + joined)
            == Take(urle + (mark + lead + joined), URL_SIZE_MAX - 1)
  {
    StrlcatTwice(urle, mark, "");
    StrlcatTwice(urle, mark + (lead + joined), "");
    StrlcatTwice(Take(urle, URL_SIZE_MAX - 1), mark, lead + joined);
    assert mark + lead + joined == mark + (lead + joined);
  }

  // ---- what the server reads in it ----

  /** The parameters of a query, as they stand between the '&'s. */
  function Split(s: string): (r: seq<string>)
    ensures r != []
    decreases |s|
  {
    var i := Find(s, '&');
    if i == |s| then [s] else [s[..i]] + Split(s[i + 1..])
  }

  /** What stands behind the first '?'. */
  function QueryOf(url: string): string
    requires '?' in url
  {
    url[Find(url, '?') + 1..]
  }

  /** The parameters a URL has, none where nothing stands behind its '?'. */
  function Params(url: string): seq<string> { if HasParam(url) then Split(QueryOf(url)) else [] }

  predicate Plain(strs: seq<string>) { forall i :: 0 <= i < |strs| ==> '&' !in strs[i] }

  /** Two texts and the '&' between them. */
  function With(a: string, b: string): string { a + ("&" + b) }

  lemma WithWith(a: string, b: string, c: string)
    ensures With(With(a, b), c) == With(a, With(b, c))
  {
    assert a + ("&" + b) + ("&" + c) == a + ("&" + (b + ("&" + c)));
  }

  /** The first '&' splits off the first parameter. */
  lemma SplitFirst(a: string, b: string)
    requires '&' !in a
    ensures Split(With(a, b)) == [a] + Split(b) && Split(a) == [a]
  {
    var s := With(a, b);
    assert s[..|a|] == a && s[|a| + 1..] == b && s[|a|] == '&';
    FindUnique(s, '&', |a|);
    FindUnique(a, '&', |a|);
  }

  lemma FirstAnd(a: string) returns (x: string, y: string)
    requires '&' in a
    ensures a == With(x, y) && '&' !in x && |y| < |a|
  {
    var i := Find(a, '&');
    x, y := a[..i], a[i + 1..];
  }

  lemma {:induction false} SplitAppends(a: string, b: string)
    ensures Split(With(a, b)) == Split(a) + Split(b)
    decreases |a|
  {
    hide Split, With;
    if '&' !in a {
      SplitFirst(a, b);
    } else {
      var x, y := FirstAnd(a);
      WithWith(x, y, b);
      SplitFirst(x, y);
      SplitFirst(x, With(y, b));
      SplitAppends(y, b);
      assert [x] + (Split(y) + Split(b)) == [x] + Split(y) + Split(b);
    }
  }

  lemma {:induction false} SplitJoin(strs: seq<string>)
    requires strs != [] && Plain(strs)
    ensures Split(Join(strs)) == strs
  {
    hide Split;
    assert strs == [strs[0]] + strs[1..];
    if |strs| > 1 {
      SplitFirst(strs[0], Join(strs[1..]));
      SplitJoin(strs[1..]);
      assert With(strs[0], Join(strs[1..])) == Join(strs);
    } else {
      SplitFirst(strs[0], "");
    }
  }

  /** A URL whose first '?' is kept, and one that gets it. */
  lemma QueryAfter(url: string, rest: string)
    ensures '?' in url ==> '?' in url + rest && QueryOf(url + rest) == QueryOf(url) + rest
    ensures '?' !in url ==> '?' in url + ("?" + rest) && QueryOf(url + ("?" + rest)) == rest
  {
    var i := Find(url, '?');
    if '?' in url {
      assert (url + rest)[..i] == url[..i];
      FindUnique(url + rest, '?', i);
    } else {
      assert (url + ("?" + rest))[..i] == url && (url + ("?" + rest))[i] == '?';
      FindUnique(url + ("?" + rest), '?', i);
    }
  }

  lemma BareQuery(url: string)
    requires '?' in url && !HasParam(url)
    ensures QueryOf(url) == "" && Split("") == [""]
  {}

  /** Strings behind a separator, where the URL has no query, a bare question mark, or some parameters. */
  lemma Appended(url: string, joined: string)
    ensures '?' !in url ==> '?' in url + ("?" + joined) && QueryOf(url + ("?" + joined)) == joined
    ensures '?' in url ==> '?' in url + ("&" + joined)
                           && Split(QueryOf(url + ("&" + joined))) == Split(QueryOf(url)) + Split(joined)
    ensures '?' in url && !HasParam(url) ==>
              '?' in url + ("" + joined) && QueryOf(url + ("" + joined)) == joined && Split(QueryOf(url)) == [""]
  {
    hide Split, QueryOf;
    QueryAfter(url, joined);
    QueryAfter(url, "&" + joined);
    assert "" + joined == joined;
    if '?' in url {
      assert QueryOf(url) + ("&" + joined) == With(QueryOf(url), joined);
      SplitAppends(QueryOf(url), joined);
      if !HasParam(url) {
        BareQuery(url);
        assert "" + joined == joined;
      }
    }
  }

  /** The HTTP URL has the parameters of the route and then those given, whether the route has none, a bare question
      mark, or some. */
  lemma HttpParams(url: string, strs: seq<string>)
    requires strs != [] && Plain(strs)
    ensures var built := FullUrl(url, HttpSeparator('?' in url, HasParam(url)), strs);
            '?' in built && Split(QueryOf(built)) == Params(url) + strs
  {
    SplitJoin(strs);
    Appended(url, Join(strs));
    hide Split, Join, QueryOf;
  }

  /** The websocket URL has them too - except behind a bare question mark, where an empty one comes first. */
  lemma WsParams(url: string, strs: seq<string>)
    requires strs != [] && Plain(strs)
    ensures var built := FullUrl(url, WsSeparator('?' in url), strs);
            && '?' in built
            && Split(QueryOf(built)) == (if '?' in url && !HasParam(url) then [""] + strs else Params(url) + strs)
  {
    SplitJoin(strs);
    Appended(url, Join(strs));
    hide Split, Join, QueryOf;
  }
}
