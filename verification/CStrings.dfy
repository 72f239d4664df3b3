/** C strings as values: first occurrences, NUL-terminated text in a buffer, decimal numbers. */
module CStrings {
  const NUL: char := '\0'

  /** Where strchrnul points: the first c, or the end. */
  function Find(s: string, c: char): (i: nat)
    ensures i <= |s| && c !in s[..i]
    ensures i < |s| <==> c in s
    ensures i < |s| ==> s[i] == c
  {
    if s == [] || s[0] == c then 0
    else
      var i := Find(s[1..], c);
      assert s[..i + 1] == [s[0]] + s[1..][..i];
      i + 1
  }

  /** The string a pointer into the buffer denotes. */
  function At(buf: seq<char>, off: nat): string
    requires off <= |buf|
  {
    buf[off..off + Find(buf[off..], NUL)]
  }

  lemma FindUnique(s: string, c: char, i: nat)
    requires i <= |s| && c !in s[..i] && (i < |s| ==> s[i] == c)
    ensures Find(s, c) == i
  {}

  /** Text that stands in a buffer, followed by a NUL. */
  lemma AtText(buf: seq<char>, off: nat, text: string)
    requires NUL !in text && off + |text| < |buf|
    requires buf[off..off + |text|] == text && buf[off + |text|] == NUL
    ensures At(buf, off) == text
  {
    var s := buf[off..];
    assert s[..|text|] == text;
    FindUnique(s, NUL, |text|);
  }

  // ---- decimal numbers ----

  predicate IsDigit(c: char) { '0' <= c <= '9' }

  predicate AllDigits(s: string) { forall i :: 0 <= i < |s| ==> IsDigit(s[i]) }

  function Value(d: string): nat
    requires AllDigits(d)
  {
    if d == [] then 0 else 10 * Value(d[..|d| - 1]) + (d[|d| - 1] as int - '0' as int)
  }

  /** What `%u` writes. */
  function Decimal(n: nat): (d: string)
    ensures d != [] && AllDigits(d)
  {
    var last := [('0' as int + n % 10) as char];
    if n < 10 then last else Decimal(n / 10) + last
  }

  lemma {:induction false} DecimalValue(n: nat)
    ensures Value(Decimal(n)) == n
  {
    var d := Decimal(n);
    assert d[|d| - 1] as int == '0' as int + n % 10;
    if n >= 10 {
      assert d[..|d| - 1] == Decimal(n / 10);
      DecimalValue(n / 10);
    } else {
      assert d[..|d| - 1] == [];
    }
  }

  lemma {:induction false} DecimalLength(n: nat, k: nat)
    requires k > 0 && n < Pow10(k)
    ensures |Decimal(n)| <= k
    decreases k
  {
    var d := n / 10;
    if n >= 10 {
      var p := Pow10(k - 1);
      assert Pow10(k) == 10 * p;
      assert d < p && d >= 1;
      hide Decimal;
      assert k - 1 > 0 by { assert Pow10(0) == 1; }
      DecimalLength(d, k - 1);
      LongerByOne(n);
    } else {
      assert |Decimal(n)| == 1;
    }
  }

  lemma LongerByOne(n: nat)
    requires n >= 10
    ensures |Decimal(n)| == |Decimal(n / 10)| + 1
  {}

  function Pow10(k: nat): (p: nat)
    ensures p >= 1
  {
    if k == 0 then 1 else 10 * Pow10(k - 1)
  }

  predicate IsSpace(c: char) { c == ' ' || '\t' <= c <= '\r' }

  function SkipSpaces(s: string): string
  {
    if s != [] && IsSpace(s[0]) then SkipSpaces(s[1..]) else s
  }

  /** The digits a number starts with. */
  function Digits(s: string): (d: string)
    ensures d <= s && AllDigits(d)
    ensures |d| < |s| ==> !IsDigit(s[|d|])
  {
    if s == [] || !IsDigit(s[0]) then [] else [s[0]] + Digits(s[1..])
  }

  datatype Number = Number(value: nat, outOfRange: bool)

  /** The sign of a number and its digits, after white space: whether there is a minus, and the digits. */
  function SignAndDigits(s: string): (r: (bool, string))
    ensures AllDigits(r.1)
  {
    var t := SkipSpaces(s);
    if t != [] && t[0] in "+-" then (t[0] == '-', Digits(t[1..])) else (false, Digits(t))
  }

  /** strtoul in base ten, for an unsigned long that goes up to max: white space, a sign, digits; anything
      after them is ignored, no digits count as zero, and a minus sign negates modulo max + 1. */
  function Strtoul(s: string, max: nat): Number
  {
    var (minus, d) := SignAndDigits(s);
    var v := Value(d);
    if v > max then Number(max, true)
    else if minus then Number((max + 1 - v) % (max + 1), false)
    else Number(v, false)
  }

  lemma {:induction false} DigitsWhole(s: string)
    requires AllDigits(s)
    ensures Digits(s) == s
  {
    if s != [] {
      DigitsWhole(s[1..]);
      assert s == [s[0]] + s[1..];
    }
  }

  lemma NothingSkipped(s: string)
    requires s != [] ==> !IsSpace(s[0])
    ensures SkipSpaces(s) == s
  {}

  /** A text of digits is its own run of digits. */
  lemma PlainDigits(s: string)
    requires AllDigits(s)
    ensures SignAndDigits(s) == (false, s)
  {
    DigitsWhole(s);
    if s != [] { assert IsDigit(s[0]); }
    NothingSkipped(s);
    hide SkipSpaces, Digits;
  }

  /** A minus sign in front of digits. */
  lemma MinusDigits(d: string)
    requires AllDigits(d)
    ensures SignAndDigits("-" + d) == (true, d)
  {
    var s := "-" + d;
    assert s[0] == '-' && s[1..] == d;
    NothingSkipped(s);
    DigitsWhole(d);
    hide SkipSpaces, Digits;
  }
}
