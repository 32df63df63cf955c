/** The pieces of Python's `str` behaviour the rest of the model relies on:
    ASCII character classes as written in the source's regular expressions,
    `str.isspace`, `str.strip`, `str.join` and the decimal rendering of
    integers done by f-strings. */
module Strings {

  predicate IsAsciiUpper(c: char) { 'A' <= c <= 'Z' }
  predicate IsAsciiLower(c: char) { 'a' <= c <= 'z' }
  predicate IsAsciiLetter(c: char) { IsAsciiUpper(c) || IsAsciiLower(c) }
  predicate IsAsciiDigit(c: char) { '0' <= c <= '9' }
  /** The regular-expression class `[A-Za-z0-9]`. */
  predicate IsAsciiAlnum(c: char) { IsAsciiLetter(c) || IsAsciiDigit(c) }

  /** Python's `str.isspace` for one character: the characters whose Unicode
      bidirectional class is WS, B or S, or whose category is Zs. */
  predicate IsSpace(c: char) {
    || c == ' '
    || '\t' <= c <= '\r'
    || '\U{1C}' <= c <= '\U{1F}'
    || c == '\U{85}' || c == '\U{A0}' || c == '\U{1680}'
    || '\U{2000}' <= c <= '\U{200A}'
    || c == '\U{2028}' || c == '\U{2029}' || c == '\U{202F}' || c == '\U{205F}'
    || c == '\U{3000}'
  }

  predicate AllSpace(s: string) {
    forall i :: 0 <= i < |s| ==> IsSpace(s[i])
  }

  /** The characters of `s` that are not whitespace, in order. */
  function Visible(s: string): (r: string)
    ensures |r| <= |s|
    ensures forall i :: 0 <= i < |r| ==> !IsSpace(r[i])
  {
    if s == [] then []
    else if IsSpace(s[0]) then Visible(s[1..])
    else [s[0]] + Visible(s[1..])
  }

  lemma {:induction false} VisibleAppend(a: string, b: string)
    ensures Visible(a + b) == Visible(a) + Visible(b)
  {
    if a != [] {
      assert (a + b)[0] == a[0] && (a + b)[1..] == a[1..] + b;
      VisibleAppend(a[1..], b);
    } else {
      assert a + b == b;
    }
  }

  /** A string has no visible character exactly when it is all whitespace. */
  lemma {:induction false} VisibleEmpty(s: string)
    ensures Visible(s) == [] <==> AllSpace(s)
  {
    if s != [] {
      VisibleEmpty(s[1..]);
      assert AllSpace(s) <==> IsSpace(s[0]) && AllSpace(s[1..]) by {
        assert forall i :: 0 < i < |s| ==> s[i] == s[1..][i - 1];
      }
    }
  }

  lemma AllSpaceAppend(a: string, b: string)
    ensures AllSpace(a + b) <==> AllSpace(a) && AllSpace(b)
  {
    assert forall i :: 0 <= i < |a| ==> (a + b)[i] == a[i];
    assert forall i :: 0 <= i < |b| ==> (a + b)[|a| + i] == b[i];
  }

  /** Number of leading whitespace characters. */
  function LeadingSpace(s: string): (n: nat)
    ensures n <= |s|
    ensures AllSpace(s[..n])
    ensures n < |s| ==> !IsSpace(s[n])
  {
    if s != [] && IsSpace(s[0]) then
      var n := 1 + LeadingSpace(s[1..]);
      assert s[..n] == [s[0]] + s[1..][..n - 1];
      n
    else 0
  }

  /** Number of trailing whitespace characters. */
  function TrailingSpace(s: string): (n: nat)
    ensures n <= |s|
    ensures forall i :: |s| - n <= i < |s| ==> IsSpace(s[i])
    ensures n < |s| ==> !IsSpace(s[|s| - 1 - n])
  {
    if s != [] && IsSpace(s[|s| - 1]) then
      var t := s[..|s| - 1];
      assert forall i :: 0 <= i < |t| ==> s[i] == t[i];
      TrailingSpace(t) + 1
    else 0
  }

  /** Python's `str.strip()` with no argument: the longest slice of `s`
      that neither starts nor ends with whitespace, cut out of `s` where only
      whitespace lies on either side of it. */
  function Strip(s: string): (r: string)
    ensures r == [] || (!IsSpace(r[0]) && !IsSpace(r[|r| - 1]))
    ensures r == [] <==> AllSpace(s)
    ensures LeadingSpace(s) + |r| <= |s|
    ensures r == s[LeadingSpace(s)..LeadingSpace(s) + |r|]
    ensures AllSpace(s[..LeadingSpace(s)]) && AllSpace(s[LeadingSpace(s) + |r|..])
  {
    var lo := LeadingSpace(s);
    if lo == |s| then
      []
    else
      var t := s[lo..];
      var hi := |t| - TrailingSpace(t);
      assert !IsSpace(t[0]);
      assert t[hi..] == s[lo + hi..];
      t[..hi]
  }

  /** Stripping removes whitespace only. */
  lemma StripVisible(s: string)
    ensures Visible(Strip(s)) == Visible(s)
  {
    var r, lo := Strip(s), LeadingSpace(s);
    assert s == s[..lo] + r + s[lo + |r|..];
    VisibleAppend(s[..lo] + r, s[lo + |r|..]);
    VisibleAppend(s[..lo], r);
    VisibleEmpty(s[..lo]);
    VisibleEmpty(s[lo + |r|..]);
  }

  /** Text that starts and ends with a visible character survives
      stripping whole when only whitespace precedes it. */
  lemma StripKeepsFront(w: string, a: string, b: string)
    requires AllSpace(w) && a != [] && !IsSpace(a[0]) && !IsSpace(a[|a| - 1])
    ensures a <= Strip(w + a + b)
  {
    var s := w + a + b;
    var n, r := LeadingSpace(s), Strip(s);
    assert s[|w|] == a[0];
    assert n == |w|;
    assert s[|w| + |a| - 1] == a[|a| - 1];
    assert r[..|a|] == s[n..n + |a|] == a;
  }

  /** Text that starts and ends with a visible character comes out of
      stripping exactly when only whitespace surrounds it. */
  lemma StripExact(w: string, a: string, v: string)
    requires AllSpace(w) && AllSpace(v) && a != [] && !IsSpace(a[0]) && !IsSpace(a[|a| - 1])
    ensures Strip(w + a + v) == a
  {
    StripKeepsFront(w, a, v);
  }

  /** Python's `sep.join(parts)`. */
  function Join(parts: seq<string>, sep: string): (r: string)
    ensures parts == [] ==> r == []
  {
    if parts == [] then []
    else if |parts| == 1 then parts[0]
    else parts[0] + sep + Join(parts[1..], sep)
  }

  /** Joining one more part appends the separator and that part. */
  lemma {:induction false} JoinSnoc(parts: seq<string>, p: string, sep: string)
    requires parts != []
    ensures Join(parts + [p], sep) == Join(parts, sep) + sep + p
  {
    if |parts| > 1 {
      assert (parts + [p])[1..] == parts[1..] + [p];
      JoinSnoc(parts[1..], p, sep);
    }
  }

  /** The joined string starts with the first part. */
  lemma JoinStartsWith(parts: seq<string>, sep: string)
    requires parts != []
    ensures parts[0] <= Join(parts, sep)
  {
  }

  /** Whatever the first part starts with, the joined string starts with. */
  lemma PrefixThroughJoin(h: string, parts: seq<string>, sep: string)
    requires parts != [] && h != [] && h <= parts[0]
    ensures h <= Join(parts, sep) && Join(parts, sep) != []
  {
    JoinStartsWith(parts, sep);
  }

  // Generic facts about prefixes and suffixes, stated once so that proofs
  // about long templates can use them without unfolding the templates.

  lemma PrefixOfAppend(a: string, b: string)
    ensures a <= a + b
  {
  }

  predicate EndsWith(s: string, t: string) {
    |t| <= |s| && s[|s| - |t|..] == t
  }

  lemma EndsWithAppend(a: string, t: string)
    ensures EndsWith(a + t, t)
  {
  }

  lemma EndsWithExtend(a: string, b: string, t: string)
    requires EndsWith(b, t)
    ensures EndsWith(a + b, t)
  {
    assert (a + b)[|a + b| - |t|..] == b[|b| - |t|..];
  }

  lemma AppendAssoc(a: string, b: string, c: string)
    ensures (a + b) + c == a + (b + c)
  {
  }

  function DigitChar(d: nat): (c: char)
    requires d < 10
    ensures IsAsciiDigit(c)
  {
    ('0' as int + d) as char
  }

  function DigitValue(c: char): (d: nat)
    requires IsAsciiDigit(c)
    ensures d < 10 && DigitChar(d) == c
  {
    (c as int - '0' as int) as nat
  }

  predicate AllDigits(s: string) {
    forall i :: 0 <= i < |s| ==> IsAsciiDigit(s[i])
  }

  /** Decimal rendering of a natural number, as `str(n)` gives it. */
  function NatToString(n: nat): (r: string)
    ensures r != [] && IsAsciiDigit(r[0])
  {
    if n < 10 then [DigitChar(n)] else NatToString(n / 10) + [DigitChar(n % 10)]
  }

  /** Reading a string of decimal digits back as a number. */
  function ParseDigits(s: string): nat
    requires AllDigits(s)
  {
    if s == [] then 0 else ParseDigits(s[..|s| - 1]) * 10 + DigitValue(s[|s| - 1])
  }

  /** The rendering is made of digits, starts with '0' only for zero, and
      loses nothing: reading it back gives the number. */
  lemma {:induction false} ParseNatToString(n: nat)
    ensures AllDigits(NatToString(n)) && ParseDigits(NatToString(n)) == n
    ensures NatToString(n)[0] == '0' <==> n == 0
  {
    var r := NatToString(n);
    if n >= 10 {
      assert r[..|r| - 1] == NatToString(n / 10);
      ParseNatToString(n / 10);
    }
  }

  /** `str(n)` for any integer: a minus sign, then the digits of `|n|`. */
  function IntToString(n: int): (r: string)
    ensures r != [] && (r[0] == '-' <==> n < 0)
  {
    if n < 0 then "-" + NatToString(-n) else NatToString(n)
  }
}
