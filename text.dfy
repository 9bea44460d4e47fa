/** The few JavaScript string behaviours the front end relies on:
    truthiness, `trim`, `slice`, `startsWith` and the decimal rendering of numbers
    inside template literals, with a decimal parser as the rendering's
    partner. */
module Text {
  import opened Wrappers

  /** JavaScript truthiness of a `string | null`: present and non-empty. */
  predicate Truthy(s: Option<string>) {
    s.Some? && s.value != ""
  }

  /** The characters `String.prototype.trim` removes: WhiteSpace (tab,
      vertical tab, form feed, space, no-break space, byte order mark and
      the Zs category) and LineTerminator (LF, CR, LS, PS). */
  const JsWhitespace: set<char> := {
    '\t', '\n', '\U{B}', '\U{C}', '\r', ' ', '\U{A0}', '\U{1680}',
    '\U{2000}', '\U{2001}', '\U{2002}', '\U{2003}', '\U{2004}', '\U{2005}',
    '\U{2006}', '\U{2007}', '\U{2008}', '\U{2009}', '\U{200A}',
    '\U{2028}', '\U{2029}', '\U{202F}', '\U{205F}', '\U{3000}', '\U{FEFF}'
  }

  predicate IsJsWhitespace(c: char) {
    c in JsWhitespace
  }

  /** `!s.trim()`: the string holds nothing but whitespace. */
  predicate IsBlank(s: string) {
    forall i :: 0 <= i < |s| ==> IsJsWhitespace(s[i])
  }

  function TrimStart(s: string): (r: string)
    ensures |r| <= |s| && r == s[|s| - |r|..]
    ensures forall i :: 0 <= i < |s| - |r| ==> IsJsWhitespace(s[i])
    ensures r == [] || !IsJsWhitespace(r[0])
  {
    if s != [] && IsJsWhitespace(s[0]) then
      var r := TrimStart(s[1..]);
      assert s[|s| - |r|..] == s[1..][|s| - 1 - |r|..];
      assert forall i :: 1 <= i < |s| - |r| ==> s[i] == s[1..][i - 1];
      r
    else
      s
  }

  function TrimEnd(s: string): (r: string)
    ensures |r| <= |s| && r == s[..|r|]
    ensures forall i :: |r| <= i < |s| ==> IsJsWhitespace(s[i])
    ensures r == [] || !IsJsWhitespace(r[|r| - 1])
  {
    if s != [] && IsJsWhitespace(s[|s| - 1]) then TrimEnd(s[..|s| - 1]) else s
  }

  /** `r` is the part of `s` from index `i` on that leaves only whitespace
      before and after it. */
  predicate InnerSpan(s: string, r: string, i: nat) {
    i + |r| <= |s| && r == s[i..i + |r|] && IsBlank(s[..i]) && IsBlank(s[i + |r|..])
  }

  /** `s.trim()`: `s` with its leading and trailing whitespace removed and
      nothing else, so the result is empty exactly for blank input, and
      otherwise neither starts nor ends with whitespace. */
  function Trim(s: string): (r: string)
    ensures |r| <= |s|
    ensures exists i :: InnerSpan(s, r, i)
    ensures r == [] <==> IsBlank(s)
    ensures r == [] || (!IsJsWhitespace(r[0]) && !IsJsWhitespace(r[|r| - 1]))
  {
    var t := TrimStart(s);
    TrimSpanAt(s);
    if t == [] then
      TrimEnd(t)
    else
      TrimEndKeepsHead(t);
      TrimStartOfBlank(s);
      TrimEnd(t)
  }

  /** TrimStart cuts a blank prefix, TrimEnd a blank suffix, and what lies
      between is kept. */
  lemma TrimSpanAt(s: string)
    ensures InnerSpan(s, TrimEnd(TrimStart(s)), |s| - |TrimStart(s)|)
  {
    var t := TrimStart(s);
    var r := TrimEnd(t);
    var i := |s| - |t|;
    assert t == s[i..];
    assert s[i + |r|..] == t[|r|..];
    assert forall k :: 0 <= k < i ==> s[..i][k] == s[k];
    assert InnerSpan(s, r, i);
  }

  lemma {:induction false} TrimEndKeepsHead(t: string)
    requires t != [] && !IsJsWhitespace(t[0])
    ensures TrimEnd(t) != [] && TrimEnd(t)[0] == t[0]
  {
    if IsJsWhitespace(t[|t| - 1]) {
      TrimEndKeepsHead(t[..|t| - 1]);
    }
  }

  lemma {:induction false} TrimStartOfBlank(s: string)
    ensures IsBlank(s) <==> TrimStart(s) == []
  {
    if s != [] && IsJsWhitespace(s[0]) {
      TrimStartOfBlank(s[1..]);
      assert IsBlank(s) <==> IsBlank(s[1..]) by {
        assert forall i :: 0 < i < |s| ==> s[i] == s[1..][i - 1];
      }
    }
  }

  lemma TrimIdempotent(s: string)
    ensures Trim(Trim(s)) == Trim(s)
  {
    var r := Trim(s);
    if r != [] {
      assert TrimStart(r) == r;
      assert TrimEnd(r) == r;
    }
  }

  /** `s.slice(from, to)` for non-negative indices: both ends are clamped
      to the length, and an empty range gives the empty string. */
  function Slice(s: string, from: nat, to: nat): (r: string)
    ensures from <= to <= |s| ==> r == s[from..to]
    ensures from <= |s| <= to ==> r == s[from..]
    ensures to <= from ==> r == []
    ensures |r| <= |s|
  {
    var a := if from < |s| then from else |s|;
    var b := if to < |s| then to else |s|;
    if a < b then s[a..b] else []
  }

  /** `s.slice(from)` for a non-negative index. */
  function SliceFrom(s: string, from: nat): (r: string)
    ensures from <= |s| ==> r == s[from..]
    ensures from >= |s| ==> r == []
  {
    if from < |s| then s[from..] else []
  }

  /** Equal strings with a common prefix agree after it. */
  lemma CancelPrefix(p: string, x: string, y: string)
    requires p + x == p + y
    ensures x == y
  {
    assert x == (p + x)[|p|..];
    assert y == (p + y)[|p|..];
  }

  /** Equal strings with a common suffix agree before it. */
  lemma CancelSuffix(x: string, y: string, q: string)
    requires x + q == y + q
    ensures x == y
  {
    assert x == (x + q)[..|x|];
    assert y == (y + q)[..|y|];
  }

  /** `s.startsWith(prefix)`. */
  predicate StartsWith(s: string, prefix: string) {
    prefix <= s
  }

  // ----- decimal rendering of integers (`${n}` in a template literal) -----

  predicate IsDigit(c: char) {
    '0' <= c <= '9'
  }

  predicate AllDigits(s: string) {
    forall i :: 0 <= i < |s| ==> IsDigit(s[i])
  }

  /** A decimal numeral as JavaScript prints a non-negative integer: digits
      only, and no leading zero except for "0" itself. */
  predicate IsCanonicalDecimal(s: string) {
    |s| > 0 && AllDigits(s) && (s[0] == '0' ==> |s| == 1)
  }

  function DigitChar(d: nat): (c: char)
    requires d < 10
    ensures IsDigit(c) && c as int - '0' as int == d
  {
    ('0' as int + d) as char
  }

  function DigitValue(c: char): (d: nat)
    requires IsDigit(c)
    ensures d < 10 && DigitChar(d) == c
  {
    c as int - '0' as int
  }

  function NatToDecimal(n: nat): (s: string)
    ensures IsCanonicalDecimal(s)
    ensures s == "0" <==> n == 0
  {
    if n < 10 then [DigitChar(n)] else NatToDecimal(n / 10) + [DigitChar(n % 10)]
  }

  /** `${i}` for an integer `i`: a minus sign before a negative number. */
  function IntToDecimal(i: int): (s: string)
    ensures |s| > 0 && (IsDigit(s[0]) <==> i >= 0)
    ensures i < 0 ==> s[0] == '-'
  {
    if i < 0 then "-" + NatToDecimal(-i) else NatToDecimal(i)
  }

  /** The partner of NatToDecimal: the value a string of digits denotes. */
  function ParseDecimal(s: string): nat
    requires AllDigits(s)
  {
    if s == [] then 0 else 10 * ParseDecimal(s[..|s| - 1]) + DigitValue(s[|s| - 1])
  }

  lemma {:induction false} ParseNatToDecimal(n: nat)
    ensures ParseDecimal(NatToDecimal(n)) == n
  {
    if n >= 10 {
      ParseNatToDecimal(n / 10);
      var s := NatToDecimal(n);
      assert s[..|s| - 1] == NatToDecimal(n / 10);
    }
  }

  lemma {:induction false} NatToDecimalOfParse(s: string)
    requires IsCanonicalDecimal(s)
    ensures NatToDecimal(ParseDecimal(s)) == s
  {
    var c := s[|s| - 1];
    var d := DigitValue(c);
    if |s| == 1 {
      assert s == [c];
      assert ParseDecimal(s) == 10 * ParseDecimal([]) + d;
    } else {
      var p := s[..|s| - 1];
      assert p[0] == s[0];
      NatToDecimalOfParse(p);
      var v := ParseDecimal(p);
      assert v != 0;
      assert (10 * v + d) / 10 == v && (10 * v + d) % 10 == d;
      assert s == p + [c];
    }
  }

  lemma NatToDecimalInjective(a: nat, b: nat)
    requires NatToDecimal(a) == NatToDecimal(b)
    ensures a == b
  {
    ParseNatToDecimal(a);
    ParseNatToDecimal(b);
  }

  /** A numeral followed by text that does not start with a digit can be
      split in one way only: the number and the rest are both recovered. */
  lemma NatToDecimalFollowedBy(a: nat, b: nat, s: string, t: string)
    requires NatToDecimal(a) + s == NatToDecimal(b) + t
    requires s == [] || !IsDigit(s[0])
    requires t == [] || !IsDigit(t[0])
    ensures a == b && s == t
  {
    var x, y := NatToDecimal(a), NatToDecimal(b);
    if |x| < |y| {
      DigitsRunOn(x, s, y, t);
      assert false;
    } else if |y| < |x| {
      DigitsRunOn(y, t, x, s);
      assert false;
    }
    assert x == (x + s)[..|x|];
    assert y == (y + t)[..|y|];
    NatToDecimalInjective(a, b);
    assert s == (x + s)[|x|..];
    assert t == (y + t)[|y|..];
  }

  /** If a shorter string and a longer run of digits start the same text,
      the text following the shorter one starts with a digit. */
  lemma DigitsRunOn(x: string, s: string, y: string, t: string)
    requires x + s == y + t && |x| < |y| && AllDigits(y)
    ensures s != [] && IsDigit(s[0])
  {
    assert s[0] == (x + s)[|x|] == (y + t)[|x|] == y[|x|];
  }

  lemma IntToDecimalFollowedBy(a: int, b: int, s: string, t: string)
    requires IntToDecimal(a) + s == IntToDecimal(b) + t
    requires s == [] || !IsDigit(s[0])
    requires t == [] || !IsDigit(t[0])
    ensures a == b && s == t
  {
    var x, y := IntToDecimal(a), IntToDecimal(b);
    assert (x + s)[0] == x[0] && (y + t)[0] == y[0];
    if a < 0 && b < 0 {
      assert NatToDecimal(-a) + s == (x + s)[1..];
      assert NatToDecimal(-b) + t == (y + t)[1..];
      NatToDecimalFollowedBy(-a, -b, s, t);
    } else if a >= 0 && b >= 0 {
      NatToDecimalFollowedBy(a, b, s, t);
    }
  }
}
