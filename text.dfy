/** String helpers shared by the model: Python's `str.strip`, prefix and
    substring tests, decimal digits and `int()`, and ASCII lower-casing. */
module Text {
  import opened Wrappers

  // ---------------------------------------------------------------------------
  // Whitespace and strip()
  // ---------------------------------------------------------------------------

  /** The ASCII characters for which Python's `str.isspace()` holds: space,
      `\t`, `\n`, `\v`, `\f`, `\r` and the separators `\x1c` to `\x1f`. */
  predicate IsSpace(c: char) {
    c == ' ' || '\t' <= c <= '\r' || '\U{1C}' <= c <= '\U{1F}'
  }

  predicate AllSpace(s: string) {
    forall i :: 0 <= i < |s| ==> IsSpace(s[i])
  }

  /** `s.lstrip()`: the suffix left after dropping every leading space. */
  function LStrip(s: string): (r: string)
    ensures |r| <= |s| && r == s[|s| - |r|..]
    ensures r == [] || !IsSpace(r[0])
    ensures forall i :: 0 <= i < |s| - |r| ==> IsSpace(s[i])
  {
    if s != [] && IsSpace(s[0]) then
      var r := LStrip(s[1..]);
      assert r == s[|s| - |r|..] by { assert s[1..][|s| - 1 - |r|..] == s[|s| - |r|..]; }
      assert forall i :: 1 <= i < |s| - |r| ==> s[i] == s[1..][i - 1];
      r
    else
      s
  }

  /** `s.rstrip()`: the prefix left after dropping every trailing space. */
  function RStrip(s: string): (r: string)
    ensures |r| <= |s| && r == s[..|r|]
    ensures r == [] || !IsSpace(r[|r| - 1])
    ensures forall i :: |r| <= i < |s| ==> IsSpace(s[i])
  {
    if s != [] && IsSpace(s[|s| - 1]) then
      var r := RStrip(s[..|s| - 1]);
      assert r == s[..|r|] by { assert s[..|s| - 1][..|r|] == s[..|r|]; }
      assert forall i :: |r| <= i < |s| - 1 ==> s[i] == s[..|s| - 1][i];
      r
    else
      s
  }

  /** `s.strip()`. */
  function Strip(s: string): (r: string) {
    RStrip(LStrip(s))
  }

  lemma StripKeepsTrimmed(s: string)
    requires s != [] && !IsSpace(s[0]) && !IsSpace(s[|s| - 1])
    ensures Strip(s) == s
  {
  }

  lemma StripAllSpace(s: string)
    requires AllSpace(s)
    ensures Strip(s) == []
  {
  }

  lemma {:induction false} LStripSpacePrefix(ws: string, u: string)
    requires AllSpace(ws)
    ensures LStrip(ws + u) == LStrip(u)
  {
    if ws != [] {
      assert (ws + u)[0] == ws[0];
      assert (ws + u)[1..] == ws[1..] + u;
      LStripSpacePrefix(ws[1..], u);
    } else {
      assert ws + u == u;
    }
  }

  lemma {:induction false} RStripSpaceSuffix(u: string, ws: string)
    requires AllSpace(ws)
    ensures RStrip(u + ws) == RStrip(u)
  {
    if ws != [] {
      assert (u + ws)[..|u + ws| - 1] == u + ws[..|ws| - 1];
      RStripSpaceSuffix(u, ws[..|ws| - 1]);
    } else {
      assert u + ws == u;
    }
  }

  /** Trailing spaces are only ever removed from the part after a
      non-space character. */
  lemma {:induction false} RStripAfterNonSpace(x: string, y: string)
    requires x != [] && !IsSpace(x[|x| - 1])
    ensures RStrip(x + y) == x + RStrip(y)
  {
    if y == [] {
      assert x + y == x;
    } else if IsSpace(y[|y| - 1]) {
      assert (x + y)[..|x + y| - 1] == x + y[..|y| - 1];
      RStripAfterNonSpace(x, y[..|y| - 1]);
    } else {
      assert (x + y)[|x + y| - 1] == y[|y| - 1];
    }
  }

  lemma {:induction false} StripIgnoresSpaceSuffix(u: string, ws: string)
    requires AllSpace(ws)
    ensures Strip(u + ws) == Strip(u)
  {
    if u == [] {
      assert u + ws == ws;
      StripAllSpace(ws);
    } else if IsSpace(u[0]) {
      assert (u + ws)[1..] == u[1..] + ws;
      StripIgnoresSpaceSuffix(u[1..], ws);
    } else {
      assert LStrip(u + ws) == u + ws;
      RStripSpaceSuffix(u, ws);
    }
  }

  /** Surrounding whitespace never changes what `strip()` returns. */
  lemma StripSurroundingSpace(ws1: string, u: string, ws2: string)
    requires AllSpace(ws1) && AllSpace(ws2)
    ensures Strip(ws1 + u + ws2) == Strip(u)
  {
    calc {
      Strip(ws1 + u + ws2);
      { assert ws1 + u + ws2 == ws1 + (u + ws2); }
      RStrip(LStrip(ws1 + (u + ws2)));
      { LStripSpacePrefix(ws1, u + ws2); }
      RStrip(LStrip(u + ws2));
      { StripIgnoresSpaceSuffix(u, ws2); }
      Strip(u);
    }
  }

  // ---------------------------------------------------------------------------
  // Prefixes and substrings
  // ---------------------------------------------------------------------------

  /** `s.startswith(p)`. */
  predicate StartsWith(s: string, p: string) {
    |p| <= |s| && s[..|p|] == p
  }

  /** `t` occurs in `s` at position `i`. */
  predicate OccursAt(s: string, t: string, i: int) {
    0 <= i && i + |t| <= |s| && s[i..i + |t|] == t
  }

  /** Python's `t in s` for strings, searched left to right. */
  predicate Contains(s: string, t: string)
    decreases |s|
  {
    if |s| < |t| then false
    else if s[..|t|] == t then true
    else s != [] && Contains(s[1..], t)
  }

  lemma {:induction false} ContainsIff(s: string, t: string)
    ensures Contains(s, t) <==> exists i :: OccursAt(s, t, i)
    decreases |s|
  {
    if |s| < |t| {
    } else if s[..|t|] == t {
      assert OccursAt(s, t, 0);
    } else if s != [] {
      ContainsIff(s[1..], t);
      if Contains(s, t) {
        var j :| OccursAt(s[1..], t, j);
        assert s[1..][j..j + |t|] == s[j + 1..j + 1 + |t|];
        assert OccursAt(s, t, j + 1);
      }
      if exists i :: OccursAt(s, t, i) {
        var i :| OccursAt(s, t, i);
        assert i != 0;
        assert s[1..][i - 1..i - 1 + |t|] == s[i..i + |t|];
        assert OccursAt(s[1..], t, i - 1);
      }
    }
  }

  // ---------------------------------------------------------------------------
  // Maximal runs (what a greedy regex character class consumes)
  // ---------------------------------------------------------------------------

  /** The longest prefix of `s` whose characters all satisfy `p`. */
  function TakeWhile(s: string, p: char -> bool): (r: string)
    ensures |r| <= |s| && r == s[..|r|]
    ensures forall i :: 0 <= i < |r| ==> p(r[i])
    ensures |r| < |s| ==> !p(s[|r|])
  {
    if s != [] && p(s[0]) then [s[0]] + TakeWhile(s[1..], p) else []
  }

  /** A run of `p` characters followed by a character outside `p` (or by
      nothing) is exactly what `TakeWhile` returns. */
  lemma {:induction false} TakeWhileRun(x: string, y: string, p: char -> bool)
    requires forall i :: 0 <= i < |x| ==> p(x[i])
    requires y == [] || !p(y[0])
    ensures TakeWhile(x + y, p) == x
  {
    if x == [] {
      assert x + y == y;
    } else {
      assert (x + y)[0] == x[0];
      assert (x + y)[1..] == x[1..] + y;
      TakeWhileRun(x[1..], y, p);
      assert [x[0]] + x[1..] == x;
    }
  }

  // ---------------------------------------------------------------------------
  // Decimal numbers
  // ---------------------------------------------------------------------------

  predicate IsDigit(c: char) {
    '0' <= c <= '9'
  }

  /** A non-empty string of ASCII digits (the regex `\d+`). */
  predicate IsDigits(s: string) {
    s != [] && forall i :: 0 <= i < |s| ==> IsDigit(s[i])
  }

  function DigitValue(c: char): (d: nat)
    requires IsDigit(c)
    ensures d < 10
  {
    c as int - '0' as int
  }

  function DigitChar(d: nat): (c: char)
    requires d < 10
    ensures IsDigit(c) && DigitValue(c) == d
  {
    ('0' as int + d) as char
  }

  /** The value of a digit string, as Python's `int()` reads it (leading
      zeros allowed). */
  function DigitsValue(s: string): (r: nat)
    requires forall i :: 0 <= i < |s| ==> IsDigit(s[i])
  {
    if s == [] then 0 else 10 * DigitsValue(s[..|s| - 1]) + DigitValue(s[|s| - 1])
  }

  /** Python's `str(n)` for a non-negative integer: the canonical decimal
      numeral, without leading zeros. */
  function NatToString(n: nat): (r: string)
    ensures IsDigits(r)
    ensures |r| > 1 ==> r[0] != '0'
  {
    if n < 10 then [DigitChar(n)] else NatToString(n / 10) + [DigitChar(n % 10)]
  }

  /** Python's `str(i)` / f-string formatting of an integer. */
  function IntToString(i: int): (r: string) {
    if i < 0 then "-" + NatToString(-i) else NatToString(i)
  }

  lemma {:induction false} DecimalRoundTrip(n: nat)
    ensures DigitsValue(NatToString(n)) == n
  {
    if n >= 10 {
      DecimalRoundTrip(n / 10);
      var s := NatToString(n);
      assert s[..|s| - 1] == NatToString(n / 10);
    }
  }

  lemma DecimalInjective(m: nat, n: nat)
    requires NatToString(m) == NatToString(n)
    ensures m == n
  {
    DecimalRoundTrip(m);
    DecimalRoundTrip(n);
  }

  /** Distinct integers have distinct decimal renderings. */
  lemma IntToStringInjective(a: int, b: int)
    requires IntToString(a) == IntToString(b)
    ensures a == b
  {
    if a < 0 {
      assert IntToString(b)[0] == '-';
      assert NatToString(-a) == IntToString(a)[1..] == IntToString(b)[1..] == NatToString(-b);
      DecimalInjective(-a, -b);
    } else {
      assert IsDigit(IntToString(a)[0]);
      DecimalInjective(a, b);
    }
  }

  /** Python's `int(s)` on a string: surrounding whitespace, an optional sign
      and at least one digit; `None` where Python raises `ValueError`. */
  function ParseInt(s: string): (r: Option<int>) {
    var t := Strip(s);
    if t != [] && (t[0] == '+' || t[0] == '-') then
      if IsDigits(t[1..]) then
        var magnitude: int := DigitsValue(t[1..]);
        Some(if t[0] == '-' then -magnitude else magnitude)
      else None
    else if IsDigits(t) then Some(DigitsValue(t))
    else None
  }

  lemma IntRoundTrip(i: int)
    ensures ParseInt(IntToString(i)) == Some(i)
  {
    if i < 0 {
      NegativeRoundTrip(i);
    } else {
      NaturalRoundTrip(i);
    }
  }

  lemma NaturalRoundTrip(i: int)
    requires i >= 0
    ensures ParseInt(IntToString(i)) == Some(i)
  {
    var s := NatToString(i);
    assert IsDigit(s[0]) && IsDigit(s[|s| - 1]);
    StripKeepsTrimmed(s);
    DecimalRoundTrip(i);
  }

  lemma NegativeRoundTrip(i: int)
    requires i < 0
    ensures ParseInt(IntToString(i)) == Some(i)
  {
    var d := NatToString(-i);
    var s := "-" + d;
    assert s[0] == '-' && s[1..] == d;
    assert IsDigit(d[|d| - 1]) && s[|s| - 1] == d[|d| - 1];
    StripKeepsTrimmed(s);
    DecimalRoundTrip(-i);
  }

  // ---------------------------------------------------------------------------
  // ASCII case mapping
  // ---------------------------------------------------------------------------

  function LowerChar(c: char): (r: char) {
    if 'A' <= c <= 'Z' then (c as int + 32) as char else c
  }

  function UpperChar(c: char): (r: char) {
    if 'a' <= c <= 'z' then (c as int - 32) as char else c
  }

  /** `s.lower()` on ASCII letters. */
  function Lower(s: string): (r: string)
    ensures |r| == |s| && forall i :: 0 <= i < |s| ==> r[i] == LowerChar(s[i])
  {
    seq(|s|, i requires 0 <= i < |s| => LowerChar(s[i]))
  }

  predicate IsLowerWord(t: string) {
    forall i :: 0 <= i < |t| ==> 'a' <= t[i] <= 'z'
  }

  /** `s` spells `t` with any mixture of upper and lower case letters. */
  predicate IsCaseVariant(s: string, t: string) {
    |s| == |t| && forall i :: 0 <= i < |s| ==> s[i] == t[i] || s[i] == UpperChar(t[i])
  }

  lemma LowerMatchesCaseVariants(s: string, t: string)
    requires IsLowerWord(t)
    ensures Lower(s) == t <==> IsCaseVariant(s, t)
  {
    if IsCaseVariant(s, t) {
      assert forall i :: 0 <= i < |s| ==> Lower(s)[i] == t[i];
    }
    if Lower(s) == t {
      forall i | 0 <= i < |s|
        ensures s[i] == t[i] || s[i] == UpperChar(t[i])
      {
        assert LowerChar(s[i]) == t[i];
      }
    }
  }
}
