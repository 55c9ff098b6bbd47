/** String primitives of the JavaScript runtime that the chat client relies on:
    `String.prototype.trim`, the `length` of a string (UTF-16 code units) and
    the decimal rendering of a count inside a template literal. */
module Text {

  /** ECMAScript WhiteSpace and LineTerminator characters: exactly what
      `trim` strips and what the regular-expression class `\s` matches. */
  const JsWhitespace: set<char> := {
    '\t', '\n', '\U{000B}', '\U{000C}', '\r', ' ', '\U{00A0}', '\U{1680}',
    '\U{2000}', '\U{2001}', '\U{2002}', '\U{2003}', '\U{2004}', '\U{2005}',
    '\U{2006}', '\U{2007}', '\U{2008}', '\U{2009}', '\U{200A}',
    '\U{2028}', '\U{2029}', '\U{202F}', '\U{205F}', '\U{3000}', '\U{FEFF}'
  }

  predicate IsWhitespace(c: char)
  {
    c in JsWhitespace
  }

  predicate AllWhitespace(s: string)
  {
    forall i :: 0 <= i < |s| ==> IsWhitespace(s[i])
  }

  /** Number of whitespace characters at the start of `s`. */
  function LeadingSpace(s: string): (n: nat)
    ensures n <= |s|
    ensures forall i :: 0 <= i < n ==> IsWhitespace(s[i])
    ensures n < |s| ==> !IsWhitespace(s[n])
  {
    if s != [] && IsWhitespace(s[0]) then
      var rest := s[1..];
      var m := LeadingSpace(rest);
      assert forall i :: 1 <= i < |s| ==> s[i] == rest[i - 1];
      m + 1
    else 0
  }

  /** Number of whitespace characters at the end of `s`. */
  function TrailingSpace(s: string): (n: nat)
    ensures n <= |s|
    ensures forall i :: |s| - n <= i < |s| ==> IsWhitespace(s[i])
    ensures n < |s| ==> !IsWhitespace(s[|s| - n - 1])
  {
    if s != [] && IsWhitespace(s[|s| - 1]) then
      var init := s[..|s| - 1];
      var m := TrailingSpace(init);
      assert forall i :: 0 <= i < |init| ==> s[i] == init[i];
      m + 1
    else 0
  }

  /** `String.prototype.trim`: the input without the whitespace at its
      start and at its end; empty exactly when the input is all whitespace. */
  function Trim(s: string): (r: string)
    ensures r == [] <==> AllWhitespace(s)
  {
    var a := LeadingSpace(s);
    var t := s[a..];
    TrimEmptyIff(s, a, t, TrailingSpace(t));
    t[..|t| - TrailingSpace(t)]
  }

  lemma TrimEmptyIff(s: string, a: nat, t: string, k: nat)
    requires a == LeadingSpace(s) && t == s[a..] && k == TrailingSpace(t)
    ensures k == |t| <==> AllWhitespace(s)
  {
    if AllWhitespace(s) {
      assert a == |s|;
    }
    if k == |t| {
      assert a == |s|;
    }
  }

  /** The trim is the slice of the input between its leading and its trailing
      whitespace, and it neither starts nor ends with whitespace. */
  lemma TrimShape(s: string)
    ensures var r := Trim(s);
      var a := LeadingSpace(s);
      && a + |r| <= |s| && r == s[a..a + |r|]
      && (forall i :: 0 <= i < a ==> IsWhitespace(s[i]))
      && (forall i :: a + |r| <= i < |s| ==> IsWhitespace(s[i]))
      && (r != [] ==> !IsWhitespace(r[0]) && !IsWhitespace(r[|r| - 1]))
  {
    var a := LeadingSpace(s);
    var t := s[a..];
    var k := TrailingSpace(t);
    var r := t[..|t| - k];
    assert r == Trim(s);
    assert r == s[a..a + |r|];
    forall i | a + |r| <= i < |s| ensures IsWhitespace(s[i]) {
      assert s[i] == t[i - a];
    }
    if r != [] {
      assert r[0] == t[0];
      assert r[|r| - 1] == t[|t| - k - 1];
    }
  }

  /** A string with no whitespace at either end is its own trim. */
  lemma TrimOfTrimmed(s: string)
    requires s == [] || (!IsWhitespace(s[0]) && !IsWhitespace(s[|s| - 1]))
    ensures Trim(s) == s
  {
    assert LeadingSpace(s) == 0;
    assert TrailingSpace(s) == 0;
  }

  /** `trim` is idempotent. */
  lemma TrimIdempotent(s: string)
    ensures Trim(Trim(s)) == Trim(s)
  {
    TrimShape(s);
    TrimOfTrimmed(Trim(s));
  }

  lemma {:induction false} LeadingSpaceAppend(s: string, c: char)
    requires !AllWhitespace(s)
    ensures LeadingSpace(s + [c]) == LeadingSpace(s)
  {
    if IsWhitespace(s[0]) {
      assert (s + [c])[1..] == s[1..] + [c];
      assert !AllWhitespace(s[1..]) by {
        var i :| 0 <= i < |s| && !IsWhitespace(s[i]);
        assert i > 0 && s[1..][i - 1] == s[i];
      }
      LeadingSpaceAppend(s[1..], c);
    }
  }

  /** Whitespace added in front of a string does not change its trim. */
  lemma TrimPadStart(s: string, c: char)
    requires IsWhitespace(c)
    ensures Trim([c] + s) == Trim(s)
  {
    assert ([c] + s)[1..] == s;
    assert ([c] + s)[1 + LeadingSpace(s)..] == s[LeadingSpace(s)..];
  }

  /** Whitespace added after a string does not change its trim. */
  lemma TrimPadEnd(s: string, c: char)
    requires IsWhitespace(c)
    ensures Trim(s + [c]) == Trim(s)
  {
    if AllWhitespace(s) {
      assert AllWhitespace(s + [c]);
    } else {
      LeadingSpaceAppend(s, c);
      var a := LeadingSpace(s);
      var t := s[a..];
      assert (s + [c])[a..] == t + [c];
      assert (t + [c])[..|t + [c]| - 1] == t;
      assert TrailingSpace(t + [c]) == 1 + TrailingSpace(t);
    }
  }

  /** JavaScript `length`: characters outside the Basic Multilingual Plane
      are two UTF-16 code units. */
  function Utf16Length(s: string): (n: nat)
    ensures |s| <= n <= 2 * |s|
    ensures n == |s| <==> forall i :: 0 <= i < |s| ==> s[i] as int < 0x1_0000
  {
    if s == [] then 0
    else
      var rest := Utf16Length(s[1..]);
      assert forall i :: 1 <= i < |s| ==> s[i] == s[1..][i - 1];
      (if s[0] as int < 0x1_0000 then 1 else 2) + rest
  }

  predicate IsDigit(c: char)
  {
    '0' <= c <= '9'
  }

  function DigitChar(d: nat): (c: char)
    requires d < 10
    ensures IsDigit(c) && c as int - '0' as int == d
  {
    ('0' as int + d) as char
  }

  function DigitValue(c: char): (d: nat)
    requires IsDigit(c)
    ensures d < 10
  {
    c as int - '0' as int
  }

  /** The number a string of decimal digits denotes. */
  function DecimalValue(s: string): nat
    requires forall i :: 0 <= i < |s| ==> IsDigit(s[i])
  {
    if s == [] then 0
    else DecimalValue(s[..|s| - 1]) * 10 + DigitValue(s[|s| - 1])
  }

  /** How a template literal renders a non-negative integer. */
  function NatToDecimal(n: nat): (r: string)
    ensures r != []
    ensures forall i :: 0 <= i < |r| ==> IsDigit(r[i])
    ensures r[0] == '0' ==> n == 0
  {
    if n < 10 then [DigitChar(n)]
    else NatToDecimal(n / 10) + [DigitChar(n % 10)]
  }

  /** The rendering is read back as the same number. */
  lemma {:induction false} DecimalRoundTrip(n: nat)
    ensures DecimalValue(NatToDecimal(n)) == n
  {
    var r := NatToDecimal(n);
    if n >= 10 {
      assert r[..|r| - 1] == NatToDecimal(n / 10);
      DecimalRoundTrip(n / 10);
    } else {
      assert r[..|r| - 1] == [];
    }
  }
}
