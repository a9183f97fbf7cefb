/** String helpers shared by the model: JavaScript's integer-to-string
    conversion (with its parsing partner), ASCII lower-casing and the
    whitespace trimming applied to header values, `join` and `substring`. */
module Text {
  import opened Wrappers

  predicate IsDigit(c: char) { '0' <= c <= '9' }

  predicate AllDigits(s: string) { forall i :: 0 <= i < |s| ==> IsDigit(s[i]) }

  function DigitChar(d: nat): (c: char)
    requires d < 10
    ensures IsDigit(c) && c as int - '0' as int == d
  {
    ('0' as int + d) as char
  }

  /** Decimal digits of a natural number, most significant first, without
      leading zeros (`(n).toString()` for a non-negative integer). */
  function NatToString(n: nat): (s: string)
    ensures |s| >= 1 && AllDigits(s)
    ensures n > 0 ==> s[0] != '0'
    ensures n == 0 ==> s == "0"
    decreases n
  {
    if n < 10 then [DigitChar(n)] else NatToString(n / 10) + [DigitChar(n % 10)]
  }

  /** `(i).toString()` for an integer `i`. */
  function IntToString(i: int): string {
    if i < 0 then "-" + NatToString(-i) else NatToString(i)
  }

  /** Value of a string of decimal digits. */
  function DigitsValue(s: string): nat
    requires AllDigits(s)
    decreases |s|
  {
    if s == [] then 0
    else DigitsValue(s[..|s| - 1]) * 10 + (s[|s| - 1] as int - '0' as int)
  }

  /** Parses an optionally negative decimal integer; `None` on anything else. */
  function ParseInt(s: string): Option<int> {
    if |s| >= 2 && s[0] == '-' && AllDigits(s[1..]) then Some(0 - DigitsValue(s[1..]))
    else if |s| >= 1 && AllDigits(s) then Some(DigitsValue(s))
    else None
  }

  lemma {:induction false} NatToStringValue(n: nat)
    ensures DigitsValue(NatToString(n)) == n
    decreases n
  {
    if n >= 10 {
      NatToStringValue(n / 10);
      var s := NatToString(n);
      assert s[..|s| - 1] == NatToString(n / 10);
    }
  }

  /** Parsing the decimal text of an integer gives the integer back. */
  lemma IntToStringRoundTrip(i: int)
    ensures ParseInt(IntToString(i)) == Some(i)
  {
    if i < 0 {
      var d := NatToString(-i);
      NatToStringValue(-i);
      MinusText(d);
      assert ParseInt("-" + d) == Some(0 - DigitsValue(d));
    } else {
      var d := NatToString(i);
      NatToStringValue(i);
      assert IsDigit(d[0]);
      assert ParseInt(d) == Some(DigitsValue(d));
    }
  }

  /** The layout of a minus sign followed by digits. */
  lemma MinusText(d: string)
    requires d != []
    ensures var s := "-" + d; |s| >= 2 && s[0] == '-' && s[1..] == d
  {
  }

  /** Distinct integers have distinct decimal texts. */
  lemma IntToStringInjective(a: int, b: int)
    requires IntToString(a) == IntToString(b)
    ensures a == b
  {
    IntToStringRoundTrip(a);
    IntToStringRoundTrip(b);
  }

  function AsciiLowerChar(c: char): char {
    if 'A' <= c <= 'Z' then (c as int + 32) as char else c
  }

  /** ASCII lower-casing, as header names are normalised. */
  function AsciiLower(s: string): (r: string)
    ensures |r| == |s|
    ensures forall i :: 0 <= i < |s| ==> r[i] == AsciiLowerChar(s[i])
  {
    seq(|s|, i requires 0 <= i < |s| => AsciiLowerChar(s[i]))
  }

  lemma AsciiLowerIdempotent(s: string)
    ensures AsciiLower(AsciiLower(s)) == AsciiLower(s)
  {
  }

  /** HTTP whitespace: tab, line feed, carriage return and space. */
  predicate IsHttpWhitespace(c: char) { c == ' ' || c == '\t' || c == '\n' || c == '\r' }

  /** Number of HTTP whitespace characters at the start of `s`. */
  function LeadingSpace(s: string): (n: nat)
    ensures n <= |s|
    ensures forall i :: 0 <= i < n ==> IsHttpWhitespace(s[i])
    ensures n < |s| ==> !IsHttpWhitespace(s[n])
    decreases |s|
  {
    if s != [] && IsHttpWhitespace(s[0]) then
      var n := 1 + LeadingSpace(s[1..]);
      assert forall i :: 1 <= i < n ==> s[i] == s[1..][i - 1];
      n
    else 0
  }

  /** Number of HTTP whitespace characters at the end of `s`. */
  function TrailingSpace(s: string): (n: nat)
    ensures n <= |s|
    ensures forall i :: |s| - n <= i < |s| ==> IsHttpWhitespace(s[i])
    ensures n < |s| ==> !IsHttpWhitespace(s[|s| - n - 1])
    decreases |s|
  {
    if s != [] && IsHttpWhitespace(s[|s| - 1]) then 1 + TrailingSpace(s[..|s| - 1]) else 0
  }

  function TrimStart(s: string): string {
    s[LeadingSpace(s)..]
  }

  function TrimEnd(s: string): string {
    s[..|s| - TrailingSpace(s)]
  }

  /** Removes leading and trailing HTTP whitespace (header value normalisation). */
  function Trim(s: string): string {
    TrimEnd(TrimStart(s))
  }

  /** A trimmed string neither starts nor ends with HTTP whitespace, and is the
      piece of the original that is left once only whitespace is cut off at
      either end. */
  lemma TrimSpec(s: string)
    ensures var r, a := Trim(s), |s| - |TrimStart(s)|;
      && (r == [] || (!IsHttpWhitespace(r[0]) && !IsHttpWhitespace(r[|r| - 1])))
      && a + |r| <= |s| && r == s[a..a + |r|]
      && (forall i :: 0 <= i < a ==> IsHttpWhitespace(s[i]))
      && (forall i :: a + |r| <= i < |s| ==> IsHttpWhitespace(s[i]))
  {
    var a := LeadingSpace(s);
    var t := s[a..];
    var b := TrailingSpace(t);
    var r := t[..|t| - b];
    assert r == s[a..a + |r|];
    forall i | a + |r| <= i < |s|
      ensures IsHttpWhitespace(s[i])
    {
      assert s[i] == t[i - a];
    }
    if r != [] {
      assert r[0] == s[a];
      assert r[|r| - 1] == t[|t| - b - 1];
    }
  }

  lemma TrimIdempotent(s: string)
    ensures Trim(Trim(s)) == Trim(s)
  {
    var r := Trim(s);
    TrimSpec(s);
    assert LeadingSpace(r) == 0 && TrimStart(r) == r;
    assert TrailingSpace(r) == 0;
  }

  /** `parts.join(sep)`. */
  function Join(parts: seq<string>, sep: string): string
    decreases |parts|
  {
    if parts == [] then ""
    else if |parts| == 1 then parts[0]
    else parts[0] + sep + Join(parts[1..], sep)
  }

  /** `s.substring(n)` for a non-negative `n`: empty once `n` passes the end. */
  function SubstringFrom(s: string, n: nat): (r: string)
    ensures n <= |s| ==> s == s[..n] + r
    ensures n >= |s| ==> r == ""
  {
    if n <= |s| then s[n..] else ""
  }

  predicate StartsWith(s: string, prefix: string) {
    |prefix| <= |s| && s[..|prefix|] == prefix
  }
}
