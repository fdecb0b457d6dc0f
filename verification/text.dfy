/** The string behaviour of JavaScript that the client relies on:
    `String.prototype.trim`, `String.prototype.length` (UTF-16 code units)
    and the decimal rendering of a number inside a template literal. */
module Text {

  /** The characters `trim` removes: ECMAScript WhiteSpace (tab, vertical
      tab, form feed, space, no-break space, byte order mark and the other
      space separators) and LineTerminator (LF, CR, U+2028, U+2029). */
  predicate IsWhitespace(c: char) {
    || c == '\t' || c == '\n' || c == '\U{000B}' || c == '\U{000C}' || c == '\r'
    || c == ' ' || c == '\U{00A0}' || c == '\U{1680}'
    || ('\U{2000}' <= c <= '\U{200A}')
    || c == '\U{2028}' || c == '\U{2029}' || c == '\U{202F}' || c == '\U{205F}'
    || c == '\U{3000}' || c == '\U{FEFF}'
  }

  function TrimStart(s: string): (r: string)
    ensures |r| <= |s| && r == s[|s| - |r|..]
    ensures r == [] || !IsWhitespace(r[0])
    ensures forall i :: 0 <= i < |s| - |r| ==> IsWhitespace(s[i])
  {
    if s != [] && IsWhitespace(s[0]) then TrimStart(s[1..]) else s
  }

  function TrimEnd(s: string): (r: string)
    ensures |r| <= |s| && r == s[..|r|]
    ensures r == [] || !IsWhitespace(r[|r| - 1])
    ensures forall i :: |r| <= i < |s| ==> IsWhitespace(s[i])
  {
    if s != [] && IsWhitespace(s[|s| - 1]) then TrimEnd(s[..|s| - 1]) else s
  }

  /** How many whitespace characters `s` starts with. */
  function LeadingWhitespace(s: string): (k: nat)
    ensures k <= |s|
    ensures forall i :: 0 <= i < k ==> IsWhitespace(s[i])
    ensures k == |s| || !IsWhitespace(s[k])
  {
    |s| - |TrimStart(s)|
  }

  /** `s.trim()`: whitespace dropped from both ends. */
  function Trim(s: string): (r: string)
    ensures |r| <= |s|
  {
    TrimEnd(TrimStart(s))
  }

  /** What `trim` leaves is the slice of `s` that starts after its leading
      whitespace. */
  lemma TrimIsMiddleSlice(s: string)
    ensures LeadingWhitespace(s) + |Trim(s)| <= |s|
    ensures Trim(s) == s[LeadingWhitespace(s)..LeadingWhitespace(s) + |Trim(s)|]
  {
    var front := TrimStart(s);
    assert Trim(s) == front[..|Trim(s)|];
  }

  /** Only whitespace is cut off after that slice. */
  lemma TrimCutsOnlyWhitespace(s: string)
    ensures forall i :: LeadingWhitespace(s) + |Trim(s)| <= i < |s| ==> IsWhitespace(s[i])
  {
    var front := TrimStart(s);
    var k := |s| - |front|;
    var r := TrimEnd(front);
    assert r == Trim(s);
    assert front == s[k..];
    forall i | k + |r| <= i < |s| ensures IsWhitespace(s[i]) {
      assert |r| <= i - k < |front|;
      assert s[i] == front[i - k];
    }
  }

  /** The trimmed string neither starts nor ends with whitespace. */
  lemma TrimmedEnds(s: string)
    ensures Trim(s) == [] || (!IsWhitespace(Trim(s)[0]) && !IsWhitespace(Trim(s)[|Trim(s)| - 1]))
  {
    var front := TrimStart(s);
    if Trim(s) != [] {
      assert Trim(s)[0] == front[0];
    }
  }

  /** A string is blank after trimming exactly when every character is
      whitespace; this is what makes `if (!s.trim())` a blank-input test. */
  lemma {:induction false} TrimEmptyIffBlank(s: string)
    ensures Trim(s) == [] <==> forall i :: 0 <= i < |s| ==> IsWhitespace(s[i])
  {
    TrimIsMiddleSlice(s);
    TrimCutsOnlyWhitespace(s);
    TrimmedEnds(s);
    var r := Trim(s);
    var k := LeadingWhitespace(s);
    if r != [] {
      assert s[k] == r[0] && !IsWhitespace(s[k]);
    }
  }

  /** The number of UTF-16 code units JavaScript counts for `s`: characters
      outside the Basic Multilingual Plane take two. */
  function Utf16Length(s: string): (n: nat)
    ensures |s| <= n <= 2 * |s|
    ensures (s == []) <==> (n == 0)
  {
    if s == [] then 0
    else (if s[0] as int > 0xFFFF then 2 else 1) + Utf16Length(s[1..])
  }

  function DigitChar(d: nat): (c: char)
    requires d < 10
    ensures '0' <= c <= '9' && (c as int) - ('0' as int) == d
  {
    (d + '0' as int) as char
  }

  /** The decimal numeral JavaScript prints for a natural number. */
  function NatToString(n: nat): (s: string)
    ensures s != [] && forall i :: 0 <= i < |s| ==> '0' <= s[i] <= '9'
    ensures |s| > 1 ==> s[0] != '0'
  {
    if n < 10 then [DigitChar(n)] else NatToString(n / 10) + [DigitChar(n % 10)]
  }

  /** The decimal numeral JavaScript prints for an integer. */
  function IntToString(i: int): (s: string)
    ensures i < 0 <==> (s != [] && s[0] == '-')
  {
    if i < 0 then "-" + NatToString(-i) else NatToString(i)
  }

  /** The value of a string of decimal digits. */
  function DigitsValue(s: string): nat
    requires forall i :: 0 <= i < |s| ==> '0' <= s[i] <= '9'
  {
    if s == [] then 0
    else 10 * DigitsValue(s[..|s| - 1]) + ((s[|s| - 1] as int) - ('0' as int))
  }

  /** Printing a natural number and reading the digits back gives the number:
      the rendering loses nothing. */
  lemma {:induction false} NatToStringRoundTrip(n: nat)
    ensures DigitsValue(NatToString(n)) == n
  {
    if n >= 10 {
      NatToStringRoundTrip(n / 10);
      var s := NatToString(n);
      assert s[..|s| - 1] == NatToString(n / 10);
    }
  }
}
