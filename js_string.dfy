/** The few JavaScript string primitives the generator relies on, stated exactly:
    String.prototype.trim, String.prototype.includes, toLowerCase on ASCII labels and the
    decimal rendering of a non-negative integer inside a template literal. */
module JsString {

  /** The code points ECMAScript's trim removes: the WhiteSpace set (tab, vertical tab,
      form feed, space, no-break space, byte order mark and every Zs space separator) and
      the LineTerminator set (line feed, carriage return, line and paragraph separator). */
  predicate IsJsWhitespace(c: char) {
    || c == '\t' || c == '\n' || c == '\U{000B}' || c == '\U{000C}' || c == '\r' || c == ' '
    || c == '\U{00A0}' || c == '\U{1680}' || ('\U{2000}' <= c <= '\U{200A}')
    || c == '\U{2028}' || c == '\U{2029}' || c == '\U{202F}' || c == '\U{205F}'
    || c == '\U{3000}' || c == '\U{FEFF}'
  }

  /** Drops the leading whitespace: what is left is a suffix that does not start with
      whitespace, and everything dropped was whitespace. */
  function TrimStart(s: string): (r: string)
    ensures |r| <= |s| && forall i :: 0 <= i < |r| ==> r[i] == s[|s| - |r| + i]
    ensures forall i :: 0 <= i < |s| - |r| ==> IsJsWhitespace(s[i])
    ensures r == [] || !IsJsWhitespace(r[0])
    decreases |s|
  {
    if s != [] && IsJsWhitespace(s[0]) then
      var r := TrimStart(s[1..]);
      assert forall i :: 0 <= i < |r| ==> r[i] == s[|s| - |r| + i] by {
        forall i | 0 <= i < |r| ensures r[i] == s[|s| - |r| + i] { assert r[i] == s[1..][|s| - 1 - |r| + i]; }
      }
      r
    else s
  }

  /** Drops the trailing whitespace: what is left is a prefix that does not end with
      whitespace, and everything dropped was whitespace. */
  function TrimEnd(s: string): (r: string)
    ensures |r| <= |s| && forall i :: 0 <= i < |r| ==> r[i] == s[i]
    ensures forall i :: |r| <= i < |s| ==> IsJsWhitespace(s[i])
    ensures r == [] || !IsJsWhitespace(r[|r| - 1])
    decreases |s|
  {
    if s != [] && IsJsWhitespace(s[|s| - 1]) then TrimEnd(s[..|s| - 1]) else s
  }

  /** sub occurs in s starting at position i. */
  predicate OccursAt(s: string, sub: string, i: int) {
    0 <= i && i + |sub| <= |s| && s[i..i + |sub|] == sub
  }

  /** A string that agrees with s character by character from position k occurs there. */
  lemma SliceMatches(s: string, sub: string, k: nat)
    requires k + |sub| <= |s| && forall j :: 0 <= j < |sub| ==> sub[j] == s[k + j]
    ensures OccursAt(s, sub, k)
  {
    assert s[k..k + |sub|] == sub;
  }

  /** No whitespace at either end. */
  predicate Unpadded(s: string) {
    s == [] || (!IsJsWhitespace(s[0]) && !IsJsWhitespace(s[|s| - 1]))
  }

  /** String.prototype.trim: a contiguous middle of s with no whitespace at either end. */
  function Trim(s: string): (r: string)
    ensures exists i :: OccursAt(s, r, i)
    ensures r == [] || (!IsJsWhitespace(r[0]) && !IsJsWhitespace(r[|r| - 1]))
  {
    var t := TrimStart(s);
    var r := TrimEnd(t);
    SliceMatches(s, r, |s| - |t|);
    r
  }

  /** What trim removes is whitespace: the trimmed middle starts where the leading
      whitespace ends, and everything before and after it is whitespace. */
  lemma TrimDropsOnlyWhitespace(s: string)
    ensures var i := |s| - |TrimStart(s)|;
            && i + |Trim(s)| <= |s| && (forall j :: 0 <= j < |Trim(s)| ==> Trim(s)[j] == s[i + j])
            && (forall j :: 0 <= j < i ==> IsJsWhitespace(s[j]))
            && (forall j :: i + |Trim(s)| <= j < |s| ==> IsJsWhitespace(s[j]))
  {
    TrimKeepsMiddle(s);
    TrimDropsTrailing(s);
  }

  lemma TrimKeepsMiddle(s: string)
    ensures var i := |s| - |TrimStart(s)|;
            && i + |Trim(s)| <= |s| && forall j :: 0 <= j < |Trim(s)| ==> Trim(s)[j] == s[i + j]
  {
    var t := TrimStart(s);
    var r := TrimEnd(t);
    assert Trim(s) == r;
    forall j | 0 <= j < |r|
      ensures r[j] == s[|s| - |t| + j]
    {
      assert r[j] == t[j];
    }
  }

  lemma TrimDropsTrailing(s: string)
    ensures forall j :: |s| - |TrimStart(s)| + |Trim(s)| <= j < |s| ==> IsJsWhitespace(s[j])
  {
    var t := TrimStart(s);
    var r := TrimEnd(t);
    assert Trim(s) == r;
    var k := |s| - |t|;
    forall j | k + |r| <= j < |s|
      ensures IsJsWhitespace(s[j])
    {
      assert s[j] == t[j - k];
    }
  }

  /** A string trims to nothing exactly when all of it is whitespace. */
  lemma TrimEmptyIffBlank(s: string)
    ensures Trim(s) == [] <==> forall i :: 0 <= i < |s| ==> IsJsWhitespace(s[i])
  {
    var t := TrimStart(s);
    if t != [] {
      assert TrimEnd(t) != [] by { assert !IsJsWhitespace(t[0]); }
      assert !IsJsWhitespace(s[|s| - |t|]);
    }
  }

  /** A string with no whitespace at either end is its own trim. */
  lemma TrimFixesUnpadded(s: string)
    requires s == [] || (!IsJsWhitespace(s[0]) && !IsJsWhitespace(s[|s| - 1]))
    ensures Trim(s) == s
  {
  }

  /** String.prototype.includes: does sub occur in s at some position? */
  function Includes(s: string, sub: string): (r: bool)
    ensures r <==> exists i :: OccursAt(s, sub, i)
    decreases |s|
  {
    if sub <= s then
      assert OccursAt(s, sub, 0);
      true
    else if |s| <= |sub| then
      assert forall i :: OccursAt(s, sub, i) ==> i == 0;
      false
    else
      var r := Includes(s[1..], sub);
      assert forall i :: OccursAt(s[1..], sub, i) <==> OccursAt(s, sub, i + 1);
      assert forall i :: OccursAt(s, sub, i) ==> OccursAt(s[1..], sub, i - 1);
      r
  }

  /** toLowerCase restricted to the ASCII letters, which is all it meets in this model. */
  function LowerChar(c: char): char {
    if 'A' <= c <= 'Z' then (c as int + 32) as char else c
  }

  /** toUpperCase restricted to the ASCII letters; it is the canonical form a
      case-insensitive regular expression compares ASCII characters by. */
  function UpperChar(c: char): char {
    if 'a' <= c <= 'z' then (c as int - 32) as char else c
  }

  /** toLowerCase on ASCII text: no upper-case letter is left, and each character is the
      input's up to case. */
  function AsciiLower(s: string): (r: string)
    ensures |r| == |s|
    ensures forall i :: 0 <= i < |r| ==> !('A' <= r[i] <= 'Z') && UpperChar(r[i]) == UpperChar(s[i])
  {
    seq(|s|, i requires 0 <= i < |s| => LowerChar(s[i]))
  }

  predicate IsDigit(c: char) {
    '0' <= c <= '9'
  }

  function DigitChar(d: nat): (c: char)
    requires d < 10
    ensures IsDigit(c) && c as int - '0' as int == d
  {
    ('0' as int + d) as char
  }

  /** The text a template literal shows for a non-negative integer: its decimal digits,
      with no leading zero. */
  function Decimal(n: nat): (r: string)
    ensures |r| >= 1 && forall i :: 0 <= i < |r| ==> IsDigit(r[i])
    ensures r[0] == '0' ==> n == 0
    decreases n
  {
    if n < 10 then [DigitChar(n)] else Decimal(n / 10) + [DigitChar(n % 10)]
  }

  function DigitOf(c: char): (d: nat)
    requires IsDigit(c)
    ensures d < 10
  {
    c as int - '0' as int
  }

  /** The number a string of decimal digits denotes. */
  function DigitsValue(s: string): nat
    requires forall i :: 0 <= i < |s| ==> IsDigit(s[i])
  {
    if s == [] then 0 else DigitsValue(s[..|s| - 1]) * 10 + DigitOf(s[|s| - 1])
  }

  /** Reading back the decimal rendering gives the number again, so distinct statuses
      never render alike. */
  lemma {:induction false} DecimalRoundTrip(n: nat)
    ensures DigitsValue(Decimal(n)) == n
    decreases n
  {
    if n >= 10 {
      DecimalRoundTrip(n / 10);
      var d := Decimal(n);
      assert d[..|d| - 1] == Decimal(n / 10);
    }
  }
}
