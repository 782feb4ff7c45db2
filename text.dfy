/**
 * String helpers shared by the PHP admin pages and the Python bot: ASCII digits,
 * decimal rendering of integers, joining and splitting on a separator, and the
 * trimming and truthiness rules of the two languages.
 */
module Text {
  import opened Wrappers

  /** `\d` without Unicode mode: an ASCII digit. */
  predicate IsDigit(c: char) {
    '0' <= c <= '9'
  }

  predicate AllDigits(s: string) {
    forall i :: 0 <= i < |s| ==> IsDigit(s[i])
  }

  /** The digits of `s` in order; PHP `preg_replace('/[^\d]/', '', s)`. */
  function DigitsOnly(s: string): (r: string)
    ensures |r| <= |s|
    ensures AllDigits(r)
    ensures AllDigits(s) ==> r == s
  {
    if s == [] then []
    else (if IsDigit(s[0]) then [s[0]] else []) + DigitsOnly(s[1..])
  }

  /** How many ASCII digits `s` holds. */
  function DigitCount(s: string): nat {
    |DigitsOnly(s)|
  }

  lemma {:induction false} DigitsOnlyAppend(a: string, b: string)
    ensures DigitsOnly(a + b) == DigitsOnly(a) + DigitsOnly(b)
    decreases |a|
  {
    if a == [] {
      assert a + b == b;
    } else {
      assert (a + b)[0] == a[0];
      assert (a + b)[1..] == a[1..] + b;
      DigitsOnlyAppend(a[1..], b);
    }
  }

  /** A slice never holds more digits than the whole string. */
  lemma DigitCountSlice(s: string, i: nat, j: nat)
    requires i <= j <= |s|
    ensures DigitCount(s[i..j]) <= DigitCount(s)
  {
    assert s == s[..i] + (s[i..j] + s[j..]);
    DigitsOnlyAppend(s[..i], s[i..j] + s[j..]);
    DigitsOnlyAppend(s[i..j], s[j..]);
  }

  /** The digits of two adjacent slices add up. */
  lemma DigitCountSplit(s: string, i: nat, j: nat, k: nat)
    requires i <= j <= k <= |s|
    ensures DigitCount(s[i..k]) == DigitCount(s[i..j]) + DigitCount(s[j..k])
  {
    assert s[i..k] == s[i..j] + s[j..k];
    DigitsOnlyAppend(s[i..j], s[j..k]);
  }

  // ---------------------------------------------------------------------------
  // Decimal numbers

  function DigitValue(c: char): nat
    requires IsDigit(c)
  {
    (c as int) - ('0' as int)
  }

  function DigitChar(d: nat): (c: char)
    requires d < 10
    ensures IsDigit(c) && DigitValue(c) == d
  {
    (('0' as int) + d) as char
  }

  /** The value of a run of decimal digits, most significant first (Python `int`, PHP `(int)`). */
  function DecimalValue(s: string): nat
    requires AllDigits(s)
  {
    if s == [] then 0 else DecimalValue(s[..|s| - 1]) * 10 + DigitValue(s[|s| - 1])
  }

  /** The canonical decimal form of `n`, as PHP and Python interpolate an integer. */
  function NatToDecimal(n: nat): (r: string)
    ensures 1 <= |r| && AllDigits(r)
    ensures DecimalValue(r) == n
    ensures |r| > 1 ==> r[0] != '0'
  {
    if n < 10 then [DigitChar(n)]
    else
      var front := NatToDecimal(n / 10);
      var r := front + [DigitChar(n % 10)];
      assert r[..|r| - 1] == front;
      r
  }

  function IntToDecimal(i: int): (r: string)
    ensures i >= 0 ==> r == NatToDecimal(i)
    ensures i < 0 ==> r == "-" + NatToDecimal(-i)
  {
    if i < 0 then "-" + NatToDecimal(-i) else NatToDecimal(i)
  }

  // ---------------------------------------------------------------------------
  // Joining and splitting on a one-character separator

  /** Python `sep.join(parts)` and PHP `implode(sep, parts)`. */
  function Join(parts: seq<string>, sep: string): string {
    if |parts| == 0 then ""
    else if |parts| == 1 then parts[0]
    else parts[0] + sep + Join(parts[1..], sep)
  }

  /** The first position of `c` in `s`. */
  function IndexOf(s: string, c: char): (r: Option<nat>)
    ensures r.Some? ==> r.value < |s| && s[r.value] == c && c !in s[..r.value]
    ensures r.None? ==> c !in s
  {
    if s == [] then None
    else if s[0] == c then Some(0)
    else
      var rest := IndexOf(s[1..], c);
      if rest.None? then None
      else
        assert s[..rest.value + 1] == [s[0]] + s[1..][..rest.value];
        Some(rest.value + 1)
  }

  /** PHP `explode(c, s)` and Python `s.split(c)` for a one-character separator. */
  function Split(s: string, c: char): (r: seq<string>)
    ensures |r| >= 1
    ensures forall i :: 0 <= i < |r| ==> c !in r[i]
    decreases |s|
  {
    match IndexOf(s, c)
    case None => [s]
    case Some(i) => [s[..i]] + Split(s[i + 1..], c)
  }

  /** Splitting undoes joining when no part holds the separator. */
  lemma {:induction false} SplitJoin(parts: seq<string>, c: char)
    requires |parts| >= 1
    requires forall i :: 0 <= i < |parts| ==> c !in parts[i]
    ensures Split(Join(parts, [c]), c) == parts
    decreases |parts|
  {
    if |parts| == 1 {
      assert Join(parts, [c]) == parts[0];
    } else {
      var p := parts[0];
      var rest := Join(parts[1..], [c]);
      var s := Join(parts, [c]);
      assert s == p + [c] + rest;
      assert s[|p|] == c;
      assert IndexOf(s, c) == Some(|p|);
      assert s[..|p|] == p;
      assert s[|p| + 1..] == rest;
      SplitJoin(parts[1..], c);
      assert parts == [p] + parts[1..];
    }
  }

  // ---------------------------------------------------------------------------
  // Trimming

  /** Drops leading characters that satisfy `strip`. */
  function StripLeft(s: string, strip: char -> bool): (r: string)
    ensures |r| <= |s| && r == s[|s| - |r|..]
    ensures r == [] || !strip(r[0])
    ensures forall i :: 0 <= i < |s| - |r| ==> strip(s[i])
  {
    if s == [] || !strip(s[0]) then s else StripLeft(s[1..], strip)
  }

  /** Drops trailing characters that satisfy `strip`. */
  function StripRight(s: string, strip: char -> bool): (r: string)
    ensures |r| <= |s| && r == s[..|r|]
    ensures r == [] || !strip(r[|r| - 1])
    ensures forall i :: |r| <= i < |s| ==> strip(s[i])
  {
    if s == [] || !strip(s[|s| - 1]) then s else StripRight(s[..|s| - 1], strip)
  }

  function Strip(s: string, strip: char -> bool): string {
    StripRight(StripLeft(s, strip), strip)
  }

  /**
   * `r` is `s` with a run of `strip` characters cut from each end, and neither
   * end of `r` could be cut further.
   */
  predicate StrippedFrom(r: string, s: string, strip: char -> bool) {
    (r == [] || (!strip(r[0]) && !strip(r[|r| - 1])))
    && exists k :: 0 <= k <= |s| - |r| && r <= s[k..]
         && (forall i :: 0 <= i < k ==> strip(s[i]))
         && (forall i :: k + |r| <= i < |s| ==> strip(s[i]))
  }

  lemma StripShape(s: string, strip: char -> bool)
    ensures StrippedFrom(Strip(s, strip), s, strip)
  {
    var l := StripLeft(s, strip);
    var r := StripRight(l, strip);
    var k := |s| - |l|;
    assert r <= s[k..];
    forall i | k + |r| <= i < |s|
      ensures strip(s[i])
    {
      assert s[i] == l[i - k];
    }
  }

  /** The characters PHP `trim` removes by default: space, tab, newline, carriage return, NUL, vertical tab. */
  predicate IsPhpTrimChar(c: char) {
    c == ' ' || c == '\t' || c == '\n' || c == '\r' || c == '\0' || c == '\U{0B}'
  }

  function PhpTrim(s: string): string {
    Strip(s, IsPhpTrimChar)
  }

  /** Python `str.isspace`: the characters Python `str.strip()` removes. */
  predicate IsPyWhitespace(c: char) {
    ('\t' <= c <= '\r') || ('\U{1C}' <= c <= ' ') || c == '\U{85}' || c == '\U{A0}'
    || c == '\U{1680}' || ('\U{2000}' <= c <= '\U{200A}') || c == '\U{2028}' || c == '\U{2029}'
    || c == '\U{202F}' || c == '\U{205F}' || c == '\U{3000}'
  }

  function PyStrip(s: string): string {
    Strip(s, IsPyWhitespace)
  }

  /** PHP `empty($s)` / `!$s` for a string: the empty string and "0" are falsy. */
  predicate PhpFalsy(s: string) {
    s == "" || s == "0"
  }
}
