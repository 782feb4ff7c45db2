/**
 * The phone-number extractor of the admin panel (`extract_phone_from_comment` in
 * admin/admin.php) and its simpler copy in the order modal's script.
 *
 * Each regular expression of the source is written out as a scanner over the
 * comment's characters that returns the same leftmost match, with the same
 * backtracking choices, as the regex engine would.
 */
module PhoneExtract {
  import opened Wrappers
  import opened Text

  // ---------------------------------------------------------------------------
  // Character classes

  /** `\w` outside Unicode mode: ASCII letters, digits and underscore. */
  predicate IsWordChar(c: char) {
    IsDigit(c) || ('a' <= c <= 'z') || ('A' <= c <= 'Z') || c == '_'
  }

  /** `\s`: space, tab, line feed, vertical tab, form feed, carriage return. */
  predicate IsSpace(c: char) {
    c == ' ' || ('\t' <= c <= '\r')
  }

  /** `[\s\-]` */
  predicate IsSeparator(c: char) {
    IsSpace(c) || c == '-'
  }

  /** `[\+\d\s\-\(\)\.]`, the characters of a keyword-anchored number. */
  predicate IsPhoneChar(c: char) {
    c == '+' || IsDigit(c) || IsSpace(c) || c == '-' || c == '(' || c == ')' || c == '.'
  }

  /** `[\s:]` */
  predicate IsSpaceOrColon(c: char) {
    IsSpace(c) || c == ':'
  }

  /** `n` ASCII digits start at `i`. */
  predicate DigitsAt(s: string, i: nat, n: nat) {
    i + n <= |s| && forall k :: i <= k < i + n ==> IsDigit(s[k])
  }

  lemma DigitsAtCount(s: string, i: nat, n: nat)
    requires DigitsAt(s, i, n)
    ensures AllDigits(s[i..i + n])
    ensures DigitCount(s[i..i + n]) == n
  {
    var t := s[i..i + n];
    assert forall k :: 0 <= k < |t| ==> t[k] == s[i + k];
  }

  // ---------------------------------------------------------------------------
  // The canonical form +7 (ddd) ddd-dd-dd

  /** The ten national digits of an 18-character phone string. */
  function Unformat(r: string): string
    requires |r| == 18
  {
    r[4..7] + r[9..12] + r[13..15] + r[16..]
  }

  /** `r` is exactly `+7 (ddd) ddd-dd-dd`. */
  predicate Canonical(r: string) {
    && |r| == 18
    && r[..4] == "+7 ("
    && r[7..9] == ") "
    && r[12] == '-'
    && r[15] == '-'
    && AllDigits(Unformat(r))
  }

  /** The 3-3-2-2 slicing shared by every strategy. */
  function Format(d: string): (r: string)
    requires |d| == 10
    ensures |r| == 18 && Unformat(r) == d
    ensures AllDigits(d) ==> Canonical(r)
  {
    var r := "+7 (" + d[..3] + ") " + d[3..6] + "-" + d[6..8] + "-" + d[8..];
    assert r[..4] == "+7 (" && r[7..9] == ") " && r[12] == '-' && r[15] == '-';
    assert r[4..7] == d[..3] && r[9..12] == d[3..6] && r[13..15] == d[6..8] && r[16..] == d[8..];
    assert d == d[..3] + d[3..6] + d[6..8] + d[8..];
    r
  }

  /** Formatting is the inverse of reading the digits back. */
  lemma FormatUnformat(r: string)
    requires Canonical(r)
    ensures Format(Unformat(r)) == r
  {
    var u := Unformat(r);
    assert u[..3] == r[4..7] && u[3..6] == r[9..12] && u[6..8] == r[13..15] && u[8..] == r[16..];
    assert r == r[..4] + r[4..7] + r[7..9] + r[9..12] + [r[12]] + r[13..15] + [r[15]] + r[16..];
  }

  // ---------------------------------------------------------------------------
  // Strategies 1 and 2: `\b(\d{11})\b` and `\b(\d{10})\b`

  /** `\b(\d{n})\b` matches at `i`: `n` digits with no word character on either side. */
  predicate StandaloneRun(s: string, i: nat, n: nat) {
    && DigitsAt(s, i, n)
    && (i == 0 || !IsWordChar(s[i - 1]))
    && (i + n == |s| || !IsWordChar(s[i + n]))
  }

  /** The leftmost standalone run of `n` digits at or after `i`. */
  function FirstRunFrom(s: string, n: nat, i: nat): (r: Option<nat>)
    requires i <= |s|
    ensures r.Some? ==> i <= r.value <= |s| && StandaloneRun(s, r.value, n)
    ensures forall j :: i <= j <= |s| && (r.None? || j < r.value) ==> !StandaloneRun(s, j, n)
    decreases |s| - i
  {
    if StandaloneRun(s, i, n) then Some(i)
    else if i == |s| then None
    else FirstRunFrom(s, n, i + 1)
  }

  /** Where `preg_match('/\b(\d{n})\b/', s)` (and JavaScript's `s.match`) finds its match. */
  function FirstRun(s: string, n: nat): Option<nat> {
    FirstRunFrom(s, n, 0)
  }

  /** No standalone run lies beyond the end of the string. */
  lemma RunWithin(s: string, i: nat, n: nat)
    requires StandaloneRun(s, i, n)
    ensures i <= |s|
  {
  }

  /** Strategy 1: the first standalone 11-digit run, used only when it starts with 8 or 7. */
  function Strategy1(s: string): (r: Option<string>)
    ensures r.Some? <==> FirstRun(s, 11).Some? && s[FirstRun(s, 11).value] in "78"
    ensures r.Some? ==> Canonical(r.value)
    ensures r.Some? ==> Unformat(r.value) == s[FirstRun(s, 11).value + 1..FirstRun(s, 11).value + 11]
    ensures r.Some? ==> DigitCount(s) >= 10
  {
    match FirstRun(s, 11)
    case None => None
    case Some(i) =>
      if s[i] == '8' || s[i] == '7' then
        // substr($phone, 1) of an 11-digit match always has 10 characters
        var digits := s[i + 1..i + 11];
        assert DigitsAt(s, i + 1, 10);
        DigitsAtCount(s, i + 1, 10);
        DigitCountSlice(s, i + 1, i + 11);
        Some(Format(digits))
      else None
  }

  /** Strategy 2: the first standalone 10-digit run, as it is. */
  function Strategy2(s: string): (r: Option<string>)
    ensures r.Some? <==> FirstRun(s, 10).Some?
    ensures r.Some? ==> Canonical(r.value)
    ensures r.Some? ==> Unformat(r.value) == s[FirstRun(s, 10).value..FirstRun(s, 10).value + 10]
    ensures r.Some? ==> DigitCount(s) >= 10
  {
    match FirstRun(s, 10)
    case None => None
    case Some(i) =>
      DigitsAtCount(s, i, 10);
      DigitCountSlice(s, i, i + 10);
      Some(Format(s[i..i + 10]))
  }

  // ---------------------------------------------------------------------------
  // Strategy 3:
  // (?:\+7|7|8)?[\s\-]?\(?(\d{3})\)?[\s\-]?(\d{3})[\s\-]?(\d{2})[\s\-]?(\d{2,3})

  /** The four captured groups of strategy 3. */
  datatype Groups = Groups(area: string, exchange: string, pair: string, last: string)

  /** `[\s\-]?`: taken whenever present (skipping a present separator can never lead to a match). */
  function SkipSeparator(s: string, i: nat): (j: nat)
    ensures j == i || (j == i + 1 && i < |s| && IsSeparator(s[i]))
  {
    if i < |s| && IsSeparator(s[i]) then i + 1 else i
  }

  /** `\(?` and `\)?`: taken whenever present. */
  function SkipChar(s: string, i: nat, c: char): (j: nat)
    ensures j == i || (j == i + 1 && i < |s| && s[i] == c)
  {
    if i < |s| && s[i] == c then i + 1 else i
  }

  /** The pattern after the optional country prefix, matched at `i`. */
  function GroupsAt(s: string, i: nat): (r: Option<Groups>)
    ensures r.Some? ==> |r.value.area| == 3 && |r.value.exchange| == 3 && |r.value.pair| == 2
    ensures r.Some? ==> 2 <= |r.value.last| <= 3
    ensures r.Some? ==> AllDigits(r.value.area + r.value.exchange + r.value.pair + r.value.last)
    ensures r.Some? ==> DigitCount(s) >= 10
  {
    var a := SkipChar(s, SkipSeparator(s, i), '(');
    if !DigitsAt(s, a, 3) then None
    else
      var b := SkipSeparator(s, SkipChar(s, a + 3, ')'));
      if !DigitsAt(s, b, 3) then None
      else
        var c := SkipSeparator(s, b + 3);
        if !DigitsAt(s, c, 2) then None
        else
          var d := SkipSeparator(s, c + 2);
          if !DigitsAt(s, d, 2) then None
          else
            // (\d{2,3}) is greedy and nothing follows it
            var n := if DigitsAt(s, d, 3) then 3 else 2;
            var g := Groups(s[a..a + 3], s[b..b + 3], s[c..c + 2], s[d..d + n]);
            GroupsDigits(s, a, b, c, d, n);
            Some(g)
  }

  lemma GroupsDigits(s: string, a: nat, b: nat, c: nat, d: nat, n: nat)
    requires a + 3 <= b && b + 3 <= c && c + 2 <= d && 2 <= n <= 3
    requires DigitsAt(s, a, 3) && DigitsAt(s, b, 3) && DigitsAt(s, c, 2) && DigitsAt(s, d, n)
    ensures AllDigits(s[a..a + 3] + s[b..b + 3] + s[c..c + 2] + s[d..d + n])
    ensures DigitCount(s) >= 10
  {
    DigitsAtCount(s, a, 3);
    DigitsAtCount(s, b, 3);
    DigitsAtCount(s, c, 2);
    DigitsAtCount(s, d, n);
    AllDigitsConcat(s[a..a + 3], s[b..b + 3]);
    AllDigitsConcat(s[a..a + 3] + s[b..b + 3], s[c..c + 2]);
    AllDigitsConcat(s[a..a + 3] + s[b..b + 3] + s[c..c + 2], s[d..d + n]);
    GroupsCount(s, a, b, c, d);
  }

  lemma AllDigitsConcat(x: string, y: string)
    requires AllDigits(x) && AllDigits(y)
    ensures AllDigits(x + y)
  {
  }

  lemma GroupsCount(s: string, a: nat, b: nat, c: nat, d: nat)
    requires a + 3 <= b && b + 3 <= c && c + 2 <= d
    requires DigitsAt(s, a, 3) && DigitsAt(s, b, 3) && DigitsAt(s, c, 2) && DigitsAt(s, d, 2)
    ensures DigitCount(s) >= 10
  {
    var e := d + 2;
    DigitsAtCount(s, d, 2);
    CountStep(s, c, 2, d, e);
    CountStep(s, b, 3, c, e);
    CountStep(s, a, 3, b, e);
    DigitCountSlice(s, a, e);
  }

  /** `n` digits at `x`, then whatever lies before `y`, then the rest up to `e`. */
  lemma CountStep(s: string, x: nat, n: nat, y: nat, e: nat)
    requires DigitsAt(s, x, n) && x + n <= y <= e <= |s|
    ensures DigitCount(s[x..e]) >= n + DigitCount(s[y..e])
  {
    DigitsAtCount(s, x, n);
    CountThreeParts(s, x, x + n, y, e);
  }

  /** The digits of `s[x..e]` are at least those of its first and last parts. */
  lemma CountThreeParts(s: string, x: nat, m: nat, y: nat, e: nat)
    requires x <= m <= y <= e <= |s|
    ensures DigitCount(s[x..e]) >= DigitCount(s[x..m]) + DigitCount(s[y..e])
  {
    DigitCountSplit(s, x, m, e);
    DigitCountSplit(s, m, y, e);
  }

  /** The whole pattern at `p`: the prefix alternatives `\+7`, `7`, `8` are tried first, then no prefix. */
  function PatternAt(s: string, p: nat): (r: Option<Groups>)
    ensures r.Some? ==> AllDigits(r.value.area + r.value.exchange + r.value.pair + r.value.last)
    ensures r.Some? ==> |r.value.area + r.value.exchange + r.value.pair| == 8 && 2 <= |r.value.last| <= 3
    ensures r.Some? ==> DigitCount(s) >= 10
  {
    var withPrefix :=
      if p + 1 < |s| && s[p] == '+' && s[p + 1] == '7' then GroupsAt(s, p + 2)
      else if p < |s| && (s[p] == '7' || s[p] == '8') then GroupsAt(s, p + 1)
      else None;
    if withPrefix.Some? then withPrefix else GroupsAt(s, p)
  }

  /** The leftmost position at or after `p` where the pattern matches. */
  function FirstPatternFrom(s: string, p: nat): (r: Option<nat>)
    requires p <= |s|
    ensures r.Some? ==> p <= r.value <= |s| && PatternAt(s, r.value).Some?
    ensures forall j :: p <= j <= |s| && (r.None? || j < r.value) ==> PatternAt(s, j).None?
    decreases |s| - p
  {
    if PatternAt(s, p).Some? then Some(p)
    else if p == |s| then None
    else FirstPatternFrom(s, p + 1)
  }

  /** Strategy 3: whatever prefix matched, the result starts with +7; a 3-digit last group loses its first digit. */
  function Strategy3(s: string): (r: Option<string>)
    ensures r.Some? <==> FirstPatternFrom(s, 0).Some?
    ensures r.Some? ==> Canonical(r.value) && DigitCount(s) >= 10
    ensures r.Some? ==>
      var g := PatternAt(s, FirstPatternFrom(s, 0).value).value;
      Unformat(r.value) == g.area + g.exchange + g.pair + g.last[|g.last| - 2..]
  {
    match FirstPatternFrom(s, 0)
    case None => None
    case Some(p) => Some(Format(NationalDigits(PatternAt(s, p).value)))
  }

  /** The ten digits strategy 3 formats: the groups, with a 3-digit last group cut to its last two. */
  function NationalDigits(g: Groups): (d: string)
    requires AllDigits(g.area + g.exchange + g.pair + g.last)
    requires |g.area + g.exchange + g.pair| == 8 && 2 <= |g.last| <= 3
    ensures |d| == 10 && AllDigits(d)
    ensures d == g.area + g.exchange + g.pair + g.last[|g.last| - 2..]
  {
    var last := if |g.last| == 3 then g.last[1..] else g.last;
    var d := g.area + g.exchange + g.pair + last;
    assert AllDigits(d) by {
      var full := g.area + g.exchange + g.pair + g.last;
      forall k | 0 <= k < 10 ensures IsDigit(d[k]) {
        if k < 8 { assert d[k] == full[k]; }
        else { assert d[k] == full[k + |g.last| - 2]; }
      }
    }
    d
  }

  // ---------------------------------------------------------------------------
  // Strategy 4 (case-insensitive, Unicode mode):
  // (?:тел[\.]?|телефон|номер)[\s:]*([\+\d\s\-\(\)\.]{7,})

  /** The end of the longest run of phone characters starting at `i`. */
  function PhoneRunEnd(s: string, i: nat): (e: nat)
    requires i <= |s|
    ensures i <= e <= |s|
    ensures forall k :: i <= k < e ==> IsPhoneChar(s[k])
    ensures e == |s| || !IsPhoneChar(s[e])
    decreases |s| - i
  {
    if i < |s| && IsPhoneChar(s[i]) then PhoneRunEnd(s, i + 1) else i
  }

  /** The end of the longest run of `[\s:]` starting at `i`. */
  function SpaceColonEnd(s: string, i: nat): (e: nat)
    requires i <= |s|
    ensures i <= e <= |s|
    ensures forall k :: i <= k < e ==> IsSpaceOrColon(s[k])
    ensures e == |s| || !IsSpaceOrColon(s[e])
    decreases |s| - i
  {
    if i < |s| && IsSpaceOrColon(s[i]) then SpaceColonEnd(s, i + 1) else i
  }

  /** `[\+\d\s\-\(\)\.]{7,}` can start at `j`. */
  predicate LongRunAt(s: string, j: nat)
    requires j <= |s|
  {
    PhoneRunEnd(s, j) - j >= 7
  }

  /** A captured slice `s[start..end]`. */
  datatype Span = Span(start: nat, end: nat)

  /**
   * `([\+\d\s\-\(\)\.]{7,})` tried with the capture starting at `c`, then at each
   * earlier position down to `k`: the greedy `[\s:]*` gives back one character at a time.
   */
  function CaptureFrom(s: string, k: nat, c: nat): (r: Option<Span>)
    requires k <= c <= |s|
    ensures r.Some? ==> k <= r.value.start && r.value.start + 7 <= r.value.end <= |s|
    ensures r.Some? ==> forall i :: r.value.start <= i < r.value.end ==> IsPhoneChar(s[i])
    ensures r.Some? ==> r.value.start <= c && r.value.end == PhoneRunEnd(s, r.value.start)
    ensures r.Some? ==> forall j :: r.value.start < j <= c ==> !LongRunAt(s, j)
    ensures r.None? <==> forall j :: k <= j <= c ==> !LongRunAt(s, j)
    decreases c - k
  {
    var e := PhoneRunEnd(s, c);
    if e - c >= 7 then
      assert LongRunAt(s, c);
      Some(Span(c, e))
    else if c == k then None
    else CaptureFrom(s, k, c - 1)
  }

  /** `[\s:]*([\+\d\s\-\(\)\.]{7,})` right after a keyword ending at `k`. */
  function CaptureAfter(s: string, k: nat): (r: Option<Span>)
    requires k <= |s|
    ensures r.Some? ==> k <= r.value.start && r.value.start + 7 <= r.value.end <= |s|
  {
    CaptureFrom(s, k, SpaceColonEnd(s, k))
  }

  /** `lower` occurs at `p`, each letter in either case. */
  predicate KeywordAt(s: string, p: nat, lower: string, upper: string)
    requires |lower| == |upper|
    ensures KeywordAt(s, p, lower, upper) ==> p + |lower| <= |s|
    decreases |lower|
  {
    if |lower| == 0 then p <= |s|
    else p < |s| && (s[p] == lower[0] || s[p] == upper[0]) && KeywordAt(s, p + 1, lower[1..], upper[1..])
  }

  /** The keyword pattern at `p`, its alternatives tried in order: `тел` (with the dot, then without), `телефон`, `номер`. */
  function KeywordPatternAt(s: string, p: nat): (r: Option<Span>)
    requires p <= |s|
    ensures r.Some? ==> p <= r.value.start && r.value.start + 7 <= r.value.end <= |s|
  {
    var tel :=
      if !KeywordAt(s, p, "тел", "ТЕЛ") then None
      else if p + 3 < |s| && s[p + 3] == '.' && CaptureAfter(s, p + 4).Some? then CaptureAfter(s, p + 4)
      else CaptureAfter(s, p + 3);
    if tel.Some? then tel
    else if KeywordAt(s, p, "телефон", "ТЕЛЕФОН") && CaptureAfter(s, p + 7).Some? then CaptureAfter(s, p + 7)
    else if KeywordAt(s, p, "номер", "НОМЕР") then CaptureAfter(s, p + 5)
    else None
  }

  /** The leftmost position at or after `p` where the keyword pattern matches. */
  function FirstKeywordFrom(s: string, p: nat): (r: Option<nat>)
    requires p <= |s|
    ensures r.Some? ==> p <= r.value <= |s| && KeywordPatternAt(s, r.value).Some?
    ensures forall j :: p <= j <= |s| && (r.None? || j < r.value) ==> KeywordPatternAt(s, j).None?
    decreases |s| - p
  {
    if KeywordPatternAt(s, p).Some? then Some(p)
    else if p == |s| then None
    else FirstKeywordFrom(s, p + 1)
  }

  /** What strategy 4 makes of the digits of its capture: 11 digits led by 8 or 7 lose the lead, 10 digits stay. */
  function KeywordPhone(d: string): (r: Option<string>)
    requires AllDigits(d)
    ensures r.Some? <==> (|d| == 11 && d[0] in "78") || |d| == 10
    ensures r.Some? ==> Canonical(r.value)
    ensures r.Some? ==> Unformat(r.value) == d[|d| - 10..]
  {
    if |d| == 11 && (d[0] == '8' || d[0] == '7') then Some(Format(d[1..]))
    else if |d| == 10 then Some(Format(d))
    else None
  }

  /** Strategy 4: the digits of the capture at the first keyword match. */
  function Strategy4(s: string): (r: Option<string>)
    ensures FirstKeywordFrom(s, 0).None? ==> r.None?
    ensures FirstKeywordFrom(s, 0).Some? ==>
      var cap := KeywordPatternAt(s, FirstKeywordFrom(s, 0).value).value;
      r == KeywordPhone(DigitsOnly(s[cap.start..cap.end]))
    ensures r.Some? ==> Canonical(r.value) && DigitCount(s) >= 10
  {
    match FirstKeywordFrom(s, 0)
    case None => None
    case Some(p) =>
      var cap := KeywordPatternAt(s, p).value;
      var digits := DigitsOnly(s[cap.start..cap.end]);
      DigitCountSlice(s, cap.start, cap.end);
      KeywordPhone(digits)
  }

  // ---------------------------------------------------------------------------
  // The extractor

  /** `extract_phone_from_comment`: the four strategies in order, the first success wins. */
  function Extract(comment: string): (r: string)
    ensures PhpFalsy(comment) ==> r == ""
    ensures r == "" || Canonical(r)
    ensures r != "" ==> DigitCount(comment) >= 10
  {
    if PhpFalsy(comment) then ""
    else if Strategy1(comment).Some? then Strategy1(comment).value
    else if Strategy2(comment).Some? then Strategy2(comment).value
    else if Strategy3(comment).Some? then Strategy3(comment).value
    else if Strategy4(comment).Some? then Strategy4(comment).value
    else ""
  }

  /**
   * The order modal's copy: only the two digit-run strategies, and the 10-digit
   * run is looked for only when there is no standalone 11-digit run at all.
   */
  function ModalExtract(comment: string): (r: string)
    ensures r != "" ==> r == Extract(comment)
    ensures r == "" || Canonical(r)
  {
    if comment == "" then ""
    else
      ExtractByDigitRuns(comment);
      match FirstRun(comment, 11)
      case Some(i) =>
        if comment[i] == '8' || comment[i] == '7' then Format(comment[i + 1..i + 11]) else ""
      case None =>
        match FirstRun(comment, 10)
        case Some(i) => Format(comment[i..i + 10])
        case None => ""
  }

  /** The first two strategies decide the extractor whenever one of them succeeds. */
  lemma ExtractByDigitRuns(s: string)
    ensures Strategy1(s).Some? ==> Extract(s) == Strategy1(s).value
    ensures Strategy1(s).None? && Strategy2(s).Some? ==> Extract(s) == Strategy2(s).value
  {
  }
}
