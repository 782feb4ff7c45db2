/**
 * Properties of the phone extractor: what its output looks like, that it is a
 * fixpoint on its own output, when it cannot fail, and how the modal's copy
 * differs from it.
 */
module PhoneFacts {
  import opened Wrappers
  import opened Text
  import opened PhoneExtract

  // ---------------------------------------------------------------------------
  // Helpers about the scanners

  /** A string with fewer than `n` digits has no run of `n` digits. */
  lemma NoRunWithFewDigits(s: string, n: nat)
    requires DigitCount(s) < n
    ensures FirstRun(s, n) == None
  {
    var r := FirstRun(s, n);
    if r.Some? {
      DigitsAtCount(s, r.value, n);
      DigitCountSlice(s, r.value, r.value + n);
    }
  }

  /** A standalone run with none before it is the one the scanner reports. */
  lemma FirstRunIs(s: string, n: nat, i: nat)
    requires StandaloneRun(s, i, n)
    requires forall j :: 0 <= j < i ==> !StandaloneRun(s, j, n)
    ensures FirstRun(s, n) == Some(i)
  {
    RunWithin(s, i, n);
  }

  /** `n` digits at `i` exactly when the slice there is all digits. */
  lemma DigitsAtSlice(s: string, i: nat, n: nat)
    requires i + n <= |s| && AllDigits(s[i..i + n])
    ensures DigitsAt(s, i, n)
  {
    forall k | i <= k < i + n ensures IsDigit(s[k]) {
      assert s[k] == s[i..i + n][k - i];
    }
  }

  lemma AllDigitsParts(x: string, y: string)
    requires AllDigits(x + y)
    ensures AllDigits(x) && AllDigits(y)
  {
    assert forall k :: 0 <= k < |x| ==> x[k] == (x + y)[k];
    assert forall k :: 0 <= k < |y| ==> y[k] == (x + y)[|x| + k];
  }

  /** The fixed characters and digit groups of a canonical phone; no ten of its characters in a row are digits. */
  lemma CanonicalShape(r: string)
    requires Canonical(r)
    ensures r[0] == '+' && r[1] == '7' && r[2] == ' ' && r[3] == '(' && r[7] == ')' && r[8] == ' '
    ensures DigitsAt(r, 4, 3) && DigitsAt(r, 9, 3) && DigitsAt(r, 13, 2) && DigitsAt(r, 16, 2)
    ensures forall j :: !DigitsAt(r, j, 10)
  {
    assert r[..4][0] == r[0] && r[..4][1] == r[1] && r[..4][2] == r[2] && r[..4][3] == r[3];
    assert r[7..9][0] == r[7] && r[7..9][1] == r[8];
    AllDigitsParts(r[4..7] + r[9..12] + r[13..15], r[16..]);
    AllDigitsParts(r[4..7] + r[9..12], r[13..15]);
    AllDigitsParts(r[4..7], r[9..12]);
    assert r[16..] == r[16..18];
    DigitsAtSlice(r, 4, 3);
    DigitsAtSlice(r, 9, 3);
    DigitsAtSlice(r, 13, 2);
    DigitsAtSlice(r, 16, 2);
  }

  /** Without ten digits in a row, neither digit-run strategy applies. */
  lemma NoLongRun(s: string)
    requires forall j :: !DigitsAt(s, j, 10)
    ensures FirstRun(s, 11) == None && FirstRun(s, 10) == None
  {
    var r := FirstRun(s, 11);
    if r.Some? {
      assert DigitsAt(s, r.value, 10);
    }
  }

  /** When both digit-run strategies fail and strategy 3 matches, strategy 3 decides. */
  lemma ExtractByStrategy3(s: string)
    requires Strategy1(s) == None && Strategy2(s) == None
    requires PatternAt(s, 0).Some?
    ensures
      var g := PatternAt(s, 0).value;
      Canonical(Extract(s)) && Unformat(Extract(s)) == g.area + g.exchange + g.pair + g.last[|g.last| - 2..]
  {
    assert FirstPatternFrom(s, 0) == Some(0);
  }

  /** A successful strategy makes the result non-empty. */
  lemma ExtractNonEmpty(s: string)
    requires Strategy1(s).Some? || Strategy2(s).Some? || Strategy3(s).Some?
    ensures Extract(s) != ""
  {
  }

  /** A string without digits holds no digit anywhere. */
  lemma NoDigitAt(s: string, j: nat)
    requires DigitCount(s) == 0 && j < |s|
    ensures !IsDigit(s[j])
  {
    DigitCountSlice(s, j, j + 1);
    assert s[j..j + 1] == [s[j]];
  }

  /** A digit run set in digit-free text, with no word character touching it, is the first and only such run. */
  lemma RunInText(pre: string, run: string, post: string)
    requires run != [] && AllDigits(run)
    requires DigitCount(pre) == 0 && DigitCount(post) == 0
    requires pre == [] || !IsWordChar(pre[|pre| - 1])
    requires post == [] || !IsWordChar(post[0])
    ensures DigitCount(pre + run + post) == |run|
    ensures FirstRun(pre + run + post, |run|) == Some(|pre|)
  {
    var s := pre + run + post;
    DigitsOnlyAppend(pre, run);
    DigitsOnlyAppend(pre + run, post);
    RunStandalone(pre, run, post);
    forall j | 0 <= j < |pre| ensures !StandaloneRun(s, j, |run|) {
      NoDigitAt(pre, j);
      assert s[j] == pre[j];
    }
    FirstRunIs(s, |run|, |pre|);
  }

  lemma RunStandalone(pre: string, run: string, post: string)
    requires AllDigits(run)
    requires pre == [] || !IsWordChar(pre[|pre| - 1])
    requires post == [] || !IsWordChar(post[0])
    ensures StandaloneRun(pre + run + post, |pre|, |run|)
  {
    var s := pre + run + post;
    var i := |pre|;
    forall k | i <= k < i + |run| ensures IsDigit(s[k]) {
      assert s[k] == run[k - i];
    }
    if i > 0 { assert s[i - 1] == pre[i - 1]; }
    if i + |run| < |s| { assert s[i + |run|] == post[0]; }
  }

  // ---------------------------------------------------------------------------
  // The output is a fixpoint

  /** Extracting from a canonical phone gives it back unchanged (strategy 3 reads it). */
  lemma {:induction false} CanonicalIsFixpoint(r: string)
    requires Canonical(r)
    ensures Extract(r) == r
  {
    CanonicalShape(r);
    NoLongRun(r);
    CanonicalGroups(r);
    ExtractByStrategy3(r);
    SameDigitsSamePhone(r, Extract(r));
  }

  /** Strategy 3 reads the four groups of a canonical phone at their own places. */
  lemma CanonicalGroups(r: string)
    requires Canonical(r)
    ensures PatternAt(r, 0) == Some(Groups(r[4..7], r[9..12], r[13..15], r[16..]))
  {
    CanonicalShape(r);
    assert SkipSeparator(r, 2) == 3 && SkipChar(r, 3, '(') == 4;
    assert SkipChar(r, 7, ')') == 8 && SkipSeparator(r, 8) == 9;
    assert SkipSeparator(r, 12) == 13 && SkipSeparator(r, 15) == 16;
    assert r[16..18] == r[16..];
    assert GroupsAt(r, 2) == Some(Groups(r[4..7], r[9..12], r[13..15], r[16..]));
  }

  /** Two canonical phones with the same national digits are the same string. */
  lemma SameDigitsSamePhone(r: string, q: string)
    requires Canonical(r) && Canonical(q) && Unformat(r) == Unformat(q)
    ensures r == q
  {
    FormatUnformat(r);
    FormatUnformat(q);
  }

  /**
   * The digits of a canonical phone, written back into text with nothing but
   * non-word, non-digit characters around them, and led by 8, 7 or nothing,
   * extract to the same phone (strategy 1 for a lead digit, strategy 2 without).
   */
  lemma {:induction false} DigitsRoundTrip(r: string, pre: string, lead: string, post: string)
    requires Canonical(r)
    requires lead == "" || lead == "7" || lead == "8"
    requires DigitCount(pre) == 0 && DigitCount(post) == 0
    requires pre == [] || !IsWordChar(pre[|pre| - 1])
    requires post == [] || !IsWordChar(post[0])
    ensures Extract(pre + lead + Unformat(r) + post) == r
  {
    var d := Unformat(r);
    var run := lead + d;
    assert pre + lead + d + post == pre + run + post;
    assert AllDigits(run);
    RunInText(pre, run, post);
    FormatUnformat(r);
    PlacedRunExtracts(pre + run + post, |pre|, lead, d);
  }

  /** The ten digits, led by 8, 7 or nothing, as the only digits and the first run of the text. */
  lemma PlacedRunExtracts(s: string, i: nat, lead: string, d: string)
    requires |d| == 10 && (lead == "" || lead == "7" || lead == "8")
    requires DigitCount(s) == |lead + d| && FirstRun(s, |lead + d|) == Some(i)
    requires i + |lead + d| <= |s| && s[i..i + |lead + d|] == lead + d
    ensures Extract(s) == Format(d)
  {
    var run := lead + d;
    if lead == "" {
      assert run == d;
      BareRunTakenWhole(s, i, d);
    } else {
      assert s[i] == run[0];
      assert s[i + 1..i + 11] == run[1..] == d;
      LedRunLosesLead(s, i, d);
    }
    ExtractByDigitRuns(s);
  }

  /** A comment whose only standalone run is the ten digits at `i` goes to strategy 2. */
  lemma BareRunTakenWhole(s: string, i: nat, d: string)
    requires |d| == 10 && DigitCount(s) == 10
    requires FirstRun(s, 10) == Some(i) && i + 10 <= |s| && s[i..i + 10] == d
    ensures Strategy1(s) == None && Strategy2(s) == Some(Format(d))
  {
    NoRunWithFewDigits(s, 11);
  }

  /** A comment whose first 11-digit run is led by 8 or 7 goes to strategy 1. */
  lemma LedRunLosesLead(s: string, i: nat, d: string)
    requires |d| == 10 && FirstRun(s, 11) == Some(i) && i + 11 <= |s|
    requires s[i] in "78" && s[i + 1..i + 11] == d
    ensures Strategy1(s) == Some(Format(d))
  {
  }

  // ---------------------------------------------------------------------------
  // When the extractor cannot fail

  /** Ten consecutive digits anywhere make strategy 3 match, so the result is never empty. */
  lemma {:induction false} TenDigitsNeverEmpty(s: string, q: nat)
    requires DigitsAt(s, q, 10)
    ensures Extract(s) != ""
  {
    TenDigitsGroup(s, q);
    assert PatternAt(s, q).Some?;
    assert FirstPatternFrom(s, 0).Some?;
    ExtractNonEmpty(s);
  }

  /** Ten digits in a row read as the groups 3-3-2-2 without any separator. */
  lemma TenDigitsGroup(s: string, q: nat)
    requires DigitsAt(s, q, 10)
    ensures GroupsAt(s, q).Some?
  {
    assert IsDigit(s[q]) && IsDigit(s[q + 3]) && IsDigit(s[q + 6]) && IsDigit(s[q + 8]);
    assert SkipSeparator(s, q) == q && SkipChar(s, q, '(') == q;
    assert SkipChar(s, q + 3, ')') == q + 3 && SkipSeparator(s, q + 3) == q + 3;
    assert SkipSeparator(s, q + 6) == q + 6 && SkipSeparator(s, q + 8) == q + 8;
  }

  // ---------------------------------------------------------------------------
  // Strategy 3's normalisation

  /** `" (ddd) ddd-dd-dd[d]"` after any prefix: the groups strategy 3 reads from it. */
  lemma GroupedLayout(prefix: string, g1: string, g2: string, g3: string, g4: string)
    requires |g1| == 3 && |g2| == 3 && |g3| == 2 && 2 <= |g4| <= 3
    requires AllDigits(g1 + g2 + g3 + g4)
    ensures
      var s := prefix + (" (" + g1 + ") " + g2 + "-" + g3 + "-" + g4);
      var o := |prefix|;
      && s[o] == ' ' && s[o + 5] == ')' && s[o + 10] == '-' && |s| == o + 14 + |g4|
      && GroupsAt(s, o) == Some(Groups(g1, g2, g3, g4))
  {
    var t := " (" + g1 + ") " + g2 + "-" + g3 + "-" + g4;
    var s := prefix + t;
    var o := |prefix|;
    AllDigitsParts(g1 + g2 + g3, g4);
    AllDigitsParts(g1 + g2, g3);
    AllDigitsParts(g1, g2);
    LayoutText(g1, g2, g3, g4);
    assert s[o..] == t;
    LayoutGroups(s, o, g1, g2, g3, g4);
  }

  /** Where the separators and the groups sit in `" (" + g1 + ") " + g2 + "-" + g3 + "-" + g4`. */
  lemma LayoutText(g1: string, g2: string, g3: string, g4: string)
    requires |g1| == 3 && |g2| == 3 && |g3| == 2
    ensures
      var t := " (" + g1 + ") " + g2 + "-" + g3 + "-" + g4;
      && |t| == 14 + |g4|
      && t[0] == ' ' && t[1] == '(' && t[5] == ')' && t[6] == ' ' && t[10] == '-' && t[13] == '-'
      && t[2..5] == g1 && t[7..10] == g2 && t[11..13] == g3 && t[14..] == g4
  {
  }

  /** The groups of the layout, found by the pattern wherever the layout starts. */
  lemma LayoutGroups(s: string, o: nat, g1: string, g2: string, g3: string, g4: string)
    requires |g1| == 3 && |g2| == 3 && |g3| == 2 && 2 <= |g4| <= 3
    requires AllDigits(g1) && AllDigits(g2) && AllDigits(g3) && AllDigits(g4)
    requires o <= |s|
    requires
      var t := s[o..];
      && |t| == 14 + |g4|
      && t[0] == ' ' && t[1] == '(' && t[5] == ')' && t[6] == ' ' && t[10] == '-' && t[13] == '-'
      && t[2..5] == g1 && t[7..10] == g2 && t[11..13] == g3 && t[14..] == g4
    ensures GroupsAt(s, o) == Some(Groups(g1, g2, g3, g4))
  {
    var t := s[o..];
    assert s[o] == ' ' && s[o + 1] == '(' && s[o + 5] == ')' && s[o + 6] == ' ' && s[o + 10] == '-' && s[o + 13] == '-';
    assert s[o + 2..o + 5] == t[2..5] && s[o + 7..o + 10] == t[7..10] && s[o + 11..o + 13] == t[11..13];
    assert s[o + 14..o + 14 + |g4|] == t[14..];
    DigitsAtSlice(s, o + 2, 3);
    DigitsAtSlice(s, o + 7, 3);
    DigitsAtSlice(s, o + 11, 2);
    DigitsAtSlice(s, o + 14, |g4|);
    assert SkipSeparator(s, o) == o + 1 && SkipChar(s, o + 1, '(') == o + 2;
    assert SkipChar(s, o + 5, ')') == o + 6 && SkipSeparator(s, o + 6) == o + 7;
    assert SkipSeparator(s, o + 10) == o + 11 && SkipSeparator(s, o + 13) == o + 14;
  }

  /** Two non-digits five characters apart leave no room for ten digits in a row. */
  lemma NoTenDigitWindow(s: string, o: nat)
    requires o + 10 < |s| <= o + 17 && o <= 4
    requires !IsDigit(s[o + 5]) && !IsDigit(s[o + 10])
    ensures forall j :: !DigitsAt(s, j, 10)
  {
  }

  /** A country prefix followed by a space: the pattern at the start reads the groups after the prefix. */
  lemma PrefixTried(prefix: string, s: string)
    requires prefix == "" || prefix == "+7" || prefix == "7" || prefix == "8"
    requires |prefix| < |s| && s[..|prefix|] == prefix && s[|prefix|] == ' '
    requires GroupsAt(s, |prefix|).Some?
    ensures PatternAt(s, 0) == GroupsAt(s, |prefix|)
  {
    if prefix != "" {
      assert s[0] == prefix[0];
    }
    if prefix == "+7" {
      assert s[1] == prefix[1];
    }
  }

  /**
   * Whatever country prefix the grouped number carries (`+7`, `7`, `8` or none),
   * the result starts with +7, and a three-digit last group loses its first digit.
   */
  lemma {:induction false} GroupedNumber(prefix: string, g1: string, g2: string, g3: string, g4: string)
    requires prefix == "" || prefix == "+7" || prefix == "7" || prefix == "8"
    requires |g1| == 3 && |g2| == 3 && |g3| == 2 && 2 <= |g4| <= 3
    requires AllDigits(g1 + g2 + g3 + g4)
    ensures
      var r := Extract(prefix + (" (" + g1 + ") " + g2 + "-" + g3 + "-" + g4));
      Canonical(r) && Unformat(r) == g1 + g2 + g3 + g4[|g4| - 2..]
  {
    var s := prefix + (" (" + g1 + ") " + g2 + "-" + g3 + "-" + g4);
    GroupedByStrategy3(prefix, g1, g2, g3, g4);
    ExtractByStrategy3(s);
  }

  /** A grouped number has no standalone digit run, and strategy 3 reads its groups at the start. */
  lemma GroupedByStrategy3(prefix: string, g1: string, g2: string, g3: string, g4: string)
    requires prefix == "" || prefix == "+7" || prefix == "7" || prefix == "8"
    requires |g1| == 3 && |g2| == 3 && |g3| == 2 && 2 <= |g4| <= 3
    requires AllDigits(g1 + g2 + g3 + g4)
    ensures
      var s := prefix + (" (" + g1 + ") " + g2 + "-" + g3 + "-" + g4);
      Strategy1(s) == None && Strategy2(s) == None && PatternAt(s, 0) == Some(Groups(g1, g2, g3, g4))
  {
    var s := prefix + (" (" + g1 + ") " + g2 + "-" + g3 + "-" + g4);
    var o := |prefix|;
    GroupedLayout(prefix, g1, g2, g3, g4);
    assert s[..o] == prefix;
    NoTenDigitWindow(s, o);
    NoLongRun(s);
    PrefixTried(prefix, s);
  }

  /**
   * Only the first standalone 11-digit run is looked at: when it starts with
   * neither 8 nor 7, a well-formed 11-digit number after it is ignored and
   * strategy 3 builds the result from the first run instead.
   */
  lemma {:induction false} FirstElevenDigitRunDecides(x: string, y: string)
    requires |x| == 11 && |y| == 11 && AllDigits(x) && AllDigits(y)
    requires x[0] !in "78" && y[0] in "78"
    ensures Strategy1(x + " " + y) == None
    ensures Extract(x + " " + y) == Format(x[..8] + x[9..])
  {
    var s := x + " " + y;
    assert s[11] == ' ';
    assert forall k :: 0 <= k < 11 ==> s[k] == x[k];
    assert forall k :: 12 <= k < 23 ==> s[k] == y[k - 12];
    assert StandaloneRun(s, 0, 11);
    FirstRunIs(s, 11, 0);
    forall j | 0 <= j <= |s| ensures !StandaloneRun(s, j, 10) {
      if j == 0 || j == 12 { assert IsWordChar(s[j + 10]); }
      else if j != 11 && j < 14 { assert IsWordChar(s[j - 1]); }
    }
    assert FirstRun(s, 10) == None;
    DigitsAtSlice(s, 0, 11);
    assert x[..8] + x[9..] == s[0..3] + s[3..6] + s[6..8] + s[8..11][1..];
    ElevenDigitsGroup(s);
    assert PatternAt(s, 0) == GroupsAt(s, 0);
    ExtractByStrategy3(s);
    FormatUnformat(Extract(s));
  }

  /** Eleven digits in a row read as the groups 3-3-2-3. */
  lemma ElevenDigitsGroup(s: string)
    requires DigitsAt(s, 0, 11)
    ensures GroupsAt(s, 0) == Some(Groups(s[0..3], s[3..6], s[6..8], s[8..11]))
  {
    assert IsDigit(s[0]) && IsDigit(s[3]) && IsDigit(s[6]) && IsDigit(s[8]);
    assert SkipSeparator(s, 0) == 0 && SkipChar(s, 0, '(') == 0;
    assert SkipChar(s, 3, ')') == 3 && SkipSeparator(s, 3) == 3;
    assert SkipSeparator(s, 6) == 6 && SkipSeparator(s, 8) == 8;
  }

  // ---------------------------------------------------------------------------
  // The modal's copy

  /**
   * The modal never falls back to a 10-digit run once some standalone 11-digit
   * run exists: with an 11-digit run led by neither 8 nor 7 and a 10-digit number
   * after it, the modal shows nothing while the server function finds the number.
   */
  lemma {:induction false} ModalMissesTenDigitFallback(x: string, d: string)
    requires |x| == 11 && |d| == 10 && AllDigits(x) && AllDigits(d)
    requires x[0] !in "78"
    ensures ModalExtract(x + " " + d) == ""
    ensures Extract(x + " " + d) == Format(d)
  {
    var s := x + " " + d;
    assert s[11] == ' ';
    assert forall k :: 0 <= k < 11 ==> s[k] == x[k];
    assert forall k :: 12 <= k < 22 ==> s[k] == d[k - 12];
    assert StandaloneRun(s, 0, 11);
    FirstRunIs(s, 11, 0);
    assert StandaloneRun(s, 12, 10);
    forall j | 0 <= j < 12 ensures !StandaloneRun(s, j, 10) {
      if j == 0 { assert IsWordChar(s[10]); } else { assert IsWordChar(s[j - 1]); }
    }
    FirstRunIs(s, 10, 12);
    assert s[12..22] == d;
  }

  // ---------------------------------------------------------------------------
  // Numbers written with dots

  /**
   * Digits stand in runs of at most three, and no run is followed by a space,
   * a dash or a closing bracket: a number written as `8.916.085.60.70`.
   */
  predicate DotGrouped(s: string) {
    && (forall j :: 0 <= j < |s| ==> !DigitsAt(s, j, 4))
    && (forall j :: 0 <= j < |s| - 1 && IsDigit(s[j]) ==> IsDigit(s[j + 1]) || !(IsSeparator(s[j + 1]) || s[j + 1] == ')'))
  }

  /** In such a text the groups of strategy 3 never match: three digits are followed by neither a digit nor a separator. */
  lemma DotGroupedNoGroups(s: string, i: nat)
    requires DotGrouped(s)
    ensures GroupsAt(s, i).None?
  {
    var a := SkipChar(s, SkipSeparator(s, i), '(');
    if DigitsAt(s, a, 3) {
      assert IsDigit(s[a + 2]);
      if a + 3 < |s| {
        assert !DigitsAt(s, a, 4);
        assert !IsDigit(s[a + 3]);
      }
      assert SkipSeparator(s, SkipChar(s, a + 3, ')')) == a + 3;
    }
  }

  /** With dot-grouped digits only the keyword strategy can find a number. */
  lemma DottedNumberByKeyword(s: string)
    requires DotGrouped(s) && !PhpFalsy(s)
    ensures Extract(s) == Strategy4(s).GetOr("")
  {
    forall j: nat
      ensures !DigitsAt(s, j, 10)
    {
      if DigitsAt(s, j, 10) {
        assert j < |s| && DigitsAt(s, j, 4);
      }
    }
    NoLongRun(s);
    var p := FirstPatternFrom(s, 0);
    if p.Some? {
      DotGroupedNoGroups(s, p.value);
      DotGroupedNoGroups(s, p.value + 1);
      DotGroupedNoGroups(s, p.value + 2);
    }
  }

  /** Digits and dots only, with at most three digits in a row. */
  predicate DottedDigits(num: string) {
    && (forall k :: 0 <= k < |num| ==> IsDigit(num[k]) || num[k] == '.')
    && (forall j :: 0 <= j < |num| ==> !DigitsAt(num, j, 4))
  }

  /**
   * "тел" and a space, then a number of at least seven characters written with
   * dots (`тел 8.916.085.60.70`): strategies 1 to 3 find nothing, and the
   * keyword strategy reads the number's digits, so 11 digits led by 8 or 7 or
   * 10 digits give that phone.
   */
  lemma KeywordDottedNumber(num: string)
    requires DottedDigits(num) && |num| >= 7
    ensures Extract("тел " + num) == KeywordPhone(DigitsOnly(num)).GetOr("")
  {
    DottedAfterKeyword(num);
    DottedNumberByKeyword("тел " + num);
    DottedStrategy4(num);
  }

  /** The keyword strategy reads the digits of the whole dotted number. */
  lemma DottedStrategy4(num: string)
    requires DottedDigits(num) && |num| >= 7
    ensures Strategy4("тел " + num) == KeywordPhone(DigitsOnly(num))
  {
    var s := "тел " + num;
    DottedCapture(num);
    Strategy4Capture(s, 0, 4, |s|);
    TelSlice(num);
  }

  lemma TelSlice(num: string)
    ensures ("тел " + num)[4..|num| + 4] == num
  {
  }

  /** Strategy 4 reads the digits of the capture at the first keyword match. */
  lemma Strategy4Capture(s: string, p: nat, a: nat, b: nat)
    requires FirstKeywordFrom(s, 0) == Some(p) && KeywordPatternAt(s, p) == Some(Span(a, b))
    ensures a <= b <= |s| && Strategy4(s) == KeywordPhone(DigitsOnly(s[a..b]))
  {
  }

  /** The text "тел " + a dotted number is dot-grouped. */
  lemma DottedAfterKeyword(num: string)
    requires DottedDigits(num)
    ensures DotGrouped("тел " + num)
  {
    var s := "тел " + num;
    assert forall k :: 0 <= k < 4 ==> !IsDigit(s[k]);
    forall k | 4 <= k < |s|
      ensures IsDigit(s[k]) || s[k] == '.'
    {
      assert s[k] == num[k - 4];
    }
    forall j | 0 <= j < |s|
      ensures !DigitsAt(s, j, 4)
    {
      if DigitsAt(s, j, 4) {
        assert IsDigit(s[j]) && j >= 4;
        forall k | j - 4 <= k < j
          ensures IsDigit(num[k])
        {
          assert s[k + 4] == num[k];
        }
        assert DigitsAt(num, j - 4, 4);
      }
    }
  }

  /** A run of phone characters up to the end of the text. */
  lemma {:induction false} PhoneRunToEnd(s: string, i: nat)
    requires i <= |s| && forall k :: i <= k < |s| ==> IsPhoneChar(s[k])
    ensures PhoneRunEnd(s, i) == |s|
    decreases |s| - i
  {
    if i < |s| {
      PhoneRunToEnd(s, i + 1);
    }
  }

  /** The keyword matches at the start, and the capture is the whole number after the space. */
  lemma DottedCapture(num: string)
    requires DottedDigits(num) && |num| >= 7
    ensures KeywordPatternAt("тел " + num, 0) == Some(Span(4, |num| + 4))
    ensures FirstKeywordFrom("тел " + num, 0) == Some(0)
  {
    var s := "тел " + num;
    TelAtStart(num);
    DottedCaptureAfter(num);
    assert KeywordPatternAt(s, 0) == CaptureAfter(s, 3);
  }

  lemma TelAtStart(num: string)
    ensures KeywordAt("тел " + num, 0, "тел", "ТЕЛ") && ("тел " + num)[3] == ' '
  {
    var s := "тел " + num;
    assert s[0] == 'т' && s[1] == 'е' && s[2] == 'л' && s[3] == ' ';
  }

  /** After the space, `[\s:]*` takes nothing more and the capture runs to the end. */
  lemma DottedCaptureAfter(num: string)
    requires DottedDigits(num) && |num| >= 7
    ensures CaptureAfter("тел " + num, 3) == Some(Span(4, |num| + 4))
  {
    var s := "тел " + num;
    assert s[3] == ' ' && s[4] == num[0];
    assert SpaceColonEnd(s, 4) == 4;
    forall k | 4 <= k < |s|
      ensures IsPhoneChar(s[k])
    {
      assert s[k] == num[k - 4];
    }
    PhoneRunToEnd(s, 4);
  }
}
