/**
 * The order forms of the Telegram bot (bot.py): how a message is read as
 * text, the rules each answer of the engine-repair form must pass, how the
 * final comment of an order is put together, how the photo ids travel to the
 * admin pages, and how an admin reply finds the order it answers.
 *
 * The conversation itself is the class `Conversation` in form_steps.dfy.
 */
module BotForm {
  import opened Wrappers
  import opened Text

  // ---------------------------------------------------------------------------
  // Reading a message

  /** The parts of an incoming Telegram message the handlers look at. */
  datatype Message = Message(text: Option<string>, caption: Option<string>, hasSticker: bool, hasPhoto: bool)

  /** Python truthiness of an optional string. */
  predicate Truthy(s: Option<string>) {
    s.Some? && s.value != ""
  }

  const StickerText := "[Стикер]"
  const PhotoText := "[Фото]"
  const UnknownText := "[Неизвестно]"

  /** `safe_text`: the text, else the caption, else a placeholder for a sticker, a photo or anything else. */
  function SafeText(m: Message): (r: string)
    ensures r != ""
    ensures Truthy(m.text) ==> r == m.text.value
    ensures !Truthy(m.text) && Truthy(m.caption) ==> r == m.caption.value
    ensures !Truthy(m.text) && !Truthy(m.caption) ==>
      r == (if m.hasSticker then StickerText else if m.hasPhoto then PhotoText else UnknownText)
  {
    if Truthy(m.text) then m.text.value
    else if Truthy(m.caption) then m.caption.value
    else if m.hasSticker then StickerText
    else if m.hasPhoto then PhotoText
    else UnknownText
  }

  /** `get_text`: a stored text, or a visible marker naming the missing key. */
  function GetText(cfg: map<string, string>, key: string): string {
    if key in cfg then cfg[key] else "[NO_DB_TEXT: " + key + "]"
  }

  /** `get_config_bool`: a flag is on only when it is stored as "1"; a missing one reads as "0". */
  function ConfigBool(cfg: map<string, string>, key: string): (r: bool)
    ensures r <==> key in cfg && cfg[key] == "1"
    ensures key !in cfg ==> !r
  {
    (if key in cfg then cfg[key] else "0") == "1"
  }

  // ---------------------------------------------------------------------------
  // Validation of the engine-repair answers

  const MaxBrandLength := 100
  const MinBrandLength := 2
  const MinIssueLength := 5
  const MinYear := 1900
  const MaxYear := 2025

  /** `message.text.strip()[:100]`, accepted when at least two characters remain. */
  function CheckBrand(text: string): (r: Option<string>)
    ensures r.Some? <==> |PyStrip(text)| >= MinBrandLength
    ensures r.Some? ==> MinBrandLength <= |r.value| <= MaxBrandLength && |r.value| <= |PyStrip(text)|
    ensures r.Some? ==> r.value == PyStrip(text)[..|r.value|]
    ensures r.Some? && |PyStrip(text)| <= MaxBrandLength ==> r.value == PyStrip(text)
  {
    var s := PyStrip(text);
    var brand := if |s| <= MaxBrandLength then s else s[..MaxBrandLength];
    if |brand| < MinBrandLength then None else Some(brand)
  }

  /** The regular expression `^(19|20)\d{2}$` on the stripped text, with ASCII digits. */
  predicate YearShape(y: string) {
    && |y| == 4
    && AllDigits(y)
    && ((y[0] == '1' && y[1] == '9') || (y[0] == '2' && y[1] == '0'))
  }

  /** A text of the year's shape names a year from 1900 to 2099. */
  lemma {:induction false} YearShapeRange(y: string)
    requires YearShape(y)
    ensures AllDigits(y) && MinYear <= DecimalValue(y) <= 2099
  {
    assert y[..3][..2] == y[..2] && y[..2][..1] == y[..1] && y[..1][..0] == [];
    assert DecimalValue(y[..1]) == DigitValue(y[0]);
    assert DecimalValue(y[..2]) == DigitValue(y[0]) * 10 + DigitValue(y[1]);
    assert DecimalValue(y[..3]) == DecimalValue(y[..2]) * 10 + DigitValue(y[2]);
    assert y[..4] == y;
  }

  /**
   * `engine_year_handler`'s two checks: the shape, then the range. Because of
   * the shape, only the upper bound can still reject a year.
   */
  function CheckYear(text: string): (r: Option<string>)
    ensures r.Some? <==> YearShape(PyStrip(text)) && DecimalValue(PyStrip(text)) <= MaxYear
    ensures r.Some? ==> r.value == PyStrip(text) && AllDigits(r.value) && MinYear <= DecimalValue(r.value) <= MaxYear
  {
    AcceptYear(PyStrip(text))
  }

  /** The two checks on the already stripped text. */
  function AcceptYear(y: string): (r: Option<string>)
    ensures r.Some? <==> YearShape(y) && DecimalValue(y) <= MaxYear
    ensures r.Some? ==> r.value == y && AllDigits(y) && MinYear <= DecimalValue(y) <= MaxYear
  {
    if !YearShape(y) then None
    else
      YearShapeRange(y);
      var year := DecimalValue(y);
      if year < MinYear || year > MaxYear then None else Some(y)
  }

  /** The four digits of a four-digit number. */
  lemma FourDigits(n: nat)
    requires 1000 <= n <= 9999
    ensures NatToDecimal(n) == [DigitChar(n / 1000), DigitChar(n / 100 % 10), DigitChar(n / 10 % 10), DigitChar(n % 10)]
  {
    var a, b, c := n / 1000, n / 100, n / 10;
    assert a == b / 10 && b == c / 10 && c == n / 10;
    LastDigit(b);
    LastDigit(c);
    LastDigit(n);
  }

  /** A number of two or more digits is its leading digits followed by its last one. */
  lemma LastDigit(n: nat)
    requires n >= 10
    ensures NatToDecimal(n) == NatToDecimal(n / 10) + [DigitChar(n % 10)]
  {
  }

  /** Stripping leaves a run of digits alone. */
  lemma DigitsUnstripped(s: string)
    requires s != [] && AllDigits(s)
    ensures PyStrip(s) == s
  {
    assert !IsPyWhitespace(s[0]);
    assert StripLeft(s, IsPyWhitespace) == s;
    assert !IsPyWhitespace(s[|s| - 1]);
  }

  /** A year typed in its plain decimal form between 1900 and 2025 is accepted as typed. */
  lemma {:induction false} YearAccepted(n: nat)
    requires MinYear <= n <= MaxYear
    ensures CheckYear(NatToDecimal(n)) == Some(NatToDecimal(n))
  {
    var y := NatToDecimal(n);
    FourDigits(n);
    assert y[0] == DigitChar(n / 1000) && y[1] == DigitChar(n / 100 % 10);
    assert (n / 1000 == 1 && n / 100 % 10 == 9) || (n / 1000 == 2 && n / 100 % 10 == 0);
    assert YearShape(y);
    DigitsUnstripped(y);
  }

  /** `message.text.strip()`, accepted when at least five characters long. */
  function CheckIssue(text: string): (r: Option<string>)
    ensures r.Some? <==> |PyStrip(text)| >= MinIssueLength
    ensures r.Some? ==> r.value == PyStrip(text)
  {
    var issue := PyStrip(text);
    if |issue| < MinIssueLength then None else Some(issue)
  }

  /** `urgency_map` of the engine form. */
  const UrgencyLabels: map<string, string> :=
    map["urgency_high" := "Высокая", "urgency_med" := "Средняя", "urgency_low" := "Низкая"]

  /** The urgency label for a callback, or none for a callback outside the map. */
  function CheckUrgency(data: string): (r: Option<string>)
    ensures r.Some? <==> data == "urgency_high" || data == "urgency_med" || data == "urgency_low"
    ensures r.Some? ==> r.value in UrgencyLabels.Values
    ensures data == "urgency_high" ==> r == Some("Высокая")
    ensures data == "urgency_med" ==> r == Some("Средняя")
    ensures data == "urgency_low" ==> r == Some("Низкая")
  {
    if data in UrgencyLabels then Some(UrgencyLabels[data]) else None
  }

  // ---------------------------------------------------------------------------
  // Final comments

  const FinishButton := "✅ Оформить заказ"
  const AddCommentButton := "✍️ Добавить комментарий"
  const NoComment := "Нет дополнительных комментариев"
  const CommentLabel := "\n\nКомментарий: "

  /** What the last step of either form does with its text. */
  datatype CommentChoice = Finish(comment: string) | AskForComment

  /** The finish button means "no comment", the comment button asks for one, any other text is the comment. */
  function ChooseComment(txt: string): (r: CommentChoice)
    ensures r == AskForComment <==> txt == AddCommentButton
    ensures r.Finish? && txt == FinishButton ==> r.comment == NoComment
    ensures r.Finish? && txt != FinishButton ==> r.comment == txt
  {
    if txt == FinishButton then Finish(NoComment)
    else if txt == AddCommentButton then AskForComment
    else Finish(txt)
  }

  /** `finish_engine_order`: the issue, then the labelled comment when there is one. */
  function EngineFinalComment(issue: string, comment: string): (r: string)
    ensures |issue| <= |r| && r[..|issue|] == issue
    ensures comment == "" ==> r == issue
    ensures comment != "" ==> r[|issue|..] == CommentLabel + comment
  {
    if comment != "" then issue + CommentLabel + comment else issue
  }

  const ExtraLabel := "Доп: "

  /** The line `process_extra` keeps for the extra question's answer. */
  function ExtraNote(answer: string): string {
    ExtraLabel + answer + "\n"
  }

  /** Machining orders: the stored extra answer, if any, then the comment. */
  function MachiningFinalComment(tempComment: Option<string>, comment: string): (r: string)
    ensures tempComment.None? ==> r == comment
    ensures tempComment.Some? ==> r == tempComment.value + comment
  {
    tempComment.GetOr("") + comment
  }

  /**
   * A machining comment after the extra question reads as the label, the
   * extra answer, a line break and then the comment, so both parts can be
   * read back from it.
   */
  lemma MachiningCommentParts(answer: string, comment: string)
    ensures var r, a := MachiningFinalComment(Some(ExtraNote(answer)), comment), |ExtraLabel|;
      |r| == a + |answer| + 1 + |comment|
      && r[..a] == ExtraLabel && r[a..a + |answer|] == answer && r[a + |answer|] == '\n'
      && r[a + |answer| + 1..] == comment
  {
    var r := MachiningFinalComment(Some(ExtraNote(answer)), comment);
    var a := |ExtraLabel|;
    assert r == ExtraLabel + answer + "\n" + comment;
  }

  /**
   * Whatever message closes the engine form, the stored comment carries the
   * comment label: the comment comes from `safe_text` or is the fixed
   * "no comment" text, and neither is ever empty.
   */
  lemma {:induction false} EngineCommentAlwaysLabelled(issue: string, m: Message)
    ensures ChooseComment(SafeText(m)).Finish? ==>
      Labelled(issue, EngineFinalComment(issue, ChooseComment(SafeText(m)).comment))
    ensures Labelled(issue, EngineFinalComment(issue, SafeText(m)))
  {
    if ChooseComment(SafeText(m)).Finish? {
      NonEmptyLabelled(issue, ChooseComment(SafeText(m)).comment);
    }
    NonEmptyLabelled(issue, SafeText(m));
  }

  /** The comment label follows the issue in `r`. */
  predicate Labelled(issue: string, r: string) {
    |issue| + |CommentLabel| <= |r| && r[|issue|..|issue| + |CommentLabel|] == CommentLabel
  }

  /** Any non-empty comment is labelled after the issue. */
  lemma NonEmptyLabelled(issue: string, c: string)
    requires c != ""
    ensures Labelled(issue, EngineFinalComment(issue, c))
  {
    var r := EngineFinalComment(issue, c);
    assert r[|issue|..] == CommentLabel + c;
    assert r[|issue|..][..|CommentLabel|] == CommentLabel;
  }

  // ---------------------------------------------------------------------------
  // Photo ids

  const AllPhotosButton := "✅ Все фото отправлены"

  // ---------------------------------------------------------------------------
  // Finding the order an admin answers

  /**
   * Case folding under `re.IGNORECASE` for the letters of the keywords:
   * ASCII letters and the Cyrillic capitals А to Я and Ё.
   */
  function FoldCase(c: char): char {
    if 'A' <= c <= 'Z' then ((c as int) + 32) as char
    else if '\U{0410}' <= c <= '\U{042F}' then ((c as int) + 32) as char
    else if c == '\U{0401}' then '\U{0451}'
    else c
  }

  /** The alternatives of `(?:№|No|Num|Заказ)`, folded, in the order they are tried. */
  const ReplyKeywords: seq<string> := ["№", "no", "num", "заказ"]

  predicate KeywordAt(s: string, i: nat, kw: string) {
    i + |kw| <= |s| && forall k :: 0 <= k < |kw| ==> FoldCase(s[i + k]) == kw[k]
  }

  /** `\s` without Unicode classes: space, tab, newline, vertical tab, form feed, carriage return. */
  predicate IsSpace(c: char) {
    c == ' ' || ('\t' <= c <= '\r')
  }

  /** The end of the longest run of `\s` from `i`. */
  function SkipSpaces(s: string, i: nat): (j: nat)
    requires i <= |s|
    ensures i <= j <= |s| && (j == |s| || !IsSpace(s[j]))
    ensures forall k :: i <= k < j ==> IsSpace(s[k])
    decreases |s| - i
  {
    if i < |s| && IsSpace(s[i]) then SkipSpaces(s, i + 1) else i
  }

  /** The end of the longest run of digits from `i`. */
  function DigitsEnd(s: string, i: nat): (j: nat)
    requires i <= |s|
    ensures i <= j <= |s| && (j == |s| || !IsDigit(s[j]))
    ensures AllDigits(s[i..j])
    decreases |s| - i
  {
    if i < |s| && IsDigit(s[i]) then
      var j := DigitsEnd(s, i + 1);
      assert s[i..j] == [s[i]] + s[i + 1..j];
      j
    else i
  }

  /** The first keyword alternative that matches at `i`. */
  function KeywordEnd(s: string, i: nat): (r: Option<nat>)
    requires i <= |s|
    ensures r.Some? ==> i < r.value <= |s|
    ensures r.None? <==> forall k :: 0 <= k < |ReplyKeywords| ==> !KeywordAt(s, i, ReplyKeywords[k])
    ensures r.Some? ==>
      exists k :: (0 <= k < |ReplyKeywords| && KeywordAt(s, i, ReplyKeywords[k]) && r.value == i + |ReplyKeywords[k]|
                   && forall j :: 0 <= j < k ==> !KeywordAt(s, i, ReplyKeywords[j]))
  {
    assert |ReplyKeywords[0]| == 1 && |ReplyKeywords[1]| == 2 && |ReplyKeywords[2]| == 3 && |ReplyKeywords[3]| == 5;
    if KeywordAt(s, i, ReplyKeywords[0]) then Some(i + 1)
    else if KeywordAt(s, i, ReplyKeywords[1]) then Some(i + 2)
    else if KeywordAt(s, i, ReplyKeywords[2]) then Some(i + 3)
    else if KeywordAt(s, i, ReplyKeywords[3]) then Some(i + 5)
    else None
  }

  /**
   * The pattern `(?:№|No|Num|Заказ)\s*[:#]?\s*(\d+)` anchored at `i`; the
   * result is the captured number. Giving back spaces or the `[:#]` never
   * exposes a digit, so the greedy path is the only one that can match.
   */
  function ReplyMatchAt(s: string, i: nat): (r: Option<nat>)
    requires i <= |s|
    ensures r.Some? ==> KeywordEnd(s, i).Some? && r == NumberAfter(s, KeywordEnd(s, i).value)
    ensures KeywordEnd(s, i).Some? && NumberAfter(s, KeywordEnd(s, i).value).Some? ==> r.Some?
  {
    match KeywordEnd(s, i)
    case None => None
    case Some(k) => NumberAfter(s, k)
  }

  predicate AllSpaces(t: string) {
    forall i :: 0 <= i < |t| ==> IsSpace(t[i])
  }

  /** Text matched by `\s*[:#]?\s*`. */
  predicate Gap(t: string) {
    AllSpaces(t) || exists p :: 0 <= p < |t| && (t[p] == ':' || t[p] == '#') && AllSpaces(t[..p]) && AllSpaces(t[p + 1..])
  }

  /** The captured digits start at `j`: a gap from `k` leads to a digit there. */
  predicate NumberStart(s: string, k: nat, j: nat) {
    k <= j < |s| && Gap(s[k..j]) && IsDigit(s[j])
  }

  /**
   * `\s*[:#]?\s*(\d+)` from position `k`, with the captured number read as an
   * integer: it matches exactly when a digit follows a gap, and captures the
   * whole run of digits there.
   */
  function NumberAfter(s: string, k: nat): (r: Option<nat>)
    requires k <= |s|
    ensures r.Some? ==> exists j: nat :: NumberStart(s, k, j) && r.value == DecimalValue(s[j..DigitsEnd(s, j)])
    ensures (exists j: nat :: NumberStart(s, k, j)) ==> r.Some?
  {
    var j := SkipGap(s, k);
    forall e | NumberStart(s, k, e)
      ensures e == j
    {
      GapGreedy(s, k, e);
    }
    if j < |s| && IsDigit(s[j]) then Some(DecimalValue(s[j..DigitsEnd(s, j)])) else None
  }

  /** The greedy path through `\s*[:#]?\s*`: spaces, a `:` or `#` if one is there, spaces. */
  function SkipGap(s: string, k: nat): (r: nat)
    requires k <= |s|
    ensures k <= r <= |s| && Gap(s[k..r])
  {
    var j := SkipSpaces(s, k);
    var j2 := if j < |s| && (s[j] == ':' || s[j] == '#') then j + 1 else j;
    var r := SkipSpaces(s, j2);
    GapShape(s, k, j, j2, r);
    r
  }

  lemma GapShape(s: string, k: nat, j: nat, j2: nat, r: nat)
    requires k <= |s| && j == SkipSpaces(s, k)
    requires j2 == if j < |s| && (s[j] == ':' || s[j] == '#') then j + 1 else j
    requires r == SkipSpaces(s, j2)
    ensures Gap(s[k..r])
  {
    if j2 == j {
      assert AllSpaces(s[k..r]);
    } else {
      var t := s[k..r];
      assert t[j - k] == s[j] && t[..j - k] == s[k..j] && t[j - k + 1..] == s[j2..r];
    }
  }

  /** Any gap followed by a digit is the one the greedy path takes. */
  lemma GapGreedy(s: string, k: nat, e: nat)
    requires NumberStart(s, k, e)
    ensures SkipGap(s, k) == e
  {
    var t := s[k..e];
    if AllSpaces(t) {
      GapOfSpaces(s, k, e);
    } else {
      var p :| 0 <= p < |t| && (t[p] == ':' || t[p] == '#') && AllSpaces(t[..p]) && AllSpaces(t[p + 1..]);
      GapWithSign(s, k, e, p);
    }
  }

  /** A gap of spaces only: the run of `\s` ends at the digit, and nothing more is skipped. */
  lemma GapOfSpaces(s: string, k: nat, e: nat)
    requires k <= e < |s| && IsDigit(s[e]) && AllSpaces(s[k..e])
    ensures SkipGap(s, k) == e
  {
    SpacesThen(s, k, e);
    assert SkipSpaces(s, e) == e;
  }

  /** A gap with a sign at `k + p`: the spaces before it end there and the spaces after it end at `e`. */
  lemma GapWithSign(s: string, k: nat, e: nat, p: nat)
    requires k <= e < |s| && IsDigit(s[e]) && p < e - k
    requires (s[k + p] == ':' || s[k + p] == '#') && AllSpaces(s[k..e][..p]) && AllSpaces(s[k..e][p + 1..])
    ensures SkipGap(s, k) == e
  {
    assert s[k..e][..p] == s[k..k + p];
    assert s[k..e][p + 1..] == s[k + p + 1..e];
    SpacesThen(s, k, k + p);
    SpacesThen(s, k + p + 1, e);
  }

  /** Spaces up to a non-space at `e`: the run of `\s` from `i` ends at `e`. */
  lemma {:induction false} SpacesThen(s: string, i: nat, e: nat)
    requires i <= e < |s| && AllSpaces(s[i..e]) && !IsSpace(s[e])
    ensures SkipSpaces(s, i) == e
    decreases e - i
  {
    if i < e {
      assert s[i] == s[i..e][0];
      assert s[i + 1..e] == s[i..e][1..];
      SpacesThen(s, i + 1, e);
    }
  }

  /** `re.search` from position `i` on. */
  function ReplyMatchFrom(s: string, i: nat): (r: Option<nat>)
    requires i <= |s|
    ensures r.None? <==> NoMatchIn(s, i, |s| + 1)
    ensures r.Some? ==> exists p :: i <= p <= |s| && ReplyMatchAt(s, p) == r && NoMatchIn(s, i, p)
    decreases |s| - i
  {
    if ReplyMatchAt(s, i).Some? then
      ReplyMatchAt(s, i)
    else if i == |s| then
      None
    else
      ReplyMatchFrom(s, i + 1)
  }

  /** No match of the reply pattern starts at a position from `i` up to, not including, `j`. */
  predicate NoMatchIn(s: string, i: nat, j: nat)
    requires j <= |s| + 1
    decreases j - i
  {
    i >= j || (ReplyMatchAt(s, i).None? && NoMatchIn(s, i + 1, j))
  }

  /** The order number an admin's reply refers to: the leftmost match in the replied-to text. */
  function ReplyOrderId(orig: string): Option<nat> {
    ReplyMatchFrom(orig, 0)
  }

  /** The first line of the new-order notice, as sent with HTML markup. */
  function NoticeHead(oid: nat): string {
    NoticeWords + NoticeOrder + " №" + NatToDecimal(oid) + "</b>\n"
  }

  /**
   * The same line as Telegram hands it back in `reply_to_message.text`: the
   * markup has been rendered away.
   */
  function NoticeHeadPlain(oid: nat): string {
    NoticePlainWords + NoticeOrder + " №" + NatToDecimal(oid) + "\n"
  }

  const NoticeWords := "\U{1F514} <b>НОВЫЙ "
  const NoticePlainWords := "\U{1F514} НОВЫЙ "
  const NoticeOrder := "ЗАКАЗ"

  /** A character no keyword alternative can start with. */
  predicate NoKeywordStart(c: char) {
    FoldCase(c) != '№' && FoldCase(c) != 'n' && FoldCase(c) != 'з'
  }

  predicate NoKeywordStarts(t: string) {
    t == [] || (NoKeywordStart(t[0]) && NoKeywordStarts(t[1..]))
  }

  lemma NoKeywordHere(s: string, i: nat)
    requires i < |s| && NoKeywordStart(s[i])
    ensures KeywordEnd(s, i).None?
  {
    assert ReplyKeywords[0][0] == '№' && ReplyKeywords[1][0] == 'n';
    assert ReplyKeywords[2][0] == 'n' && ReplyKeywords[3][0] == 'з';
    assert s[i + 0] == s[i];
  }

  /** Positions where no keyword starts can be skipped. */
  lemma {:induction false} SkipNoKeyword(s: string, i: nat, j: nat)
    requires i <= j <= |s| && NoKeywordStarts(s[i..j])
    ensures ReplyMatchFrom(s, i) == ReplyMatchFrom(s, j)
    decreases j - i
  {
    if i < j {
      assert s[i..j][0] == s[i];
      NoKeywordHere(s, i);
      assert ReplyMatchFrom(s, i) == ReplyMatchFrom(s, i + 1);
      assert s[i + 1..j] == s[i..j][1..];
      SkipNoKeyword(s, i + 1, j);
    }
  }

  /**
   * An admin who replies to a new-order notice addresses that order, whether
   * the text searched still holds the markup or not: the search skips the
   * word "ЗАКАЗ" before the sign `№` and reads the id after it.
   */
  lemma ReplyToNotice(oid: nat, rest: string)
    ensures ReplyOrderId(NoticeHead(oid) + rest) == Some(oid)
    ensures ReplyOrderId(NoticeHeadPlain(oid) + rest) == Some(oid)
  {
    HtmlNoticeLayout(oid, rest);
    NoticeWordsNoKeyword();
    ReplyAfterLead(NoticeWords, NatToDecimal(oid), "</b>\n" + rest);
    PlainNoticeLayout(oid, rest);
    PlainWordsNoKeyword();
    ReplyAfterLead(NoticePlainWords, NatToDecimal(oid), "\n" + rest);
  }

  lemma HtmlNoticeLayout(oid: nat, rest: string)
    ensures NoticeHead(oid) + rest == NoticeWords + (NoticeOrder + (" №" + (NatToDecimal(oid) + ("</b>\n" + rest))))
  {
  }

  lemma PlainNoticeLayout(oid: nat, rest: string)
    ensures NoticeHeadPlain(oid) + rest == NoticePlainWords + (NoticeOrder + (" №" + (NatToDecimal(oid) + ("\n" + rest))))
  {
  }

  /** After a lead in which no keyword starts, "ЗАКАЗ №" and digits are read as that number. */
  lemma ReplyAfterLead(lead: string, digits: string, after: string)
    requires NoKeywordStarts(lead) && digits != [] && AllDigits(digits) && after != [] && !IsDigit(after[0])
    ensures ReplyOrderId(lead + (NoticeOrder + (" №" + (digits + after)))) == Some(DecimalValue(digits))
  {
    var s := lead + (NoticeOrder + (" №" + (digits + after)));
    SkipNoticeWords(s, lead, digits + after);
    NumberAfterSign(s, lead, digits, after);
  }

  /** At the sign `№` the pattern matches and captures the digits that follow it. */
  lemma NumberAfterSign(s: string, lead: string, digits: string, after: string)
    requires s == lead + (NoticeOrder + (" №" + (digits + after)))
    requires digits != [] && AllDigits(digits) && after != [] && !IsDigit(after[0])
    ensures ReplyMatchAt(s, |lead| + 6) == Some(DecimalValue(digits))
  {
    SignKeyword(s, lead, digits + after);
    DigitsAfterSign(s, lead, digits, after);
    KeywordThenNumber(s, |lead| + 6, |lead| + 7);
  }

  lemma KeywordThenNumber(s: string, i: nat, k: nat)
    requires i <= |s| && KeywordEnd(s, i) == Some(k)
    ensures ReplyMatchAt(s, i) == NumberAfter(s, k)
  {
  }

  lemma DigitsAfterSign(s: string, lead: string, digits: string, after: string)
    requires s == lead + (NoticeOrder + (" №" + (digits + after)))
    requires digits != [] && AllDigits(digits) && after != [] && !IsDigit(after[0])
    ensures |lead| + 7 <= |s| && NumberAfter(s, |lead| + 7) == Some(DecimalValue(digits))
  {
    var k := |lead| + 7;
    assert |NoticeOrder| == 5;
    assert s[k..] == digits + after;
    assert s[k..k + |digits|] == digits && s[k + |digits|] == after[0];
    NumberRightThere(s, k, k + |digits|);
  }

  /** The sign `№` is the first keyword alternative, and it is one character long. */
  lemma SignKeyword(s: string, lead: string, tail: string)
    requires s == lead + (NoticeOrder + (" №" + tail))
    ensures KeywordEnd(s, |lead| + 6) == Some(|lead| + 7)
  {
    var t := NoticeOrder + (" №" + tail);
    assert s[|lead| + 6] == t[6] == '№';
    assert KeywordAt(s, |lead| + 6, ReplyKeywords[0]);
  }

  /** Digits straight after the keyword, up to a non-digit, are the number captured. */
  lemma NumberRightThere(s: string, j: nat, e: nat)
    requires j < e < |s| && AllDigits(s[j..e]) && !IsDigit(s[e])
    ensures NumberAfter(s, j) == Some(DecimalValue(s[j..e]))
  {
    assert IsDigit(s[j]) by { assert s[j] == s[j..e][0]; }
    assert SkipSpaces(s, j) == j;
    DigitsEndAt(s, j, e);
  }

  /** The search finds nothing in the lead or in "ЗАКАЗ ", and reaches the sign `№`. */
  lemma {:induction false} SkipNoticeWords(s: string, lead: string, tail: string)
    requires s == lead + (NoticeOrder + (" №" + tail)) && NoKeywordStarts(lead)
    ensures ReplyMatchFrom(s, 0) == ReplyMatchFrom(s, |lead| + 6)
  {
    var n := |lead|;
    assert s[0..n] == lead;
    SkipNoKeyword(s, 0, n);
    // "ЗАКАЗ" is a keyword, but it is followed by " №", which holds no number
    ZakazThenSign(s, lead, tail);
    StepNoMatch(s, n);
    SkipAka(s, lead, tail);
    SecondZe(s, lead, tail);
    StepNoMatch(s, n + 4);
    SpaceBeforeSign(s, lead, tail);
  }

  /** A position where no match starts is passed over. */
  lemma StepNoMatch(s: string, i: nat)
    requires i < |s| && ReplyMatchAt(s, i).None?
    ensures ReplyMatchFrom(s, i) == ReplyMatchFrom(s, i + 1)
  {
  }

  /** The space before the sign `№` starts no keyword. */
  lemma SpaceBeforeSign(s: string, lead: string, tail: string)
    requires s == lead + (NoticeOrder + (" №" + tail))
    ensures ReplyMatchFrom(s, |lead| + 5) == ReplyMatchFrom(s, |lead| + 6)
  {
    var t := NoticeOrder + (" №" + tail);
    assert s[|lead| + 5] == t[5] == ' ';
    NoKeywordHere(s, |lead| + 5);
    StepNoMatch(s, |lead| + 5);
  }

  /** No keyword starts in the "АКА" of "ЗАКАЗ". */
  lemma SkipAka(s: string, lead: string, tail: string)
    requires s == lead + (NoticeOrder + (" №" + tail))
    ensures ReplyMatchFrom(s, |lead| + 1) == ReplyMatchFrom(s, |lead| + 4)
  {
    var n := |lead|;
    var t := NoticeOrder + (" №" + tail);
    assert s[n + 1..n + 4] == t[1..4];
    assert t[1..4] == NoticeOrder[1..4];
    assert NoticeOrder[1..4] == "АКА";
    assert NoKeywordStarts("АКА");
    SkipNoKeyword(s, n + 1, n + 4);
  }

  /** The second "З" of "ЗАКАЗ" is followed by a space, so no keyword starts there. */
  lemma SecondZe(s: string, lead: string, tail: string)
    requires s == lead + (NoticeOrder + (" №" + tail))
    ensures ReplyMatchAt(s, |lead| + 4).None?
  {
    var n := |lead|;
    var t := NoticeOrder + (" №" + tail);
    assert s[n + 4] == t[4] == 'З' && s[n + 5] == t[5] == ' ';
    assert FoldCase(s[n + 4 + 1]) != ReplyKeywords[3][1];
    NoKeywordHereExcept3(s, n + 4);
  }

  lemma ConsNoKeyword(t: string, k: nat)
    requires k < |t| && NoKeywordStart(t[k]) && NoKeywordStarts(t[k + 1..])
    ensures NoKeywordStarts(t[k..])
  {
    assert t[k..][1..] == t[k + 1..];
  }

  /** No keyword starts anywhere in "🔔 <b>НОВЫЙ ". */
  lemma NoticeWordsNoKeyword()
    ensures NoKeywordStarts(NoticeWords)
  {
    var t := NoticeWords;
    assert t[11..] == [];
    ConsNoKeyword(t, 10);
    ConsNoKeyword(t, 9);
    ConsNoKeyword(t, 8);
    ConsNoKeyword(t, 7);
    ConsNoKeyword(t, 6);
    ConsNoKeyword(t, 5);
    ConsNoKeyword(t, 4);
    ConsNoKeyword(t, 3);
    ConsNoKeyword(t, 2);
    ConsNoKeyword(t, 1);
    ConsNoKeyword(t, 0);
    assert t[0..] == t;
  }

  /** No keyword starts anywhere in "🔔 НОВЫЙ ". */
  lemma PlainWordsNoKeyword()
    ensures NoKeywordStarts(NoticePlainWords)
  {
    var t := NoticePlainWords;
    assert t[8..] == [];
    ConsNoKeyword(t, 7);
    ConsNoKeyword(t, 6);
    ConsNoKeyword(t, 5);
    ConsNoKeyword(t, 4);
    ConsNoKeyword(t, 3);
    ConsNoKeyword(t, 2);
    ConsNoKeyword(t, 1);
    ConsNoKeyword(t, 0);
    assert t[0..] == t;
  }

  /** "ЗАКАЗ" after the lead matches the keyword, and the sign `№` after the space is not a number. */
  lemma ZakazThenSign(s: string, lead: string, tail: string)
    requires s == lead + (NoticeOrder + (" №" + tail))
    ensures ReplyMatchAt(s, |lead|).None?
  {
    ZakazKeyword(s, lead, tail);
    SignNoNumber(s, lead, tail);
  }

  /** Of the four alternatives, only "ЗАКАЗ" matches after the lead, and it ends five characters on. */
  lemma ZakazKeyword(s: string, lead: string, tail: string)
    requires s == lead + (NoticeOrder + (" №" + tail))
    ensures KeywordEnd(s, |lead|) == Some(|lead| + 5)
  {
    var n := |lead|;
    assert s[n..n + 5] == NoticeOrder;
    assert ReplyKeywords[0][0] == '№' && ReplyKeywords[1][0] == 'n' && ReplyKeywords[2][0] == 'n';
    assert s[n + 0] == s[n] == 'З';
    assert KeywordAt(s, n, ReplyKeywords[3]);
  }

  /** After the space comes the sign `№`, which is neither `:`, `#` nor a digit. */
  lemma SignNoNumber(s: string, lead: string, tail: string)
    requires s == lead + (NoticeOrder + (" №" + tail))
    ensures NumberAfter(s, |lead| + 5).None?
  {
    var n := |lead|;
    var t := NoticeOrder + (" №" + tail);
    assert s[n + 5] == t[5] == ' ' && s[n + 6] == t[6] == '№';
    assert SkipSpaces(s, n + 6) == n + 6;
    assert SkipSpaces(s, n + 5) == n + 6;
  }

  /** A position whose character folds to neither `№` nor `n` starts at most the last keyword. */
  lemma NoKeywordHereExcept3(s: string, i: nat)
    requires i < |s| && FoldCase(s[i]) != '№' && FoldCase(s[i]) != 'n' && !KeywordAt(s, i, ReplyKeywords[3])
    ensures KeywordEnd(s, i).None?
  {
    assert ReplyKeywords[0][0] == '№' && ReplyKeywords[1][0] == 'n' && ReplyKeywords[2][0] == 'n';
    assert s[i + 0] == s[i];
  }

  /** A run of digits followed by a non-digit ends there. */
  lemma {:induction false} DigitsEndAt(s: string, i: nat, j: nat)
    requires i <= j < |s| && AllDigits(s[i..j]) && !IsDigit(s[j])
    ensures DigitsEnd(s, i) == j
    decreases j - i
  {
    if i < j {
      assert s[i] == s[i..j][0];
      assert s[i + 1..j] == s[i..j][1..];
      DigitsEndAt(s, i + 1, j);
    }
  }

  /** `callback.data.split("_")[1]` read as an integer, for the "reply" button. */
  function ReplyButtonId(data: string): (r: Option<nat>)
    ensures r.Some? <==> |Split(data, '_')| >= 2 && Split(data, '_')[1] != [] && AllDigits(Split(data, '_')[1])
    ensures r.Some? ==> r.value == DecimalValue(Split(data, '_')[1])
  {
    var parts := Split(data, '_');
    if |parts| < 2 || parts[1] == [] || !AllDigits(parts[1]) then None
    else Some(DecimalValue(parts[1]))
  }

  /** The reply button of a notice carries the order id back. */
  lemma {:induction false} ReplyButtonRoundTrip(oid: nat)
    ensures ReplyButtonId("reply_" + NatToDecimal(oid)) == Some(oid)
  {
    var digits := NatToDecimal(oid);
    var data := "reply_" + digits;
    assert '_' !in digits by {
      forall k | 0 <= k < |digits| ensures digits[k] != '_' {
        assert IsDigit(digits[k]);
      }
    }
    assert '_' !in "reply";
    assert data == Join(["reply", digits], "_");
    SplitJoin(["reply", digits], '_');
  }
}
