/**
 * The server-side logic of the two admin pages (admin.php at the top of the
 * repository and admin/admin.php): the order-list query, the message a client
 * receives when an order's status changes, the guard in front of the Telegram
 * send, and the split of an order's stored photo ids.
 *
 * The database escape function is a parameter; what it does to a string is
 * not modelled.
 */
module AdminPanel {
  import opened Wrappers
  import opened Text

  /** Which of the two admin pages: they differ in the engine order type and the searched columns. */
  datatype Page = RootPage | PanelPage

  // ---------------------------------------------------------------------------
  // The order-list query

  const QueryHead := "SELECT * FROM orders WHERE "
  const QueryTail := " ORDER BY id DESC"

  /** The shapes of the entries of `$where`. */
  datatype Clause =
    | NotFilling                      // status != 'filling'
    | TypeIs(orderType: string)       // order_type = '...'
    | TypeInMachining                 // order_type IN ('standard', 'machining')
    | Search(safe: string)            // LIKE over the searched columns
    | Period(month: int, year: int)   // MONTH(created_at) = m AND YEAR(created_at) = y

  /** The `order_type` value the engine tab asks for. */
  function EngineType(page: Page): string {
    match page
    case RootPage => "engine"
    case PanelPage => "engine_repair"
  }

  /** The SQL text of one clause; the two pages search different columns. */
  function ClauseText(page: Page, c: Clause): string {
    match c
    case NotFilling => "status != 'filling'"
    case TypeIs(t) => "order_type = '" + t + "'"
    case TypeInMachining => "order_type IN ('standard', 'machining')"
    case Search(safe) =>
      var common := "(full_name LIKE '%" + safe + "%' OR username LIKE '%" + safe + "%' OR comment LIKE '%" + safe + "%'";
      if page == RootPage then common + ")"
      else common + "\n                     OR car_brand LIKE '%" + safe + "%' OR engine_issue LIKE '%" + safe + "%')"
    case Period(m, y) => "MONTH(created_at) = " + IntToDecimal(m) + " AND YEAR(created_at) = " + IntToDecimal(y)
  }

  function ClauseTexts(page: Page, cs: seq<Clause>): (r: seq<string>)
    ensures |r| == |cs| && forall i :: 0 <= i < |cs| ==> r[i] == ClauseText(page, cs[i])
  {
    if cs == [] then [] else [ClauseText(page, cs[0])] + ClauseTexts(page, cs[1..])
  }

  /** PHP truthiness of an integer argument that defaults to `null`. */
  predicate TruthyInt(x: Option<int>) {
    x.Some? && x.value != 0
  }

  /** The clauses a query with these arguments may hold. */
  predicate Expected(c: Clause, page: Page, safe: string, month: Option<int>, year: Option<int>) {
    || c == NotFilling || c == TypeIs(EngineType(page)) || c == TypeInMachining || c == Search(safe)
    || (TruthyInt(month) && TruthyInt(year) && c == Period(month.value, year.value))
  }

  /** The clause the order-type tab adds: the engine type alone, the two machining types, or none. */
  function TypePart(page: Page, orderType: string): seq<Clause> {
    if orderType == EngineType(page) then [TypeIs(EngineType(page))]
    else if orderType == "machining" then [TypeInMachining]
    else []
  }

  /** The clause the search box adds: one LIKE clause unless the text is PHP-falsy. */
  function SearchPart(search: string, safe: string): seq<Clause> {
    if !PhpFalsy(search) then [Search(safe)] else []
  }

  /** The clause the period filter adds: only when month and year are both given and non-zero. */
  function PeriodPart(month: Option<int>, year: Option<int>): seq<Clause> {
    if TruthyInt(month) && TruthyInt(year) then [Period(month.value, year.value)] else []
  }

  /** The whole `$where` list for these arguments, in the order the clauses are appended. */
  function Where(page: Page, orderType: string, search: string, safe: string, month: Option<int>, year: Option<int>)
    : seq<Clause>
  {
    [NotFilling] + TypePart(page, orderType) + SearchPart(search, safe) + PeriodPart(month, year)
  }

  /**
   * What the `$where` list holds: the exclusion of unfinished orders first, each
   * other kind of clause exactly under its condition, nothing unexpected, and no
   * clause twice.
   */
  lemma WhereShape(page: Page, orderType: string, search: string, safe: string, month: Option<int>, year: Option<int>)
    ensures
      var w := Where(page, orderType, search, safe, month, year);
      && |w| >= 1 && w[0] == NotFilling
      && (TypeIs(EngineType(page)) in w <==> orderType == EngineType(page))
      && (TypeInMachining in w <==> orderType == "machining")
      && (Search(safe) in w <==> !PhpFalsy(search))
      && ((exists c :: c in w && c.Period?) <==> TruthyInt(month) && TruthyInt(year))
      && (forall c :: c in w ==> Expected(c, page, safe, month, year))
      && (forall i, j :: 0 <= i < j < |w| ==> w[i] != w[j])
  {
    WhereTypeClauses(page, orderType, search, safe, month, year);
    WhereSearchClause(page, orderType, search, safe, month, year);
    WherePeriodClause(page, orderType, search, safe, month, year);
    WhereNothingElse(page, orderType, search, safe, month, year);
    WhereRanks(page, orderType, search, safe, month, year);
    WhereDistinct(Where(page, orderType, search, safe, month, year));
  }

  lemma WhereTypeClauses(page: Page, orderType: string, search: string, safe: string, month: Option<int>, year: Option<int>)
    ensures TypeIs(EngineType(page)) in Where(page, orderType, search, safe, month, year) <==> orderType == EngineType(page)
    ensures TypeInMachining in Where(page, orderType, search, safe, month, year) <==> orderType == "machining"
  {
    var t, q, p := TypePart(page, orderType), SearchPart(search, safe), PeriodPart(month, year);
    assert Where(page, orderType, search, safe, month, year) == [NotFilling] + t + q + p;
    PartsMembers(page, orderType, search, safe, month, year);
    AddedMembers(t, q, p);
  }

  lemma WhereSearchClause(page: Page, orderType: string, search: string, safe: string, month: Option<int>, year: Option<int>)
    ensures Search(safe) in Where(page, orderType, search, safe, month, year) <==> !PhpFalsy(search)
  {
    var t, q, p := TypePart(page, orderType), SearchPart(search, safe), PeriodPart(month, year);
    assert Where(page, orderType, search, safe, month, year) == [NotFilling] + t + q + p;
    PartsMembers(page, orderType, search, safe, month, year);
    AddedMembers(t, q, p);
  }

  lemma WherePeriodClause(page: Page, orderType: string, search: string, safe: string, month: Option<int>, year: Option<int>)
    ensures (exists c :: c in Where(page, orderType, search, safe, month, year) && c.Period?) <==> TruthyInt(month) && TruthyInt(year)
  {
    var t, q, p := TypePart(page, orderType), SearchPart(search, safe), PeriodPart(month, year);
    assert Where(page, orderType, search, safe, month, year) == [NotFilling] + t + q + p;
    PartsMembers(page, orderType, search, safe, month, year);
    AddedMembers(t, q, p);
  }

  lemma WhereNothingElse(page: Page, orderType: string, search: string, safe: string, month: Option<int>, year: Option<int>)
    ensures forall c :: c in Where(page, orderType, search, safe, month, year) ==> Expected(c, page, safe, month, year)
  {
    var t, q, p := TypePart(page, orderType), SearchPart(search, safe), PeriodPart(month, year);
    assert Where(page, orderType, search, safe, month, year) == [NotFilling] + t + q + p;
    PartsMembers(page, orderType, search, safe, month, year);
    AddedMembers(t, q, p);
  }

  /** A clause of `$where` is the exclusion or comes from one of the three parts. */
  lemma AddedMembers(t: seq<Clause>, q: seq<Clause>, p: seq<Clause>)
    ensures forall c :: c in [NotFilling] + t + q + p <==> c == NotFilling || c in t + q + p
    ensures forall c :: c in t + q + p <==> c in t || c in q || c in p
  {
  }

  /** The clauses each part can hold. */
  lemma PartsMembers(page: Page, orderType: string, search: string, safe: string, month: Option<int>, year: Option<int>)
    ensures TypeIs(EngineType(page)) in TypePart(page, orderType) <==> orderType == EngineType(page)
    ensures TypeInMachining in TypePart(page, orderType) <==> orderType == "machining"
    ensures Search(safe) in SearchPart(search, safe) <==> !PhpFalsy(search)
    ensures (exists c :: c in PeriodPart(month, year) && c.Period?) <==> TruthyInt(month) && TruthyInt(year)
    ensures forall c :: c in TypePart(page, orderType) + SearchPart(search, safe) + PeriodPart(month, year) ==>
      Expected(c, page, safe, month, year) && !c.NotFilling?
  {
    if TruthyInt(month) && TruthyInt(year) {
      assert Period(month.value, year.value) in PeriodPart(month, year);
    }
  }

  /** Increasing kinds leave no room for a repeated clause. */
  lemma WhereDistinct(w: seq<Clause>)
    requires StrictlyRanked(w)
    ensures forall i, j :: 0 <= i < j < |w| ==> w[i] != w[j]
  {
    forall i, j | 0 <= i < j < |w| ensures w[i] != w[j] {
      assert Rank(w[i]) < Rank(w[j]);
    }
  }

  /** The position of each kind of clause in `$where`. */
  function Rank(c: Clause): nat {
    match c
    case NotFilling => 0
    case TypeIs(_) => 1
    case TypeInMachining => 1
    case Search(_) => 2
    case Period(_, _) => 3
  }

  /** Along `$where` the kinds of clause strictly increase. */
  lemma WhereRanks(page: Page, orderType: string, search: string, safe: string, month: Option<int>, year: Option<int>)
    ensures StrictlyRanked(Where(page, orderType, search, safe, month, year))
  {
    var t, q, p := TypePart(page, orderType), SearchPart(search, safe), PeriodPart(month, year);
    assert StrictlyRanked([NotFilling]) && RanksBelow([NotFilling], 1);
    AppendRanked([NotFilling], t, 1);
    AppendRanked([NotFilling] + t, q, 2);
    AppendRanked([NotFilling] + t + q, p, 3);
  }

  predicate StrictlyRanked(w: seq<Clause>) {
    forall i, j :: 0 <= i < j < |w| ==> Rank(w[i]) < Rank(w[j])
  }

  predicate RanksBelow(w: seq<Clause>, n: nat) {
    forall i :: 0 <= i < |w| ==> Rank(w[i]) < n
  }

  /** Appending at most one clause of a higher kind keeps the kinds increasing. */
  lemma AppendRanked(a: seq<Clause>, b: seq<Clause>, n: nat)
    requires StrictlyRanked(a) && RanksBelow(a, n)
    requires |b| <= 1 && forall k :: 0 <= k < |b| ==> Rank(b[k]) == n
    ensures StrictlyRanked(a + b) && RanksBelow(a + b, n + 1)
  {
    var w := a + b;
    assert forall k :: 0 <= k < |a| ==> w[k] == a[k];
  }

  /** The order-type tab: the engine type alone, or the two machining types. */
  method AddTypeClause(page: Page, orderType: string, clauses: seq<Clause>) returns (r: seq<Clause>)
    ensures |r| == |clauses| + (if orderType == EngineType(page) || orderType == "machining" then 1 else 0)
    ensures r[..|clauses|] == clauses
    ensures orderType == EngineType(page) ==> r[|clauses|] == TypeIs(EngineType(page))
    ensures orderType != EngineType(page) && orderType == "machining" ==> r[|clauses|] == TypeInMachining
    ensures r == clauses + TypePart(page, orderType)
  {
    r := clauses;
    if orderType == EngineType(page) {
      r := r + [TypeIs(EngineType(page))];
    } else if orderType == "machining" {
      r := r + [TypeInMachining];
    }
  }

  /** The search box: one LIKE clause over the escaped text unless the text is PHP-falsy. */
  method AddSearchClause(search: string, safe: string, clauses: seq<Clause>) returns (r: seq<Clause>)
    ensures |r| == |clauses| + (if PhpFalsy(search) then 0 else 1)
    ensures r[..|clauses|] == clauses
    ensures !PhpFalsy(search) ==> r[|clauses|] == Search(safe)
    ensures r == clauses + SearchPart(search, safe)
  {
    r := clauses;
    if !PhpFalsy(search) {
      r := r + [Search(safe)];
    }
  }

  /** The period filter: both month and year must be given and non-zero. */
  method AddPeriodClause(month: Option<int>, year: Option<int>, clauses: seq<Clause>) returns (r: seq<Clause>)
    ensures |r| == |clauses| + (if TruthyInt(month) && TruthyInt(year) then 1 else 0)
    ensures r[..|clauses|] == clauses
    ensures TruthyInt(month) && TruthyInt(year) ==> r[|clauses|] == Period(month.value, year.value)
    ensures r == clauses + PeriodPart(month, year)
  {
    r := clauses;
    if TruthyInt(month) && TruthyInt(year) {
      r := r + [Period(month.value, year.value)];
    }
  }

  /**
   * `build_query`'s `$where` list: it starts with the exclusion of unfinished
   * orders and grows clause by clause.
   */
  method WhereClauses(page: Page, orderType: string, search: string, month: Option<int>, year: Option<int>,
                      escape: string -> string)
    returns (clauses: seq<Clause>)
    ensures clauses == Where(page, orderType, search, escape(search), month, year)
  {
    var safe := escape(search);
    var typed := AddTypeClause(page, orderType, [NotFilling]);
    var searched := AddSearchClause(search, safe, typed);
    clauses := AddPeriodClause(month, year, searched);
  }

  /** `build_query`: the `$where` list, joined with " AND " into the SELECT statement. */
  method BuildQuery(page: Page, orderType: string, search: string, month: Option<int>, year: Option<int>,
                    escape: string -> string)
    returns (clauses: seq<Clause>, sql: string)
    ensures clauses == Where(page, orderType, search, escape(search), month, year)
    ensures sql == QueryText(page, clauses)
  {
    clauses := WhereClauses(page, orderType, search, month, year, escape);
    sql := QueryText(page, clauses);
  }

  /** The SELECT statement with the clauses joined by " AND ". */
  function QueryText(page: Page, clauses: seq<Clause>): string {
    QueryHead + Join(ClauseTexts(page, clauses), " AND ") + QueryTail
  }

  /** Every query starts by excluding the orders still being filled in. */
  lemma QueryExcludesFilling(page: Page, clauses: seq<Clause>)
    requires |clauses| >= 1 && clauses[0] == NotFilling
    ensures
      var sql := QueryText(page, clauses);
      var head := QueryHead + "status != 'filling'";
      |head| <= |sql| && sql[..|head|] == head
  {
    var texts := ClauseTexts(page, clauses);
    JoinStartsWithFirst(texts, " AND ");
    var j := Join(texts, " AND ");
    assert j[..|texts[0]|] == texts[0];
    var sql := QueryHead + j + QueryTail;
    assert sql == QueryHead + (j + QueryTail);
  }

  /** A joined list starts with its first element. */
  lemma JoinStartsWithFirst(parts: seq<string>, sep: string)
    requires |parts| >= 1
    ensures |parts[0]| <= |Join(parts, sep)| && Join(parts, sep)[..|parts[0]|] == parts[0]
  {
    if |parts| > 1 {
      assert Join(parts, sep) == parts[0] + (sep + Join(parts[1..], sep));
    }
  }

  // ---------------------------------------------------------------------------
  // Status change notice

  /** The client-facing label of each known status. */
  const StatusLabels: map<string, string> := map[
    "filling" := "\U{270D}\U{FE0F} Заполняет...",
    "new" := "\U{1F525} НОВЫЙ",
    "discussion" := "\U{1F4AC} Обсуждение",
    "approved" := "\U{1F6E0} В работе",
    "done" := "\U{2705} ГОТОВ",
    "rejected" := "\U{274C} Отказ"
  ]

  /** `$status_map[$s]['text'] ?? $s` */
  function StatusLabel(status: string): string {
    if status in StatusLabels then StatusLabels[status] else status
  }

  const DoneLine := "\n\n\U{1F389} Ваш заказ готов!"
  const RejectedLine := "\n\n\U{274C} Заказ отменён."

  function MessageHead(oid: int): string {
    "\U{2139}\U{FE0F} <b>Статус заказа #" + IntToDecimal(oid) + " изменён:</b>\n\n"
  }

  /** The text sent to the client: the head, the label, then the line for a finished or cancelled order. */
  function ClientMessage(oid: int, status: string): (msg: string)
    ensures
      var head := MessageHead(oid);
      && |head| + |StatusLabel(status)| <= |msg|
      && msg[..|head|] == head
      && msg[|head|..|head| + |StatusLabel(status)|] == StatusLabel(status)
    ensures status == "done" ==>
      |msg| == |MessageHead(oid)| + |StatusLabel(status)| + |DoneLine| && msg[|msg| - |DoneLine|..] == DoneLine
    ensures status == "rejected" ==>
      |msg| == |MessageHead(oid)| + |StatusLabel(status)| + |RejectedLine| && msg[|msg| - |RejectedLine|..] == RejectedLine
    ensures status != "done" && status != "rejected" ==> |msg| == |MessageHead(oid)| + |StatusLabel(status)|
  {
    var head := MessageHead(oid);
    var shown := StatusLabel(status);
    var ending := if status == "done" then DoneLine else if status == "rejected" then RejectedLine else "";
    ThreeParts(head, shown, ending);
    head + shown + ending
  }

  /** Each of three concatenated parts can be sliced back out. */
  lemma ThreeParts<T>(a: seq<T>, b: seq<T>, c: seq<T>)
    ensures var t := a + b + c;
      && t[..|a|] == a && t[|a|..|a| + |b|] == b && t[|t| - |c|..] == c
  {
  }

  /** The order row read before the update: its client and its status, either of which may be NULL. */
  datatype OrderInfo = OrderInfo(userId: Option<int>, status: Option<string>)

  /** A message handed to Telegram's sendMessage. */
  datatype Outgoing = Outgoing(chatId: int, text: string)

  /** The whitespace PHP 8 allows around a numeric string: space, tab, newline, carriage return, vertical tab, form feed. */
  predicate IsNumericSpace(c: char) {
    c == ' ' || c == '\t' || c == '\n' || c == '\r' || c == '\U{0B}' || c == '\U{0C}'
  }

  /**
   * The integer a PHP 8 integer-numeric string stands for: optional whitespace,
   * an optional sign, one or more digits, optional whitespace.
   */
  function IntegerValue(s: string): (r: Option<int>)
    ensures r.Some? ==> exists k :: 0 <= k < |s| && IsDigit(s[k])
  {
    var t := Strip(s, IsNumericSpace);
    if |t| >= 2 && (t[0] == '+' || t[0] == '-') && AllDigits(t[1..]) then
      assert IsDigit(t[1]) && t[1] in s;
      var v: int := DecimalValue(t[1..]);
      Some(if t[0] == '-' then -v else v)
    else if |t| >= 1 && AllDigits(t) then
      assert IsDigit(t[0]) && t[0] in s;
      Some(DecimalValue(t))
    else None
  }

  /** PHP 8 `==` on two strings: numerically when both are numeric, otherwise as text. */
  predicate LooseEqual(a: string, b: string) {
    var x, y := IntegerValue(a), IntegerValue(b);
    if x.Some? && y.Some? then x.value == y.value else a == b
  }

  /** PHP `$old != $new` for a status read from the row (`null` when there is no row or the column is NULL). */
  predicate StatusChanged(previous: Option<string>, posted: string) {
    match previous
    case None => posted != ""
    case Some(p) => !LooseEqual(p, posted)
  }

  /** A digit string reads back as its value, with or without a leading zero. */
  lemma DigitStringValue(d: string)
    requires |d| >= 1 && AllDigits(d)
    ensures IntegerValue(d) == Some(DecimalValue(d))
    ensures IntegerValue("0" + d) == Some(DecimalValue(d))
  {
    DigitsReadBack(d);
    LeadingZero(d);
    DigitsReadBack("0" + d);
  }

  /** Digits alone are an integer-numeric string. */
  lemma DigitsReadBack(d: string)
    requires |d| >= 1 && AllDigits(d)
    ensures IntegerValue(d) == Some(DecimalValue(d))
  {
    StripNothing(d);
    assert !IsDigit('+') && !IsDigit('-');
  }

  /** Text that starts and ends with something other than whitespace is left as it is. */
  lemma StripNothing(s: string)
    requires |s| >= 1 && !IsNumericSpace(s[0]) && !IsNumericSpace(s[|s| - 1])
    ensures Strip(s, IsNumericSpace) == s
  {
  }

  /** A leading zero does not change a decimal value. */
  lemma {:induction false} LeadingZero(d: string)
    requires AllDigits(d)
    ensures AllDigits("0" + d) && DecimalValue("0" + d) == DecimalValue(d)
    decreases |d|
  {
    var z := "0" + d;
    if d == [] {
      assert z[..0] == [];
    } else {
      assert z[..|z| - 1] == "0" + d[..|d| - 1];
      LeadingZero(d[..|d| - 1]);
    }
  }

  /** A stored status of "1" and a posted "01" are equal to PHP, so no message is sent. */
  lemma ZeroPaddedStatusUnchanged(n: nat)
    ensures !StatusChanged(Some(NatToDecimal(n)), "0" + NatToDecimal(n))
  {
    DigitStringValue(NatToDecimal(n));
  }

  /** A status that starts with neither whitespace, a sign nor a digit is compared as text. */
  lemma WordStatusComparedAsText(a: string, b: string)
    requires |a| >= 1 && !IsNumericSpace(a[0]) && a[0] != '+' && a[0] != '-' && !IsDigit(a[0])
    ensures LooseEqual(a, b) <==> a == b
    ensures StatusChanged(Some(a), b) <==> a != b
  {
    StripNothingLeft(a);
  }

  /** Stripping text that starts with something other than whitespace keeps its first character. */
  lemma StripNothingLeft(s: string)
    requires |s| >= 1 && !IsNumericSpace(s[0])
    ensures var t := Strip(s, IsNumericSpace); t == [] || t[0] == s[0]
  {
  }

  /** `send_telegram_msg` returns at once when the token or the client id is PHP-falsy. */
  predicate SendAllowed(token: string, userId: Option<int>) {
    !PhpFalsy(token) && TruthyInt(userId)
  }

  /**
   * The notification part of the order-update handler: the posted status is
   * escaped, compared with the old one, and only a changed status produces a
   * message, which is sent only past the guard.
   */
  function StatusNotification(token: string, oid: int, info: Option<OrderInfo>, postedStatus: string,
                              escape: string -> string): (r: Option<Outgoing>)
    ensures
      var previous := if info.Some? then info.value.status else None;
      var user := if info.Some? then info.value.userId else None;
      r.Some? <==> StatusChanged(previous, escape(postedStatus)) && SendAllowed(token, user)
    ensures r.Some? ==> info.Some? && info.value.userId == Some(r.value.chatId) && r.value.chatId != 0
    ensures r.Some? ==> r.value.text == ClientMessage(oid, escape(postedStatus))
  {
    var newStatus := escape(postedStatus);
    var previous := if info.Some? then info.value.status else None;
    var user := if info.Some? then info.value.userId else None;
    if StatusChanged(previous, newStatus) && SendAllowed(token, user) then
      Some(Outgoing(user.value, ClientMessage(oid, newStatus)))
    else None
  }

  // ---------------------------------------------------------------------------
  // Photo ids

  /** `array_map('trim', ...)` */
  function TrimAll(parts: seq<string>): (r: seq<string>)
    ensures |r| == |parts|
    ensures forall i :: 0 <= i < |r| ==> StrippedFrom(r[i], parts[i], IsPhpTrimChar)
  {
    forall i | 0 <= i < |parts|
      ensures StrippedFrom(PhpTrim(parts[i]), parts[i], IsPhpTrimChar)
    {
      StripShape(parts[i], IsPhpTrimChar);
    }
    seq(|parts|, i requires 0 <= i < |parts| => PhpTrim(parts[i]))
  }

  /** `array_filter(...)` without a callback: drops the PHP-falsy strings, keeps the order. */
  function DropFalsy(parts: seq<string>): (r: seq<string>)
    ensures |r| <= |parts|
    ensures forall i :: 0 <= i < |r| ==> !PhpFalsy(r[i]) && r[i] in parts
    ensures (forall i :: 0 <= i < |parts| ==> !PhpFalsy(parts[i])) ==> r == parts
  {
    if parts == [] then []
    else if PhpFalsy(parts[0]) then DropFalsy(parts[1..])
    else [parts[0]] + DropFalsy(parts[1..])
  }

  /** A single piece is kept exactly when it is not falsy. */
  lemma DropFalsyOne(x: string)
    ensures DropFalsy([x]) == if PhpFalsy(x) then [] else [x]
  {
    assert [x][1..] == [];
  }

  /**
   * Filtering a concatenation filters each part in place, so with
   * `DropFalsyOne` the kept pieces are the non-falsy ones in their order.
   */
  lemma {:induction false} DropFalsyAppend(a: seq<string>, b: seq<string>)
    ensures DropFalsy(a + b) == DropFalsy(a) + DropFalsy(b)
    decreases |a|
  {
    if a != [] {
      assert (a + b)[1..] == a[1..] + b;
      DropFalsyAppend(a[1..], b);
    } else {
      assert a + b == b;
    }
  }

  /**
   * The photo-viewer split: no row or a falsy column gives no ids; otherwise the
   * column is split on commas, each piece trimmed, and empty pieces dropped.
   */
  function PhotoIds(column: Option<string>): (r: seq<string>)
    ensures forall i :: 0 <= i < |r| ==> !PhpFalsy(r[i]) && ',' !in r[i]
  {
    if column.None? || PhpFalsy(column.value) then []
    else
      var pieces := Split(column.value, ',');
      var trimmed := TrimAll(pieces);
      forall i | 0 <= i < |trimmed| ensures ',' !in trimmed[i] {
        TrimKeepsOut(pieces[i], ',');
      }
      DropFalsy(trimmed)
  }

  /** Trimming only removes characters, so a character absent before is absent after. */
  lemma TrimKeepsOut(s: string, c: char)
    requires c !in s
    ensures c !in PhpTrim(s)
  {
    var l := StripLeft(s, IsPhpTrimChar);
    NotInSlice(s, |s| - |l|, |s|, c);
    var r := StripRight(l, IsPhpTrimChar);
    NotInSlice(l, 0, |r|, c);
  }

  /** A slice holds nothing its sequence does not. */
  lemma NotInSlice<T>(s: seq<T>, i: nat, j: nat, c: T)
    requires i <= j <= |s| && c !in s
    ensures c !in s[i..j]
  {
  }

  lemma {:induction false} TrimAllIdentity(parts: seq<string>)
    requires forall i :: 0 <= i < |parts| ==> PhpTrim(parts[i]) == parts[i]
    ensures TrimAll(parts) == parts
  {
    var r := TrimAll(parts);
    assert forall i :: 0 <= i < |r| ==> r[i] == parts[i];
  }

  /**
   * The photo-viewer split reads back the ids the bot stored with `",".join`,
   * as long as no id holds a comma, is falsy or carries spaces at its ends.
   */
  lemma {:induction false} PhotoIdsRoundTrip(ids: seq<string>)
    requires forall i :: 0 <= i < |ids| ==> ',' !in ids[i] && !PhpFalsy(ids[i]) && PhpTrim(ids[i]) == ids[i]
    ensures PhotoIds(Some(Join(ids, ","))) == ids
  {
    var column := Join(ids, ",");
    if ids == [] {
      assert column == "";
    } else {
      JoinNotFalsy(ids);
      SplitJoin(ids, ',');
      TrimAllIdentity(ids);
      assert PhotoIds(Some(column)) == DropFalsy(TrimAll(Split(column, ',')));
    }
  }

  /** Joining non-falsy ids never gives a falsy column. */
  lemma JoinNotFalsy(ids: seq<string>)
    requires ids != [] && forall i :: 0 <= i < |ids| ==> !PhpFalsy(ids[i])
    ensures !PhpFalsy(Join(ids, ","))
  {
    var column := Join(ids, ",");
    if |ids| == 1 {
      assert column == ids[0];
    } else {
      assert column == ids[0] + "," + Join(ids[1..], ",");
      assert column[|ids[0]|] == ',';
    }
  }
}
