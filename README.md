# Turner bot: a verified model of its order logic

This project models, in Dafny, the deterministic logic of a small workshop
CRM. The CRM is a Telegram bot (`bot.py`, `database.py`) that takes
engine-repair and machining orders, plus two PHP admin pages (`admin.php`,
`admin/admin.php`) and a hardened login (`admin/secure_auth.php`). The model
covers:

- **Phone extraction** (`phone.dfy`, `phone_facts.dfy`).
  - `extract_phone_from_comment` finds a Russian phone number in a free-text
    order comment. It tries four regular expressions in order, and each one is
    written here as a scanner over the string.
  - The order modal has a JavaScript copy of the extractor.
  - The main results: every answer has the form `+7 (ddd) ddd-dd-dd`; reading
    an answer again gives it back; ten digits in a row always yield a number;
    and the modal copy is shown to miss numbers the server finds.
- **Admin pages** (`admin_panel.dfy`).
  - The `WHERE` clauses of the order list, on both pages.
  - The message sent to a client when an order's status changes, and the
    guard in front of the send.
  - How the stored photo ids are split back into a list.
- **Orders table** (`orders_db.dfy`).
  - The `orders` table as a class holding a map from id to row, with the
    allow-list that guards column updates.
  - The "newest order of a user" queries.
  - How the three configuration sources merge into one dictionary.
- **Bot forms** (`bot_form.dfy`, `form_steps.dfy`).
  - How a message is read as text, and the rules each answer of the engine
    form must pass.
  - How the final comment of an order is built.
  - How an admin reply finds the order it answers.
  - The per-user conversation, as a class whose methods are the form handlers.
- **Login** (`secure_auth.dfy`).
  - The rate limit of five attempts per IP in fifteen minutes.
  - The CSRF token kept in the session.
  - The login branch, which checks the rate limit first, then the token, then
    the password.

Regular-expression classes are ASCII: `\d` is `0-9`, and `\s` is space, tab,
line feed, vertical tab, form feed and carriage return. PHP falsiness of a
string is `""` or `"0"`. The database escape function is a parameter whose
behaviour is not modelled. Clocks, random bytes, the password hash check and
the network are parameters or are left out.

Strategy 3 of the extractor has a consequence worth stating. A comment can
yield a phone number even when no seven digits stand in a row, because the
pattern accepts digit groups separated by spaces, dashes and brackets
(admin/admin.php:177-185). The model follows the code on this point
(`PhoneFacts.GroupedNumber`).

## Model

| member | source | states |
|---|---|---|
| PhoneExtract.Format | admin/admin.php:155-158 | ten digits become the 18-character `+7 (ddd) ddd-dd-dd`, from which `Unformat` reads the same ten digits back |
| PhoneExtract.FormatUnformat | admin/admin.php:155-158 | every canonical phone string is the formatting of its own ten digits |
| PhoneExtract.FirstRunFrom | admin/admin.php:149 | the leftmost standalone run of n digits at or after a position: it is a run, and no run starts before it |
| PhoneExtract.Strategy1 | admin/admin.php:149-161 | succeeds exactly when the first standalone 11-digit run starts with 8 or 7; the result is canonical and carries that run's last ten digits |
| PhoneExtract.Strategy2 | admin/admin.php:164-173 | succeeds exactly when a standalone 10-digit run exists; the result is canonical and carries the first such run as it is |
| PhoneExtract.PatternAt | admin/admin.php:177 | any match of the separator pattern at a position (the prefixes `+7`, `7`, `8` tried before no prefix) reads digit groups of 3, 3, 2 and 2-3 digits, so the comment holds at least ten digits |
| PhoneExtract.Strategy3 | admin/admin.php:177-185 | succeeds exactly when the separator pattern matches somewhere; the result is canonical, starts with +7 whatever the prefix, and drops the first digit of a 3-digit last group |
| PhoneExtract.CaptureFrom | admin/admin.php:188 | the backtracking choice of the capture: the last start at or before the keyword's end from which at least 7 characters of `[\+\d\s\-\(\)\.]` follow, taken to the end of that run; none exactly when no such start exists |
| PhoneExtract.KeywordPhone | admin/admin.php:189-206 | after non-digits are stripped, 11 digits led by 8 or 7 lose the lead, 10 digits stay, and anything else fails |
| PhoneExtract.Strategy4 | admin/admin.php:188-207 | no keyword gives nothing; otherwise the result is `KeywordPhone` of the digits of the first keyword-anchored capture, and any result is canonical |
| PhoneFacts.DottedNumberByKeyword | admin/admin.php:145-207 | in a comment with no four digits in a row and no digit followed by a separator of strategy 3, the result is the keyword strategy's |
| PhoneFacts.KeywordDottedNumber | admin/admin.php:188-207 | `тел ` and a dotted number of at least 7 characters (such as `8.916.085.60.70`) extract to `KeywordPhone` of its digits |
| PhoneExtract.Extract | admin/admin.php:145-210 | a PHP-empty comment gives `''`; any other result is canonical and comes from a comment with at least ten digits |
| PhoneExtract.ModalExtract | admin/admin.php:716-743 | every non-empty result of the modal copy equals the server function's result, and is canonical |
| PhoneFacts.NoLongRun | admin/admin.php:149-173 | without ten digits in a row, neither digit-run strategy applies |
| PhoneFacts.ExtractNonEmpty | admin/admin.php:149-185 | when strategy 1, 2 or 3 succeeds, the result is not empty |
| PhoneFacts.CanonicalIsFixpoint | admin/admin.php:145-210 | extracting from an extracted phone gives it back unchanged |
| PhoneFacts.DigitsRoundTrip | admin/admin.php:149-173 | ten digits, led by 8, 7 or nothing and set apart from other digits and word characters, extract to the phone they spell |
| PhoneFacts.TenDigitsNeverEmpty | admin/admin.php:149-185 | a comment with ten consecutive digits anywhere never yields `''` |
| PhoneFacts.GroupedNumber | admin/admin.php:177-185 | a grouped number with prefix `+7`, `7`, `8` or none gives +7 and the groups, and a 3-digit last group loses its first digit |
| PhoneFacts.FirstElevenDigitRunDecides | admin/admin.php:149-161 | when the first 11-digit run is led by neither 8 nor 7, strategy 1 fails and a valid 11-digit number after it is never examined |
| PhoneFacts.ModalMissesTenDigitFallback | admin/admin.php:716-743 | with an 11-digit run led by neither 8 nor 7 and then a 10-digit number, the modal shows nothing while the server finds the number |
| AdminPanel.ClauseTexts | admin.php:162 | one SQL text per clause, in order |
| AdminPanel.AddTypeClause | admin.php:153-154 | exactly one clause is appended for the engine type (`order_type = 'engine'`) or for `machining` (the `IN` clause), none for any other type, and the earlier clauses are kept: the result is the list followed by `TypePart` |
| AdminPanel.AddSearchClause | admin.php:155-158 | exactly one LIKE clause over the escaped text is appended when the search is PHP-truthy, none otherwise, and the earlier clauses are kept |
| AdminPanel.AddPeriodClause | admin.php:159-161 | exactly one period clause is appended when month and year are both non-zero, none otherwise, and the earlier clauses are kept |
| AdminPanel.WhereClauses | admin.php:152-161 | the list built clause by clause is `Where`: the exclusion, then the type, search and period parts in that order |
| AdminPanel.WhereShape | admin.php:152-161 | `status != 'filling'` comes first; each kind of clause is present exactly under its condition; every clause is one the arguments call for; and no clause appears twice |
| AdminPanel.BuildQuery | admin.php:150-163 | the clauses are `Where` of the arguments with the escaped search, and the text is head, clauses joined by " AND ", tail. The same holds for the copy in admin/admin.php (lines 218-232), whose engine type is `engine_repair` and whose search covers five columns |
| AdminPanel.QueryExcludesFilling | admin.php:152 | every query text starts with `SELECT * FROM orders WHERE status != 'filling'` |
| AdminPanel.ClientMessage | admin.php:132-138 | the message is the head with the order id, then the status label (or the raw status), then the "ready" line for `done`, the "cancelled" line for `rejected`, and nothing more; its length is fixed by these parts |
| AdminPanel.StatusNotification | admin.php:131-140 | a message goes out exactly when the escaped status differs from the stored one under PHP 8's loose `!=` and the guard of `send_telegram_msg` (line 93) passes, i.e. neither the bot token nor the client id is PHP-falsy; it goes to the row's client and carries `ClientMessage` |
| AdminPanel.ZeroPaddedStatusUnchanged | admin.php:131 | a stored numeric status and the same number posted with a leading zero are equal to `!=`, so no message is sent |
| AdminPanel.WordStatusComparedAsText | admin.php:131 | a status that starts with a letter is compared as text: changed exactly when the two strings differ |
| AdminPanel.TrimAll | admin.php:60 | one piece per input piece, in order; each is a contiguous part of its input with only trim characters cut from both ends, and neither starts nor ends with one |
| AdminPanel.DropFalsy | admin.php:60 | the result is no longer than the input, holds no falsy piece, and a list without falsy pieces is unchanged |
| AdminPanel.DropFalsyOne | admin.php:60 | a single piece is dropped exactly when it is falsy |
| AdminPanel.DropFalsyAppend | admin.php:60 | filtering a concatenation filters each part in place, so the kept pieces keep their order |
| AdminPanel.PhotoIds | admin.php:60 | every id read back is non-empty and holds no comma |
| AdminPanel.PhotoIdsRoundTrip | admin/admin.php:60 | the ids the bot joins with commas (bot.py:201) are read back as the same list when none holds a comma or edge spaces |
| OrdersDb.Order.WithField | database.py:125-131 | `UPDATE ... SET field = val` changes that one column and nothing else |
| OrdersDb.EngineFieldsRefused | database.py:4-7 | `car_brand`, `car_year` and `engine_issue` are not on the allow-list |
| OrdersDb.EngineFieldsAllowed | database.py:4-7 | the corrected allow-list holds the engine columns and every column allowed before |
| OrdersDb.SetField | database.py:125-131 | the set of row ids is unchanged, only row `oid` changes, and a missing id changes nothing |
| OrdersDb.CancelFilling | database.py:163-169 | the user's `'filling'` rows become `'rejected'` and every other row is unchanged |
| OrdersDb.LatestBelow | database.py:147-161 | the largest matching id below the bound, or none when no id below it matches |
| OrdersDb.LatestIsUnique | database.py:147-161 | the `ORDER BY id DESC LIMIT 1` answer is unique |
| OrdersDb.LastValue | database.py:19-51 | the value of the last row with a key exists exactly when some row has that key |
| OrdersDb.OverlayLookup | database.py:25-27 | after the rows are merged, a key reads the last row's value, or the earlier value when no row has it |
| OrdersDb.MergeRows | database.py:25-27 | the loop that writes each row into the dictionary ends in `Overlay(cfg, rows)` |
| OrdersDb.GetBotConfig | database.py:19-51 | the dictionary is `settings`, then `bot_config` by `cfg_key`, then by `key`/`value` when both columns exist; a query that raises contributes nothing |
| OrdersDb.ConfigPrecedence | database.py:19-51 | a key is read from the `key`/`value` rows if any has it, else the `cfg_key` rows, else `settings` |
| OrdersDb.AdminChatIdSources | database.py:274-277 | the admin chat id is the last `admin_chat_id` of the `key`/`value` rows, else of the `cfg_key` rows, else of `settings`, and `"0"` when no source holds one |
| OrdersDb.OrdersTable.constructor | database.py:114-123 | an empty table whose counter starts at 1 |
| OrdersDb.OrdersTable.CreateOrder | database.py:114-123 | a new `'filling'` row under a fresh id that was not in the table, and the counter moves on |
| OrdersDb.OrdersTable.UpdateOrderField | database.py:125-131 | accepted exactly when the field is on the allow-list; if refused the table is unchanged, if accepted only row `oid` changes |
| OrdersDb.OrdersTable.FinishOrderCreation | database.py:133-137 | the one row gets status `'new'` |
| OrdersDb.OrdersTable.CancelOldFillingOrders | database.py:163-169 | the table becomes `CancelFilling` of the old table |
| OrdersDb.OrdersTable.ActiveOrderId | database.py:147-153 | the user's newest `'filling'` order, or none when there is none |
| OrdersDb.OrdersTable.LastActiveOrder | database.py:155-161 | the user's newest order in `new`, `discussion`, `approved` or `work`, or none |
| OrdersDb.CreatedIsActive | database.py:114-123 | a freshly created order is its user's newest `'filling'` order |
| OrdersDb.CancelLeavesNoDraft | database.py:163-169 | after cancelling, the user has no `'filling'` order and every other user keeps exactly theirs |
| OrdersDb.FinishedIsActive | database.py:133-161 | after a user's draft is finished, the last-active query answers with that id or a newer one |
| OrdersDb.UpdateTouchesOneRow | database.py:125-131 | writing a field other than `status` leaves every other row and the row's status unchanged |
| BotForm.SafeText | bot.py:60-70 | never empty: the text, else the caption, else `[Стикер]`, `[Фото]` or `[Неизвестно]` in that order |
| BotForm.ConfigBool | bot.py:56-58 | a flag is on exactly when it is stored as `"1"`, and a missing one is off |
| BotForm.CheckBrand | bot.py:595-599 | accepted exactly when the stripped text has at least 2 characters; the brand is its first 100 characters, and is the whole stripped text when that is shorter |
| BotForm.YearShapeRange | bot.py:618 | a text matching `^(19\|20)\d{2}$` names a year from 1900 to 2099 |
| BotForm.CheckYear | bot.py:616-625 | accepted exactly when the stripped text has the year shape and is at most 2025; what is stored is the stripped text, which names a year from 1900 to 2025 |
| BotForm.YearAccepted | bot.py:616-625 | every year from 1900 to 2025 typed in decimal is accepted as typed |
| BotForm.CheckIssue | bot.py:642-646 | accepted exactly when the stripped text has at least 5 characters; the stripped text is stored |
| BotForm.CheckUrgency | bot.py:663-672 | exactly the three urgency callbacks are accepted, and each is mapped to its own label: high, medium, low |
| BotForm.ChooseComment | bot.py:712-736 | the comment button asks for a comment, the finish button means the fixed "no comment" text, and any other text is the comment |
| BotForm.EngineFinalComment | bot.py:759-760 | the issue, followed by the labelled comment only when the comment is non-empty |
| BotForm.MachiningCommentParts | bot.py:272-301 | after the extra question, the final comment is the `Доп: ` label, the answer, a line break and the comment, each readable back at its place |
| BotForm.EngineCommentAlwaysLabelled | bot.py:706-760 | however the engine form is closed (the finish button, a typed comment after the button, or any other message), the stored comment carries the comment label after the issue |
| BotForm.SkipSpaces | bot.py:418 | `\s*` ends at the first non-space, and everything it passes is a space |
| BotForm.DigitsEnd | bot.py:418 | `\d+` ends at the first non-digit, and everything it passes is a digit |
| BotForm.KeywordEnd | bot.py:418 | the keyword alternatives `№`, `No`, `Num`, `Заказ` are tried in that order, ignoring case: none matches exactly when the result is none, and otherwise the result ends the first alternative that matches |
| BotForm.NumberAfter | bot.py:418 | `\s*[:#]?\s*(\d+)` matches exactly when a gap leads to a digit, and the number read is the whole run of digits there |
| BotForm.ReplyMatchFrom | bot.py:418 | the search finds nothing exactly when no position matches, and otherwise returns the match at the leftmost matching position |
| BotForm.ReplyToNotice | bot.py:416-418 | the reply regex applied to a new-order notice finds that order's id, both on the text with `<b>` markup as built at line 364 and on the plain text Telegram returns as `reply_to_message.text` |
| BotForm.ReplyButtonId | bot.py:820 | an id is read exactly when the data has a second `_`-separated part made of digits only, and it is that part's decimal value |
| BotForm.ReplyButtonRoundTrip | bot.py:820 | the `reply_<id>` callback of a notice's button (line 361) is read back as that id |
| FormSteps.Conversation.constructor | bot.py:121-123 | a conversation starts cleared: no step and no data |
| FormSteps.Conversation.StartEngineFlow | bot.py:139-164 | old drafts are cancelled, a new `engine_repair` draft is created under the next id, the data holds only its id, and the step is the brand |
| FormSteps.Conversation.Store | bot.py:601-609 | with an order, a refused column raises and changes nothing; otherwise the column is written to that order's row, the answer is kept and the step moves on |
| FormSteps.Conversation.SubmitBrand | bot.py:590-609 | a missing text raises, a short brand is rejected, and an accepted brand is stored: with an order it is written to that row's `car_brand` (a refused column raises with nothing changed), without one the table is untouched; the step becomes the year |
| FormSteps.Conversation.SubmitYear | bot.py:611-635 | the same for the year: with an order the stripped year is written to that row's `car_year` (a refused column raises with nothing changed), without one the table is untouched; the step becomes the issue |
| FormSteps.Conversation.SubmitIssue | bot.py:637-656 | the same for the issue: with an order the stripped text is written to that row's `engine_issue` (a refused column raises with nothing changed), without one the table is untouched; the step becomes the urgency |
| FormSteps.Conversation.ChooseUrgency | bot.py:658-704 | an unknown callback is rejected and changes nothing; otherwise the label is kept before the `urgency` column is written. Then a refused column raises with the step and table unchanged, and otherwise the row is written (or, without an order, the table is untouched) and the step becomes the comment step |
| FormSteps.Conversation.FinishEngineOrder | bot.py:756-780 | the order's comment becomes the issue plus the labelled comment, its status becomes `'new'`, and the conversation is cleared |
| FormSteps.Conversation.SubmitEngineComment | bot.py:706-740 | without an order the conversation is cleared; the comment button asks for a comment; anything else completes exactly when `comment` is an allowed column, finishing the order with `ChooseComment`'s comment and clearing the conversation, and otherwise raises with nothing changed |
| FormSteps.Conversation.SubmitEngineUserComment | bot.py:742-754 | without an order the conversation is cleared; otherwise it completes exactly when `comment` is an allowed column, finishing the order with the message text and clearing the conversation, and otherwise raises with nothing changed |
| FormSteps.Conversation.StartMachiningFlow | bot.py:167-180 | old drafts are cancelled, a new `machining` draft is created, the photo list is empty, and the step is the photo step |
| FormSteps.Conversation.AddPhoto | bot.py:182-188 | the file id is appended to the photo list, and the step is unchanged |
| FormSteps.Conversation.PhotosDone | bot.py:190-208 | "all sent" with photos writes the comma-joined ids and moves on, and with none is refused; skip moves on only when photos are not required; other text is unhandled |
| FormSteps.Conversation.SubmitExtra | bot.py:272-290 | the extra answer is kept as `Доп: <text>` and a newline, and the step becomes the comment step |
| FormSteps.Conversation.FinishOrder | bot.py:335-350 | the comment is written, the status becomes `'new'`, and the conversation is cleared |
| FormSteps.Conversation.SubmitComment | bot.py:292-321 | the comment button asks for a comment; anything else completes exactly when `comment` is an allowed column, finishing with the stored extra answer plus the chosen comment and clearing the conversation, and otherwise raises with nothing changed |
| FormSteps.Conversation.SubmitUserComment | bot.py:323-333 | completes exactly when `comment` is an allowed column, finishing with the stored extra answer plus the message text and clearing the conversation, and otherwise raises with nothing changed |
| FormSteps.EngineFormAsWritten | bot.py:590-609 | with the allow-list as written, every valid brand for a fresh engine order raises, and the form stays at the brand step |
| FormSteps.EngineFormCorrected | bot.py:590-656 | with the engine columns allowed, a valid brand, year and issue carry the form to the urgency step |
| SecureAuth.Recent | admin/secure_auth.php:11-13 | keeps exactly the attempts younger than 900 seconds |
| SecureAuth.FromIp | admin/secure_auth.php:15-17 | keeps exactly the attempts from the given IP |
| SecureAuth.FiltersCount | admin/secure_auth.php:11-19 | the two filters together keep as many attempts as a single count of recent attempts from that IP |
| SecureAuth.CheckRateLimit | admin/secure_auth.php:6-24 | blocked (false) exactly when at least 5 attempts from the IP are younger than 15 minutes |
| SecureAuth.OtherIpIrrelevant | admin/secure_auth.php:15-21 | an attempt from another IP, inserted anywhere, never changes the verdict |
| SecureAuth.StaleIrrelevant | admin/secure_auth.php:11-13 | an attempt 900 or more seconds old, inserted anywhere, never changes the verdict |
| SecureAuth.BlockIsMonotonic | admin/secure_auth.php:15-21 | adding attempts anywhere never lifts a block at the same time |
| SecureAuth.FiveRecentBlock | admin/secure_auth.php:19-21 | five recent attempts from one IP block it |
| SecureAuth.Bin2Hex | admin/secure_auth.php:37 | two lower-case hex digits per byte |
| SecureAuth.HexRoundTrip | admin/secure_auth.php:37 | the bytes are read back from their hex form |
| SecureAuth.TokenInjective | admin/secure_auth.php:37 | different random bytes give different tokens |
| SecureAuth.NewToken | admin/secure_auth.php:37 | a fresh token has 64 characters, so it is never PHP-empty |
| SecureAuth.SessionToken | admin/secure_auth.php:35-40 | an existing non-empty session token is returned as it is; otherwise a fresh token is drawn |
| SecureAuth.GenerateIsIdempotent | admin/secure_auth.php:35-40 | a second call returns the first token, whatever bytes it draws |
| SecureAuth.CsrfMatches | admin/secure_auth.php:43-45 | false without a session token, otherwise true exactly when the tokens are equal |
| SecureAuth.GeneratedTokenVerifies | admin/secure_auth.php:35-45 | the token handed to the form is verified, and no other token is |
| SecureAuth.ErrorMessage | admin/secure_auth.php:52-65 | every failed login leaves an error message, and a successful one none |
| SecureAuth.LoginSession.constructor | admin/secure_auth.php:3 | a new session has no token and is not authenticated |
| SecureAuth.LoginSession.GenerateCsrfToken | admin/secure_auth.php:35-40 | the session ends holding `SessionToken`, which is returned; nothing else changes |
| SecureAuth.LoginSession.HandleLogin | admin/secure_auth.php:48-66 | rate limit, then CSRF (with `''` when none was posted), then password. Only success sets `auth` and rotates the token; only the password check writes the access log; the attempts file is never written |
| SecureAuth.LoginSession.Logout | admin/secure_auth.php:69-73 | the session is emptied and the files stay |
| SecureAuth.RepeatedFailuresAsWritten | admin/secure_auth.php:6-66 | any number of wrong passwords in a row from one IP are all answered "wrong password" |
| SecureAuth.LoginSession.HandleLoginRecorded | admin/secure_auth.php:48-66 | the login branch in the same order as `HandleLogin`, with the same access log and token rotation, and each failed password appended to the attempts file |
| SecureAuth.RepeatedFailuresRecorded | admin/secure_auth.php:6-24 | with failures recorded, the first five wrong passwords are answered "wrong password" and every later one "too many attempts" |
| Text.NatToDecimal | bot.py:364 | the decimal digits of a number: no leading zero, and they read back as the number |
| Text.StripShape | admin.php:60 | stripping cuts only characters of the class from both ends of a contiguous part, and leaves neither end on one |
| Text.SplitJoin | bot.py:201 | splitting a comma-joined list of comma-free pieces gives back the pieces |

## Left out

- HTML output, the Bootstrap pages, DOM code and `filterEngineTable` are not modelled. They are user interface.
- The Telegram HTTP calls (`sendMessage`, `getFile`, `getMe`) are not modelled. A send is the value `AdminPanel.Outgoing`.
- The MySQL connection and SQL engine are not modelled. The table is a map, each statement is the change it makes, and `real_escape_string` is a function parameter.
- The aiogram dispatcher, FSM storage and asyncio are not modelled. Each handler is called only in the step its filter names.
- Not modelled:
  - the machining handlers for work type, dimensions, conditions and urgency (bot.py:210-270);
  - `check_lost_state`;
  - `notify_admin` and `notify_engine_admin`;
  - the admin commands;
  - the sending part of `admin_reply_handler` and `process_admin_reply`.

  These are message texts and network calls around the modelled steps.
- `get_stats` and the other read-only report queries of database.py are not modelled. They depend on the wall clock and calendar arithmetic.
- `update_setting` and the settings upserts of the admin pages are not part of this model.
- generate_passwords.php, config.py, update_bot.py and admin/test_token.php are not part of this model.
- `password_verify`, `random_bytes` and `hash_equals` are parameters or plain equality: the password check is a boolean, and the random bytes are a 32-byte parameter.
- The JSON file format, and a failed decode of login_attempts.json, are not modelled. The attempts file is a sequence of (ip, time) records.
- The timestamp format of admin_access.log is not modelled. An entry holds the time as a number.
- PhoneExtract.Strategy4: the keyword pattern carries the `/u` flag, under which PHP's `\s` and `\d` also match Unicode spaces and digits. The scanner uses the ASCII classes, and its case folding covers only the keyword letters.
- BotForm.KeywordEnd: Python's `re.IGNORECASE` folds all of Unicode, while the model folds only ASCII and the Cyrillic capitals А-Я and Ё. Python's `\s` and `\d` also match non-ASCII spaces and digits, and the model uses the ASCII classes.
- BotForm.CheckYear: the `\d` in the year pattern is ASCII here. Python also accepts other Unicode decimal digits, which `int()` would convert.
- BotForm.ReplyButtonId: only plain ASCII digits are read. Python's `int()` also accepts a sign, surrounding whitespace, underscores between digits and other Unicode digits. A missing or malformed part, which raises in the source, is `None` here.
- AdminPanel.StatusNotification: PHP 8 compares two strings numerically when both are numeric. The model does this for integer strings (optional whitespace, an optional sign, digits), but not for numeric strings with a decimal point or an exponent, nor for integers beyond 64 bits, which are compared as text here.
- OrdersDb.OrdersTable.CreateOrder: ids are handed out one after another from 1, while MySQL `AUTO_INCREMENT` only promises fresh, increasing ids (failed inserts leave gaps, and an existing table does not restart at 1). No property proved here depends on the ids having no gaps.
- OrdersDb.GetBotConfig: a source either raises at its query or contributes all its rows. A failure partway through a source's rows is not modelled, and neither are NULL values.
- FormSteps.Conversation.PhotosDone: the button texts are read through `get_text` on a configuration dictionary passed in. The model does not reload it from the database on each call.

## Findings

| source | as written | input that shows it | evidently intended | confidence | as-written member | corrected member |
|---|---|---|---|---|---|---|
| database.py:4-7 | `ALLOWED_FIELDS` omits `car_brand`, `car_year` and `engine_issue`, which the engine handlers write (bot.py:605,631,652). So `update_order_field` raises `ValueError` before the state is updated | any valid brand, such as "Toyota Camry", after "Ремонт двигателя" | the engine columns are on the allow-list, and the form advances to the urgency step | not executed | FormSteps.EngineFormAsWritten | FormSteps.EngineFormCorrected |
| admin/secure_auth.php:6-32 | `check_rate_limit` reads login_attempts.json, but nothing writes that file (`log_login_attempt` appends to admin_access.log). So the limit never triggers | six wrong passwords in a row from one IP within 15 minutes | failed attempts are recorded, and the sixth is refused with "too many attempts" | not executed | SecureAuth.RepeatedFailuresAsWritten | SecureAuth.RepeatedFailuresRecorded |
