/**
 * The hardened login of the admin panel (admin/secure_auth.php): a rate limit
 * of five attempts per IP in fifteen minutes, a CSRF token kept in the
 * session, and the login branch that checks the rate limit, then the token,
 * then the password.
 *
 * The file reads and appends, `time()`, `random_bytes` and `password_verify`
 * are not modelled: the attempts file and the access log are fields, and the
 * clock, the random bytes and the outcome of the password check are
 * parameters.
 */
module SecureAuth {
  import opened Wrappers
  import opened Text

  /** Attempts older than this many seconds are discarded. */
  const Window: int := 900

  /** From this many recent attempts on, the IP is blocked. */
  const MaxAttempts: nat := 5

  /** One entry of `login_attempts.json`. */
  datatype Attempt = Attempt(ip: string, time: int)

  /** The first `array_filter`: the attempts younger than the window at `now`. */
  function Recent(attempts: seq<Attempt>, now: int): (r: seq<Attempt>)
    ensures |r| <= |attempts|
    ensures forall a :: a in r <==> a in attempts && now - a.time < Window
  {
    if attempts == [] then []
    else if now - attempts[0].time < Window then [attempts[0]] + Recent(attempts[1..], now)
    else Recent(attempts[1..], now)
  }

  /** The second `array_filter`: the attempts made from `ip`. */
  function FromIp(attempts: seq<Attempt>, ip: string): (r: seq<Attempt>)
    ensures |r| <= |attempts|
    ensures forall a :: a in r <==> a in attempts && a.ip == ip
  {
    if attempts == [] then []
    else if attempts[0].ip == ip then [attempts[0]] + FromIp(attempts[1..], ip)
    else FromIp(attempts[1..], ip)
  }

  /** Whether an attempt is from `ip` and still inside the window. */
  predicate Counts(a: Attempt, ip: string, now: int) {
    a.ip == ip && now - a.time < Window
  }

  /** How many attempts weigh against `ip` at `now`, counted in one pass. */
  function Hits(attempts: seq<Attempt>, ip: string, now: int): nat {
    if attempts == [] then 0
    else (if Counts(attempts[0], ip, now) then 1 else 0) + Hits(attempts[1..], ip, now)
  }

  lemma {:induction false} HitsAppend(a: seq<Attempt>, b: seq<Attempt>, ip: string, now: int)
    ensures Hits(a + b, ip, now) == Hits(a, ip, now) + Hits(b, ip, now)
  {
    if a == [] {
      assert a + b == b;
    } else {
      assert (a + b)[1..] == a[1..] + b;
      HitsAppend(a[1..], b, ip, now);
    }
  }

  /** Filtering by age and then by IP keeps exactly the attempts `Hits` counts. */
  lemma {:induction false} FiltersCount(attempts: seq<Attempt>, ip: string, now: int)
    ensures |FromIp(Recent(attempts, now), ip)| == Hits(attempts, ip, now)
  {
    if attempts != [] {
      FiltersCount(attempts[1..], ip, now);
      var rest := Recent(attempts[1..], now);
      if now - attempts[0].time < Window {
        assert Recent(attempts, now) == [attempts[0]] + rest;
        assert ([attempts[0]] + rest)[1..] == rest;
      }
    }
  }

  /**
   * `check_rate_limit`: false (blocked) exactly when at least five attempts
   * from `ip` are younger than fifteen minutes.
   */
  function CheckRateLimit(attempts: seq<Attempt>, ip: string, now: int): (ok: bool)
    ensures !ok <==> Hits(attempts, ip, now) >= MaxAttempts
  {
    FiltersCount(attempts, ip, now);
    |FromIp(Recent(attempts, now), ip)| < MaxAttempts
  }

  /** An attempt from another IP, wherever it is inserted, never changes the verdict. */
  lemma OtherIpIrrelevant(before: seq<Attempt>, after: seq<Attempt>, x: Attempt, ip: string, now: int)
    requires x.ip != ip
    ensures CheckRateLimit(before + [x] + after, ip, now) == CheckRateLimit(before + after, ip, now)
  {
    HitsAppend(before + [x], after, ip, now);
    HitsAppend(before, [x], ip, now);
    HitsAppend(before, after, ip, now);
    assert Hits([x], ip, now) == 0 by {
      assert [x][1..] == [];
    }
  }

  /** An attempt older than the window, wherever it is inserted, never changes the verdict. */
  lemma StaleIrrelevant(before: seq<Attempt>, after: seq<Attempt>, x: Attempt, ip: string, now: int)
    requires now - x.time >= Window
    ensures CheckRateLimit(before + [x] + after, ip, now) == CheckRateLimit(before + after, ip, now)
  {
    HitsAppend(before + [x], after, ip, now);
    HitsAppend(before, [x], ip, now);
    HitsAppend(before, after, ip, now);
    assert Hits([x], ip, now) == 0 by {
      assert [x][1..] == [];
    }
  }

  /** Adding attempts anywhere never lifts a block at the same `now`. */
  lemma BlockIsMonotonic(before: seq<Attempt>, extra: seq<Attempt>, after: seq<Attempt>, ip: string, now: int)
    requires !CheckRateLimit(before + after, ip, now)
    ensures !CheckRateLimit(before + extra + after, ip, now)
  {
    HitsAppend(before + extra, after, ip, now);
    HitsAppend(before, extra, ip, now);
    HitsAppend(before, after, ip, now);
  }

  /** Five recent attempts from one IP are enough to block it. */
  lemma FiveRecentBlock(attempts: seq<Attempt>, ip: string, now: int)
    requires |attempts| == MaxAttempts
    requires forall i :: 0 <= i < |attempts| ==> Counts(attempts[i], ip, now)
    ensures !CheckRateLimit(attempts, ip, now)
  {
    assert Hits(attempts, ip, now) == MaxAttempts by {
      AllCount(attempts, ip, now);
    }
  }

  lemma {:induction false} AllCount(attempts: seq<Attempt>, ip: string, now: int)
    requires forall i :: 0 <= i < |attempts| ==> Counts(attempts[i], ip, now)
    ensures Hits(attempts, ip, now) == |attempts|
  {
    if attempts != [] {
      assert Counts(attempts[0], ip, now);
      assert forall i :: 0 <= i < |attempts[1..]| ==> attempts[1..][i] == attempts[i + 1];
      AllCount(attempts[1..], ip, now);
    }
  }

  /** A byte as returned by `random_bytes`. */
  type Byte = x: int | 0 <= x < 256

  const HexDigits: string := "0123456789abcdef"

  /** `bin2hex`: two lower-case hex digits per byte, high nibble first. */
  function Bin2Hex(bytes: seq<Byte>): (r: string)
    ensures |r| == 2 * |bytes|
    ensures forall i :: 0 <= i < |r| ==> r[i] in HexDigits
  {
    if bytes == [] then []
    else [HexDigits[bytes[0] / 16], HexDigits[bytes[0] % 16]] + Bin2Hex(bytes[1..])
  }

  /** The value of one lower-case hex digit. */
  function NibbleValue(c: char): (v: nat)
    ensures v < 16
  {
    if '0' <= c <= '9' then (c - '0') as nat
    else if 'a' <= c <= 'f' then (c - 'a') as nat + 10
    else 0
  }

  lemma NibbleRoundTrip(k: nat)
    requires k < 16
    ensures NibbleValue(HexDigits[k]) == k
  {
  }

  /** The inverse of `Bin2Hex` on its outputs. */
  function Hex2Bin(s: string): (r: seq<Byte>)
    requires |s| % 2 == 0
    ensures |r| == |s| / 2
  {
    if s == [] then [] else [PairValue(s[0], s[1])] + Hex2Bin(s[2..])
  }

  /** The byte two hex digits stand for, high nibble first. */
  function PairValue(hi: char, lo: char): (b: Byte)
  {
    NibbleValue(hi) * 16 + NibbleValue(lo)
  }

  lemma {:induction false} HexRoundTrip(bytes: seq<Byte>)
    ensures Hex2Bin(Bin2Hex(bytes)) == bytes
  {
    if bytes != [] {
      var b := bytes[0];
      NibbleRoundTrip(b / 16);
      NibbleRoundTrip(b % 16);
      var s := Bin2Hex(bytes);
      assert s[0] == HexDigits[b / 16] && s[1] == HexDigits[b % 16];
      assert s[2..] == Bin2Hex(bytes[1..]);
      assert PairValue(s[0], s[1]) == b;
      HexRoundTrip(bytes[1..]);
    }
  }

  /** Different random bytes give different tokens. */
  lemma TokenInjective(a: seq<Byte>, b: seq<Byte>)
    requires Bin2Hex(a) == Bin2Hex(b)
    ensures a == b
  {
    HexRoundTrip(a);
    HexRoundTrip(b);
  }

  /** How many random bytes a token is made of. */
  const TokenBytes: nat := 32

  /** A freshly drawn token: 64 hex digits, so never PHP-empty. */
  function NewToken(entropy: seq<Byte>): (t: string)
    requires |entropy| == TokenBytes
    ensures |t| == 2 * TokenBytes && !PhpFalsy(t)
  {
    Bin2Hex(entropy)
  }

  /** Whether `empty($_SESSION['csrf_token'])` holds for the session slot. */
  predicate NoToken(slot: Option<string>) {
    slot.None? || PhpFalsy(slot.value)
  }

  /** The token `generate_csrf_token` returns (and leaves in the session). */
  function SessionToken(slot: Option<string>, entropy: seq<Byte>): (t: string)
    requires |entropy| == TokenBytes
    ensures !NoToken(slot) ==> t == slot.value
    ensures NoToken(slot) ==> t == NewToken(entropy)
  {
    if NoToken(slot) then NewToken(entropy) else slot.value
  }

  /** `verify_csrf_token`: no session token means failure, otherwise the tokens must be equal. */
  function CsrfMatches(slot: Option<string>, token: string): (ok: bool)
    ensures ok <==> slot == Some(token)
  {
    slot.Some? && slot.value == token
  }

  /** A second `generate_csrf_token` returns the first token whatever bytes it draws. */
  lemma GenerateIsIdempotent(slot: Option<string>, first: seq<Byte>, second: seq<Byte>)
    requires |first| == TokenBytes && |second| == TokenBytes
    ensures SessionToken(Some(SessionToken(slot, first)), second) == SessionToken(slot, first)
  {
  }

  /** The token handed to the form is the one `verify_csrf_token` accepts, and no other. */
  lemma GeneratedTokenVerifies(slot: Option<string>, entropy: seq<Byte>, token: string)
    requires |entropy| == TokenBytes
    ensures CsrfMatches(Some(SessionToken(slot, entropy)), token) <==> token == SessionToken(slot, entropy)
  {
  }

  /** What the login branch ends in; the last three leave an error message on the page. */
  datatype LoginResult = LoggedIn | RateLimited | CsrfRejected | WrongPassword

  /** The message shown for a failed login. */
  function ErrorMessage(r: LoginResult): (m: Option<string>)
    ensures m.None? <==> r == LoggedIn
  {
    match r
    case LoggedIn => None
    case RateLimited => Some("🚫 Слишком много попыток. Попробуйте через 15 минут.")
    case CsrfRejected => Some("❌ Ошибка безопасности. Попробуйте еще раз.")
    case WrongPassword => Some("❌ Неверный пароль")
  }

  /** One line of `admin_access.log`; the timestamp formatting is not modelled. */
  datatype LogEntry = LogEntry(time: int, ip: string, success: bool)

  /** The session of one browser plus the two files the login touches. */
  class LoginSession {
    var csrfToken: Option<string>
    var auth: bool
    var attempts: seq<Attempt>
    var accessLog: seq<LogEntry>

    /** A fresh session over an existing attempts file. */
    constructor(stored: seq<Attempt>)
      ensures csrfToken == None && !auth && attempts == stored && accessLog == []
    {
      csrfToken := None;
      auth := false;
      attempts := stored;
      accessLog := [];
    }

    /** `generate_csrf_token`: draws a token only when the session has none. */
    method GenerateCsrfToken(entropy: seq<Byte>) returns (token: string)
      requires |entropy| == TokenBytes
      modifies this
      ensures token == SessionToken(old(csrfToken), entropy) && csrfToken == Some(token)
      ensures auth == old(auth) && attempts == old(attempts) && accessLog == old(accessLog)
    {
      if csrfToken.None? || PhpFalsy(csrfToken.value) {
        csrfToken := Some(NewToken(entropy));
      }
      token := csrfToken.value;
    }

    /**
     * The login branch, taken when a password was posted. The rate limit is
     * checked first, the CSRF token (`''` when none was posted) second, the
     * password last; only the password check writes the access log, and
     * nothing writes the attempts file.
     */
    method HandleLogin(ip: string, now: int, postedToken: Option<string>, passwordOk: bool, entropy: seq<Byte>)
      returns (result: LoginResult)
      requires |entropy| == TokenBytes
      modifies this
      ensures result == RateLimited <==> !CheckRateLimit(old(attempts), ip, now)
      ensures result == CsrfRejected <==>
        CheckRateLimit(old(attempts), ip, now) && !CsrfMatches(old(csrfToken), postedToken.GetOr(""))
      ensures result == LoggedIn <==>
        CheckRateLimit(old(attempts), ip, now) && CsrfMatches(old(csrfToken), postedToken.GetOr("")) && passwordOk
      ensures result == WrongPassword <==>
        CheckRateLimit(old(attempts), ip, now) && CsrfMatches(old(csrfToken), postedToken.GetOr("")) && !passwordOk
      ensures auth == (old(auth) || result == LoggedIn)
      ensures csrfToken == (if result == LoggedIn then Some(NewToken(entropy)) else old(csrfToken))
      ensures accessLog == old(accessLog) + (
        if result == LoggedIn || result == WrongPassword then [LogEntry(now, ip, result == LoggedIn)] else [])
      ensures attempts == old(attempts)
    {
      if !CheckRateLimit(attempts, ip, now) {
        result := RateLimited;
      } else if CsrfMatches(csrfToken, postedToken.GetOr("")) {
        if passwordOk {
          auth := true;
          csrfToken := Some(NewToken(entropy));
          accessLog := accessLog + [LogEntry(now, ip, true)];
          result := LoggedIn;
        } else {
          accessLog := accessLog + [LogEntry(now, ip, false)];
          result := WrongPassword;
        }
      } else {
        result := CsrfRejected;
      }
    }

    /** The login branch with every failed password recorded in the attempts file. */
    method HandleLoginRecorded(ip: string, now: int, postedToken: Option<string>, passwordOk: bool, entropy: seq<Byte>)
      returns (result: LoginResult)
      requires |entropy| == TokenBytes
      modifies this
      ensures result == RateLimited <==> !CheckRateLimit(old(attempts), ip, now)
      ensures result == LoggedIn <==>
        CheckRateLimit(old(attempts), ip, now) && CsrfMatches(old(csrfToken), postedToken.GetOr("")) && passwordOk
      ensures result == WrongPassword <==>
        CheckRateLimit(old(attempts), ip, now) && CsrfMatches(old(csrfToken), postedToken.GetOr("")) && !passwordOk
      ensures auth == (old(auth) || result == LoggedIn)
      ensures result == CsrfRejected <==>
        CheckRateLimit(old(attempts), ip, now) && !CsrfMatches(old(csrfToken), postedToken.GetOr(""))
      ensures csrfToken == (if result == LoggedIn then Some(NewToken(entropy)) else old(csrfToken))
      ensures accessLog == old(accessLog) + (
        if result == LoggedIn || result == WrongPassword then [LogEntry(now, ip, result == LoggedIn)] else [])
      ensures attempts == old(attempts) + (if result == WrongPassword then [Attempt(ip, now)] else [])
    {
      result := HandleLogin(ip, now, postedToken, passwordOk, entropy);
      if result == WrongPassword {
        attempts := attempts + [Attempt(ip, now)];
      }
    }

    /** `?logout`: `session_destroy` empties the session; the files stay. */
    method Logout()
      modifies this
      ensures csrfToken == None && !auth && attempts == old(attempts) && accessLog == old(accessLog)
    {
      csrfToken := None;
      auth := false;
    }
  }

  /**
   * As written, `n` wrong passwords in a row from one IP with a valid token are
   * all answered "wrong password": the rate limit never engages, because the
   * attempts file it reads is never written.
   */
  method RepeatedFailuresAsWritten(n: nat, ip: string, now: int, entropy: seq<Byte>)
    returns (results: seq<LoginResult>)
    requires |entropy| == TokenBytes
    ensures |results| == n && forall i :: 0 <= i < n ==> results[i] == WrongPassword
  {
    var page := new LoginSession([]);
    var token := page.GenerateCsrfToken(entropy);
    results := [];
    while |results| < n
      invariant |results| <= n
      invariant page.attempts == [] && page.csrfToken == Some(token)
      invariant forall i :: 0 <= i < |results| ==> results[i] == WrongPassword
    {
      var r := page.HandleLogin(ip, now, Some(token), false, entropy);
      results := results + [r];
    }
  }

  /**
   * With failures recorded, the same sequence is answered "wrong password"
   * five times and "too many attempts" from the sixth time on.
   */
  method RepeatedFailuresRecorded(n: nat, ip: string, now: int, entropy: seq<Byte>)
    returns (results: seq<LoginResult>)
    requires |entropy| == TokenBytes
    ensures |results| == n
    ensures forall i :: 0 <= i < n ==> results[i] == (if i < MaxAttempts then WrongPassword else RateLimited)
  {
    var page := new LoginSession([]);
    var token := page.GenerateCsrfToken(entropy);
    results := [];
    while |results| < n
      invariant |results| <= n
      invariant page.csrfToken == Some(token)
      invariant |page.attempts| == if |results| < MaxAttempts then |results| else MaxAttempts
      invariant forall i :: 0 <= i < |page.attempts| ==> Counts(page.attempts[i], ip, now)
      invariant forall i :: 0 <= i < |results| ==> results[i] == (if i < MaxAttempts then WrongPassword else RateLimited)
    {
      AllCount(page.attempts, ip, now);
      var r := page.HandleLoginRecorded(ip, now, Some(token), false, entropy);
      results := results + [r];
    }
  }
}
