// The load-test driver script: duration formatting, request headers, the
// authentication step that fills the two module-level tokens, the abort rule
// of the test run, and the lines printed for one endpoint result.
// HTTP calls are parameters (their outcomes); console colouring is not modelled.
module PerfScript {
  import opened Wrappers
  import opened JStrings

  // ------------------------------------------------------------ durations

  /** formatDuration as written: below one second "<ms>ms", otherwise
      "<seconds>.<remainder>s" with the remainder NOT zero-padded. */
  function FormatDuration(ms: nat): (s: string)
    ensures EndsWith(s, "s")
    ensures ms < 1000 <==> EndsWith(s, "ms")
    ensures ms >= 1000 ==> '.' in s
  {
    if ms < 1000 then NatToString(ms) + "ms"
    else
      var frac := NatToString(ms % 1000);
      var t := NatToString(ms / 1000) + "." + frac + "s";
      assert t[|t| - 2] == frac[|frac| - 1] && t[|NatToString(ms / 1000)|] == '.';
      t
  }

  /** The remainder rendered with exactly three digits. */
  function Pad3(r: nat): (s: string)
    requires r < 1000
    ensures |s| == 3 && AllDigits(s) && DigitsValue(s) == r
  {
    var s := [DigitChar(r / 100), DigitChar((r / 10) % 10), DigitChar(r % 10)];
    assert s[..2] == [s[0], s[1]] && s[..2][..1] == [s[0]] && [s[0]][..0] == [];
    assert DigitsValue([s[0]]) == r / 100;
    assert DigitsValue(s[..2]) == 10 * (r / 100) + (r / 10) % 10;
    assert (r / 10) / 10 == r / 100;
    assert r == 10 * (r / 10) + r % 10;
    s
  }

  /** formatDuration with the millisecond remainder padded to three digits, so that
      the printed text is a decimal number of seconds. */
  function FormatDurationPadded(ms: nat): (s: string)
    ensures EndsWith(s, "s")
    ensures ms < 1000 <==> EndsWith(s, "ms")
    ensures ms >= 1000 ==> |s| >= 6 && s[|s| - 5] == '.' && AllDigits(s[|s| - 4..|s| - 1])
  {
    if ms < 1000 then NatToString(ms) + "ms"
    else
      var frac := Pad3(ms % 1000);
      var t := NatToString(ms / 1000) + "." + frac + "s";
      assert t[|t| - 4..|t| - 1] == frac && t[|t| - 2] == frac[2];
      t
  }

  /** Milliseconds denoted by one to three fraction digits of a second. */
  function FractionMillis(f: string): (ms: nat)
    requires 1 <= |f| <= 3 && AllDigits(f)
    ensures |f| == 3 ==> ms == DigitsValue(f)
  {
    if |f| == 1 then 100 * DigitsValue(f) else if |f| == 2 then 10 * DigitsValue(f) else DigitsValue(f)
  }

  /** How a reader takes "<a>.<f>": the decimal a.f seconds, in milliseconds, with
      one to three fraction digits. */
  function ReadSecondsText(body: string): (r: Option<nat>)
  {
    var k := IndexOfChar(body, '.');
    if k < 0 then None
    else
      var sec, frac := body[..k], body[k + 1..];
      if sec != [] && AllDigits(sec) && 1 <= |frac| <= 3 && AllDigits(frac)
      then Some(DigitsValue(sec) * 1000 + FractionMillis(frac))
      else None
  }

  /** How a reader takes a printed duration: "<n>ms" is n milliseconds and
      "<a>.<f>s" is the decimal a.f seconds. */
  function ReadDuration(s: string): (r: Option<nat>)
  {
    if EndsWith(s, "ms") then
      var d := s[..|s| - 2];
      if d != [] && AllDigits(d) then Some(DigitsValue(d)) else None
    else if EndsWith(s, "s") then ReadSecondsText(s[..|s| - 1])
    else None
  }

  lemma ReadMillis(ms: nat)
    requires ms < 1000
    ensures ReadDuration(NatToString(ms) + "ms") == Some(ms)
  {
    var s := NatToString(ms) + "ms";
    assert s[..|s| - 2] == NatToString(ms);
    DigitsValueOfNatToString(ms);
  }

  /** A text ending in a digit and 's' is read in the seconds form. */
  lemma ReadSecondsSuffix(body: string)
    requires body != [] && IsDigit(body[|body| - 1])
    ensures ReadDuration(body + "s") == ReadSecondsText(body)
  {
    var s := body + "s";
    assert s[|s| - 2] == body[|body| - 1];
    assert !EndsWith(s, "ms");
    assert s[..|s| - 1] == body;
  }

  /** The first separator of a + [c] + rest is the one after a when a has none. */
  lemma FirstSeparator(a: string, c: char, rest: string)
    requires c !in a
    ensures IndexOfChar(a + [c] + rest, c) == |a|
  {
    var t := a + [c] + rest;
    assert t[|a|] == c;
    assert forall i :: 0 <= i < |a| ==> t[i] == a[i];
  }

  /** "<a>.<f>" with digit-only parts is read as a seconds plus the fraction f. */
  lemma ReadSecondsParts(a: string, f: string)
    requires a != [] && AllDigits(a) && 1 <= |f| <= 3 && AllDigits(f)
    ensures ReadSecondsText(a + "." + f) == Some(DigitsValue(a) * 1000 + FractionMillis(f))
  {
    var body := a + "." + f;
    assert '.' !in a by {
      forall i | 0 <= i < |a| ensures a[i] != '.' { assert IsDigit(a[i]); }
    }
    FirstSeparator(a, '.', f);
    assert body[..|a|] == a;
    assert body[|a| + 1..] == f;
  }

  /** "<q>.<f>" is read as q seconds plus the fraction f. */
  lemma ReadSecondsOf(q: nat, f: string)
    requires 1 <= |f| <= 3 && AllDigits(f)
    ensures ReadSecondsText(NatToString(q) + "." + f) == Some(q * 1000 + FractionMillis(f))
  {
    ReadSecondsParts(NatToString(q), f);
    DigitsValueOfNatToString(q);
  }

  /** The seconds form "<q>.<f>s" is read back as q seconds plus the fraction f. */
  lemma ReadSeconds(q: nat, f: string)
    requires 1 <= |f| <= 3 && AllDigits(f)
    ensures ReadDuration(NatToString(q) + "." + f + "s")
            == Some(q * 1000 + FractionMillis(f))
  {
    var body := NatToString(q) + "." + f;
    assert body[|body| - 1] == f[|f| - 1];
    ReadSecondsSuffix(body);
    ReadSecondsOf(q, f);
  }

  /** The padded rendering is read back as the duration it was made from. */
  lemma {:induction false} FormatDurationPaddedReadsBack(ms: nat)
    ensures ReadDuration(FormatDurationPadded(ms)) == Some(ms)
  {
    if ms < 1000 {
      ReadMillis(ms);
    } else {
      ReadSeconds(ms / 1000, Pad3(ms % 1000));
    }
  }

  /** The unpadded rendering reads back correctly only below one second or when the
      remainder already has three digits. */
  lemma FormatDurationReadsBackWhenThreeDigits(ms: nat)
    requires ms < 1000 || ms % 1000 >= 100
    ensures ReadDuration(FormatDuration(ms)) == Some(ms)
  {
    if ms < 1000 {
      ReadMillis(ms);
    } else {
      var r := ms % 1000;
      assert NatToString(r) == Pad3(r) by {
        assert NatToString(r) == NatToString(r / 10) + [DigitChar(r % 10)];
        assert NatToString(r / 10) == NatToString(r / 100) + [DigitChar((r / 10) % 10)];
      }
      ReadSeconds(ms / 1000, Pad3(r));
    }
  }

  /** 1005 ms is printed as "1.5s", which reads as 1500 ms. */
  lemma FormatDurationMisreads1005()
    ensures FormatDuration(1005) == "1.5s"
    ensures ReadDuration(FormatDuration(1005)) == Some(1500)
  {
    assert NatToString(1) == "1";
    assert NatToString(5) == "5";
    ReadSeconds(1, "5");
  }

  // -------------------------------------------------------------- headers

  const ContentType: string := "Content-Type"
  const JsonType: string := "application/json"
  const AuthorizationHeader: string := "Authorization"
  const CsrfHeader: string := "X-CSRF-TOKEN"

  /** createAuthHeaders; a token counts as present when it is a non-empty string. */
  function CreateAuthHeaders(testMode: bool, authToken: string, csrfToken: string, needCsrf: bool)
    : (h: map<string, string>)
    ensures ContentType in h && h[ContentType] == JsonType
    ensures testMode ==> h.Keys == {ContentType}
    ensures h.Keys <= {ContentType, AuthorizationHeader, CsrfHeader}
    ensures AuthorizationHeader in h <==> !testMode && authToken != ""
    ensures AuthorizationHeader in h ==> h[AuthorizationHeader] == "Bearer " + authToken
    ensures CsrfHeader in h <==> !testMode && needCsrf && csrfToken != ""
    ensures CsrfHeader in h ==> h[CsrfHeader] == csrfToken
  {
    var base := map[ContentType := JsonType];
    if testMode then base
    else
      var withAuth := if authToken != "" then base[AuthorizationHeader := "Bearer " + authToken] else base;
      if needCsrf && csrfToken != "" then withAuth[CsrfHeader := csrfToken] else withAuth
  }

  // ------------------------------------------------------ authentication

  /** What the login request produced: a thrown request, or a body whose token
      field is the given string ("" when absent). */
  datatype LoginOutcome = LoginThrew | LoginBody(token: string)

  /** What the CSRF request produced: a thrown request, or the x-csrf-token
      response header ("" when absent). */
  datatype CsrfOutcome = CsrfThrew | CsrfHeaderValue(value: string)

  datatype Method = GET | POST | DELETE

  /** One HTTP request the run issues: method, path below the base URL, headers. */
  datatype Request = Request(verb: Method, path: string, headers: map<string, string>)

  /** The run's requests in order: method, path and whether the CSRF header is asked for. */
  const Plan: seq<(Method, string, bool)> := [
    (DELETE, "/performance-test/clear-data", true),
    (POST, "/performance-test/generate-data?count=20", true),
    (GET, "/performance-test/stats", false),
    (GET, "/performance-test/novel-query-test?concurrentUsers=50&requestsPerUser=10", false),
    (GET, "/performance-test/scene-query-test?concurrentUsers=50&requestsPerUser=10", false),
    (POST, "/performance-test/novel-create-test?concurrentUsers=20&requestsPerUser=5", true),
    (GET, "/performance-test/server-status", false)
  ]

  /** The requests of the plan that are issued when request number failAt (if any)
      throws: every request up to and including the failing one. */
  function IssuedRequests(testMode: bool, authToken: string, csrfToken: string, failAt: Option<nat>)
    : (rs: seq<Request>)
    ensures |rs| == if failAt.Some? && failAt.value < |Plan| then failAt.value + 1 else |Plan|
    ensures forall i :: 0 <= i < |rs| ==>
              rs[i].verb == Plan[i].0 && rs[i].path == Plan[i].1
              && rs[i].headers == CreateAuthHeaders(testMode, authToken, csrfToken, Plan[i].2)
  {
    var n := if failAt.Some? && failAt.value < |Plan| then failAt.value + 1 else |Plan|;
    seq(n, i requires 0 <= i < n =>
      Request(Plan[i].0, Plan[i].1, CreateAuthHeaders(testMode, authToken, csrfToken, Plan[i].2)))
  }

  /** The script's module-level state: the TEST_MODE flag and the two tokens. */
  class ScriptState {
    const testMode: bool
    var authToken: string
    var csrfToken: string

    constructor (testMode: bool)
      ensures this.testMode == testMode && authToken == "" && csrfToken == ""
    {
      this.testMode := testMode;
      authToken := "";
      csrfToken := "";
    }

    /** authenticate: in test mode nothing is requested and the answer is true.
        Otherwise a token from the login body is stored; the CSRF token is stored
        when the header is present, and its absence is only a warning. */
    method Authenticate(login: LoginOutcome, csrf: CsrfOutcome) returns (ok: bool)
      modifies this
      ensures testMode ==> ok && authToken == old(authToken) && csrfToken == old(csrfToken)
      ensures !testMode ==>
        ok == (login.LoginBody? && login.token != "" && csrf.CsrfHeaderValue?)
      ensures authToken == if !testMode && login.LoginBody? && login.token != ""
                           then login.token else old(authToken)
      ensures csrfToken == if !testMode && login.LoginBody? && login.token != ""
                              && csrf.CsrfHeaderValue? && csrf.value != ""
                           then csrf.value else old(csrfToken)
    {
      if testMode {
        return true;
      }
      match login {
        case LoginThrew => ok := false;
        case LoginBody(token) =>
          if token != "" {
            authToken := token;
            match csrf {
              case CsrfThrew => ok := false;
              case CsrfHeaderValue(v) =>
                if v != "" {
                  csrfToken := v;
                }
                ok := true;
            }
          } else {
            ok := false;
          }
      }
    }

    /** runTests: authenticate, stop before any test request when that failed
        outside test mode, and otherwise issue the plan in order until one
        request throws. */
    method RunTests(login: LoginOutcome, csrf: CsrfOutcome, failAt: Option<nat>)
      returns (issued: seq<Request>)
      modifies this
      ensures !testMode && !(login.LoginBody? && login.token != "" && csrf.CsrfHeaderValue?)
              ==> issued == []
      ensures testMode || (login.LoginBody? && login.token != "" && csrf.CsrfHeaderValue?)
              ==> issued == IssuedRequests(testMode, authToken, csrfToken, failAt)
    {
      var authenticated := Authenticate(login, csrf);
      if !authenticated && !testMode {
        return [];
      }
      issued := IssuedRequests(testMode, authToken, csrfToken, failAt);
    }
  }

  /** After a successful standard-mode run every request carries the bearer token. */
  lemma IssuedRequestsCarryToken(authToken: string, csrfToken: string, failAt: Option<nat>, i: nat)
    requires authToken != ""
    requires i < |IssuedRequests(false, authToken, csrfToken, failAt)|
    ensures var r := IssuedRequests(false, authToken, csrfToken, failAt)[i];
            AuthorizationHeader in r.headers && r.headers[AuthorizationHeader] == "Bearer " + authToken
  {
  }

  // ------------------------------------------------------------- printing

  /** The fields of an endpoint's JSON result that printResult reads; a count is
      printed only when it is present and non-zero (JavaScript truthiness). */
  datatype TestResult = TestResult(
    success: bool, message: string,
    totalRequests: Option<int>, successfulRequests: int, totalTimeMs: nat, requestsPerSecond: string,
    novelCount: Option<int>, sceneCount: int, characterCount: int)

  predicate Truthy(n: Option<int>) { n.Some? && n.value != 0 }

  const Rule: string := "==================================="

  /** The lines printResult writes, in order. The total time goes through the
      unpadded formatDuration, so it can misread (FormatDurationMisreads1005). */
  function PrintResult(title: string, r: TestResult): (lines: seq<string>)
    ensures |lines| == 4 + (if r.success && Truthy(r.totalRequests) then 4 else 0)
                         + (if r.success && Truthy(r.novelCount) then 3 else 0)
    ensures lines[..4] == ["\n" + Rule, title, Rule, (if r.success then "\U{2713} " else "\U{2717} ") + r.message]
    ensures r.success && Truthy(r.totalRequests) ==>
              lines[6] == "总耗时: " + FormatDuration(r.totalTimeMs)
  {
    var head := ["\n" + Rule, title, Rule];
    if !r.success then head + ["\U{2717} " + r.message]
    else
      var stats := if Truthy(r.totalRequests) then
        ["总请求数: " + IntToString(r.totalRequests.value),
         "成功请求数: " + IntToString(r.successfulRequests),
         "总耗时: " + FormatDuration(r.totalTimeMs),
         "每秒请求数: " + r.requestsPerSecond + "/秒"]
        else [];
      var counts := if Truthy(r.novelCount) then
        ["小说数量: " + IntToString(r.novelCount.value),
         "场景数量: " + IntToString(r.sceneCount),
         "角色数量: " + IntToString(r.characterCount)]
        else [];
      head + ["\U{2713} " + r.message] + stats + counts
  }
}
