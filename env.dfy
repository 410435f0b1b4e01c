/**
 * `envSchema` and `validate`: the process environment is parsed into the
 * configuration, or rejected with one `path: message` line per issue.
 *
 * `Number(...)` is modelled on decimal-digit strings only (and on the empty
 * string, which `Number` reads as 0); every other string is NaN. `isUrl`
 * stands for zod's `url()` check. Issue texts are zod's default messages
 * except the schema's own "MONGO_URI is required".
 */
module EnvValidation {
  import opened Optional

  type Env = map<string, string>

  datatype EnvConfig = EnvConfig(mongoUri: string, port: int, frontendUrl: Option<string>)

  datatype Issue = Issue(path: string, message: string)

  datatype Validated = Success(config: EnvConfig) | Failure(message: string)

  const DefaultPort: string := "3000"
  const MinPort: int := 1
  const MaxPort: int := 65535

  /** A JavaScript number as far as PORT needs one. */
  datatype JsNumber = NaN | Finite(value: int)

  predicate IsDigit(c: char) {
    '0' <= c <= '9'
  }

  predicate AllDigits(s: string) {
    forall k :: 0 <= k < |s| ==> IsDigit(s[k])
  }

  /** The decimal value of a digit string, read left to right. */
  function DecimalValue(s: string): (n: nat)
    requires AllDigits(s)
  {
    if s == [] then 0
    else DecimalValue(s[..|s| - 1]) * 10 + ((s[|s| - 1] as int) - ('0' as int))
  }

  /** `Number(s)` */
  function ToNumber(s: string): JsNumber {
    if AllDigits(s) then Finite(DecimalValue(s)) else NaN
  }

  /** The digits of `n`, most significant first, without leading zeros. */
  function DecimalDigits(n: nat): (s: string)
    ensures AllDigits(s) && |s| >= 1
  {
    if n < 10 then [(('0' as int) + n) as char]
    else DecimalDigits(n / 10) + [(('0' as int) + n % 10) as char]
  }

  /** Printing a number in decimal and reading it back gives the number. */
  lemma {:induction false} DecimalRoundTrip(n: nat)
    ensures DecimalValue(DecimalDigits(n)) == n
  {
    if n >= 10 {
      var s := DecimalDigits(n);
      assert s[..|s| - 1] == DecimalDigits(n / 10);
      DecimalRoundTrip(n / 10);
    }
  }

  function MongoUriIssues(env: Env): seq<Issue> {
    if "MONGO_URI" !in env then [Issue("MONGO_URI", "Required")]
    else if |env["MONGO_URI"]| < 1 then [Issue("MONGO_URI", "MONGO_URI is required")]
    else []
  }

  /** PORT after `.default("3000")` */
  function PortText(env: Env): string {
    if "PORT" in env then env["PORT"] else DefaultPort
  }

  /** `.transform(Number).pipe(z.number().int().min(1).max(65535))` */
  function PortIssues(env: Env): seq<Issue> {
    match ToNumber(PortText(env))
    case NaN => [Issue("PORT", "Expected number, received nan")]
    case Finite(n) =>
      if n < MinPort then [Issue("PORT", "Number must be greater than or equal to 1")]
      else if n > MaxPort then [Issue("PORT", "Number must be less than or equal to 65535")]
      else []
  }

  function FrontendUrlIssues(env: Env, isUrl: string -> bool): seq<Issue> {
    if "FRONTEND_URL" in env && !isUrl(env["FRONTEND_URL"]) then [Issue("FRONTEND_URL", "Invalid url")]
    else []
  }

  /** Every issue `safeParse` reports, in the order of the schema's fields. */
  function Issues(env: Env, isUrl: string -> bool): seq<Issue> {
    MongoUriIssues(env) + PortIssues(env) + FrontendUrlIssues(env, isUrl)
  }

  /** `issue => "  - " + path + ": " + message` joined with newlines */
  function FormatIssues(issues: seq<Issue>): string {
    if issues == [] then ""
    else if |issues| == 1 then "  - " + issues[0].path + ": " + issues[0].message
    else "  - " + issues[0].path + ": " + issues[0].message + "\n" + FormatIssues(issues[1..])
  }

  const FailurePrefix: string := "Environment validation failed:\n"

  /** `validate(config)` */
  function Validate(env: Env, isUrl: string -> bool): Validated {
    var issues := Issues(env, isUrl);
    if issues != [] then Failure(FailurePrefix + FormatIssues(issues))
    else Success(EnvConfig(env["MONGO_URI"], ToNumber(PortText(env)).value,
                           if "FRONTEND_URL" in env then Some(env["FRONTEND_URL"]) else None))
  }

  /**
   * Validation succeeds exactly when MONGO_URI is present and non-empty, PORT
   * (default "3000") reads as an integer in [1, 65535], and FRONTEND_URL, if
   * present, is a URL; the configuration then carries the inputs unchanged.
   * Otherwise the message starts with the fixed prefix and lists every issue.
   */
  lemma ValidateSpec(env: Env, isUrl: string -> bool)
    ensures Validate(env, isUrl).Success? <==>
      && "MONGO_URI" in env && env["MONGO_URI"] != ""
      && ToNumber(PortText(env)).Finite? && MinPort <= ToNumber(PortText(env)).value <= MaxPort
      && ("FRONTEND_URL" in env ==> isUrl(env["FRONTEND_URL"]))
    ensures Validate(env, isUrl).Success? ==>
      && Validate(env, isUrl).config.mongoUri == env["MONGO_URI"]
      && Validate(env, isUrl).config.port == ToNumber(PortText(env)).value
      && Validate(env, isUrl).config.frontendUrl == (if "FRONTEND_URL" in env then Some(env["FRONTEND_URL"]) else None)
    ensures Validate(env, isUrl).Failure? ==>
      FailurePrefix <= Validate(env, isUrl).message
    ensures Validate(env, isUrl).Failure? ==>
      forall k :: 0 <= k < |Issues(env, isUrl)| ==>
        Contains(Validate(env, isUrl).message, IssueLine(Issues(env, isUrl)[k]))
  {
    FailureListsIssues(env, isUrl);
  }

  /** A failure message holds the line of every issue the schema reports. */
  lemma FailureListsIssues(env: Env, isUrl: string -> bool)
    ensures Validate(env, isUrl).Failure? ==>
      forall k :: 0 <= k < |Issues(env, isUrl)| ==>
        Contains(Validate(env, isUrl).message, IssueLine(Issues(env, isUrl)[k]))
  {
    if Validate(env, isUrl).Failure? {
      var issues := Issues(env, isUrl);
      var text := FormatIssues(issues);
      var message := Validate(env, isUrl).message;
      assert message == FailurePrefix + text;
      forall k | 0 <= k < |issues| ensures Contains(message, IssueLine(issues[k])) {
        FormatIssuesListsAll(issues, k);
        var i :| 0 <= i <= |text| && IssueLine(issues[k]) <= text[i..];
        assert message[|FailurePrefix| + i..] == text[i..];
      }
    }
  }

  /** Any in-range port written in decimal is accepted and read back as itself. */
  lemma PortRoundTrip(env: Env, isUrl: string -> bool, n: nat)
    requires "MONGO_URI" in env && env["MONGO_URI"] != "" && "FRONTEND_URL" !in env
    requires MinPort <= n <= MaxPort
    ensures Validate(env["PORT" := DecimalDigits(n)], isUrl) ==
      Success(EnvConfig(env["MONGO_URI"], n, None))
  {
    DecimalRoundTrip(n);
  }

  function IssueLine(issue: Issue): string {
    "  - " + issue.path + ": " + issue.message
  }

  predicate Contains(s: string, part: string) {
    exists i :: 0 <= i <= |s| && part <= s[i..]
  }

  /** The failure message holds the line of every issue. */
  lemma {:induction false} FormatIssuesListsAll(issues: seq<Issue>, k: nat)
    requires k < |issues|
    ensures Contains(FormatIssues(issues), IssueLine(issues[k]))
  {
    var line := IssueLine(issues[k]);
    var text := FormatIssues(issues);
    if k == 0 {
      assert text[0..] == text;
    } else {
      var rest := FormatIssues(issues[1..]);
      FormatIssuesListsAll(issues[1..], k - 1);
      var i :| 0 <= i <= |rest| && line <= rest[i..];
      var head := IssueLine(issues[0]) + "\n";
      assert text == head + rest;
      assert text[|head| + i..] == rest[i..];
    }
  }

  /** The accepted configurations of the configuration's own tests. */
  lemma ValidateAcceptsExamples(isUrl: string -> bool)
    requires isUrl("http://localhost:5173")
    ensures Validate(map["MONGO_URI" := "mongodb://localhost:27017/test", "PORT" := "5000",
                         "FRONTEND_URL" := "http://localhost:5173"], isUrl)
      == Success(EnvConfig("mongodb://localhost:27017/test", 5000, Some("http://localhost:5173")))
    ensures Validate(map["MONGO_URI" := "mongodb://localhost:27017/test"], isUrl)
      == Success(EnvConfig("mongodb://localhost:27017/test", 3000, None))
  {
    PortExamples();
    var full := map["MONGO_URI" := "mongodb://localhost:27017/test", "PORT" := "5000",
                    "FRONTEND_URL" := "http://localhost:5173"];
    var minimal := map["MONGO_URI" := "mongodb://localhost:27017/test"];
    assert PortText(full) == "5000" && PortText(minimal) == "3000";
    ValidateSpec(full, isUrl);
    ValidateSpec(minimal, isUrl);
  }

  /** The texts "5000" and "3000" read as the numbers 5000 and 3000. */
  lemma PortExamples()
    ensures ToNumber("5000") == Finite(5000) && ToNumber("3000") == Finite(3000)
  {
    assert DecimalDigits(5000) == "5000";
    DecimalRoundTrip(5000);
    assert DecimalDigits(3000) == "3000";
    DecimalRoundTrip(3000);
  }

  /** A missing or empty MONGO_URI, or an invalid FRONTEND_URL, is rejected. */
  lemma ValidateRejectsMissingSettings(isUrl: string -> bool)
    requires !isUrl("not-a-url")
    ensures Validate(map[], isUrl).Failure?
    ensures Validate(map["MONGO_URI" := ""], isUrl).Failure?
    ensures Validate(map["MONGO_URI" := "mongodb://localhost/test", "FRONTEND_URL" := "not-a-url"], isUrl).Failure?
  {
  }

  /** A non-numeric or out-of-range PORT is rejected. */
  lemma ValidateRejectsBadPorts(isUrl: string -> bool)
    ensures Validate(map["MONGO_URI" := "mongodb://localhost/test", "PORT" := "abc"], isUrl).Failure?
    ensures Validate(map["MONGO_URI" := "mongodb://localhost/test", "PORT" := "99999"], isUrl).Failure?
  {
    assert !IsDigit('a');
    assert DecimalValue("99999") == 99999 by {
      assert "99999"[..4] == "9999" && "9999"[..3] == "999" && "999"[..2] == "99" && "99"[..1] == "9" && "9"[..0] == "";
    }
  }
}
