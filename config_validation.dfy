/** `validateConfig` (src/config/validation.ts): a configuration object is
    checked against `configSchema`; a valid one resolves to itself, an
    invalid one rejects with every issue turned into a `ConfigError` and
    the list written out as JSON. The object arrives as a record whose
    fields may be absent (`undefined`); whether a string is a URL (zod's
    `.url()`) is a predicate parameter. */
module ConfigValidation {
  import opened Wrappers
  import opened Text
  import opened Json
  import opened ConfigTypes
  import opened ZodIssues

  /** The fields of `config.rateLimit` when it is given. */
  datatype RateLimitInput = RateLimitInput(maxRequests: Option<int>, timeWindow: Option<int>)

  /** The object handed to `validateConfig`. */
  datatype ConfigInput = ConfigInput(apiUrl: Option<string>, token: Option<string>, rateLimit: Option<RateLimitInput>)

  const UrlMessage: string := "API URL must be a valid URL"
  const TokenMessage: string := "Token cannot be empty"
  const MaxRequestsMessage: string := "Maximum requests must be positive"
  const TimeWindowMessage: string := "Time window must be positive"
  /** zod's wording for a missing field. */
  const Required: string := "Required"
  const ValidationCode: string := "VALIDATION_ERROR"
  const FailurePrefix: string := "Configuration validation failed: "

  /** A configuration as the object that holds exactly its fields. */
  function Input(config: VikunjaConfig): (r: ConfigInput)
    ensures r.apiUrl == Some(config.apiUrl) && r.token == Some(config.token)
    ensures r.rateLimit.Some? <==> config.rateLimit.Some?
  {
    ConfigInput(Some(config.apiUrl), Some(config.token),
      match config.rateLimit
      case None => None
      case Some(limit) => Some(RateLimitInput(Some(limit.maxRequests), Some(limit.timeWindow))))
  }

  /** What `configSchema` accepts: a URL, a non-empty token and, when the
      rate limit is given, two positive numbers. */
  predicate Valid(config: VikunjaConfig, isUrl: string -> bool)
  {
    && isUrl(config.apiUrl) && config.token != ""
    && (config.rateLimit.Some? ==> config.rateLimit.value.maxRequests > 0 && config.rateLimit.value.timeWindow > 0)
  }

  /** A field check: `Required` when absent, `message` when present and
      failing. */
  function FieldIssues<T>(path: seq<Segment>, value: Option<T>, ok: T -> bool, message: string): seq<Issue>
  {
    match value
    case None => [Issue(path, Required)]
    case Some(v) => if ok(v) then [] else [Issue(path, message)]
  }

  /** `rateLimitSchema` on the given `rateLimit`. */
  function RateLimitIssues(limit: Option<RateLimitInput>): seq<Issue>
  {
    match limit
    case None => []
    case Some(l) =>
      FieldIssues([Key("rateLimit"), Key("maxRequests")], l.maxRequests, (n: int) => n > 0, MaxRequestsMessage)
      + FieldIssues([Key("rateLimit"), Key("timeWindow")], l.timeWindow, (n: int) => n > 0, TimeWindowMessage)
  }

  /** The issues zod reports, in the schema's key order. */
  function Issues(input: ConfigInput, isUrl: string -> bool): (r: seq<Issue>)
    ensures r == [] <==>
      && input.apiUrl.Some? && isUrl(input.apiUrl.value)
      && input.token.Some? && input.token.value != ""
      && (input.rateLimit.Some? ==>
            && input.rateLimit.value.maxRequests.Some? && input.rateLimit.value.maxRequests.value > 0
            && input.rateLimit.value.timeWindow.Some? && input.rateLimit.value.timeWindow.value > 0)
    ensures |r| <= 4
  {
    FieldIssues([Key("apiUrl")], input.apiUrl, isUrl, UrlMessage)
    + FieldIssues([Key("token")], input.token, (s: string) => |s| >= 1, TokenMessage)
    + RateLimitIssues(input.rateLimit)
  }

  /** The configuration zod returns: the schema's fields, copied. */
  function Output(input: ConfigInput): (r: VikunjaConfig)
    requires input.apiUrl.Some? && input.token.Some?
    requires input.rateLimit.Some? ==> input.rateLimit.value.maxRequests.Some? && input.rateLimit.value.timeWindow.Some?
    ensures Input(r) == input
  {
    VikunjaConfig(input.apiUrl.value, input.token.value,
      match input.rateLimit
      case None => None
      case Some(l) => Some(RateLimit(l.maxRequests.value, l.timeWindow.value)))
  }

  /** The `ConfigError` of one issue. */
  function ErrorOf(issue: Issue): (e: ConfigError)
    ensures e.code == ValidationCode && e.message == issue.message
    ensures e.field == Some(PathText(issue.path))
  {
    ConfigError(ValidationCode, issue.message, Some(PathText(issue.path)))
  }

  function ErrorsOf(issues: seq<Issue>): (r: seq<ConfigError>)
    ensures |r| == |issues|
    ensures forall i :: 0 <= i < |issues| ==> r[i] == ErrorOf(issues[i])
  {
    seq(|issues|, i requires 0 <= i < |issues| => ErrorOf(issues[i]))
  }

  /** `JSON.stringify` of a `ConfigError`: its members in declaration
      order, `field` only when it is set. */
  function ErrorJson(e: ConfigError): (r: string)
    ensures |r| >= 2 && r[0] == '{' && r[|r| - 1] == '}'
  {
    StringifyStringObject([("code", e.code), ("message", e.message)]
      + (if e.field.Some? then [("field", e.field.value)] else []))
  }

  function ErrorsJson(errors: seq<ConfigError>): (r: string)
    ensures |r| >= 2 && r[0] == '[' && r[|r| - 1] == ']'
  {
    StringifyArray(seq(|errors|, i requires 0 <= i < |errors| => ErrorJson(errors[i])))
  }

  /** `validateConfig(config)`: the parsed configuration, or the message of
      the error it rejects with. */
  function ValidateConfig(input: ConfigInput, isUrl: string -> bool): (r: Result<VikunjaConfig, string>)
    ensures r.Success? <==> Issues(input, isUrl) == []
    ensures r.Success? ==> Input(r.value) == input && Valid(r.value, isUrl)
    ensures r.Failure? ==> r.error == FailurePrefix + ErrorsJson(ErrorsOf(Issues(input, isUrl)))
  {
    var issues := Issues(input, isUrl);
    if issues == [] then Success(Output(input))
    else Failure(FailurePrefix + ErrorsJson(ErrorsOf(issues)))
  }

  /** A valid configuration, with or without a rate limit, resolves to
      itself. */
  lemma ValidResolvesToItself(config: VikunjaConfig, isUrl: string -> bool)
    requires Valid(config, isUrl)
    ensures ValidateConfig(Input(config), isUrl) == Success(config)
  {
  }

  /** The input is accepted exactly when it is the object of a valid
      configuration. */
  lemma AcceptedExactlyValid(input: ConfigInput, isUrl: string -> bool)
    ensures ValidateConfig(input, isUrl).Success?
      <==> exists config :: Valid(config, isUrl) && Input(config) == input
  {
    if ValidateConfig(input, isUrl).Success? {
      var config := ValidateConfig(input, isUrl).value;
      assert Valid(config, isUrl) && Input(config) == input;
    } else if exists config :: Valid(config, isUrl) && Input(config) == input {
      var config :| Valid(config, isUrl) && Input(config) == input;
      ValidResolvesToItself(config, isUrl);
    }
  }

  /** The single issue of a configuration whose only fault is its URL. */
  lemma UrlRejected(config: VikunjaConfig, isUrl: string -> bool)
    requires !isUrl(config.apiUrl) && Valid(config.(apiUrl := "u"), u => u == "u")
    ensures Issues(Input(config), isUrl) == [Issue([Key("apiUrl")], UrlMessage)]
    ensures ErrorsOf(Issues(Input(config), isUrl)) == [ConfigError(ValidationCode, UrlMessage, Some("apiUrl"))]
  {
    SingleKey("apiUrl");
  }

  /** An empty token is rejected, with its message under `token`. */
  lemma EmptyTokenRejected(input: ConfigInput, isUrl: string -> bool)
    requires input.token == Some("")
    ensures ValidateConfig(input, isUrl).Failure?
    ensures Issue([Key("token")], TokenMessage) in Issues(input, isUrl)
  {
    var u := FieldIssues([Key("apiUrl")], input.apiUrl, isUrl, UrlMessage);
    assert Issues(input, isUrl)[|u|] == Issue([Key("token")], TokenMessage);
  }

  /** A rate limit whose `maxRequests` is zero or negative is rejected,
      with its message under the dotted path `rateLimit.maxRequests`. */
  lemma MaxRequestsRejected(input: ConfigInput, isUrl: string -> bool, n: int)
    requires input.rateLimit.Some? && input.rateLimit.value.maxRequests == Some(n) && n <= 0
    ensures ValidateConfig(input, isUrl).Failure?
    ensures Issue([Key("rateLimit"), Key("maxRequests")], MaxRequestsMessage) in Issues(input, isUrl)
  {
    var u := FieldIssues([Key("apiUrl")], input.apiUrl, isUrl, UrlMessage);
    var t := FieldIssues([Key("token")], input.token, (s: string) => |s| >= 1, TokenMessage);
    assert Issues(input, isUrl)[|u| + |t|] == Issue([Key("rateLimit"), Key("maxRequests")], MaxRequestsMessage);
  }

  /** A rate limit whose `timeWindow` is zero or negative is rejected,
      with its message under `rateLimit.timeWindow`. */
  lemma TimeWindowRejected(input: ConfigInput, isUrl: string -> bool, n: int)
    requires input.rateLimit.Some? && input.rateLimit.value.timeWindow == Some(n) && n <= 0
    ensures ValidateConfig(input, isUrl).Failure?
    ensures Issue([Key("rateLimit"), Key("timeWindow")], TimeWindowMessage) in Issues(input, isUrl)
  {
    var issues := Issues(input, isUrl);
    assert issues[|issues| - 1] == Issue([Key("rateLimit"), Key("timeWindow")], TimeWindowMessage);
  }

  /** Each error is written as the JSON object of its code, message and
      dotted field, in that order. */
  lemma ErrorJsonShape(issue: Issue)
    ensures ErrorJson(ErrorOf(issue))
      == "{" + MemberText("code", ValidationCode) + "," + MemberText("message", issue.message) + ","
             + MemberText("field", PathText(issue.path)) + "}"
  {
    var e := ErrorOf(issue);
    assert [("code", e.code), ("message", e.message)] + [("field", e.field.value)]
      == [("code", ValidationCode), ("message", issue.message), ("field", PathText(issue.path))];
    ObjectOfThree("code", ValidationCode, "message", issue.message, "field", PathText(issue.path));
  }

  /** The JSON text of an object of three string members. */
  lemma {:induction false} ObjectOfThree(k1: string, v1: string, k2: string, v2: string, k3: string, v3: string)
    ensures StringifyStringObject([(k1, v1), (k2, v2), (k3, v3)])
      == "{" + MemberText(k1, v1) + "," + MemberText(k2, v2) + "," + MemberText(k3, v3) + "}"
  {
    var texts := MemberTexts([(k1, v1), (k2, v2), (k3, v3)]);
    var a, b, c := MemberText(k1, v1), MemberText(k2, v2), MemberText(k3, v3);
    assert texts == [a, b, c];
    assert texts[1..] == [b, c] && texts[1..][1..] == [c];
    assert Join([c], ",") == c;
    assert Join([b, c], ",") == b + "," + c;
    assert Join(texts, ",") == a + "," + (b + "," + c);
    var p := "{" + a + ",";
    ConcatAssoc("{", a + ",", b + "," + c);
    ConcatAssoc("{", a, ",");
    ConcatAssoc(p, b + ",", c);
    ConcatAssoc(p, b, ",");
  }
}
