/** `loadConfig` of the MCP server (src/mcp/config.ts): the environment is
    checked against a schema of four variables, and either a configuration
    with the rate-limit defaults filled in is built, or an error lists every
    issue found followed by help text. The environment is a map parameter;
    whether a string is a URL (zod's `.url()`) is a predicate parameter. */
module McpConfig {
  import opened Wrappers
  import opened Text
  import opened ConfigTypes
  import opened ZodIssues

  const UrlKey: string := "VIKUNJA_API_URL"
  const TokenKey: string := "VIKUNJA_API_TOKEN"
  const RateKey: string := "VIKUNJA_API_RATE_LIMIT"
  const WindowKey: string := "VIKUNJA_API_RATE_LIMIT_WINDOW"

  /** zod's default wording for the four checks. */
  const Required: string := "Required"
  const InvalidUrl: string := "Invalid url"
  const TooShort: string := "String must contain at least 1 character(s)"
  const InvalidPattern: string := "Invalid"

  const DefaultMaxRequests: nat := 500
  const DefaultTimeWindow: nat := 60000

  /** The first line of the error, and the help text closing it. */
  const Title: string := "Invalid MCP server configuration:"
  const HelpTitle: string := "Required environment variables:"
  const HelpUrl: string := "  VIKUNJA_API_URL: Vikunja API base URL"
  const HelpToken: string := "  VIKUNJA_API_TOKEN: Default API token for Vikunja"
  const Footer: string := "\n\n" + HelpTitle + "\n" + HelpUrl + "\n" + HelpToken + "\n"

  /** What the schema accepts: a URL, a non-empty token, and, for each
      rate-limit variable that is set, one or more ASCII digits. */
  predicate Accepts(env: map<string, string>, isUrl: string -> bool)
  {
    && UrlKey in env && isUrl(env[UrlKey])
    && TokenKey in env && env[TokenKey] != ""
    && (RateKey in env ==> IsDigitString(env[RateKey]))
    && (WindowKey in env ==> IsDigitString(env[WindowKey]))
  }

  /** `z.string().url()` on `VIKUNJA_API_URL`. */
  function UrlIssues(env: map<string, string>, isUrl: string -> bool): seq<Issue>
  {
    if UrlKey !in env then [Issue([Key(UrlKey)], Required)]
    else if !isUrl(env[UrlKey]) then [Issue([Key(UrlKey)], InvalidUrl)]
    else []
  }

  /** `z.string().min(1)` on `VIKUNJA_API_TOKEN`. */
  function TokenIssues(env: map<string, string>): seq<Issue>
  {
    if TokenKey !in env then [Issue([Key(TokenKey)], Required)]
    else if |env[TokenKey]| < 1 then [Issue([Key(TokenKey)], TooShort)]
    else []
  }

  /** `z.string().regex(/^\d+$/).optional()` on a rate-limit variable. */
  function DigitIssues(env: map<string, string>, key: string): seq<Issue>
  {
    if key in env && !IsDigitString(env[key]) then [Issue([Key(key)], InvalidPattern)] else []
  }

  /** The issues of `safeParse(process.env)`, in the schema's key order. */
  function Issues(env: map<string, string>, isUrl: string -> bool): (r: seq<Issue>)
    ensures r == [] <==> Accepts(env, isUrl)
    ensures |r| <= 4
  {
    UrlIssues(env, isUrl) + TokenIssues(env) + DigitIssues(env, RateKey) + DigitIssues(env, WindowKey)
  }

  /** `${err.path.join('.')}: ${err.message}` for each issue. */
  function IssueLines(issues: seq<Issue>): (r: seq<string>)
    ensures |r| == |issues|
    ensures forall i :: 0 <= i < |issues| ==> r[i] == PathText(issues[i].path) + ": " + issues[i].message
  {
    seq(|issues|, i requires 0 <= i < |issues| => PathText(issues[i].path) + ": " + issues[i].message)
  }

  /** The text of the error `loadConfig` throws. */
  function FailureMessage(issues: seq<Issue>): (r: string)
    ensures |r| >= |Title| + 1 + |Footer| && r[..|Title| + 1] == Title + "\n" && r[|r| - |Footer|..] == Footer
  {
    var m := Title + "\n" + Join(IssueLines(issues), "\n") + Footer;
    assert m[..|Title| + 1] == Title + "\n";
    m
  }

  /** A rate-limit setting: the number its digits spell, or the default
      when the variable is not set (`?? default`, which keeps 0). */
  function Setting(env: map<string, string>, key: string, default: nat): (r: nat)
    requires key in env ==> IsDigitString(env[key])
    ensures key !in env ==> r == default
    ensures key in env ==> r == DigitsValue(env[key])
    ensures key in env && env[key] == "0" ==> r == 0
  {
    if key in env then DigitsValue(env[key]) else default
  }

  /** `loadConfig()`: the configuration, or the error message. */
  function LoadConfig(env: map<string, string>, isUrl: string -> bool): (r: Result<VikunjaConfig, string>)
    ensures r.Success? <==> Accepts(env, isUrl)
    ensures r.Success? ==> r.value.apiUrl == env[UrlKey] && r.value.token == env[TokenKey]
    ensures r.Success? ==> r.value.rateLimit.Some?
    ensures r.Failure? ==> r.error == FailureMessage(Issues(env, isUrl))
  {
    var issues := Issues(env, isUrl);
    if issues != [] then Failure(FailureMessage(issues))
    else
      var rate := RateLimit(Setting(env, RateKey, DefaultMaxRequests), Setting(env, WindowKey, DefaultTimeWindow));
      Success(VikunjaConfig(env[UrlKey], env[TokenKey], Some(rate)))
  }

  /** Without the rate-limit variables the limits are 500 requests per
      60000 ms. */
  lemma Defaults(env: map<string, string>, isUrl: string -> bool)
    requires Accepts(env, isUrl) && RateKey !in env && WindowKey !in env
    ensures LoadConfig(env, isUrl) == Success(VikunjaConfig(env[UrlKey], env[TokenKey], Some(RateLimit(500, 60000))))
  {
  }

  /** A set rate-limit variable gives the number its digits spell; an unset
      one the default. */
  lemma RateLimitValues(env: map<string, string>, isUrl: string -> bool)
    requires Accepts(env, isUrl)
    ensures var limit := LoadConfig(env, isUrl).value.rateLimit.value;
      && limit.maxRequests == (if RateKey in env then DigitsValue(env[RateKey]) else 500)
      && limit.timeWindow == (if WindowKey in env then DigitsValue(env[WindowKey]) else 60000)
  {
  }

  /** `VIKUNJA_API_RATE_LIMIT=0` is accepted and kept as 0. */
  lemma ZeroKept(env: map<string, string>, isUrl: string -> bool)
    requires Accepts(env, isUrl) && RateKey in env && env[RateKey] == "0"
    ensures LoadConfig(env, isUrl).value.rateLimit.value.maxRequests == 0
  {
    RateLimitValues(env, isUrl);
    assert env[RateKey][..0] == "";
  }

  /** A set rate-limit variable that is not a digit string (empty, signed,
      with a fraction or letters) fails the load, with an `Invalid` issue
      under its own name. */
  lemma NonDigitsRejected(env: map<string, string>, isUrl: string -> bool, key: string)
    requires key == RateKey || key == WindowKey
    requires key in env && !IsDigitString(env[key])
    ensures LoadConfig(env, isUrl).Failure?
    ensures Issue([Key(key)], InvalidPattern) in Issues(env, isUrl)
  {
    var u := UrlIssues(env, isUrl);
    var t := TokenIssues(env);
    if key == RateKey {
      assert Issues(env, isUrl)[|u| + |t|] == Issue([Key(key)], InvalidPattern);
    } else {
      assert Issues(env, isUrl)[|Issues(env, isUrl)| - 1] == Issue([Key(key)], InvalidPattern);
    }
  }

  /** A missing or empty token fails the load, with the token's issue. */
  lemma TokenRejected(env: map<string, string>, isUrl: string -> bool)
    requires TokenKey !in env || env[TokenKey] == ""
    ensures LoadConfig(env, isUrl).Failure?
    ensures TokenKey !in env ==> Issue([Key(TokenKey)], Required) in Issues(env, isUrl)
    ensures TokenKey in env ==> Issue([Key(TokenKey)], TooShort) in Issues(env, isUrl)
  {
    var u := UrlIssues(env, isUrl);
    assert Issues(env, isUrl)[|u|] == TokenIssues(env)[0];
  }

  /** A missing URL, or one that is not a URL, fails the load, with the
      URL's issue first. */
  lemma UrlRejected(env: map<string, string>, isUrl: string -> bool)
    requires UrlKey !in env || !isUrl(env[UrlKey])
    ensures LoadConfig(env, isUrl).Failure?
    ensures UrlKey !in env ==> Issues(env, isUrl)[0] == Issue([Key(UrlKey)], Required)
    ensures UrlKey in env ==> Issues(env, isUrl)[0] == Issue([Key(UrlKey)], InvalidUrl)
  {
  }

  /** Every issue line is free of line breaks. */
  lemma IssueLinesPlain(env: map<string, string>, isUrl: string -> bool)
    ensures NoneContains(IssueLines(Issues(env, isUrl)), '\n')
  {
    var issues := Issues(env, isUrl);
    KeysPlain();
    MessagesPlain();
    forall i | 0 <= i < |issues|
      ensures '\n' !in IssueLines(issues)[i]
    {
      assert issues[i] in UrlIssues(env, isUrl) + TokenIssues(env) + DigitIssues(env, RateKey) + DigitIssues(env, WindowKey);
      SingleKey(issues[i].path[0].name);
    }
  }

  lemma KeysPlain()
    ensures '\n' !in UrlKey && '\n' !in TokenKey && '\n' !in RateKey && '\n' !in WindowKey
  {
  }

  lemma MessagesPlain()
    ensures '\n' !in Required && '\n' !in InvalidUrl && '\n' !in TooShort && '\n' !in InvalidPattern
  {
    TooShortPlain();
  }

  lemma TooShortPlain()
    ensures '\n' !in TooShort
  {
  }

  /** None of the fixed lines holds a line break. */
  lemma HelpPlain()
    ensures '\n' !in Title && '\n' !in HelpTitle && '\n' !in HelpUrl && '\n' !in HelpToken
  {
    TitlePlain();
    HelpTitlePlain();
    HelpUrlPlain();
    HelpTokenPlain();
  }

  lemma TitlePlain()
    ensures '\n' !in Title
  {
  }

  lemma HelpTitlePlain()
    ensures '\n' !in HelpTitle
  {
  }

  lemma HelpUrlPlain()
    ensures '\n' !in HelpUrl
  {
  }

  lemma HelpTokenPlain()
    ensures '\n' !in HelpToken
  {
    var head, tail := "  VIKUNJA_API_TOKEN: ", "Default API token for Vikunja";
    assert HelpToken == head + tail;
    assert '\n' !in head;
    assert '\n' !in tail;
  }

  /** The error, read line by line: the title, one line per issue in
      order, an empty line, the help text naming both required variables,
      and the empty rest after the final line break. */
  lemma MessageLines(env: map<string, string>, isUrl: string -> bool)
    requires !Accepts(env, isUrl)
    ensures Split(LoadConfig(env, isUrl).error, '\n')
      == [Title] + IssueLines(Issues(env, isUrl)) + ["", HelpTitle, HelpUrl, HelpToken, ""]
  {
    var lines := IssueLines(Issues(env, isUrl));
    IssueLinesPlain(env, isUrl);
    HelpPlain();
    MessageShape(Title, lines, HelpTitle, HelpUrl, HelpToken);
  }

  /** The line structure of the message, for any lines without breaks. */
  lemma {:induction false} MessageShape(title: string, lines: seq<string>, a: string, b: string, c: string)
    requires |lines| >= 1 && NoneContains(lines, '\n')
    requires '\n' !in title && '\n' !in a && '\n' !in b && '\n' !in c
    ensures Split(title + "\n" + Join(lines, "\n") + ("\n\n" + a + "\n" + b + "\n" + c + "\n"), '\n')
      == [title] + lines + ["", a, b, c, ""]
  {
    var body := Join(lines, "\n");
    var rest := "\n" + a + "\n" + b + "\n" + c + "\n";
    var tail := body + ['\n'] + rest;
    assert Split(tail, '\n') == lines + ["", a, b, c, ""] by {
      SplitJoin(lines, '\n');
      HelpShape(a, b, c);
      SplitConcat(body, '\n', rest);
    }
    assert "\n" + rest == "\n\n" + a + "\n" + b + "\n" + c + "\n";
    var whole := title + "\n" + body + ("\n" + rest);
    assert whole == title + ['\n'] + tail;
    assert Split(whole, '\n') == [title] + Split(tail, '\n') by {
      SplitAfter(title, '\n', tail);
    }
    ConcatAssoc([title], lines, ["", a, b, c, ""]);
  }

  /** The help text after the issues, read line by line. */
  lemma {:induction false} HelpShape(a: string, b: string, c: string)
    requires '\n' !in a && '\n' !in b && '\n' !in c
    ensures Split("\n" + a + "\n" + b + "\n" + c + "\n", '\n') == ["", a, b, c, ""]
  {
    var x1 := "\n" + a;
    var x2 := x1 + "\n" + b;
    var x3 := x2 + "\n" + c;
    assert Split(x1, '\n') == ["", a] by {
      assert x1 == "" + ['\n'] + a;
      SplitConcat("", '\n', a);
      SplitWithout(a, '\n');
    }
    assert Split(x2, '\n') == ["", a, b] by {
      SplitConcat(x1, '\n', b);
      SplitWithout(b, '\n');
    }
    assert Split(x3, '\n') == ["", a, b, c] by {
      SplitConcat(x2, '\n', c);
      SplitWithout(c, '\n');
    }
    assert Split(x3 + "\n", '\n') == ["", a, b, c, ""] by {
      assert x3 + "\n" == x3 + ['\n'] + "";
      SplitConcat(x3, '\n', "");
    }
  }
}
