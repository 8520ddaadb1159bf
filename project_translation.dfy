/** The copy of the project URI functions in src/mcp/translation/project.ts.
    The printer is the same template string; the parser is written here as
    a matcher that walks the literal prefix and then reads the digits from
    left to right, as a regular-expression engine and `Number` would, and is
    proved to agree with the one in McpUri on every string. */
module ProjectTranslation {
  import opened Wrappers
  import opened Text
  import U = McpUri

  /** `toMcpUri(id)` of the translation module. */
  function ToMcpUri(id: int): (r: string)
    ensures |r| > |U.ProjectPrefix| && r[..|U.ProjectPrefix|] == U.ProjectPrefix
    ensures r[|U.ProjectPrefix|..] == IntToString(id)
  {
    assert "vikunja://" + "projects/" == U.ProjectPrefix;
    "vikunja://" + "projects/" + IntToString(id)
  }

  /** The rest of `s` after the literal prefix `p`, or `None` when `s` does
      not start with `p`. */
  function StripPrefix(p: string, s: string): (r: Option<string>)
    ensures r.Some? <==> |s| >= |p| && s[..|p|] == p
    ensures r.Some? ==> r.value == s[|p|..]
  {
    if p == [] then Some(s)
    else if s != [] && s[0] == p[0] then StripPrefix(p[1..], s[1..])
    else None
  }

  /** Reads digits from left to right onto the value `acc` read so far;
      `None` at the first character that is not a digit. */
  function ReadDigits(s: string, acc: nat): (r: Option<nat>)
    ensures r.Some? <==> AllDigits(s)
  {
    if s == [] then Some(acc)
    else if IsDigit(s[0]) then ReadDigits(s[1..], acc * 10 + DigitValue(s[0]))
    else None
  }

  /** `fromMcpUri(uri)` of the translation module. */
  function FromMcpUri(uri: string): (r: Result<nat, string>)
    ensures r.Success? <==> U.IsProjectUri(uri)
    ensures r.Failure? ==> r.error == U.InvalidUriMessage
  {
    match StripPrefix(U.ProjectPrefix, uri)
    case Some(digits) =>
      if digits == [] then Failure(U.InvalidUriMessage)
      else (match ReadDigits(digits, 0)
            case Some(v) => Success(v)
            case None => Failure(U.InvalidUriMessage))
    case None => Failure(U.InvalidUriMessage)
  }

  /** Reading on from the value of `t` gives the value of `t + s`. */
  lemma {:induction false} ReadDigitsValue(t: string, s: string)
    requires AllDigits(t) && AllDigits(s)
    ensures ReadDigits(s, DigitsValue(t)) == Some(DigitsValue(t + s))
    decreases |s|
  {
    if s != [] {
      var t' := t + [s[0]];
      assert t'[..|t'| - 1] == t;
      ReadDigitsValue(t', s[1..]);
      ConcatAssoc(t, [s[0]], s[1..]);
      assert [s[0]] + s[1..] == s;
    } else {
      assert t + s == t;
    }
  }

  /** The two printers are the same function. */
  lemma SamePrinter(id: int)
    ensures ToMcpUri(id) == U.ToMcpUri(id)
  {
    assert "projects/" == "projects" + "/";
  }

  /** The two parsers agree on every string. */
  lemma SameParser(uri: string)
    ensures FromMcpUri(uri) == U.FromMcpUri(uri)
  {
    if U.IsProjectUri(uri) {
      SameOnProjectUri(uri);
    }
  }

  lemma SameOnProjectUri(uri: string)
    requires U.IsProjectUri(uri)
    ensures FromMcpUri(uri) == Success(DigitsValue(uri[|U.ProjectPrefix|..]))
  {
    var digits := uri[|U.ProjectPrefix|..];
    assert StripPrefix(U.ProjectPrefix, uri) == Some(digits);
    assert digits != [];
    ReadAll(digits);
  }

  /** Reading a whole digit string from 0 gives its value. */
  lemma ReadAll(digits: string)
    requires AllDigits(digits)
    ensures ReadDigits(digits, 0) == Some(DigitsValue(digits))
  {
    ReadDigitsValue("", digits);
    assert "" + digits == digits;
  }

  /** The round trip of the translation module's pair. */
  lemma RoundTrip(n: nat)
    ensures FromMcpUri(ToMcpUri(n)) == Success(n)
  {
    SamePrinter(n);
    SameParser(ToMcpUri(n));
    U.RoundTrip(n);
  }

  /** `fromMcpUri("vikunja://projects/123")` is 123. */
  lemma ParsesExample(uri: string)
    requires uri == U.ProjectPrefix + "123"
    ensures FromMcpUri(uri) == Success(123)
  {
    var digits := uri[|U.ProjectPrefix|..];
    assert digits == "123";
    ReadDigitsValue("", digits);
    assert "" + digits == digits;
    assert digits[..2] == "12" && digits[..2][..1] == "1";
    assert DigitsValue("1") == 1;
    assert DigitsValue("12") == 12;
  }

  /** The malformed URIs the translation tests reject. */
  lemma RejectsMalformed(scheme: string, resource: string, letters: string, empty: string, short: string)
    requires scheme == "invalid://projects/123" && resource == "vikunja://invalid/123"
    requires letters == U.ProjectPrefix + "abc" && empty == U.ProjectPrefix
    requires short == "vikunja://projects"
    ensures FromMcpUri(scheme).Failure? && FromMcpUri(resource).Failure?
    ensures FromMcpUri(letters).Failure? && FromMcpUri(empty).Failure?
    ensures FromMcpUri(short).Failure?
  {
    SameParser(scheme);
    U.RejectsOtherScheme(scheme);
    SameParser(resource);
    U.RejectsOtherResource(resource);
    SameParser(letters);
    U.RejectsLetters(letters, "abc");
    SameParser(empty);
    U.RejectsEmptyId(empty);
    SameParser(short);
    U.RejectsMissingSlash(short);
  }
}
