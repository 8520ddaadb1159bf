/** The project URIs of the MCP side (src/mcp/utils/uri.ts): the printer
    `toMcpUri`, the parser `fromMcpUri` that accepts exactly
    `vikunja://projects/` followed by ASCII digits, and `createUri` of
    src/mcp/uri.ts, the template expansion `vikunja://{resource}/{id}`. */
module McpUri {
  import opened Wrappers
  import opened Text

  const Scheme: string := "vikunja://"

  const ProjectPrefix: string := Scheme + "projects" + "/"

  const InvalidUriMessage: string := "Invalid MCP project URI format"

  /** `toMcpUri(id)`: the prefix, then the decimal form of the id, with a
      minus sign when it is negative. */
  function ToMcpUri(id: int): (u: string)
    ensures |u| > |ProjectPrefix| && u[..|ProjectPrefix|] == ProjectPrefix
    ensures u[|ProjectPrefix|..] == IntToString(id)
  {
    ProjectPrefix + IntToString(id)
  }

  /** What `/^vikunja:\/\/projects\/(\d+)$/` matches. */
  predicate IsProjectUri(uri: string)
  {
    |uri| > |ProjectPrefix| && uri[..|ProjectPrefix|] == ProjectPrefix
    && AllDigits(uri[|ProjectPrefix|..])
  }

  /** `fromMcpUri(uri)`: the value of the digits after the prefix, or the
      error it throws for every other string. */
  function FromMcpUri(uri: string): (r: Result<nat, string>)
    ensures r.Success? <==> IsProjectUri(uri)
    ensures r.Success? ==> r.value == DigitsValue(uri[|ProjectPrefix|..])
    ensures r.Failure? ==> r.error == InvalidUriMessage
  {
    if IsProjectUri(uri) then Success(DigitsValue(uri[|ProjectPrefix|..]))
    else Failure(InvalidUriMessage)
  }

  /** Every natural id survives the round trip. */
  lemma RoundTrip(n: nat)
    ensures FromMcpUri(ToMcpUri(n)) == Success(n)
  {
    DigitsValueOfNatToString(n);
  }

  /** Printing a parsed URI gives the URI back exactly when its digits have
      no leading zero; `vikunja://projects/007` parses as 7 and prints as
      `vikunja://projects/7`. */
  lemma PrintParsed(uri: string)
    requires FromMcpUri(uri).Success?
    ensures ToMcpUri(FromMcpUri(uri).value) == uri
        <==> (uri[|ProjectPrefix|] != '0' || |uri| == |ProjectPrefix| + 1)
  {
    var digits := uri[|ProjectPrefix|..];
    NatToStringOfDigitsValue(digits);
    TakeDrop(uri, |ProjectPrefix|);
    var v := FromMcpUri(uri).value;
    assert ToMcpUri(v) == uri <==> NatToString(v) == digits by {
      assert ToMcpUri(v)[|ProjectPrefix|..] == NatToString(v);
    }
    assert digits == "0" <==> (|uri| == |ProjectPrefix| + 1 && digits[0] == '0');
  }

  /** A negative id prints a URI the parser rejects: `-` is not a digit. */
  lemma NegativeRejected(n: int)
    requires n < 0
    ensures FromMcpUri(ToMcpUri(n)).Failure?
  {
    var digits := ToMcpUri(n)[|ProjectPrefix|..];
    assert digits[0] == '-';
  }

  /** Leading zeros are accepted. */
  lemma LeadingZeros(uri: string)
    requires uri == ProjectPrefix + "007"
    ensures FromMcpUri(uri) == Success(7)
  {
    var digits := uri[|ProjectPrefix|..];
    assert digits == "007";
    assert digits[..2] == "00" && digits[..2][..1] == "0";
    assert DigitsValue("0") == 0;
    assert DigitsValue("00") == 0;
    assert DigitsValue(digits) == 7;
  }

  /** The rejections that the tests of the project translation list, written
      by the part of the URI that is wrong. */
  lemma RejectsEmptyId(uri: string)
    requires uri == ProjectPrefix
    ensures FromMcpUri(uri) == Failure(InvalidUriMessage)
  {
  }

  lemma RejectsLetters(uri: string, id: string)
    requires uri == ProjectPrefix + id && id == "abc"
    ensures FromMcpUri(uri) == Failure(InvalidUriMessage)
  {
    assert uri[|ProjectPrefix|..] == id;
  }

  lemma RejectsOtherResource(uri: string)
    requires uri == "vikunja://invalid/123"
    ensures FromMcpUri(uri) == Failure(InvalidUriMessage)
  {
    RejectsOtherPrefix(uri);
  }

  lemma RejectsOtherScheme(uri: string)
    requires uri == "invalid://projects/123"
    ensures FromMcpUri(uri) == Failure(InvalidUriMessage)
  {
    assert uri[..|ProjectPrefix|][0] == 'i';
  }

  lemma RejectsMissingSlash(uri: string)
    requires uri == "vikunja://projects"
    ensures FromMcpUri(uri) == Failure(InvalidUriMessage)
  {
  }

  /** Anything whose eleventh character is not the `p` of `projects` is
      rejected. */
  lemma RejectsOtherPrefix(uri: string)
    requires |uri| > 10 && uri[10] != 'p'
    ensures FromMcpUri(uri) == Failure(InvalidUriMessage)
  {
    if |uri| > |ProjectPrefix| {
      assert uri[..|ProjectPrefix|][10] == uri[10];
    }
  }

  /** The resource kinds of `ResourceType`. */
  datatype ResourceType = Projects | Tasks {
    function Name(): (s: string)
      ensures s == "projects" || s == "tasks"
    {
      match this
      case Projects => "projects"
      case Tasks => "tasks"
    }
  }

  /** `createUri(resource, id)`: the expansion of `vikunja://{resource}/{id}`
      with `String(id)`. Resource names and decimal ids hold only unreserved
      characters, so simple string expansion (section 3.2.2 of RFC 6570)
      inserts them unchanged. */
  function CreateUri(resource: ResourceType, id: int): (u: string)
    ensures resource == Projects ==> u == ToMcpUri(id)
    ensures |u| > |Scheme| && (resource == Tasks ==> u[|Scheme|] == 't')
  {
    Scheme + resource.Name() + "/" + IntToString(id)
  }

  /** A task URI is not a project URI, so `fromMcpUri` rejects it. */
  lemma TaskUriRejected(id: int)
    ensures FromMcpUri(CreateUri(Tasks, id)) == Failure(InvalidUriMessage)
  {
    RejectsOtherPrefix(CreateUri(Tasks, id));
  }
}
