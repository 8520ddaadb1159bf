/** The HTTP client (src/client/http/client.ts).

    The client holds the API base URL, with one trailing "/" removed, and
    the token. A request resolves its path, with one leading "/" removed,
    against the base URL, sends the token as a bearer credential with a JSON
    content type and the JSON body when there is data to send, and turns
    what comes back into a value, "no content" or a `VikunjaError`.

    `fetch` is not modelled: what the network did with the request is a
    parameter, an `Exchange`. Every failure of a request ends as a
    `VikunjaError`, except a base URL that is not absolute: the `URL`
    constructor throws before the request's `try` block is entered, and
    that `TypeError` reaches the caller as it is. */
module HttpClient {
  import opened Wrappers
  import opened Text
  import opened Json
  import opened HttpErrors
  import opened ConfigTypes
  import Url

  datatype Method = GET | PUT | POST | DELETE

  /** The request `fetch` is given: the verb, the URL, the headers in
      order and the value whose JSON text is the body, if any. */
  datatype FetchRequest = FetchRequest(
    verb: Method,
    url: string,
    headers: seq<(string, string)>,
    body: Option<Json>)

  /** A value thrown while the request was under way, as the `catch` block
      tells them apart: a `TypeError`, another `Error`, or anything else. */
  datatype Thrown =
    | TypeErrorThrown(message: string)
    | ErrorThrown(message: string)
    | OtherThrown

  /** A response body, as `response.json()` reads it. */
  datatype Body = Unparseable | Parsed(json: Json)

  /** What the network did with a request: `fetch` rejected, or a response
      arrived. */
  datatype Exchange =
    | FetchRejected(thrown: Thrown)
    | Response(status: int, statusText: string, body: Body)

  /** How a request ended: the parsed JSON, no content (204), a rejection
      with a `VikunjaError`, or the `TypeError` of an invalid URL. */
  datatype Outcome =
    | Returned(value: Json)
    | NoContent
    | Rejected(error: VikunjaError)
    | InvalidUrl

  /** `apiUrl.replace(/\/$/, '')` (client.ts:23): one "/" at the very end is
      removed. */
  function StripTrailingSlash(apiUrl: string): (r: string)
    ensures apiUrl != [] && apiUrl[|apiUrl| - 1] == '/' ==> r + "/" == apiUrl
    ensures apiUrl == [] || apiUrl[|apiUrl| - 1] != '/' ==> r == apiUrl
  {
    if apiUrl != [] && apiUrl[|apiUrl| - 1] == '/' then apiUrl[..|apiUrl| - 1] else apiUrl
  }

  /** `path.startsWith('/') ? path.substring(1) : path` (client.ts:59). */
  function RelativePath(path: string): (r: string)
    ensures path != [] && path[0] == '/' ==> "/" + r == path
    ensures path == [] || path[0] != '/' ==> r == path
  {
    if path != [] && path[0] == '/' then path[1..] else path
  }

  /** `new URL(relativePath, baseUrl).toString()`, or `None` where the
      constructor throws (client.ts:59). In the model only the base can
      make it throw: one that is not absolute, has no host or whose path is
      opaque; the scheme and port checks of `new URL` are not modelled. */
  function TargetUrl(baseUrl: string, path: string): (r: Option<string>)
    ensures r.None? ==> Url.Parse(baseUrl).scheme.None? || Url.HasEmptyHost(Url.Parse(baseUrl))
                        || Url.HasOpaquePath(Url.Parse(baseUrl))
    ensures Url.Parse(baseUrl).scheme.None? ==> r.None?
  {
    Url.NewUrl(RelativePath(path), baseUrl)
  }

  /** The request handed to `fetch` (client.ts:62-69), or `None` when the
      URL is invalid and nothing is sent. */
  function Outbound(baseUrl: string, token: string, verb: Method, path: string, data: Option<Json>): (r: Option<FetchRequest>)
    ensures r.None? <==> TargetUrl(baseUrl, path).None?
    ensures r.Some? ==> r.value.verb == verb && r.value.url == TargetUrl(baseUrl, path).value
    ensures r.Some? ==> r.value.headers == [("Authorization", "Bearer " + token), ("Content-Type", "application/json")]
    ensures r.Some? ==> (r.value.body.Some? <==> Truthy(data))
    ensures r.Some? && Truthy(data) ==> r.value.body == data
  {
    match TargetUrl(baseUrl, path)
    case None => None
    case Some(url) =>
      Some(FetchRequest(
        verb, url,
        [("Authorization", "Bearer " + token), ("Content-Type", "application/json")],
        if Truthy(data) then data else None))
  }

  /** An error body read as an `HTTPError`: its `code` when that is a
      number and its `message` when that is a string. */
  function ErrorBody(json: Json): (e: HttpError)
    ensures e.code.Some? <==> Member(json, "code").Some? && Member(json, "code").value.Number?
    ensures e.code.Some? ==> Member(json, "code") == Some(Number(e.code.value))
    ensures e.message.Some? <==> Member(json, "message").Some? && Member(json, "message").value.Str?
    ensures e.message.Some? ==> Member(json, "message") == Some(Str(e.message.value))
  {
    HttpError(
      match Member(json, "code") case Some(Number(n)) => Some(n) case _ => None,
      match Member(json, "message") case Some(Str(s)) => Some(s) case _ => None)
  }

  /** The error body `handleErrorResponse` works with (client.ts:108-118):
      the parsed body, or the status and status text when the body does
      not parse. */
  function ReadErrorBody(status: int, statusText: string, body: Body): (e: HttpError)
    ensures body.Parsed? ==> e == ErrorBody(body.json)
    ensures body.Unparseable? ==> e.code == Some(status)
    ensures body.Unparseable? ==> e.message.Some? && e.message.value != ""
    ensures body.Unparseable? && statusText != "" ==> e.message == Some(statusText)
  {
    match body
    case Parsed(json) => ErrorBody(json)
    case Unparseable => HttpError(Some(status), Some(if statusText != "" then statusText else "Unknown error"))
  }

  /** The class the status switch of `handleErrorResponse` picks for a
      status other than 408 (client.ts:120-134). */
  function StatusKind(status: int): (k: ErrorKind)
    ensures k in {Server, Validation, Auth, NotFound}
    ensures k == Validation <==> status == 400
    ensures k == Auth <==> status == 401 || status == 403
    ensures k == NotFound <==> status == 404
  {
    if status == 400 then Validation
    else if status == 401 || status == 403 then Auth
    else if status == 404 then NotFound
    else Server
  }

  /** `String(value)` of a JSON value that is not an array or object. */
  function PrimitiveText(value: Json): (t: string)
    requires !value.Array? && !value.Object?
  {
    match value
    case Null => "null"
    case Bool(b) => if b then "true" else "false"
    case Number(n) => IntToString(n)
    case Str(s) => s
  }

  /** The `TypeError` that the constructor of `kind` throws on a parsed
      body it cannot read, in the wording of V8, or `None`. The cast
      `json as HTTPError` (client.ts:112) checks nothing. `ServerError`,
      `ValidationError` and `AuthError` read `error.message` first, which
      throws on `null` only (errors.ts:60,70,80); `NotFoundError` first
      evaluates `'code' in error`, which throws on every value that is not
      an object or array (errors.ts:91). */
  function BodyFault(kind: ErrorKind, json: Json): (fault: Option<string>)
    requires kind in {Server, Validation, Auth, NotFound}
    ensures fault.Some? <==> json.Null? || (kind == NotFound && !json.Array? && !json.Object?)
    ensures fault.Some? ==> fault.value != ""
  {
    if kind == NotFound && !json.Array? && !json.Object? then
      Some("Cannot use 'in' operator to search for 'code' in " + PrimitiveText(json))
    else if json.Null? then Some("Cannot read properties of null (reading 'message')")
    else None
  }

  /** The body can be read by the constructor the status picks: it did not
      parse (and was replaced), or it is a value the constructor does not
      throw on. */
  predicate Readable(status: int, body: Body)
  {
    body.Unparseable? || BodyFault(StatusKind(status), body.json).None?
  }

  /** `handleErrorResponse` (client.ts:107-135): the class of the error is
      chosen by the status alone; 408 ignores the body; every other status
      builds its error from the body. A body the constructor cannot read
      makes it throw a `TypeError`, which the `catch` of `request` turns
      into a `ServerError` with code 500 (client.ts:86-100). */
  function ErrorFor(status: int, statusText: string, body: Body): (e: VikunjaError)
    ensures e.kind == Timeout <==> status == 408
    ensures status == 408 ==> e == NewTimeoutError(None)
    ensures status != 408 && Readable(status, body) ==>
              e == FromBody(StatusKind(status), ReadErrorBody(status, statusText, body))
    ensures status != 408 && !Readable(status, body) ==>
              e == VikunjaError(Server, BodyFault(StatusKind(status), body.json).value, 500)
    ensures status != 408 && body.Unparseable? ==> e.code == status
    ensures status != 408 && body.Unparseable? && statusText != "" ==> e.message == statusText
    ensures status != 408 && body.Unparseable? && statusText == "" ==> e.message == "Unknown error"
  {
    var error := ReadErrorBody(status, statusText, body);
    if status == 408 then NewTimeoutError(None)
    else if !Readable(status, body) then Catch(TypeErrorThrown(BodyFault(StatusKind(status), body.json).value))
    else FromBody(StatusKind(status), error)
  }

  /** The `catch` block for a value that is not a `VikunjaError`
      (client.ts:91-100). */
  function Catch(thrown: Thrown): (e: VikunjaError)
    ensures thrown == TypeErrorThrown("Failed to fetch") ==> e == NewNetworkError(None)
    ensures thrown != TypeErrorThrown("Failed to fetch") ==> e.kind == Server && e.code == 500
    ensures thrown.OtherThrown? ==> e.message == "Unknown error"
    ensures !thrown.OtherThrown? && thrown != TypeErrorThrown("Failed to fetch") ==>
              e.message == MessageOr(Some(thrown.message), "Internal server error")
  {
    if thrown == TypeErrorThrown("Failed to fetch") then NewNetworkError(None)
    else FromBody(Server, HttpError(Some(500), Some(if thrown.OtherThrown? then "Unknown error" else thrown.message)))
  }

  /** `response.ok`. */
  predicate Ok(status: int)
  {
    200 <= status <= 299
  }

  /** What the request makes of the exchange (client.ts:61-101). */
  function Settle(exchange: Exchange): (r: Outcome)
    ensures !r.InvalidUrl?
    ensures exchange.FetchRejected? ==> r == Rejected(Catch(exchange.thrown))
    ensures exchange.Response? && !Ok(exchange.status) ==>
              r == Rejected(ErrorFor(exchange.status, exchange.statusText, exchange.body))
    ensures exchange.Response? && Ok(exchange.status) ==>
              (r.NoContent? <==> exchange.status == 204)
    ensures exchange.Response? && Ok(exchange.status) && exchange.status != 204 ==>
              r == (if exchange.body.Parsed? then Returned(exchange.body.json)
                    else Rejected(NewInvalidResponseError(Some("Invalid JSON response"))))
  {
    match exchange
    case FetchRejected(thrown) => Rejected(Catch(thrown))
    case Response(status, statusText, body) =>
      if !Ok(status) then Rejected(ErrorFor(status, statusText, body))
      else if status == 204 then NoContent
      else if body.Unparseable? then Rejected(NewInvalidResponseError(Some("Invalid JSON response")))
      else Returned(body.json)
  }

  /** `request(method, path, data)` (client.ts:58-102), given what the
      network did with the request `Outbound` describes. */
  function Request(baseUrl: string, token: string, verb: Method, path: string, data: Option<Json>, exchange: Exchange): (r: Outcome)
    ensures r == InvalidUrl <==> Outbound(baseUrl, token, verb, path, data).None?
    ensures r != InvalidUrl ==> r == Settle(exchange)
  {
    if TargetUrl(baseUrl, path).None? then InvalidUrl else Settle(exchange)
  }

  /** `await this.request(...)` in `delete`: the value is dropped. */
  function Discard(r: Outcome): (d: Outcome)
    ensures !d.Returned?
    ensures r.Returned? ==> d == NoContent
    ensures !r.Returned? ==> d == r
  {
    if r.Returned? then NoContent else r
  }

  /** `VikunjaHttpClient`: the base URL and the token are fixed at
      construction. */
  class VikunjaHttpClient {
    const baseUrl: string
    const token: string

    /** client.ts:22-25. */
    constructor (config: VikunjaConfig)
      ensures baseUrl == StripTrailingSlash(config.apiUrl)
      ensures token == config.token
    {
      baseUrl := StripTrailingSlash(config.apiUrl);
      token := config.token;
    }

    /** `get(path)` (client.ts:30-32). */
    method Get(path: string, exchange: Exchange) returns (r: Outcome)
      ensures r == Request(baseUrl, token, GET, path, None, exchange)
      ensures r.Returned? ==> exchange.Response? && Ok(exchange.status) && exchange.body.Parsed?
    {
      r := Request(baseUrl, token, GET, path, None, exchange);
    }

    /** `put(path, data)` (client.ts:37-39). */
    method Put(path: string, data: Option<Json>, exchange: Exchange) returns (r: Outcome)
      ensures r == Request(baseUrl, token, PUT, path, data, exchange)
    {
      r := Request(baseUrl, token, PUT, path, data, exchange);
    }

    /** `post(path, data)` (client.ts:44-46). */
    method Post(path: string, data: Option<Json>, exchange: Exchange) returns (r: Outcome)
      ensures r == Request(baseUrl, token, POST, path, data, exchange)
    {
      r := Request(baseUrl, token, POST, path, data, exchange);
    }

    /** `delete(path)` (client.ts:51-53): never yields a value. */
    method Delete(path: string, exchange: Exchange) returns (r: Outcome)
      ensures r == Discard(Request(baseUrl, token, DELETE, path, None, exchange))
      ensures !r.Returned?
    {
      var outcome := Request(baseUrl, token, DELETE, path, None, exchange);
      r := Discard(outcome);
    }
  }

  // ---------------------------------------------------------------------
  // Properties
  // ---------------------------------------------------------------------

  /** For every body the error constructors can read, the class of an API
      error depends on the status alone, never on the body: a Vikunja code
      in the body does not change it. */
  lemma KindFollowsStatus(status: int, text1: string, body1: Body, text2: string, body2: Body)
    requires Readable(status, body1) && Readable(status, body2)
    ensures ErrorFor(status, text1, body1).kind == ErrorFor(status, text2, body2).kind
    ensures var k := ErrorFor(status, text1, body1).kind;
      && (k == Validation <==> status == 400)
      && (k == Auth <==> status == 401 || status == 403)
      && (k == NotFound <==> status == 404)
      && (k == Timeout <==> status == 408)
      && (k == Server <==> status !in {400, 401, 403, 404, 408})
  {
  }

  /** A `null` error body makes every constructor but the 408 one throw,
      and a number body makes `NotFoundError` throw: both end as a
      `ServerError` with code 500, so on a 404 the class does depend on the
      body. */
  lemma UnreadableBodyIsServerError(status: int, statusText: string)
    requires status != 408
    ensures ErrorFor(status, statusText, Parsed(Null)).kind == Server
    ensures ErrorFor(status, statusText, Parsed(Null)).code == 500
    ensures status != 404 ==>
              ErrorFor(status, statusText, Parsed(Null)).message == "Cannot read properties of null (reading 'message')"
    ensures ErrorFor(404, statusText, Parsed(Number(7))).kind == Server
    ensures ErrorFor(404, statusText, Parsed(Object([]))).kind == NotFound
  {
  }

  /** A 404 with a Vikunja error body keeps the Vikunja code and message
      (error-handling tests, code 3001). */
  lemma NotFoundKeepsVikunjaCode(code: int, message: string, statusText: string)
    requires message != ""
    ensures ErrorFor(404, statusText, Parsed(Object([("code", Number(code)), ("message", Str(message))])))
         == VikunjaError(NotFound, message, code)
  {
    var members := [("code", Number(code)), ("message", Str(message))];
    assert Lookup(members, "message") == Some(Str(message));
    assert members[..1] == [("code", Number(code))];
    assert Lookup(members, "code") == Some(Number(code));
  }

  /** An error body in another format gives the class's defaults: a 404
      whose body has neither member is "Resource not found" with code 404. */
  lemma ForeignBodyGivesDefaults(status: int, statusText: string, json: Json)
    requires status !in {408}
    requires json.Object? || json.Array?
    requires Member(json, "code").None? && Member(json, "message").None?
    ensures var e := ErrorFor(status, statusText, Parsed(json));
            e.message == BodyDefaults(e.kind).0 && e.code == BodyDefaults(e.kind).1
    ensures status == 404 ==> ErrorFor(status, statusText, Parsed(json)) == VikunjaError(NotFound, "Resource not found", 404)
  {
  }

  /** A 401 whose body parses but carries no code is reported with the
      `AuthError` default 403, not with the status 401. */
  lemma UnauthorizedWithoutCodeReports403(statusText: string, json: Json)
    requires !json.Null? && Member(json, "code").None?
    ensures ErrorFor(401, statusText, Parsed(json)).code == 403
  {
  }

  /** A body that does not parse leaves the status as the code: a 500 with a
      text body is a `ServerError` with code 500. */
  lemma UnparseableBodyKeepsStatus(status: int, statusText: string)
    requires status != 408
    ensures ErrorFor(status, statusText, Unparseable).code == status
    ensures status == 500 ==> ErrorFor(status, statusText, Unparseable).kind == Server
  {
  }

  /** A network failure as the browser reports it is a `NetworkError`; the
      message Node's `fetch` uses, "fetch failed", is not recognised and
      ends as a `ServerError` with code 500. */
  lemma OnlyFailedToFetchIsNetworkError()
    ensures Catch(TypeErrorThrown("Failed to fetch")) == VikunjaError(Network, "Network error occurred", 0)
    ensures Catch(TypeErrorThrown("fetch failed")) == VikunjaError(Server, "fetch failed", 500)
  {
  }

  /** Only a 2xx response other than 204 yields a value, and only when its
      body parses; a 2xx body that does not parse is an
      `InvalidResponseError` with code 400. */
  lemma ValueOnlyFromParsedSuccess(exchange: Exchange)
    ensures Settle(exchange).Returned? <==>
              exchange.Response? && Ok(exchange.status) && exchange.status != 204 && exchange.body.Parsed?
    ensures exchange.Response? && Ok(exchange.status) && exchange.status != 204 && exchange.body.Unparseable? ==>
              Settle(exchange) == Rejected(VikunjaError(InvalidResponse, "Invalid JSON response", 400))
  {
  }

  /** Every rejection carries a non-empty message. */
  lemma RejectionsHaveMessages(exchange: Exchange)
    requires Settle(exchange).Rejected?
    ensures Settle(exchange).error.message != ""
  {
  }

  /** A base URL `scheme://authority/p1/.../pn` keeps only `/p1/.../` of its
      path: a request path is resolved against the directory of the base,
      so the last segment of the base path (the "v1" of ".../api/v1", or
      of ".../api/v1/" once its trailing slash is removed) is replaced. */
  lemma RequestUrlReplacesLastSegment(scheme: string, authority: string, basePath: string, ref: string)
    requires Url.IsWebBase(scheme, authority, basePath)
    requires basePath == "" || basePath[0] == '/'
    requires Url.NoDotSegments(basePath)
    requires Url.IsPlainRelativePath(ref) && Url.IsWebPath(ref)
    ensures TargetUrl(scheme + "://" + authority + basePath, "/" + ref)
         == Some(scheme + "://" + authority + Url.MergeDirectory(basePath) + ref)
    ensures TargetUrl(scheme + "://" + authority + basePath, ref)
         == TargetUrl(scheme + "://" + authority + basePath, "/" + ref)
  {
    assert RelativePath("/" + ref) == ref;
    Url.ResolvePlainRelative(scheme, authority, basePath, ref);
  }

  /** A base URL written without "http://" is read with the host name as
      its scheme and an opaque path: every request fails with the
      `TypeError` of an invalid URL, before anything is sent. */
  lemma BaseWithoutSchemeSeparatorIsInvalid(baseUrl: string, path: string, token: string, exchange: Exchange)
    requires baseUrl == "localhost" + ":" + "3456/api/v1" && path == "/tasks/1"
    ensures TargetUrl(baseUrl, path).None?
    ensures Request(baseUrl, token, GET, path, None, exchange) == InvalidUrl
  {
    assert RelativePath(path) == "tasks/1";
    Url.FindUnique("tasks/1", {'/'}, 5);
    assert Url.Avoids("localhost", Url.SchemeEnd);
    Url.OpaqueBaseRejects("localhost", "3456/api/v1", "tasks/1");
  }
}
