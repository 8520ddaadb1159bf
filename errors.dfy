/** The error classes of the HTTP client (src/client/http/errors.ts).

    Every error carries a kind (its class), a message and a numeric code that
    cannot change after construction; in the model an error is an immutable
    value. The three client-side errors take an optional message with a
    default and a fixed code. The four errors built from an API error body
    replace a missing or empty message by a default and a missing code by the
    kind's default status; a code of 0 is kept. */
module HttpErrors {
  import opened Wrappers

  datatype ErrorKind =
    | Network
    | Timeout
    | InvalidResponse
    | Server
    | Validation
    | Auth
    | NotFound

  /** A `VikunjaError`: `name`, `message` and the read-only `code`. */
  datatype VikunjaError = VikunjaError(kind: ErrorKind, message: string, code: int)
  {
    /** `this.name`, the name of the class that built the error
        (errors.ts:9). */
    function Name(): (name: string)
      ensures |name| > 5 && name[|name| - 5..] == "Error"
    {
      match kind
      case Network => "NetworkError"
      case Timeout => "TimeoutError"
      case InvalidResponse => "InvalidResponseError"
      case Server => "ServerError"
      case Validation => "ValidationError"
      case Auth => "AuthError"
      case NotFound => "NotFoundError"
    }
  }

  /** The API's `HTTPError` body: both members may be missing. */
  datatype HttpError = HttpError(code: Option<int>, message: Option<string>)

  /** `message || fallback`: a missing or empty message gives way. */
  function MessageOr(message: Option<string>, fallback: string): (r: string)
    ensures message.Some? && message.value != "" ==> r == message.value
    ensures message.None? || message.value == "" ==> r == fallback
  {
    if message.Some? && message.value != "" then message.value else fallback
  }

  /** `code ?? fallback`: only a missing code gives way; 0 is kept. */
  function CodeOr(code: Option<int>, fallback: int): (r: int)
    ensures code.Some? ==> r == code.value
    ensures code.None? ==> r == fallback
  {
    if code.Some? then code.value else fallback
  }

  /** `new NetworkError(message?)` (errors.ts:28-32). A default parameter
      stands in only for a missing argument, so an empty message is kept. */
  function NewNetworkError(message: Option<string>): (e: VikunjaError)
    ensures e.kind == Network && e.code == 0
    ensures message.Some? ==> e.message == message.value
    ensures message.None? ==> e.message == "Network error occurred"
  {
    VikunjaError(Network, if message.Some? then message.value else "Network error occurred", 0)
  }

  /** `new TimeoutError(message?)` (errors.ts:38-42). */
  function NewTimeoutError(message: Option<string>): (e: VikunjaError)
    ensures e.kind == Timeout && e.code == 408
    ensures message.Some? ==> e.message == message.value
    ensures message.None? ==> e.message == "Request timeout"
  {
    VikunjaError(Timeout, if message.Some? then message.value else "Request timeout", 408)
  }

  /** `new InvalidResponseError(message?)` (errors.ts:48-52). */
  function NewInvalidResponseError(message: Option<string>): (e: VikunjaError)
    ensures e.kind == InvalidResponse && e.code == 400
    ensures message.Some? ==> e.message == message.value
    ensures message.None? ==> e.message == "Invalid response format"
  {
    VikunjaError(InvalidResponse, if message.Some? then message.value else "Invalid response format", 400)
  }

  /** The default message and code of each error built from a body. */
  function BodyDefaults(kind: ErrorKind): (string, int)
    requires kind in {Server, Validation, Auth, NotFound}
  {
    match kind
    case Server => ("Internal server error", 500)
    case Validation => ("Validation error", 400)
    case Auth => ("Authentication error", 403)
    case NotFound => ("Resource not found", 404)
  }

  /** `new ServerError(body)`, `new ValidationError(body)`,
      `new AuthError(body)` and `new NotFoundError(body)` (errors.ts:58-98):
      the body's message unless it is missing or empty, the body's code unless
      it is missing. `NotFoundError` keeps a code only when it is a number,
      which every present code is here. */
  function FromBody(kind: ErrorKind, body: HttpError): (e: VikunjaError)
    requires kind in {Server, Validation, Auth, NotFound}
    ensures e.kind == kind
    ensures e.message != ""
    ensures body.message.Some? && body.message.value != "" ==> e.message == body.message.value
    ensures body.message.None? || body.message.value == "" ==> e.message == BodyDefaults(kind).0
    ensures body.code.Some? ==> e.code == body.code.value
    ensures body.code.None? ==> e.code == BodyDefaults(kind).1
  {
    var (message, code) := BodyDefaults(kind);
    VikunjaError(kind, MessageOr(body.message, message), CodeOr(body.code, code))
  }

  /** Each class has its own name, so the name tells the kind. */
  lemma NameDeterminesKind(e1: VikunjaError, e2: VikunjaError)
    requires e1.Name() == e2.Name()
    ensures e1.kind == e2.kind
  {
  }

  /** `||` and `??` differ on the body `{code: 0, message: ""}`: the empty
      message gives way to the default, the zero code does not. */
  lemma ZeroCodeKeptEmptyMessageReplaced(kind: ErrorKind)
    requires kind in {Server, Validation, Auth, NotFound}
    ensures FromBody(kind, HttpError(Some(0), Some(""))) == VikunjaError(kind, BodyDefaults(kind).0, 0)
  {
  }
}
