/** `ValidationError` (src/validation/errors.ts): an error with a message,
    the name `ValidationError` and, optionally, the zod error it was made
    from; `fromZodError` writes one `path: message` entry per issue. */
module ValidationErrors {
  import opened Wrappers
  import opened Text
  import opened ZodIssues

  /** The zod error: its issues, in order. */
  datatype ZodError = ZodError(errors: seq<Issue>)

  datatype ValidationError = ValidationError(message: string, name: string, zodError: Option<ZodError>)

  const ErrorName: string := "ValidationError"
  const FailedPrefix: string := "Validation failed: "

  /** `new ValidationError(message, zodError)`. */
  function NewValidationError(message: string, zodError: Option<ZodError> := None): (e: ValidationError)
    ensures e.message == message && e.name == ErrorName && e.zodError == zodError
  {
    ValidationError(message, ErrorName, zodError)
  }

  /** `${err.path.join('.')}: ${err.message}`. */
  function Entry(issue: Issue): string
  {
    PathText(issue.path) + ": " + issue.message
  }

  function Entries(issues: seq<Issue>): (r: seq<string>)
    ensures |r| == |issues|
    ensures forall i :: 0 <= i < |issues| ==> r[i] == Entry(issues[i])
  {
    seq(|issues|, i requires 0 <= i < |issues| => Entry(issues[i]))
  }

  /** `ValidationError.fromZodError(zodError)`. */
  function FromZodError(zodError: ZodError): (e: ValidationError)
    ensures e.name == ErrorName && e.zodError == Some(zodError)
    ensures |e.message| >= |FailedPrefix| && e.message[..|FailedPrefix|] == FailedPrefix
  {
    var m := FailedPrefix + Join(Entries(zodError.errors), ", ");
    assert m[..|FailedPrefix|] == FailedPrefix;
    NewValidationError(m, Some(zodError))
  }

  /** The constructor without a zod error, as the tests build it. */
  lemma PlainError(message: string)
    ensures NewValidationError(message) == ValidationError(message, "ValidationError", None)
  {
  }

  /** Read at its commas, the message after the prefix holds exactly one
      entry per issue, in issue order; each entry after the first follows
      the space of its `, ` separator. This needs entries without commas of
      their own. */
  lemma OneEntryPerIssue(zodError: ZodError)
    requires |zodError.errors| >= 1
    requires forall i :: 0 <= i < |zodError.errors| ==> ',' !in Entry(zodError.errors[i])
    ensures var pieces := Split(FromZodError(zodError).message[|FailedPrefix|..], ',');
      && |pieces| == |zodError.errors|
      && pieces[0] == Entry(zodError.errors[0])
      && forall i :: 1 <= i < |pieces| ==> pieces[i] == " " + Entry(zodError.errors[i])
  {
    var entries := Entries(zodError.errors);
    var m := FromZodError(zodError).message;
    assert m[|FailedPrefix|..] == Join(entries, ", ");
    assert ", " == [','] + " ";
    SplitJoinPadded(entries, ',', " ");
  }

  /** A nested path is written dotted before the message. */
  lemma NestedEntry(outer: string, middle: string, inner: string, message: string)
    ensures Entry(Issue([Key(outer), Key(middle), Key(inner)], message))
      == outer + "." + middle + "." + inner + ": " + message
  {
    ThreeKeys(outer, middle, inner);
  }

  /** A path of three keys is written with a dot between each two. */
  lemma ThreeKeys(outer: string, middle: string, inner: string)
    ensures PathText([Key(outer), Key(middle), Key(inner)]) == outer + "." + middle + "." + inner
  {
    var texts := SegmentTexts([Key(outer), Key(middle), Key(inner)]);
    assert texts == [outer, middle, inner];
    assert texts[1..] == [middle, inner] && texts[1..][1..] == [inner];
    assert Join([inner], ".") == inner;
    assert Join([middle, inner], ".") == middle + "." + inner;
  }
}
