/** The response validators of src/validation/responses.ts: `userSchema`
    and `taskSchema` written as data for a small interpreter of the zod
    checks they use, and `validateTaskResponse` / `validateUserResponse`,
    which accept a value the schema admits and throw otherwise. The value
    is the JSON the server sent. Whether a string is an e-mail address or
    an ISO datetime (zod's `.email()` and `.datetime()`) is a parameter; the
    text of `ZodError.message` is a parameter too. */
module Responses {
  import opened Wrappers
  import opened Json

  /** The string formats zod checks here. */
  datatype Format = Plain | Email | Datetime

  /** The format checks zod performs, as predicates. */
  datatype Formats = Formats(isEmail: string -> bool, isDatetime: string -> bool)

  /** The zod schemas the two response schemas are built from. */
  datatype Schema =
    | NumberOf(positive: bool)
    | StringOf(minLength: nat, format: Format)
    | BooleanOf
    | ObjectOf(fields: Fields)

  /** One key of a `z.object`, with whether it is `.optional()`. */
  datatype Field = Field(key: string, schema: Schema, optional: bool)

  /** The keys of a `z.object`, in declaration order. */
  datatype Fields = End | Then(first: Field, rest: Fields)

  predicate Matches(format: Format, s: string, formats: Formats)
  {
    match format
    case Plain => true
    case Email => formats.isEmail(s)
    case Datetime => formats.isDatetime(s)
  }

  /** Whether zod's `safeParse` succeeds: the value has the schema's type
      and passes its checks, and an object has every required key and a
      valid value under every key it has. Keys the schema does not name are
      ignored. */
  predicate Conforms(schema: Schema, value: Json, formats: Formats)
    decreases schema
  {
    match schema
    case NumberOf(positive) => value.Number? && (positive ==> value.n > 0)
    case StringOf(minLength, format) => value.Str? && |value.s| >= minLength && Matches(format, value.s, formats)
    case BooleanOf => value.Bool?
    case ObjectOf(fields) => value.Object? && FieldsConform(fields, value, formats)
  }

  predicate FieldsConform(fields: Fields, value: Json, formats: Formats)
    decreases fields
  {
    match fields
    case End => true
    case Then(f, rest) => FieldConforms(f, value, formats) && FieldsConform(rest, value, formats)
  }

  /** One key of an object schema: absent and optional, or present with a
      value its schema admits. */
  predicate FieldConforms(field: Field, value: Json, formats: Formats)
    decreases field
  {
    match Member(value, field.key)
    case None => field.optional
    case Some(v) => Conforms(field.schema, v, formats)
  }

  function Required(key: string, schema: Schema): Field
  {
    Field(key, schema, false)
  }

  function Optional(key: string, schema: Schema): Field
  {
    Field(key, schema, true)
  }

  const Positive: Schema := NumberOf(true)
  const AnyNumber: Schema := NumberOf(false)
  const AnyString: Schema := StringOf(0, Plain)
  const NonEmpty: Schema := StringOf(1, Plain)
  const Timestamp: Schema := StringOf(0, Datetime)

  /** `userSchema` (responses.ts:5-12). */
  const UserSchema: Schema := ObjectOf(
    Then(Required("id", Positive),
    Then(Required("username", NonEmpty),
    Then(Required("email", StringOf(0, Email)),
    Then(Optional("name", AnyString),
    Then(Required("created", Timestamp),
    Then(Required("updated", Timestamp),
    End)))))))

  /** `taskSchema` (responses.ts:15-34). */
  const TaskSchema: Schema := ObjectOf(Append(TaskCoreFields, TaskExtraFields))

  /** The keys of `taskSchema` up to `project_id`. */
  const TaskCoreFields: Fields :=
    Then(Required("id", Positive),
    Then(Required("title", NonEmpty),
    Then(Optional("description", AnyString),
    Then(Required("done", BooleanOf),
    Then(Optional("done_at", Timestamp),
    Then(Optional("due_date", Timestamp),
    Then(Required("created", Timestamp),
    Then(Required("updated", Timestamp),
    Then(Required("created_by", UserSchema),
    Then(Required("project_id", Positive),
    End))))))))))

  /** The keys under the schema's "Optional fields" comment. */
  const TaskExtraFields: Fields :=
    Then(Optional("start_date", Timestamp),
    Then(Optional("end_date", Timestamp),
    Then(Optional("repeat_after", AnyNumber),
    Then(Optional("priority", AnyNumber),
    Then(Optional("hex_color", AnyString),
    Then(Optional("position", AnyNumber),
    Then(Optional("bucket_id", Positive),
    End)))))))

  function Append(a: Fields, b: Fields): Fields
  {
    match a
    case End => b
    case Then(f, rest) => Then(f, Append(rest, b))
  }

  const TaskPrefix: string := "Invalid task response: "
  const UserPrefix: string := "Invalid user response: "

  /** `validateTaskResponse(task)`: returns, or throws with the prefix and
      zod's message. */
  function ValidateTaskResponse(task: Json, formats: Formats, zodMessage: string): (r: Result<(), string>)
    ensures r.Success? <==> Conforms(TaskSchema, task, formats)
    ensures r.Failure? ==> r.error == TaskPrefix + zodMessage
  {
    if Conforms(TaskSchema, task, formats) then Success(()) else Failure(TaskPrefix + zodMessage)
  }

  /** `validateUserResponse(user)`. */
  function ValidateUserResponse(user: Json, formats: Formats, zodMessage: string): (r: Result<(), string>)
    ensures r.Success? <==> Conforms(UserSchema, user, formats)
    ensures r.Failure? ==> r.error == UserPrefix + zodMessage
  {
    if Conforms(UserSchema, user, formats) then Success(()) else Failure(UserPrefix + zodMessage)
  }

  /** The properties of one member, read off directly. */
  predicate PositiveNumber(m: Option<Json>)
  {
    m.Some? && m.value.Number? && m.value.n > 0
  }

  predicate NonEmptyString(m: Option<Json>)
  {
    m.Some? && m.value.Str? && m.value.s != ""
  }

  predicate FormattedString(m: Option<Json>, check: string -> bool)
  {
    m.Some? && m.value.Str? && check(m.value.s)
  }

  predicate AbsentOrString(m: Option<Json>)
  {
    m.None? || m.value.Str?
  }

  predicate AbsentOrNumber(m: Option<Json>)
  {
    m.None? || m.value.Number?
  }

  predicate AbsentOrDatetime(m: Option<Json>, formats: Formats)
  {
    m.None? || FormattedString(m, formats.isDatetime)
  }

  /** A user as the rules list it. */
  predicate UserRules(user: Json, formats: Formats)
  {
    && user.Object?
    && PositiveNumber(Member(user, "id"))
    && NonEmptyString(Member(user, "username"))
    && FormattedString(Member(user, "email"), formats.isEmail)
    && AbsentOrString(Member(user, "name"))
    && FormattedString(Member(user, "created"), formats.isDatetime)
    && FormattedString(Member(user, "updated"), formats.isDatetime)
  }

  /** The required part of a task. */
  predicate TaskRequired(task: Json, formats: Formats)
  {
    && task.Object?
    && PositiveNumber(Member(task, "id"))
    && NonEmptyString(Member(task, "title"))
    && Member(task, "done").Some? && Member(task, "done").value.Bool?
    && FormattedString(Member(task, "created"), formats.isDatetime)
    && FormattedString(Member(task, "updated"), formats.isDatetime)
    && Member(task, "created_by").Some? && UserRules(Member(task, "created_by").value, formats)
    && PositiveNumber(Member(task, "project_id"))
  }

  /** The optional part of a task: each field either absent or valid. */
  predicate TaskOptional(task: Json, formats: Formats)
  {
    && AbsentOrString(Member(task, "description"))
    && AbsentOrDatetime(Member(task, "done_at"), formats)
    && AbsentOrDatetime(Member(task, "due_date"), formats)
    && AbsentOrDatetime(Member(task, "start_date"), formats)
    && AbsentOrDatetime(Member(task, "end_date"), formats)
    && AbsentOrNumber(Member(task, "repeat_after"))
    && AbsentOrNumber(Member(task, "priority"))
    && AbsentOrString(Member(task, "hex_color"))
    && AbsentOrNumber(Member(task, "position"))
    && (Member(task, "bucket_id").None? || PositiveNumber(Member(task, "bucket_id")))
  }

  /** `userSchema` admits exactly the users the rules describe. */
  lemma {:induction false} UserSchemaRules(user: Json, formats: Formats)
    ensures Conforms(UserSchema, user, formats) <==> UserRules(user, formats)
  {
  }

  /** The keys of two lists together conform exactly when each list's
      keys do. */
  lemma {:induction false} AppendConforms(a: Fields, b: Fields, value: Json, formats: Formats)
    ensures FieldsConform(Append(a, b), value, formats) <==> FieldsConform(a, value, formats) && FieldsConform(b, value, formats)
  {
    if a.Then? {
      AppendConforms(a.rest, b, value, formats);
    }
  }

  /** The first group of task keys, read off as rules. */
  lemma {:induction false} TaskCoreRules(task: Json, formats: Formats)
    ensures FieldsConform(TaskCoreFields, task, formats)
      <==> (&& PositiveNumber(Member(task, "id"))
            && NonEmptyString(Member(task, "title"))
            && AbsentOrString(Member(task, "description"))
            && Member(task, "done").Some? && Member(task, "done").value.Bool?
            && AbsentOrDatetime(Member(task, "done_at"), formats)
            && AbsentOrDatetime(Member(task, "due_date"), formats)
            && FormattedString(Member(task, "created"), formats.isDatetime)
            && FormattedString(Member(task, "updated"), formats.isDatetime)
            && Member(task, "created_by").Some? && Conforms(UserSchema, Member(task, "created_by").value, formats)
            && PositiveNumber(Member(task, "project_id")))
  {
    var fs := TaskCoreFields;
    FieldsStep(fs, task, formats);
    FieldsStep(fs.rest, task, formats);
    FieldsStep(fs.rest.rest, task, formats);
    FieldsStep(fs.rest.rest.rest, task, formats);
    FieldsStep(fs.rest.rest.rest.rest, task, formats);
    var half := fs.rest.rest.rest.rest.rest;
    FieldsStep(half, task, formats);
    FieldsStep(half.rest, task, formats);
    FieldsStep(half.rest.rest, task, formats);
    FieldsStep(half.rest.rest.rest, task, formats);
    FieldsStep(half.rest.rest.rest.rest, task, formats);
  }

  /** A list of keys conforms exactly when its first key and the rest do. */
  lemma FieldsStep(fields: Fields, value: Json, formats: Formats)
    requires fields.Then?
    ensures FieldsConform(fields, value, formats)
      <==> FieldConforms(fields.first, value, formats) && FieldsConform(fields.rest, value, formats)
  {
  }

  /** A required key conforms exactly when it is present with a value its
      schema admits. */
  lemma RequiredField(key: string, schema: Schema, value: Json, formats: Formats)
    ensures FieldConforms(Required(key, schema), value, formats)
      <==> Member(value, key).Some? && Conforms(schema, Member(value, key).value, formats)
  {
  }

  /** The keys after the "Optional fields" comment, read off as rules. */
  lemma {:induction false} TaskExtraRules(task: Json, formats: Formats)
    ensures FieldsConform(TaskExtraFields, task, formats)
      <==> (&& AbsentOrDatetime(Member(task, "start_date"), formats)
            && AbsentOrDatetime(Member(task, "end_date"), formats)
            && AbsentOrNumber(Member(task, "repeat_after"))
            && AbsentOrNumber(Member(task, "priority"))
            && AbsentOrString(Member(task, "hex_color"))
            && AbsentOrNumber(Member(task, "position"))
            && (Member(task, "bucket_id").None? || PositiveNumber(Member(task, "bucket_id"))))
  {
  }

  /** `taskSchema` admits exactly the tasks with the required fields and
      valid optional ones. */
  lemma TaskSchemaRules(task: Json, formats: Formats)
    ensures Conforms(TaskSchema, task, formats) <==> TaskRequired(task, formats) && TaskOptional(task, formats)
  {
    AppendConforms(TaskCoreFields, TaskExtraFields, task, formats);
    TaskCoreRules(task, formats);
    TaskExtraRules(task, formats);
    if Member(task, "created_by").Some? {
      UserSchemaRules(Member(task, "created_by").value, formats);
    }
  }

  /** The invalid optional values of the schema tests: a `bucket_id` of 0
      or a `start_date` that is not a datetime makes the validator throw. */
  lemma InvalidOptionalRejected(task: Json, formats: Formats, zodMessage: string)
    requires Member(task, "bucket_id") == Some(Number(0))
      || (Member(task, "start_date").Some? && Member(task, "start_date").value.Str?
          && !formats.isDatetime(Member(task, "start_date").value.s))
    ensures ValidateTaskResponse(task, formats, zodMessage) == Failure(TaskPrefix + zodMessage)
  {
    TaskSchemaRules(task, formats);
  }

  /** A task without `title` or without `created_by` makes the validator
      throw. */
  lemma MissingRequiredRejected(task: Json, formats: Formats, zodMessage: string)
    requires Member(task, "title").None? || Member(task, "created_by").None?
    ensures ValidateTaskResponse(task, formats, zodMessage) == Failure(TaskPrefix + zodMessage)
  {
    TaskSchemaRules(task, formats);
  }

  /** A user whose `name` is present but not a string is rejected, while
      one without `name` is judged by the other rules alone. */
  lemma UserName(user: Json, formats: Formats, zodMessage: string)
    ensures Member(user, "name").Some? && !Member(user, "name").value.Str?
      ==> ValidateUserResponse(user, formats, zodMessage).Failure?
    ensures Member(user, "name").None? && user.Object?
      ==> (ValidateUserResponse(user, formats, zodMessage).Success?
           <==> PositiveNumber(Member(user, "id")) && NonEmptyString(Member(user, "username"))
                && FormattedString(Member(user, "email"), formats.isEmail)
                && FormattedString(Member(user, "created"), formats.isDatetime)
                && FormattedString(Member(user, "updated"), formats.isDatetime))
  {
    UserSchemaRules(user, formats);
  }
}
