/** `TaskImpl` (src/client/resource/task.ts): a task object that wraps the
    raw task record the API returns, checks four required members when it
    is built, fills defaults in its getters and replaces its record on
    update. Every member of the raw record may be missing, so each is an
    `Option`; the elements of its arrays may be `null` as well. The HTTP
    exchanges themselves are the client's; here only the request each
    operation sends is modelled. */
module TaskResource {
  import opened Wrappers
  import opened Text
  import HttpClient

  /** `user.User` as the API sends it. */
  datatype ApiUser = ApiUser(
    id: Option<int>,
    username: Option<string>,
    email: Option<string>,
    name: Option<string>,
    created: Option<string>,
    updated: Option<string>)

  /** `files.File` as the API sends it. */
  datatype ApiFile = ApiFile(
    id: Option<int>,
    name: Option<string>,
    mime: Option<string>,
    size: Option<int>,
    created: Option<string>)

  /** `models.TaskAttachment` as the API sends it. */
  datatype ApiAttachment = ApiAttachment(
    id: Option<int>,
    taskId: Option<int>,
    created: Option<string>,
    file: Option<ApiFile>,
    createdBy: Option<ApiUser>)

  /** `models.Label` as the API sends it. */
  datatype ApiLabel = ApiLabel(
    id: Option<int>,
    title: Option<string>,
    description: Option<string>,
    hexColor: Option<string>,
    created: Option<string>,
    updated: Option<string>,
    createdBy: Option<ApiUser>)

  /** `models.TaskReminder` as the API sends it. */
  datatype ApiReminder = ApiReminder(
    reminder: Option<string>,
    relativePeriod: Option<int>,
    relativeTo: Option<string>)

  /** `models.Task` as the API sends it, without the bucket, comment,
      reaction, relation and subscription members. */
  datatype ApiTask = ApiTask(
    id: Option<int>,
    title: Option<string>,
    description: Option<string>,
    done: Option<bool>,
    projectId: Option<int>,
    priority: Option<int>,
    percentDone: Option<int>,
    position: Option<int>,
    hexColor: Option<string>,
    dueDate: Option<string>,
    startDate: Option<string>,
    endDate: Option<string>,
    repeatAfter: Option<int>,
    bucketId: Option<int>,
    created: Option<string>,
    updated: Option<string>,
    createdBy: Option<ApiUser>,
    isFavorite: Option<bool>,
    identifier: Option<string>,
    index: Option<int>,
    doneAt: Option<string>,
    coverImageAttachmentId: Option<int>,
    assignees: Option<seq<Option<ApiUser>>>,
    attachments: Option<seq<Option<ApiAttachment>>>,
    labels: Option<seq<Option<ApiLabel>>>,
    reminders: Option<seq<Option<ApiReminder>>>)

  /** The `User` the getters hand out. Its timestamps fall back to the
      task's, which the non-null assertions of the source do not guarantee
      once `update` has stored a record without them. */
  datatype UserView = UserView(
    id: int,
    username: string,
    email: string,
    name: string,
    created: Option<string>,
    updated: Option<string>)

  datatype FileView = FileView(id: int, name: string, mime: string, size: int, created: Option<string>)

  datatype AttachmentView = AttachmentView(
    id: int,
    taskId: int,
    created: Option<string>,
    file: FileView,
    createdBy: UserView)

  datatype LabelView = LabelView(
    id: int,
    title: string,
    description: string,
    hexColor: string,
    created: Option<string>,
    updated: Option<string>,
    createdBy: UserView)

  datatype ReminderView = ReminderView(reminder: string, relativePeriod: int, relativeTo: string)

  const MissingFieldsMessage: string := "Invalid task data: missing required fields"

  /** JavaScript truthiness of the four required members: a number other
      than 0, a string other than the empty one. */
  predicate TruthyInt(x: Option<int>)
  {
    x.Some? && x.value != 0
  }

  predicate TruthyString(x: Option<string>)
  {
    x.Some? && x.value != ""
  }

  /** The check of the constructor (task.ts:24-27): `id`, `title`,
      `created` and `updated` are all truthy. */
  predicate HasRequiredFields(d: ApiTask)
  {
    TruthyInt(d.id) && TruthyString(d.title) && TruthyString(d.created) && TruthyString(d.updated)
  }

  /** The check as the constructor runs it: the record itself, or the error
      it throws. */
  function CheckRequired(d: ApiTask): (r: Result<ApiTask, string>)
    ensures r.Success? <==> HasRequiredFields(d)
    ensures r.Success? ==> r.value == d
    ensures r.Failure? ==> r.error == MissingFieldsMessage
  {
    if !TruthyInt(d.id) || !TruthyString(d.title) || !TruthyString(d.created) || !TruthyString(d.updated) then
      Failure(MissingFieldsMessage)
    else Success(d)
  }

  /** An id of 0 is as missing as no id, and an empty title as no title. */
  lemma FalsyFieldsRejected(d: ApiTask)
    requires d.id == Some(0) || d.title == Some("") || d.created.None? || d.updated == Some("")
    ensures CheckRequired(d) == Failure(MissingFieldsMessage)
  {
  }

  /** `transformUser(user)` (task.ts:60-78): an absent user becomes the
      placeholder `unknown` user; a present one keeps each member it has
      and gets a default for each it lacks. The timestamps default to the
      task's. */
  function TransformUser(user: Option<ApiUser>, created: Option<string>, updated: Option<string>): (r: UserView)
    ensures user.None? ==> r == UserView(0, "unknown", "", "", created, updated)
    ensures user.Some? ==> var u := user.value;
      (u.id.Some? ==> r.id == u.id.value) && (u.id.None? ==> r.id == 0)
      && (u.username.Some? ==> r.username == u.username.value) && (u.username.None? ==> r.username == "unknown")
      && (u.email.Some? ==> r.email == u.email.value) && (u.email.None? ==> r.email == "")
      && (u.name.Some? ==> r.name == u.name.value) && (u.name.None? ==> r.name == "")
      && (u.created.Some? ==> r.created == u.created) && (u.created.None? ==> r.created == created)
      && (u.updated.Some? ==> r.updated == u.updated) && (u.updated.None? ==> r.updated == updated)
  {
    match user
    case Some(u) =>
      UserView(
        u.id.GetOr(0),
        u.username.GetOr("unknown"),
        u.email.GetOr(""),
        u.name.GetOr(""),
        if u.created.Some? then u.created else created,
        if u.updated.Some? then u.updated else updated)
    case None => UserView(0, "unknown", "", "", created, updated)
  }

  /** `v` is `x ?? d`: the member when it is present, the default when it
      is not. */
  predicate Coalesced<T(==)>(v: T, x: Option<T>, d: T)
  {
    (x.Some? ==> v == x.value) && (x.None? ==> v == d)
  }

  /** The same for a timestamp that falls back to the task's, which may be
      absent itself. */
  predicate CoalescedStamp(v: Option<string>, x: Option<string>, d: Option<string>)
  {
    (x.Some? ==> v == x) && (x.None? ==> v == d)
  }

  /** The attachment element of the `attachments` getter
      (task.ts:153-165). */
  function TransformAttachment(a: Option<ApiAttachment>, created: Option<string>, updated: Option<string>): (r: AttachmentView)
    ensures a.None? ==> r == AttachmentView(0, 0, created, FileView(0, "", "", 0, created), TransformUser(None, created, updated))
    ensures a.Some? ==> Coalesced(r.id, a.value.id, 0) && Coalesced(r.taskId, a.value.taskId, 0)
    ensures a.Some? ==> CoalescedStamp(r.created, a.value.created, created)
    ensures a.Some? ==> r.createdBy == TransformUser(a.value.createdBy, created, updated)
    ensures a.Some? && a.value.file.None? ==> r.file == FileView(0, "", "", 0, created)
    ensures a.Some? && a.value.file.Some? ==> var f := a.value.file.value;
      && Coalesced(r.file.id, f.id, 0) && Coalesced(r.file.name, f.name, "")
      && Coalesced(r.file.mime, f.mime, "") && Coalesced(r.file.size, f.size, 0)
      && CoalescedStamp(r.file.created, f.created, created)
  {
    match a
    case None => AttachmentView(0, 0, created, FileView(0, "", "", 0, created), TransformUser(None, created, updated))
    case Some(x) =>
      var file := match x.file
        case None => FileView(0, "", "", 0, created)
        case Some(f) => FileView(f.id.GetOr(0), f.name.GetOr(""), f.mime.GetOr(""), f.size.GetOr(0), if f.created.Some? then f.created else created);
      AttachmentView(x.id.GetOr(0), x.taskId.GetOr(0), if x.created.Some? then x.created else created, file, TransformUser(x.createdBy, created, updated))
  }

  /** The label element of the `labels` getter (task.ts:176-184). */
  function TransformLabel(l: Option<ApiLabel>, created: Option<string>, updated: Option<string>): (r: LabelView)
    ensures l.None? ==> r == LabelView(0, "", "", "", created, updated, TransformUser(None, created, updated))
    ensures l.Some? ==> Coalesced(r.id, l.value.id, 0) && Coalesced(r.title, l.value.title, "")
    ensures l.Some? ==> Coalesced(r.description, l.value.description, "") && Coalesced(r.hexColor, l.value.hexColor, "")
    ensures l.Some? ==> CoalescedStamp(r.created, l.value.created, created) && CoalescedStamp(r.updated, l.value.updated, updated)
    ensures l.Some? ==> r.createdBy == TransformUser(l.value.createdBy, created, updated)
  {
    match l
    case None => LabelView(0, "", "", "", created, updated, TransformUser(None, created, updated))
    case Some(x) =>
      LabelView(
        x.id.GetOr(0), x.title.GetOr(""), x.description.GetOr(""), x.hexColor.GetOr(""),
        if x.created.Some? then x.created else created,
        if x.updated.Some? then x.updated else updated,
        TransformUser(x.createdBy, created, updated))
  }

  /** The reminder element of the `reminders` getter (task.ts:196-200). */
  function TransformReminder(m: Option<ApiReminder>): (r: ReminderView)
    ensures m.None? ==> r == ReminderView("", 0, "due_date")
    ensures m.Some? ==> Coalesced(r.reminder, m.value.reminder, "")
    ensures m.Some? ==> Coalesced(r.relativePeriod, m.value.relativePeriod, 0)
    ensures m.Some? ==> Coalesced(r.relativeTo, m.value.relativeTo, "due_date")
  {
    match m
    case None => ReminderView("", 0, "due_date")
    case Some(x) => ReminderView(x.reminder.GetOr(""), x.relativePeriod.GetOr(0), x.relativeTo.GetOr("due_date"))
  }

  /** What an operation sends: the client method and the path. */
  datatype Call = Call(verb: HttpClient.Method, path: string)

  /** The path of one task: `/tasks/<id>`. */
  function TaskPath(id: int): (p: string)
    ensures |p| > 7 && p[..7] == "/tasks/" && p[7..] == IntToString(id)
  {
    "/tasks/" + IntToString(id)
  }

  /** `create` (task.ts:36): PUT on the project's task collection. */
  function CreateCall(projectId: int): (c: Call)
    ensures c.verb == HttpClient.PUT
    ensures c.path == "/projects/" + IntToString(projectId) + "/tasks"
  {
    Call(HttpClient.PUT, "/projects/" + IntToString(projectId) + "/tasks")
  }

  /** `get` (task.ts:41). */
  function GetCall(id: int): (c: Call)
    ensures c == Call(HttpClient.GET, TaskPath(id))
  {
    Call(HttpClient.GET, TaskPath(id))
  }

  /** `list` (task.ts:46). */
  function ListCall(): (c: Call)
    ensures c.verb == HttpClient.GET && c.path == "/tasks/all"
  {
    Call(HttpClient.GET, "/tasks/all")
  }

  /** `update` (task.ts:52): POST, the API's verb for changing a task. */
  function UpdateCall(id: int): (c: Call)
    ensures c == Call(HttpClient.POST, TaskPath(id))
  {
    Call(HttpClient.POST, TaskPath(id))
  }

  /** `delete` (task.ts:57). */
  function DeleteCall(id: int): (c: Call)
    ensures c == Call(HttpClient.DELETE, TaskPath(id))
  {
    Call(HttpClient.DELETE, TaskPath(id))
  }

  /** The list path is never the path of a single task: `a` is neither a
      digit nor a minus sign. */
  lemma ListPathIsNotATask(id: int)
    ensures ListCall().path != TaskPath(id)
  {
    var p := TaskPath(id);
    var s := IntToString(id);
    assert p[7] == s[0];
    assert ListCall().path[7] == 'a';
  }

  /** Different ids address different tasks. */
  lemma TaskPathInjective(id1: int, id2: int)
    requires TaskPath(id1) == TaskPath(id2)
    ensures id1 == id2
  {
    IntToStringInjective(id1, id2);
  }

  lemma IntToStringInjective(a: int, b: int)
    requires IntToString(a) == IntToString(b)
    ensures a == b
  {
    var t := IntToString(a);
    assert a < 0 <==> t[0] == '-' by {
      if a >= 0 {
        assert IsDigit(t[0]);
      }
    }
    assert b < 0 <==> t[0] == '-' by {
      if b >= 0 {
        assert IsDigit(t[0]);
      }
    }
    if a < 0 {
      NatToStringInjective(-a, -b);
    } else {
      NatToStringInjective(a, b);
    }
  }

  lemma NatToStringInjective(a: nat, b: nat)
    requires NatToString(a) == NatToString(b)
    ensures a == b
  {
    DigitsValueOfNatToString(a);
    DigitsValueOfNatToString(b);
  }

  /** A task object: the raw record it wraps. The client it talks through
      is not modelled. */
  class TaskImpl {
    var data: ApiTask

    /** What the constructor checked; `update` does not keep it. */
    predicate Valid()
      reads this
    {
      HasRequiredFields(data)
    }

    constructor Wrap(d: ApiTask)
      requires HasRequiredFields(d)
      ensures data == d && Valid()
    {
      data := d;
    }

    /** `new TaskImpl(client, data)`, as `create`, `get` and `list` run it
        on each record they receive: a task, or the error the constructor
        throws. */
    static method New(d: ApiTask) returns (r: Result<TaskImpl, string>)
      ensures r.Success? <==> HasRequiredFields(d)
      ensures r.Success? ==> fresh(r.value) && r.value.data == d && r.value.Valid()
      ensures r.Failure? ==> r.error == MissingFieldsMessage
    {
      var checked := CheckRequired(d);
      if checked.Failure? {
        return Failure(checked.error);
      }
      var t := new TaskImpl.Wrap(d);
      return Success(t);
    }

    /** `update(data)` (task.ts:51-54), once the server has answered: the
        whole record is replaced by the response, which is not checked. */
    method Update(response: ApiTask)
      modifies this
      ensures data == response
      ensures Valid() <==> HasRequiredFields(response)
    {
      data := response;
    }

    /** The four getters behind the non-null assertions: present and truthy
        while the constructor's check holds. */
    function Id(): (r: Option<int>)
      reads this
      ensures Valid() ==> r.Some? && r.value != 0
      ensures r == data.id
    {
      data.id
    }

    function Title(): (r: Option<string>)
      reads this
      ensures Valid() ==> r.Some? && r.value != ""
      ensures r == data.title
    {
      data.title
    }

    function Created(): (r: Option<string>)
      reads this
      ensures Valid() ==> r.Some? && r.value != ""
      ensures r == data.created
    {
      data.created
    }

    function Updated(): (r: Option<string>)
      reads this
      ensures Valid() ==> r.Some? && r.value != ""
      ensures r == data.updated
    {
      data.updated
    }

    /** `project_id` asserts the member present without checking it: a
        record without one gives `undefined`. */
    function ProjectId(): (r: Option<int>)
      reads this
      ensures r == data.projectId
    {
      data.projectId
    }

    /** The scalar getters with a `??` default. */
    function Description(): (r: string)
      reads this
      ensures data.description.None? ==> r == ""
      ensures data.description.Some? ==> r == data.description.value
    {
      data.description.GetOr("")
    }

    function Done(): (r: bool)
      reads this
      ensures r <==> data.done == Some(true)
    {
      data.done.GetOr(false)
    }

    function Priority(): (r: int)
      reads this
      ensures data.priority.None? ==> r == 0
      ensures data.priority.Some? ==> r == data.priority.value
    {
      data.priority.GetOr(0)
    }

    function PercentDone(): (r: int)
      reads this
      ensures data.percentDone.None? ==> r == 0
      ensures data.percentDone.Some? ==> r == data.percentDone.value
    {
      data.percentDone.GetOr(0)
    }

    function Position(): (r: int)
      reads this
      ensures data.position.None? ==> r == 0
      ensures data.position.Some? ==> r == data.position.value
    {
      data.position.GetOr(0)
    }

    function HexColor(): (r: string)
      reads this
      ensures data.hexColor.None? ==> r == ""
      ensures data.hexColor.Some? ==> r == data.hexColor.value
    {
      data.hexColor.GetOr("")
    }

    function RepeatAfter(): (r: int)
      reads this
      ensures data.repeatAfter.None? ==> r == 0
      ensures data.repeatAfter.Some? ==> r == data.repeatAfter.value
    {
      data.repeatAfter.GetOr(0)
    }

    function BucketId(): (r: int)
      reads this
      ensures data.bucketId.None? ==> r == 0
      ensures data.bucketId.Some? ==> r == data.bucketId.value
    {
      data.bucketId.GetOr(0)
    }

    function IsFavorite(): (r: bool)
      reads this
      ensures r <==> data.isFavorite == Some(true)
    {
      data.isFavorite.GetOr(false)
    }

    function Identifier(): (r: string)
      reads this
      ensures data.identifier.None? ==> r == ""
      ensures data.identifier.Some? ==> r == data.identifier.value
    {
      data.identifier.GetOr("")
    }

    function Index(): (r: int)
      reads this
      ensures data.index.None? ==> r == 0
      ensures data.index.Some? ==> r == data.index.value
    {
      data.index.GetOr(0)
    }

    /** The getters that pass an optional member through unchanged. */
    function DueDate(): (r: Option<string>)
      reads this
      ensures r == data.dueDate
    {
      data.dueDate
    }

    function StartDate(): (r: Option<string>)
      reads this
      ensures r == data.startDate
    {
      data.startDate
    }

    function EndDate(): (r: Option<string>)
      reads this
      ensures r == data.endDate
    {
      data.endDate
    }

    function DoneAt(): (r: Option<string>)
      reads this
      ensures r == data.doneAt
    {
      data.doneAt
    }

    function CoverImageAttachmentId(): (r: Option<int>)
      reads this
      ensures r == data.coverImageAttachmentId
    {
      data.coverImageAttachmentId
    }

    /** `created_by`: the creator through `transformUser`. */
    function CreatedBy(): (r: UserView)
      reads this
      ensures r == TransformUser(data.createdBy, data.created, data.updated)
      ensures data.createdBy.None? ==> r.id == 0 && r.username == "unknown"
      ensures r.created == (if data.createdBy.Some? && data.createdBy.value.created.Some? then data.createdBy.value.created else data.created)
    {
      TransformUser(data.createdBy, data.created, data.updated)
    }

    /** The array getters map element by element: same length, same order,
        and an absent array gives the empty one. */
    function Assignees(): (r: seq<UserView>)
      reads this
      ensures data.assignees.None? ==> r == []
      ensures data.assignees.Some? ==>
        && |r| == |data.assignees.value|
        && forall i :: 0 <= i < |r| ==> r[i] == TransformUser(data.assignees.value[i], data.created, data.updated)
    {
      var xs := data.assignees.GetOr([]);
      var created := data.created;
      var updated := data.updated;
      seq(|xs|, i requires 0 <= i < |xs| => TransformUser(xs[i], created, updated))
    }

    function Attachments(): (r: seq<AttachmentView>)
      reads this
      ensures data.attachments.None? ==> r == []
      ensures data.attachments.Some? ==>
        && |r| == |data.attachments.value|
        && forall i :: 0 <= i < |r| ==> r[i] == TransformAttachment(data.attachments.value[i], data.created, data.updated)
    {
      var xs := data.attachments.GetOr([]);
      var created := data.created;
      var updated := data.updated;
      seq(|xs|, i requires 0 <= i < |xs| => TransformAttachment(xs[i], created, updated))
    }

    function Labels(): (r: seq<LabelView>)
      reads this
      ensures data.labels.None? ==> r == []
      ensures data.labels.Some? ==>
        && |r| == |data.labels.value|
        && forall i :: 0 <= i < |r| ==> r[i] == TransformLabel(data.labels.value[i], data.created, data.updated)
    {
      var xs := data.labels.GetOr([]);
      var created := data.created;
      var updated := data.updated;
      seq(|xs|, i requires 0 <= i < |xs| => TransformLabel(xs[i], created, updated))
    }

    function Reminders(): (r: seq<ReminderView>)
      reads this
      ensures data.reminders.None? ==> r == []
      ensures data.reminders.Some? ==>
        && |r| == |data.reminders.value|
        && forall i :: 0 <= i < |r| ==> r[i] == TransformReminder(data.reminders.value[i])
    {
      var xs := data.reminders.GetOr([]);
      seq(|xs|, i requires 0 <= i < |xs| => TransformReminder(xs[i]))
    }

  }
}
