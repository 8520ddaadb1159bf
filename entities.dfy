/** The entities the renderers and the task resource hand around, as the
    interfaces of src/types describe them. A member the interface marks as
    optional is an `Option`; `None` is `undefined`. Dates are the ISO 8601
    strings the API sends. */
module Entities {
  import opened Wrappers

  /** `User` (src/types/user.ts). */
  datatype User = User(
    id: int,
    username: string,
    email: Option<string>,
    name: Option<string>,
    created: string,
    updated: string)

  /** `Label` (src/types/label.ts). */
  datatype Label = Label(
    id: int,
    title: string,
    description: Option<string>,
    hexColor: Option<string>,
    createdBy: User,
    created: string,
    updated: string)

  /** The file of an attachment (src/types/attachment.ts). */
  datatype File = File(id: int, name: string, mime: string, size: int, created: string)

  /** `TaskAttachment` (src/types/attachment.ts). */
  datatype Attachment = Attachment(
    id: int,
    taskId: int,
    created: string,
    createdBy: User,
    file: Option<File>)

  /** `TaskReminder` (src/types/reminder.ts). */
  datatype Reminder = Reminder(reminder: string, relativePeriod: Option<int>, relativeTo: Option<string>)

  /** `Task` (src/types/task.ts), without the bucket, comment, reaction,
      relation and subscription members. */
  datatype Task = Task(
    id: int,
    title: string,
    description: Option<string>,
    done: Option<bool>,
    projectId: int,
    priority: Option<int>,
    percentDone: Option<int>,
    position: Option<int>,
    hexColor: Option<string>,
    dueDate: Option<string>,
    startDate: Option<string>,
    endDate: Option<string>,
    repeatAfter: Option<int>,
    bucketId: Option<int>,
    created: string,
    updated: string,
    createdBy: User,
    isFavorite: bool,
    identifier: string,
    index: int,
    doneAt: Option<string>,
    coverImageAttachmentId: Option<int>,
    assignees: Option<seq<User>>,
    attachments: Option<seq<Attachment>>,
    labels: Option<seq<Label>>,
    reminders: Option<seq<Reminder>>)

  /** `Project` (src/types/project.ts), the members the renderer reads. */
  datatype Project = Project(
    id: int,
    title: string,
    description: Option<string>,
    parentProjectId: Option<int>,
    isArchived: bool)
}
