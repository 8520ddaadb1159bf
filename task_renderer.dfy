/** `TaskMarkdownRenderer` (src/renderers/markdown/TaskMarkdownRenderer.ts):
    a task as a one-line list item with a checkbox, a link and its
    hashtags, and as a detailed block of lines. */
module TaskRendering {
  import opened Wrappers
  import opened Text
  import opened Entities
  import opened MarkdownHelpers
  import L = LabelRendering
  import BaseRendering
  import McpUri

  /** `task.done ? '[x]' : '[ ]'`: only `true` ticks the box. */
  function Checkbox(done: Option<bool>): (r: string)
    ensures |r| == 3 && r[0] == '[' && r[2] == ']'
    ensures r[1] == 'x' <==> done == Some(true)
  {
    if done == Some(true) then "[x]" else "[ ]"
  }

  /** `task.labels?.length` is truthy. */
  predicate HasLabels(task: Task)
  {
    task.labels.Some? && |task.labels.value| > 0
  }

  /** `task.assignees?.length` is truthy. */
  predicate HasAssignees(task: Task)
  {
    task.assignees.Some? && |task.assignees.value| > 0
  }

  /** `task.description?.trim()` is truthy. */
  predicate HasDescription(task: Task)
  {
    task.description.Some? && !IsBlank(task.description.value)
  }

  /** `task.percent_done && task.percent_done > 0`. */
  predicate HasProgress(task: Task)
  {
    task.percentDone.Some? && task.percentDone.value > 0
  }

  /** The hashtags of the labels, joined by single spaces. */
  function Hashtags(labels: seq<Label>): string
  {
    Join(BaseRendering.Map(labels, L.RenderAsHashtag), " ")
  }

  /** The hashtags are separated by the only spaces in them: splitting on
      spaces gives back each label's hashtag, in order. */
  lemma HashtagsSplit(labels: seq<Label>)
    requires |labels| >= 1
    ensures Split(Hashtags(labels), ' ') == BaseRendering.Map(labels, L.RenderAsHashtag)
  {
    var tags := BaseRendering.Map(labels, L.RenderAsHashtag);
    forall i | 0 <= i < |tags| ensures ' ' !in tags[i] {
      L.HashtagShape(labels[i]);
    }
    SplitJoin(tags, ' ');
  }

  /** The link of a list item: the escaped title pointing at
      `toMcpUri(task.id)`, which is a project URI even for a task. */
  function TaskLink(task: Task): string
  {
    CreateLink(EscapeMarkdown(task.title), McpUri.ToMcpUri(task.id))
  }

  /** The hashtag suffix of a list item: a space and the hashtags when
      there are labels, nothing otherwise. */
  function LabelSuffix(task: Task): string
  {
    if HasLabels(task) then " " + Hashtags(task.labels.value) else ""
  }

  /** `renderAsListItem(task)` (TaskMarkdownRenderer.ts:22-30). */
  function RenderAsListItem(task: Task): (r: string)
    ensures |r| >= 6 && r[..2] == "- " && r[5] == ' '
    ensures r[2..5] == "[x]" <==> task.done == Some(true)
  {
    ItemParts(Checkbox(task.done), TaskLink(task), LabelSuffix(task));
    "- " + Checkbox(task.done) + " " + TaskLink(task) + LabelSuffix(task)
  }

  /** The layout of any list item built from a checkbox, a link and a
      suffix. */
  lemma ItemParts(box: string, link: string, suffix: string)
    requires |box| == 3
    ensures var r := "- " + box + " " + link + suffix;
      |r| == 6 + |link| + |suffix| && r[..2] == "- " && r[2..5] == box && r[5] == ' '
      && r[6..6 + |link|] == link && r[6 + |link|..] == suffix
  {
    var head := "- " + box + " ";
    assert (head + link + suffix)[..|head|] == head;
    assert (head + link + suffix)[|head|..] == link + suffix;
    assert (link + suffix)[..|link|] == link && (link + suffix)[|link|..] == suffix;
  }

  /** A list item is `- `, the checkbox (`[x]` exactly when the task is
      done), a space, the link to the escaped title, and, only when there
      are labels, a space and the hashtags. */
  lemma ListItemShape(task: Task)
    ensures var r := RenderAsListItem(task); var n := |TaskLink(task)|;
      |r| >= 6 + n && r[..2] == "- " && r[2..5] == Checkbox(task.done) && r[5] == ' '
      && r[6..6 + n] == TaskLink(task)
      && (HasLabels(task) ==> r[6 + n..] == " " + Hashtags(task.labels.value))
      && (!HasLabels(task) ==> |r| == 6 + n)
  {
    ItemParts(Checkbox(task.done), TaskLink(task), LabelSuffix(task));
  }

  /** `renderList(tasks)` of the task renderer. */
  function RenderList(tasks: seq<Task>): string
  {
    BaseRendering.RenderList(tasks, RenderAsListItem)
  }

  /** The first line of `render`: a level-one heading of the escaped
      title. */
  function Heading(task: Task): string
  {
    CreateHeading(EscapeMarkdown(task.title), 1)
  }

  /** The second line: the checkbox, then the due date when it is a
      non-empty string, otherwise `No due date`. */
  function StatusLine(task: Task): string
  {
    var due := if task.dueDate.Some? && task.dueDate.value != "" then "Due: " + task.dueDate.value else "No due date";
    "- " + Checkbox(task.done) + " " + due
  }

  /** The trimmed description (empty when there is none). */
  function DescriptionText(task: Task): string
  {
    if task.description.Some? then Trim(task.description.value) else ""
  }

  /** `Progress: N%` for the integer percentage. */
  function ProgressText(task: Task): string
  {
    "Progress: " + IntToString(task.percentDone.GetOr(0)) + "%"
  }

  function LabelsText(task: Task): string
  {
    Hashtags(task.labels.GetOr([]))
  }

  /** `Assigned to: ` and the `@username`s, joined by `, `. */
  function AssigneesText(task: Task): string
  {
    "Assigned to: " + Join(BaseRendering.Map(task.assignees.GetOr([]), (u: User) => "@" + u.username), ", ")
  }

  /** `parts.push('', line)` when the section is present. */
  function Push(parts: seq<string>, present: bool, line: string): (r: seq<string>)
    ensures present ==> r == parts + ["", line]
    ensures !present ==> r == parts
  {
    if present then parts + ["", line] else parts
  }

  /** The `parts` array that `render` joins: the heading, the status line,
      then the description, progress, label and assignee sections as they
      are pushed. */
  function Layout(task: Task): seq<string>
  {
    var withDescription := Push([Heading(task), StatusLine(task)], HasDescription(task), DescriptionText(task));
    var withProgress := Push(withDescription, HasProgress(task), ProgressText(task));
    var withLabels := Push(withProgress, HasLabels(task), LabelsText(task));
    Push(withLabels, HasAssignees(task), AssigneesText(task))
  }

  /** `render(task)` (TaskMarkdownRenderer.ts:35-60): builds the lines with
      conditional pushes and joins them with newlines. */
  method Render(task: Task) returns (r: string)
    ensures r == Join(Layout(task), "\n")
  {
    var parts := [Heading(task), StatusLine(task)];
    ghost var layout := parts;
    if task.description.Some? && !IsBlank(task.description.value) {
      parts := parts + ["", Trim(task.description.value)];
    }
    layout := Push(layout, HasDescription(task), DescriptionText(task));
    assert parts == layout;
    if task.percentDone.Some? && task.percentDone.value > 0 {
      parts := parts + ["", ProgressText(task)];
    }
    layout := Push(layout, HasProgress(task), ProgressText(task));
    assert parts == layout;
    if task.labels.Some? && |task.labels.value| > 0 {
      parts := parts + ["", LabelsText(task)];
    }
    layout := Push(layout, HasLabels(task), LabelsText(task));
    assert parts == layout;
    if task.assignees.Some? && |task.assignees.value| > 0 {
      parts := parts + ["", AssigneesText(task)];
    }
    layout := Push(layout, HasAssignees(task), AssigneesText(task));
    assert parts == layout;
    r := Join(parts, "\n");
  }

  /** A one-element sequence when `present`, the empty one otherwise. */
  function Opt(present: bool, line: string): (r: seq<string>)
    ensures present ==> r == [line]
    ensures !present ==> r == []
  {
    if present then [line] else []
  }

  /** The lines of the optional sections that are present, in the order
      description, progress, labels, assignees. */
  function Present(task: Task): (r: seq<string>)
    ensures |r| <= 4
  {
    Opt(HasDescription(task), DescriptionText(task))
    + Opt(HasProgress(task), ProgressText(task))
    + Opt(HasLabels(task), LabelsText(task))
    + Opt(HasAssignees(task), AssigneesText(task))
  }

  /** Each line of `xs` preceded by an empty line. */
  function Spaced(xs: seq<string>): (r: seq<string>)
    ensures |r| == 2 * |xs|
    ensures forall k :: 0 <= k < |xs| ==> r[2 * k] == "" && r[2 * k + 1] == xs[k]
  {
    if xs == [] then []
    else
      var rest := Spaced(xs[1..]);
      SpacedCons(xs, rest);
      ["", xs[0]] + rest
  }

  /** The step of `Spaced`: the pair in front shifts every later index of
      the rest by two. */
  lemma SpacedCons(xs: seq<string>, rest: seq<string>)
    requires xs != [] && |rest| == 2 * (|xs| - 1)
    requires forall k :: 0 <= k < |xs| - 1 ==> rest[2 * k] == "" && rest[2 * k + 1] == xs[1..][k]
    ensures forall k :: 0 <= k < |xs| ==> (["", xs[0]] + rest)[2 * k] == "" && (["", xs[0]] + rest)[2 * k + 1] == xs[k]
  {
    var r := ["", xs[0]] + rest;
    forall k | 0 <= k < |xs|
      ensures r[2 * k] == "" && r[2 * k + 1] == xs[k]
    {
      if k > 0 {
        var j := k - 1;
        assert rest[2 * j] == "" && rest[2 * j + 1] == xs[1..][j];
        assert r[2 * k] == rest[2 * j] && r[2 * k + 1] == rest[2 * j + 1];
      }
    }
  }

  lemma {:induction false} SpacedConcat(a: seq<string>, b: seq<string>)
    ensures Spaced(a + b) == Spaced(a) + Spaced(b)
  {
    if a != [] {
      ConcatHeadTail(a, b);
      SpacedConcat(a[1..], b);
      ConcatAssoc(["", a[0]], Spaced(a[1..]), Spaced(b));
    } else {
      assert a + b == b;
    }
  }

  lemma PushSpaced(parts: seq<string>, present: bool, line: string)
    ensures Push(parts, present, line) == parts + Spaced(Opt(present, line))
  {
    if present {
      assert [line][1..] == [];
    } else {
      assert parts + [] == parts;
    }
  }

  /** The layout is the heading, the status line, and each present section
      preceded by exactly one empty line, in the source's order. */
  lemma LayoutSections(task: Task)
    ensures Layout(task) == [Heading(task), StatusLine(task)] + Spaced(Present(task))
  {
    var d := Opt(HasDescription(task), DescriptionText(task));
    var p := Opt(HasProgress(task), ProgressText(task));
    var l := Opt(HasLabels(task), LabelsText(task));
    var a := Opt(HasAssignees(task), AssigneesText(task));
    var h := [Heading(task), StatusLine(task)];
    PushSpaced(h, HasDescription(task), DescriptionText(task));
    PushSpaced(h + Spaced(d), HasProgress(task), ProgressText(task));
    PushSpaced(h + Spaced(d) + Spaced(p), HasLabels(task), LabelsText(task));
    PushSpaced(h + Spaced(d) + Spaced(p) + Spaced(l), HasAssignees(task), AssigneesText(task));
    SpacedConcat(d, p);
    SpacedConcat(d + p, l);
    SpacedConcat(d + p + l, a);
    ConcatAssoc(h, Spaced(d) + Spaced(p) + Spaced(l), Spaced(a));
    ConcatAssoc(h, Spaced(d) + Spaced(p), Spaced(l));
    ConcatAssoc(h, Spaced(d), Spaced(p));
  }

  /** The shape of the layout line by line: heading, status line, then
      pairs of an empty line and a section line. */
  lemma LayoutLines(task: Task)
    ensures |Layout(task)| == 2 + 2 * |Present(task)|
    ensures Layout(task)[0] == "# " + EscapeMarkdown(task.title)
    ensures Layout(task)[1] == StatusLine(task)
    ensures forall k :: 0 <= k < |Present(task)| ==>
      Layout(task)[2 + 2 * k] == "" && Layout(task)[3 + 2 * k] == Present(task)[k]
  {
    LayoutSections(task);
    HeadingOne(EscapeMarkdown(task.title));
    SpacedLines(Heading(task), StatusLine(task), Present(task));
  }

  /** Two lines, then each line of `xs` after an empty one. */
  lemma SpacedLines(first: string, second: string, xs: seq<string>)
    ensures var l := [first, second] + Spaced(xs);
      && |l| == 2 + 2 * |xs| && l[0] == first && l[1] == second
      && forall k :: 0 <= k < |xs| ==> l[2 + 2 * k] == "" && l[3 + 2 * k] == xs[k]
  {
    var s := Spaced(xs);
    var l := [first, second] + s;
    forall k | 0 <= k < |xs|
      ensures l[2 + 2 * k] == "" && l[3 + 2 * k] == xs[k]
    {
      assert l[2 + 2 * k] == s[2 * k] && l[3 + 2 * k] == s[2 * k + 1];
    }
  }

  /** The description line is the trimmed description, the first section
      when present; a blank description leaves no line. */
  lemma DescriptionFirst(task: Task)
    requires HasDescription(task)
    ensures Layout(task)[2] == "" && Layout(task)[3] == Trim(task.description.value)
  {
    LayoutLines(task);
  }

  /** A task with no description, progress, labels or assignees renders as
      the heading and the status line and nothing else; when neither the
      title nor the due date holds a newline, those are exactly its two
      lines. */
  lemma OnlyRequired(task: Task)
    requires !HasDescription(task) && !HasProgress(task) && !HasLabels(task) && !HasAssignees(task)
    requires '\n' !in task.title
    requires task.dueDate.Some? ==> '\n' !in task.dueDate.value
    ensures Lines(Join(Layout(task), "\n")) == [Heading(task), StatusLine(task)]
  {
    var h := Heading(task);
    var s := StatusLine(task);
    assert Layout(task) == [h, s];
    assert '\n' !in h by {
      EscapeKeepsChar(task.title, '\n');
      HeadingOne(EscapeMarkdown(task.title));
    }
    assert '\n' !in s;
    SplitJoin([h, s], '\n');
  }
}
