/** `ProjectMarkdownRenderer` (src/renderers/markdown/ProjectMarkdownRenderer.ts):
    a project in detail, with its task list, and as a list item. The tasks
    that `project.listTasks()` loads are a parameter: either the list or
    the message of the error the load rejects with. */
module ProjectRendering {
  import opened Wrappers
  import opened Text
  import opened Entities
  import opened MarkdownHelpers
  import McpUri
  import TaskRendering
  import BaseRendering

  /** `project.parent_project_id` is truthy: present and not 0. */
  predicate HasParent(project: Project)
  {
    project.parentProjectId.Some? && project.parentProjectId.value != 0
  }

  /** `project.description?.trim()` is truthy. */
  predicate HasDescription(project: Project)
  {
    project.description.Some? && !IsBlank(project.description.value)
  }

  function Heading(project: Project): string
  {
    CreateHeading(EscapeMarkdown(project.title), 1)
  }

  /** The link to the parent project (unused when there is none). */
  function ParentLink(project: Project): (r: string)
    ensures r != [] && r[0] == '['
  {
    CreateLink("Parent Project", McpUri.CreateUri(McpUri.Projects, project.parentProjectId.GetOr(0)))
  }

  function DescriptionText(project: Project): string
  {
    if project.description.Some? then Trim(project.description.value) else ""
  }

  /** `parts.push(line)` when `present`. */
  function PushOne(parts: seq<string>, present: bool, line: string): (r: seq<string>)
    ensures present ==> r == parts + [line]
    ensures !present ==> r == parts
  {
    if present then parts + [line] else parts
  }

  /** The lines before the task section: the heading, `(ARCHIVED)` for an
      archived project, the parent link, the description after an empty
      line. */
  function Header(project: Project): seq<string>
  {
    HeaderOf(Heading(project), project.isArchived, HasParent(project), ParentLink(project),
             HasDescription(project), DescriptionText(project))
  }

  /** The header built from its ingredients. */
  function HeaderOf(heading: string, archived: bool, parent: bool, link: string, described: bool, description: string): seq<string>
  {
    var withArchived := PushOne([heading], archived, "(ARCHIVED)");
    var withParent := PushOne(withArchived, parent, link);
    if described then withParent + ["", description] else withParent
  }

  /** The `parts` that `render` joins, for the loaded tasks: the header,
      then, when there are tasks, an empty line, `## Tasks` and the task
      list as one part. */
  function Layout(project: Project, tasks: seq<Task>): seq<string>
  {
    if |tasks| > 0 then Header(project) + ["", CreateHeading("Tasks", 2)] + [TaskRendering.RenderList(tasks)]
    else Header(project)
  }

  /** `render(project)` (ProjectMarkdownRenderer.ts:26-53): a failed task
      load propagates; otherwise the parts are pushed in order and joined
      with newlines. */
  method Render(project: Project, tasks: Result<seq<Task>, string>) returns (r: Result<string, string>)
    ensures tasks.Failure? ==> r == Failure(tasks.error)
    ensures tasks.Success? ==> r == Success(Join(Layout(project, tasks.value), "\n"))
  {
    var parts := [Heading(project)];
    ghost var layout := parts;
    if project.isArchived {
      parts := parts + ["(ARCHIVED)"];
    }
    layout := PushOne(layout, project.isArchived, "(ARCHIVED)");
    if project.parentProjectId.Some? && project.parentProjectId.value != 0 {
      parts := parts + [CreateLink("Parent Project", McpUri.CreateUri(McpUri.Projects, project.parentProjectId.value))];
    }
    layout := PushOne(layout, HasParent(project), ParentLink(project));
    assert parts == layout;
    if project.description.Some? && !IsBlank(project.description.value) {
      parts := parts + ["", Trim(project.description.value)];
    }
    assert parts == Header(project);
    if tasks.Failure? {
      return Failure(tasks.error);
    }
    var loaded := tasks.value;
    if |loaded| > 0 {
      parts := parts + ["", CreateHeading("Tasks", 2)];
      var renderedTasks := TaskRendering.RenderList(loaded);
      parts := parts + [renderedTasks];
    }
    assert parts == Layout(project, loaded);
    r := Success(Join(parts, "\n"));
  }

  /** The header starts with the heading, and `(ARCHIVED)` is its second
      line exactly when the project is archived. */
  lemma HeaderStart(project: Project)
    ensures |Header(project)| >= 1 && Header(project)[0] == "# " + EscapeMarkdown(project.title)
    ensures (|Header(project)| >= 2 && Header(project)[1] == "(ARCHIVED)") <==> project.isArchived
  {
    var link := ParentLink(project);
    HeaderOfStart(Heading(project), project.isArchived, HasParent(project), link,
                  HasDescription(project), DescriptionText(project));
  }

  lemma HeaderOfStart(heading: string, archived: bool, parent: bool, link: string, described: bool, description: string)
    requires link != [] && link[0] == '['
    ensures var h := HeaderOf(heading, archived, parent, link, described, description);
      |h| >= 1 && h[0] == heading && ((|h| >= 2 && h[1] == "(ARCHIVED)") <==> archived)
  {
    var h := HeaderOf(heading, archived, parent, link, described, description);
    if !archived && |h| >= 2 {
      assert h[1] == link || h[1] == "";
    }
  }

  /** The parent link follows the heading and the archived line, and that
      place holds a non-empty line exactly when the parent id is truthy. */
  lemma ParentLine(project: Project)
    ensures var k := if project.isArchived then 2 else 1;
      var h := Header(project);
      (|h| > k && h[k] != "") <==> HasParent(project)
    ensures var k := if project.isArchived then 2 else 1;
      HasParent(project) ==> Header(project)[k] == ParentLink(project)
  {
    HeaderOfParent(Heading(project), project.isArchived, HasParent(project), ParentLink(project),
                   HasDescription(project), DescriptionText(project));
  }

  lemma HeaderOfParent(heading: string, archived: bool, parent: bool, link: string, described: bool, description: string)
    requires link != []
    ensures var k := if archived then 2 else 1;
      var h := HeaderOf(heading, archived, parent, link, described, description);
      && ((|h| > k && h[k] != "") <==> parent)
      && (parent ==> h[k] == link)
  {
  }

  /** The description, trimmed and after one empty line, closes the header
      when it is not blank; without it the header has no empty line. */
  lemma DescriptionLines(project: Project)
    ensures var h := Header(project);
      HasDescription(project) ==> |h| >= 3 && h[|h| - 2] == "" && h[|h| - 1] == DescriptionText(project)
    ensures var h := Header(project);
      !HasDescription(project) ==> forall i :: 0 <= i < |h| ==> h[i] != ""
  {
    HeaderOfDescription(Heading(project), project.isArchived, HasParent(project), ParentLink(project),
                        HasDescription(project), DescriptionText(project));
  }

  lemma HeaderOfDescription(heading: string, archived: bool, parent: bool, link: string, described: bool, description: string)
    requires heading != [] && link != []
    ensures var h := HeaderOf(heading, archived, parent, link, described, description);
      described ==> |h| >= 3 && h[|h| - 2] == "" && h[|h| - 1] == description
    ensures var h := HeaderOf(heading, archived, parent, link, described, description);
      !described ==> forall i :: 0 <= i < |h| ==> h[i] != ""
  {
  }

  /** The heading of the task section. */
  lemma TasksHeading()
    ensures CreateHeading("Tasks", 2) == "## Tasks"
  {
  }

  /** The task section is there exactly when a task was loaded, and then it
      closes the layout; otherwise the layout is the header alone. */
  lemma TasksSection(project: Project, tasks: seq<Task>)
    ensures |tasks| > 0 ==> Layout(project, tasks)[|Header(project)|..] == ["", "## Tasks", TaskRendering.RenderList(tasks)]
    ensures |tasks| == 0 ==> Layout(project, tasks) == Header(project)
  {
    TasksHeading();
    var h := Header(project);
    var section := ["", CreateHeading("Tasks", 2), TaskRendering.RenderList(tasks)];
    ConcatAssoc(h, ["", CreateHeading("Tasks", 2)], [TaskRendering.RenderList(tasks)]);
    assert (h + section)[|h|..] == section;
  }

  /** A title without special characters is its own escaped form in the
      heading. */
  lemma PlainHeading(project: Project)
    requires NoSpecial(project.title)
    ensures Heading(project) == "# " + project.title
  {
  }

  /** An archived project without a parent or tasks, whose title has no
      special character and whose description is not padded with white
      space: heading, `(ARCHIVED)`, an empty line, the description. */
  lemma ArchivedLayout(project: Project)
    requires project.isArchived && project.parentProjectId.None? && NoSpecial(project.title)
    requires project.description.Some? && project.description.value != []
    requires !IsSpace(project.description.value[0])
    requires !IsSpace(project.description.value[|project.description.value| - 1])
    ensures Layout(project, []) == ["# " + project.title, "(ARCHIVED)", "", project.description.value]
  {
    var d := project.description.value;
    PlainHeading(project);
    TrimUnspacedEnds(d);
    assert Header(project) == [Heading(project), "(ARCHIVED)"] + ["", d];
  }

  /** The archived example of the renderer's tests. */
  lemma ArchivedExample(project: Project)
    requires project.title == "Archived Project" && project.description == Some("An archived project")
    requires project.isArchived && project.parentProjectId.None?
    ensures Layout(project, []) == ["# " + project.title, "(ARCHIVED)", "", project.description.value]
  {
    ExampleTitlePlain(project.title);
    ExampleDescriptionUnspaced(project.description.value);
    ArchivedLayout(project);
  }

  lemma ExampleTitlePlain(title: string)
    requires title == "Archived Project"
    ensures NoSpecial(title)
  {
  }

  lemma ExampleDescriptionUnspaced(d: string)
    requires d == "An archived project"
    ensures d != [] && !IsSpace(d[0]) && !IsSpace(d[|d| - 1])
  {
  }

  /** Text that neither starts nor ends with white space is its own
      trim. */
  lemma TrimUnspacedEnds(s: string)
    requires s != [] && !IsSpace(s[0]) && !IsSpace(s[|s| - 1])
    ensures Trim(s) == s
  {
  }

  /** The `(ARCHIVED) ` prefix of a list item. */
  function ArchivedPrefix(project: Project): string
  {
    if project.isArchived then "(ARCHIVED) " else ""
  }

  function ProjectLink(project: Project): string
  {
    CreateLink(EscapeMarkdown(project.title), McpUri.CreateUri(McpUri.Projects, project.id))
  }

  /** `renderAsListItem(project)` (ProjectMarkdownRenderer.ts:58-65). */
  function RenderAsListItem(project: Project): (r: string)
    ensures |r| >= 2 && r[..2] == "- " && r[2..] == ArchivedPrefix(project) + ProjectLink(project)
  {
    CreateListItem(ArchivedPrefix(project) + ProjectLink(project))
  }

  /** A list item is `- `, `(ARCHIVED) ` exactly for an archived project,
      and the link whose target is the project's URI. */
  lemma ListItemShape(project: Project)
    ensures var r := RenderAsListItem(project); var p := ArchivedPrefix(project);
      r[..2] == "- " && r[2..2 + |p|] == p && r[2 + |p|..] == ProjectLink(project)
    ensures project.isArchived ==> RenderAsListItem(project)[2..13] == "(ARCHIVED) "
    ensures !project.isArchived ==> RenderAsListItem(project)[2] == '['
  {
    ItemParts(ArchivedPrefix(project), ProjectLink(project));
  }

  /** A list item made of a prefix and a link. */
  lemma ItemParts(p: string, link: string)
    requires link != [] && link[0] == '['
    ensures var r := CreateListItem(p + link);
      && r[..2] == "- " && r[2..2 + |p|] == p && r[2 + |p|..] == link
      && (p == "" ==> r[2] == '[')
  {
    var r := CreateListItem(p + link);
    assert r[2..] == p + link;
    assert (p + link)[..|p|] == p;
  }

  /** The link target of a list item parses back, through `fromMcpUri`, to
      the project's id when that is a natural number. */
  lemma ListItemTarget(project: Project)
    requires project.id >= 0
    ensures McpUri.FromMcpUri(McpUri.CreateUri(McpUri.Projects, project.id)) == Success(project.id)
  {
    McpUri.RoundTrip(project.id);
  }

  /** `renderList(projects)` of the project renderer. */
  function RenderList(projects: seq<Project>): string
  {
    BaseRendering.RenderList(projects, RenderAsListItem)
  }
}
