# mcp-vikunja core in Dafny

This project models the sequential core of mcp-vikunja, a Model Context
Protocol server that exposes a Vikunja task manager. It covers three groups.

- **HTTP dispatch.** The fixed-window `RateLimiter`, the seven `VikunjaError`
  kinds and how each picks its message and code, and `VikunjaHttpClient`.
  The client joins a base URL and a path, then triages a transport outcome
  into exactly one of three results: a value, "no content", or one error.
- **Markdown rendering.** Escaping, the link, list-item, heading and
  code-block builders, and the label, task, project and base renderers. The
  label sanitiser turns a title into a hashtag.
- **Parsers, validators and normalisers.** The `vikunja://projects/<id>`
  printer and parser, in both copies. `TaskImpl` with its required-field
  check, its defaulting getters and `update`. The environment-variable
  loader, the configuration schema, the response schemas, and the two
  validation-message formatters.

Modules follow the source files:

| file | module | source |
|---|---|---|
| rate_limiter.dfy | RateLimiting | src/client/http/rate-limiter.ts |
| errors.dfy | HttpErrors | src/client/http/errors.ts |
| client.dfy, url.dfy, json.dfy | HttpClient, Url, Json | src/client/http/client.ts |
| markdown_helpers.dfy | MarkdownHelpers | src/renderers/utils/markdown-helpers.ts |
| base_renderer.dfy, label_renderer.dfy, task_renderer.dfy, project_renderer.dfy | BaseRendering, LabelRendering, TaskRendering, ProjectRendering | src/renderers/markdown/*.ts |
| mcp_uri.dfy, project_translation.dfy | McpUri, ProjectTranslation | src/mcp/utils/uri.ts, src/mcp/uri.ts, src/mcp/translation/project.ts |
| task_resource.dfy, entities.dfy | TaskResource, Entities | src/client/resource/task.ts, src/types/*.ts |
| mcp_config.dfy | McpConfig | src/mcp/config.ts |
| config_types.dfy, config_validation.dfy | ConfigTypes, ConfigValidation | src/config/types.ts, src/config/validation.ts |
| responses.dfy | Responses | src/validation/responses.ts |
| validation_errors.dfy, zod_issues.dfy | ValidationErrors, ZodIssues | src/validation/errors.ts |
| text.dfy, wrappers.dfy | Text, Wrappers | string, number and option helpers shared by all modules |

How the source's state is modelled:

- `RateLimiter` is a class whose `counter` and `windowStart` fields change
  in place. `WaitIfNeeded(now, wake)` takes the clock readings as
  parameters and returns the delay it would sleep.
- `VikunjaHttpClient` is a class with immutable `baseUrl` and `token`.
  What `fetch` did with a request is an input, an `Exchange`: either a
  rejected fetch, or a status, a status text and a body, which is
  unparseable or a JSON value.
- `TaskImpl` is a class whose `data` field `Update` replaces.
- The task and project `render` methods build a local sequence of lines with
  conditional pushes, as the source does. `ProjectRendering.Render` is given
  the result of loading the task list, so a loading failure passes through.
- Everything else is functions over datatypes, with lemmas about them.

The model follows the code where the code and its tests disagree:

- The task list item links to `toMcpUri(task.id)`, which is a
  `vikunja://projects/<id>` URI even for a task.
- `createLink` does no escaping.
- The client appends nothing to the API URL. A base path `.../api/v1` loses
  its last segment when a request path is resolved against it.
- The client never calls `RateLimiter`.
- It classifies errors by HTTP status alone. A Vikunja code in the body is
  only copied into `code`. The one exception is a body the error constructor
  cannot read (`null`, or a primitive on a 404): its TypeError ends as a
  ServerError with code 500.
- A response that fails `taskSchema` throws a plain `Error` with the prefix
  "Invalid task response: ", not a `ValidationError`.
- `taskSchema` accepts any number for `priority`, including -1.

Zod's own checks for URL, e-mail and datetime are parameters: predicates the
caller supplies. So is the text of a zod error message.

## Model

| member | source | states |
|---|---|---|
| RateLimiting.RateLimiter.constructor | src/client/http/rate-limiter.ts:5-11 | a new limiter has counter 0, window start at construction time, and the given quota and window |
| RateLimiting.Current | src/client/http/rate-limiter.ts:17-22 | the window is kept while younger than the time window, and is reset to counter 0 starting at `now` once it is not |
| RateLimiting.Admit | src/client/http/rate-limiter.ts:16-33 | a call proceeds exactly when the current window's counter is below the quota; a call that waits leaves counter 1 and window start at the wake-up time |
| RateLimiting.Run | test/__tests__/client/http/rate-limiter.test.ts:16-57 | a sequence of calls on one limiter, one after the other, gives one gate per call |
| RateLimiting.RateLimiter.WaitIfNeeded | src/client/http/rate-limiter.ts:16-33 | the new counter and window start, and the returned gate, are those of one admission step from the old state; the counter-within-quota invariant is kept |
| RateLimiting.ExpiredWindowResets | src/client/http/rate-limiter.ts:17-22 | once a full window has passed since its start, a call behaves as if the window were fresh at `now` with counter 0 |
| RateLimiting.BelowQuotaProceeds | src/client/http/rate-limiter.ts:24-32 | below the quota a call does not wait; the counter rises by one and the window start is unchanged |
| RateLimiting.AtQuotaWaitsForWindowEnd | src/client/http/rate-limiter.ts:24-32 | at the quota the call waits until the window end; with a positive window and a clock that does not go back, the delay lies in (0, window]; the call leaves counter 1 and window start at the wake-up time |
| RateLimiting.CounterWithinQuota | src/client/http/rate-limiter.ts:18-32 | with a quota of at least one, the counter after any call stays between 1 and the quota |
| RateLimiting.BurstWithinQuota | src/client/http/rate-limiter.ts:24-32 | calls inside one window that fit the quota all proceed, and the counter grows by their number |
| RateLimiting.QuotaThenWait | test/__tests__/client/http/rate-limiter.test.ts:16-57 | in one window the first quota-many calls proceed and the next one waits for the window end |
| RateLimiting.NewWindowAfterExpiry | test/__tests__/client/http/rate-limiter.test.ts:16-57 | after the window has elapsed, up to quota-many calls proceed again in a new window that starts at the first of them |
| HttpErrors.VikunjaError.Name | src/client/http/errors.ts:9 | every error's name is its class name and ends in "Error" |
| HttpErrors.NameDeterminesKind | src/client/http/errors.ts:9 | two errors with the same name are of the same kind |
| HttpErrors.MessageOr | src/client/http/errors.ts:60 | the body message is used unless it is absent or empty, as `or` does |
| HttpErrors.CodeOr | src/client/http/errors.ts:60 | the body code is used unless it is absent, as nullish coalescing does |
| HttpErrors.NewNetworkError | src/client/http/errors.ts:28-31 | code 0; message as given, default "Network error occurred" |
| HttpErrors.NewTimeoutError | src/client/http/errors.ts:38-41 | code 408; message as given, default "Request timeout" |
| HttpErrors.NewInvalidResponseError | src/client/http/errors.ts:48-51 | code 400; message as given, default "Invalid response format" |
| HttpErrors.FromBody | src/client/http/errors.ts:58-98 | Server, Validation, Auth and NotFound errors take the body message when it is non-empty and the body code when present, else their defaults ("Internal server error"/500, "Validation error"/400, "Authentication error"/403, "Resource not found"/404); the message is never empty |
| HttpErrors.ZeroCodeKeptEmptyMessageReplaced | src/client/http/errors.ts:60-95 | a body with code 0 and an empty message keeps code 0 but gets the default message |
| HttpClient.StripTrailingSlash | src/client/http/client.ts:23 | at most one trailing "/" is removed and nothing is appended |
| HttpClient.VikunjaHttpClient.constructor | src/client/http/client.ts:22-25 | the base URL is the API URL without its trailing slash; the token is kept |
| HttpClient.RelativePath | src/client/http/client.ts:59 | exactly one leading "/" is dropped from the path |
| HttpClient.Outbound | src/client/http/client.ts:59-69 | the request has the given method and the resolved URL, sends the bearer token and the JSON content type, and has a body exactly when the data is truthy |
| HttpClient.ErrorBody | src/client/http/client.ts:110-112 | the error body's code and message are the body's `code` and `message` members when those are a number and a string, and absent otherwise |
| HttpClient.ReadErrorBody | src/client/http/client.ts:108-118 | a parsed body is read as it is; an unparseable one is replaced by the status as code and the status text, or "Unknown error", as message |
| HttpClient.StatusKind | src/client/http/client.ts:120-134 | 400 is Validation, 401 and 403 are Auth, 404 is NotFound, every other status is Server |
| HttpClient.BodyFault | src/client/http/errors.ts:60-91 | the constructor throws exactly on a `null` body, and `NotFoundError` also on any body that is neither an object nor an array; the TypeError message is non-empty |
| HttpClient.ErrorFor | src/client/http/client.ts:107-135 | 408 is a default Timeout whatever the body; otherwise a readable body gives the error of the status's class built from the body, and an unreadable one the ServerError 500 that the constructor's TypeError becomes; an unparseable body becomes code = status and message = status text or "Unknown error" |
| HttpClient.Catch | src/client/http/client.ts:86-100 | only a TypeError "Failed to fetch" becomes a NetworkError; any other thrown value becomes a ServerError with code 500 and its message, "Internal server error" when that message is empty, or "Unknown error" for a thrown value that is not an Error |
| HttpClient.Settle | src/client/http/client.ts:61-101 | a failed fetch goes through the catch mapping; a non-2xx status gives its error; 204 gives no content; another 2xx gives the parsed body, or InvalidResponseError "Invalid JSON response" |
| HttpClient.Request | src/client/http/client.ts:58-102 | a URL that cannot be built fails before the request; otherwise the outcome is what the exchange settles to |
| HttpClient.Discard | src/client/http/client.ts:51-53 | the success value is dropped; errors pass through unchanged |
| HttpClient.VikunjaHttpClient.Get | src/client/http/client.ts:30-32 | a GET request with no body; a value only from a parsed 2xx response |
| HttpClient.VikunjaHttpClient.Put | src/client/http/client.ts:37-39 | a PUT request carrying the data |
| HttpClient.VikunjaHttpClient.Post | src/client/http/client.ts:44-46 | a POST request carrying the data |
| HttpClient.VikunjaHttpClient.Delete | src/client/http/client.ts:51-53 | a DELETE request whose outcome is never a value |
| HttpClient.KindFollowsStatus | src/client/http/client.ts:120-134 | for bodies the constructors can read, the error kind depends on the status only, never on the body or status text: 400 Validation, 401/403 Auth, 404 NotFound, 408 Timeout, any other Server |
| HttpClient.UnreadableBodyIsServerError | src/client/http/client.ts:86-127 | a `null` body on any status but 408, or a number body on a 404, gives a ServerError with code 500 and the TypeError's message |
| HttpClient.NotFoundKeepsVikunjaCode | test/__tests__/client/http/error-handling.test.ts:41-59 | a 404 with body code 3001 and a message gives NotFound with that code and message |
| HttpClient.ForeignBodyGivesDefaults | src/client/http/client.ts:111-127 | a parsed body with neither member gives the kind's default message and code; for 404 that is "Resource not found", 404 |
| HttpClient.UnauthorizedWithoutCodeReports403 | src/client/http/errors.ts:80 | a 401 whose parsed body carries no code is reported with code 403 |
| HttpClient.UnparseableBodyKeepsStatus | src/client/http/client.ts:113-118 | an unparseable error body leaves the status as the code; a 500 is a ServerError |
| HttpClient.OnlyFailedToFetchIsNetworkError | src/client/http/client.ts:92-100 | "Failed to fetch" gives the default NetworkError; "fetch failed" gives a ServerError with code 500 |
| HttpClient.ValueOnlyFromParsedSuccess | src/client/http/client.ts:76-85 | a value comes back exactly for a parsed non-204 2xx response; an unparseable one is InvalidResponseError with code 400 |
| HttpClient.RejectionsHaveMessages | src/client/http/client.ts:86-134 | every error a request produces has a non-empty message |
| HttpClient.TargetUrl | src/client/http/client.ts:59 | in the model the URL cannot be built only for a base without a scheme, without a host, or with an opaque path; a base without a scheme always fails |
| HttpClient.BaseWithoutSchemeSeparatorIsInvalid | src/client/http/client.ts:59 | a base written "localhost:3456/api/v1" makes every request fail with the TypeError of an invalid URL, before anything is sent |
| HttpClient.RequestUrlReplacesLastSegment | src/client/http/client.ts:59 | for a lower-case http or https base with a plain host name, a plain path, with or without its leading slash, resolves to the base's scheme and authority, the base path's directory and the path, so the last base segment is replaced |
| Url.NewUrl | src/client/http/client.ts:59 | in the model resolution fails exactly when the base has no scheme, when a special scheme other than file has an empty host, or when the base path is opaque and the reference is neither absolute nor a bare fragment |
| Url.EmptyHostBaseRejects | src/client/http/client.ts:59 | nothing resolves against "http://" or "https://" |
| Url.NewUrlResolves | src/client/http/client.ts:59 | on a base with a scheme and a host and a path that is not opaque, the URL is the resolved reference written back |
| Url.OpaqueBaseRejects | src/client/http/client.ts:59 | a base with a non-special scheme and no "/" after its ":" takes no relative path |
| Url.ParseAbsolute | src/client/http/client.ts:59 | an absolute URL without query or fragment parses into its scheme, authority and path |
| Url.ResolvePlainRelative | src/client/http/client.ts:59 | on a lower-case http or https base with a plain host name, no default port and a path of plain characters, a plain relative path resolves to the scheme and authority of the base followed by the base directory and the path (merge of section 5.2.3 of RFC 3986) |
| Url.RemoveDotsKeeps | src/client/http/client.ts:59 | dot-segment removal leaves a path without dot segments unchanged |
| Url.MergedPathKept | src/client/http/client.ts:59 | the merged path is the base directory followed by the reference and has no dot segment to remove |
| Url.ApiVersionSegmentIsReplaced | src/client/http/client.ts:59 | "/tasks/1" against "http://h/api/v1" gives "http://h/api/tasks/1" |
| Json.UnescapeEscape | src/config/validation.ts:38 | the JSON string escape that the error report uses can be read back to the original text |
| Json.QuoteInjective | src/config/validation.ts:38 | distinct strings are quoted to distinct JSON strings |
| Json.LookupFound | src/client/http/client.ts:111-112 | a member lookup fails exactly when no member has the key, and otherwise finds the value of the last such member, as `JSON.parse` keeps the last of duplicate keys |
| MarkdownHelpers.SpecialCount | src/renderers/utils/markdown-helpers.ts:10 | the count of escaped characters is zero exactly when the text has none |
| MarkdownHelpers.EscapeMarkdown | src/renderers/utils/markdown-helpers.ts:8-11 | the length grows by the number of special characters; text without them is unchanged; every special character in the output follows a backslash |
| MarkdownHelpers.UnescapeEscape | src/renderers/utils/markdown-helpers.ts:10 | removing the backslash before each escaped character gives the original text back |
| MarkdownHelpers.EscapeInjective | src/renderers/utils/markdown-helpers.ts:10 | distinct texts escape to distinct texts |
| MarkdownHelpers.EscapeKeepsChar | src/renderers/utils/markdown-helpers.ts:10 | any character other than the backslash occurs in the escaped text exactly when it occurs in the text |
| MarkdownHelpers.EscapeConcat | src/renderers/utils/markdown-helpers.ts:10 | escaping works character by character: it distributes over concatenation |
| MarkdownHelpers.EscapeChar | src/renderers/utils/markdown-helpers.ts:10 | a special character gets one backslash in front; any other character is kept |
| MarkdownHelpers.CreateLink | src/renderers/utils/markdown-helpers.ts:16-18 | "[", the text unescaped, "](", the url, ")" |
| MarkdownHelpers.LinkInjective | src/renderers/utils/markdown-helpers.ts:16-18 | a link determines its text and url when the text has no "]" |
| MarkdownHelpers.LinkExample | test/__tests__/renderers/utils/markdown-helpers.test.ts:36-38 | a link of "Example" to "http://example.com" |
| MarkdownHelpers.CreateListItem | src/renderers/utils/markdown-helpers.ts:23-26 | two spaces per level, then "- ", then the text |
| MarkdownHelpers.ListItemInjective | src/renderers/utils/markdown-helpers.ts:23-26 | a list item determines its level and its text |
| MarkdownHelpers.ListItemExamples | test/__tests__/renderers/utils/markdown-helpers.test.ts:48-55 | level 0 gives "- Item"; level 2 gives four spaces before "- Nested Item" |
| MarkdownHelpers.CreateHeading | src/renderers/utils/markdown-helpers.ts:31-33 | `level` hash characters, one space, the text |
| MarkdownHelpers.HeadingInjective | src/renderers/utils/markdown-helpers.ts:31-33 | a heading determines its level and its text |
| MarkdownHelpers.HeadingOne | src/renderers/utils/markdown-helpers.ts:31-33 | a level-one heading is "# " and the text |
| MarkdownHelpers.HeadingExamples | test/__tests__/renderers/utils/markdown-helpers.test.ts:58-66 | "# Title" at the default level and "### Title" at level 3 |
| MarkdownHelpers.CreateCodeBlock | src/renderers/utils/markdown-helpers.ts:38-40 | opens with three backticks and closes with a newline and three backticks; length is text plus language plus 8 |
| MarkdownHelpers.CodeBlockLines | src/renderers/utils/markdown-helpers.ts:38-40 | read as lines: the fence with the language, the lines of the text, the closing fence |
| MarkdownHelpers.CodeBlockExample | src/renderers/utils/markdown-helpers.ts:38-40 | the block of "code" with no language |
| BaseRendering.Map | src/renderers/markdown/BaseMarkdownRenderer.ts:14 | the item renderings, one per item, in input order |
| BaseRendering.RenderList | src/renderers/markdown/BaseMarkdownRenderer.ts:13-16 | the item renderings joined by newlines; its properties are the RenderList lemmas below |
| BaseRendering.RenderListEmpty | src/renderers/markdown/BaseMarkdownRenderer.ts:13-16 | no items give the empty string |
| BaseRendering.RenderListSingle | src/renderers/markdown/BaseMarkdownRenderer.ts:15 | one item gives exactly its rendering, with no newline |
| BaseRendering.RenderListLength | src/renderers/markdown/BaseMarkdownRenderer.ts:15 | for n of at least one item, the length is the sum of the renderings plus n - 1 |
| BaseRendering.RenderListLines | src/renderers/markdown/BaseMarkdownRenderer.ts:14-15 | when no rendering holds a newline, the lines of the output are the renderings in input order |
| BaseRendering.RenderListSnoc | src/renderers/markdown/BaseMarkdownRenderer.ts:15 | one more item appends a newline and its rendering |
| LabelRendering.StripLeadingHashes | src/renderers/markdown/LabelMarkdownRenderer.ts:44 | the result is a suffix after only "#" characters and does not start with "#" |
| LabelRendering.KeepHashtagText | src/renderers/markdown/LabelMarkdownRenderer.ts:45 | only ASCII letters, digits, white space and "-" remain (their order and counts are stated by `KeepConcat`, `KeepAllKept` and `KeepCounts`) |
| LabelRendering.KeepCounts | src/renderers/markdown/LabelMarkdownRenderer.ts:45 | each kept character occurs as often as before; every other character is gone |
| LabelRendering.KeepAllKept | src/renderers/markdown/LabelMarkdownRenderer.ts:45 | text of kept characters only is unchanged |
| LabelRendering.KeepConcat | src/renderers/markdown/LabelMarkdownRenderer.ts:45 | the filter distributes over concatenation, so the kept characters stay in input order |
| LabelRendering.CollapseSpaces | src/renderers/markdown/LabelMarkdownRenderer.ts:46 | the text does not grow |
| LabelRendering.CollapsedNoSpace | src/renderers/markdown/LabelMarkdownRenderer.ts:46 | no white space remains |
| LabelRendering.CollapsedOfKept | src/renderers/markdown/LabelMarkdownRenderer.ts:45-46 | kept text collapses to letters, digits and "-" only |
| LabelRendering.CollapseWithoutSpace | src/renderers/markdown/LabelMarkdownRenderer.ts:46 | text without white space is unchanged |
| LabelRendering.CollapseRun | src/renderers/markdown/LabelMarkdownRenderer.ts:46 | a whole white-space run becomes one "-" |
| LabelRendering.CollapseConcat | src/renderers/markdown/LabelMarkdownRenderer.ts:46 | collapsing distributes over a split that does not cut a white-space run |
| LabelRendering.LowerAscii | src/renderers/markdown/LabelMarkdownRenderer.ts:47 | same length; each ASCII capital becomes its small letter and every other character is kept |
| LabelRendering.SanitizeLabelText | src/renderers/markdown/LabelMarkdownRenderer.ts:41-48 | trim, strip leading "#", keep letters, digits, white space and "-", collapse runs, lowercase; the result holds only a-z, 0-9 and "-" |
| LabelRendering.SanitizeIdempotent | src/renderers/markdown/LabelMarkdownRenderer.ts:41-48 | sanitising sanitised text changes nothing |
| LabelRendering.HashtagFixed | src/renderers/markdown/LabelMarkdownRenderer.ts:41-48 | any text of a-z, 0-9 and "-" is a fixed point of sanitising |
| LabelRendering.HashStripRedundant | src/renderers/markdown/LabelMarkdownRenderer.ts:44-45 | the filter would drop the leading hashes anyway, so stripping them first changes nothing |
| LabelRendering.HashThenSpaceGivesHyphen | src/renderers/markdown/LabelMarkdownRenderer.ts:43-46 | "# word" sanitises to text starting with "-": the space after the hash survives the trim |
| LabelRendering.RenderAsHashtag | src/renderers/markdown/LabelMarkdownRenderer.ts:11-14 | "#" and then the sanitised title |
| LabelRendering.HashtagShape | src/renderers/markdown/LabelMarkdownRenderer.ts:11-14 | a hashtag holds exactly one "#", at position 0, and no space or newline |
| LabelRendering.Render | src/renderers/markdown/LabelMarkdownRenderer.ts:19-25 | hashtag, " - ", description when the description is non-empty; otherwise the hashtag alone |
| LabelRendering.RenderAsListItem | src/renderers/markdown/LabelMarkdownRenderer.ts:31-33 | "- " and then the hashtag |
| LabelRendering.RenderList | src/renderers/markdown/BaseMarkdownRenderer.ts:13-16 | the base list rendering with the label list item |
| LabelRendering.RenderListLines | src/renderers/markdown/BaseMarkdownRenderer.ts:13-16 | the label list has one line per label, each its list item |
| TaskRendering.Checkbox | src/renderers/markdown/TaskMarkdownRenderer.ts:23 | "[x]" exactly when the task is done, otherwise "[ ]" |
| TaskRendering.HashtagsSplit | src/renderers/markdown/TaskMarkdownRenderer.ts:26 | split at spaces, the label suffix gives back each label's hashtag in order |
| TaskRendering.ListItemShape | src/renderers/markdown/TaskMarkdownRenderer.ts:22-30 | "- ", checkbox, space, link to the escaped title with the projects URI of the id, then " " and the hashtags only when there are labels |
| TaskRendering.RenderAsListItem | src/renderers/markdown/TaskMarkdownRenderer.ts:22-30 | starts with "- ", a checkbox and a space; the checkbox is "[x]" exactly when the task is done |
| TaskRendering.RenderList | src/renderers/markdown/BaseMarkdownRenderer.ts:13-16 | the base list rendering with the task list item |
| TaskRendering.Render | src/renderers/markdown/TaskMarkdownRenderer.ts:35-60 | the lines pushed are those of the task's layout, joined by newlines |
| TaskRendering.LayoutSections | src/renderers/markdown/TaskMarkdownRenderer.ts:36-57 | heading, status line, then each present section (description, progress, labels, assignees, in that order) after one empty line |
| TaskRendering.LayoutLines | src/renderers/markdown/TaskMarkdownRenderer.ts:36-57 | the layout has 2 + 2k lines for k present sections; line 0 is "# " and the escaped title, line 1 the status line, and each section is an empty line and its text |
| TaskRendering.DescriptionFirst | src/renderers/markdown/TaskMarkdownRenderer.ts:41-43 | a non-blank description comes right after the status line, trimmed, after an empty line |
| TaskRendering.OnlyRequired | test/__tests__/renderers/markdown/TaskMarkdownRenderer.test.ts:72-82 | a task with no description, progress, labels or assignees renders as exactly two lines |
| ProjectRendering.Render | src/renderers/markdown/ProjectMarkdownRenderer.ts:26-53 | a failure loading tasks propagates; otherwise the lines pushed are the project's layout, joined by newlines |
| ProjectRendering.HeaderStart | src/renderers/markdown/ProjectMarkdownRenderer.ts:27-32 | the first line is "# " and the escaped title; the second is "(ARCHIVED)" exactly when the project is archived |
| ProjectRendering.ParentLine | src/renderers/markdown/ProjectMarkdownRenderer.ts:35-37 | the "Parent Project" link line follows exactly when the parent id is present and non-zero |
| ProjectRendering.DescriptionLines | src/renderers/markdown/ProjectMarkdownRenderer.ts:40-42 | a non-blank description ends the header as an empty line and the trimmed text; a blank one adds nothing |
| ProjectRendering.TasksSection | src/renderers/markdown/ProjectMarkdownRenderer.ts:45-50 | a non-empty task list adds an empty line, "## Tasks" and the rendered list; an empty one adds nothing |
| ProjectRendering.PlainHeading | src/renderers/markdown/ProjectMarkdownRenderer.ts:27 | a title without special characters is its own heading text |
| ProjectRendering.ArchivedLayout | src/renderers/markdown/ProjectMarkdownRenderer.ts:27-50 | an archived project without parent or tasks and with a description is heading, "(ARCHIVED)", empty line, description |
| ProjectRendering.ArchivedExample | test/__tests__/renderers/markdown/ProjectMarkdownRenderer.test.ts:51-56 | "Archived Project" with "An archived project" renders as the four lines of the test |
| ProjectRendering.ListItemShape | src/renderers/markdown/ProjectMarkdownRenderer.ts:58-65 | "- ", then "(ARCHIVED) " only when archived, then the link to the escaped title |
| ProjectRendering.RenderAsListItem | src/renderers/markdown/ProjectMarkdownRenderer.ts:58-65 | "- ", then "(ARCHIVED) " for an archived project, then the link to the escaped title and the project URI |
| ProjectRendering.RenderList | src/renderers/markdown/BaseMarkdownRenderer.ts:13-16 | the base list rendering with the project list item |
| ProjectRendering.ListItemTarget | src/renderers/markdown/ProjectMarkdownRenderer.ts:62 | the link target parses back to the project id for any natural id |
| McpUri.ToMcpUri | src/mcp/utils/uri.ts:4-6 | the project prefix and then the decimal form of the id |
| McpUri.FromMcpUri | src/mcp/utils/uri.ts:11-17 | succeeds exactly on the prefix followed by one or more ASCII digits, with their value; otherwise fails with "Invalid MCP project URI format" |
| McpUri.RoundTrip | src/mcp/utils/uri.ts:4-16 | parsing the URI of a natural id gives the id back |
| McpUri.PrintParsed | src/mcp/utils/uri.ts:12-16 | printing a parsed URI gives it back exactly when its digits have no leading zero |
| McpUri.LeadingZeros | src/mcp/utils/uri.ts:12-16 | ".../007" parses as 7 |
| McpUri.NegativeRejected | src/mcp/utils/uri.ts:5-12 | the URI of a negative id is rejected |
| McpUri.RejectsEmptyId | src/mcp/utils/uri.ts:12-15 | the prefix alone is rejected |
| McpUri.RejectsLetters | src/mcp/utils/uri.ts:12-15 | letters after the prefix are rejected |
| McpUri.RejectsOtherResource | src/mcp/utils/uri.ts:12-15 | "vikunja://invalid/123" is rejected |
| McpUri.RejectsOtherScheme | src/mcp/utils/uri.ts:12-15 | "invalid://projects/123" is rejected |
| McpUri.RejectsMissingSlash | src/mcp/utils/uri.ts:12-15 | "vikunja://projects" is rejected |
| McpUri.RejectsOtherPrefix | src/mcp/utils/uri.ts:12-15 | anything without the "p" of "projects" after the scheme is rejected |
| McpUri.CreateUri | src/mcp/uri.ts:17-19 | a projects URI is the one `toMcpUri` prints; a tasks URI has "t" after the scheme |
| McpUri.TaskUriRejected | src/mcp/uri.ts:17-19 | a tasks URI is not accepted by the project parser |
| ProjectTranslation.StripPrefix | src/mcp/translation/project.ts:14 | the rest after the literal prefix, exactly when the string starts with it |
| ProjectTranslation.ToMcpUri | src/mcp/translation/project.ts:6-8 | the project prefix and then the decimal form of the id |
| ProjectTranslation.FromMcpUri | src/mcp/translation/project.ts:13-19 | succeeds exactly on the project URIs the utils regex accepts; otherwise fails with "Invalid MCP project URI format" |
| ProjectTranslation.ReadDigits | src/mcp/translation/project.ts:14-18 | reading succeeds exactly on a digit string |
| ProjectTranslation.ReadDigitsValue | src/mcp/translation/project.ts:18 | reading digits on from an accumulated value gives the value of the whole digit string |
| ProjectTranslation.SamePrinter | src/mcp/translation/project.ts:6-8 | the translation printer equals the utils printer on every id |
| ProjectTranslation.SameParser | src/mcp/translation/project.ts:13-19 | the translation parser equals the utils parser on every string |
| ProjectTranslation.RoundTrip | src/mcp/translation/project.ts:7-18 | parsing the printed URI of a natural id gives the id back |
| ProjectTranslation.ParsesExample | test/__tests__/mcp/translation/project.test.ts:14-18 | "vikunja://projects/123" gives 123 |
| ProjectTranslation.RejectsMalformed | test/__tests__/mcp/translation/project.test.ts:20-32 | the other scheme, other resource, letters, empty id and missing slash are each rejected |
| TaskResource.CheckRequired | src/client/resource/task.ts:24-27 | accepts exactly data with truthy id, title, created and updated, unchanged; otherwise "Invalid task data: missing required fields" |
| TaskResource.FalsyFieldsRejected | src/client/resource/task.ts:25 | id 0 or an empty title is rejected |
| TaskResource.TransformUser | src/client/resource/task.ts:60-78 | an absent user is id 0, "unknown", "", "" with the task's times; a present one has each missing field defaulted alone |
| TaskResource.TransformAttachment | src/client/resource/task.ts:153-165 | an absent attachment is all defaults; a present one keeps each of id, task_id and created it has and defaults them to 0, 0 and the task's created time; an absent file is all defaults, a present file keeps each of id, name, mime, size and created or defaults it to 0, "", "", 0 and the task's created time; the creator goes through the user transform |
| TaskResource.TransformLabel | src/client/resource/task.ts:176-184 | an absent label is all defaults; a present one keeps each of id, title, description and hex_color it has and defaults it to 0, "", "" and ""; created and updated fall back to the task's; the creator goes through the user transform |
| TaskResource.TransformReminder | src/client/resource/task.ts:196-200 | an absent reminder is "", 0, "due_date"; a present one keeps each of reminder, relative_period and relative_to it has and defaults it to "", 0 and "due_date" |
| TaskResource.TaskPath | src/client/resource/task.ts:41 | "/tasks/" and then the decimal id |
| TaskResource.CreateCall | src/client/resource/task.ts:36 | PUT to "/projects/<projectId>/tasks" |
| TaskResource.GetCall | src/client/resource/task.ts:41 | GET of the task path |
| TaskResource.ListCall | src/client/resource/task.ts:46 | GET of "/tasks/all" |
| TaskResource.UpdateCall | src/client/resource/task.ts:52 | POST to the task path |
| TaskResource.DeleteCall | src/client/resource/task.ts:57 | DELETE of the task path |
| TaskResource.ListPathIsNotATask | src/client/resource/task.ts:41-46 | "/tasks/all" is not the path of any task id |
| TaskResource.TaskPathInjective | src/client/resource/task.ts:41 | distinct ids have distinct task paths |
| TaskResource.TaskImpl.Wrap | src/client/resource/task.ts:20-28 | a task wraps data that passed the required-field check |
| TaskResource.TaskImpl.New | src/client/resource/task.ts:20-28 | a fresh task exactly when the data has the required fields; otherwise the constructor's error |
| TaskResource.TaskImpl.Update | src/client/resource/task.ts:51-54 | the data becomes the response, which is not checked again |
| TaskResource.TaskImpl.Id | src/client/resource/task.ts:81-83 | the id, present and non-zero while the constructor's check holds |
| TaskResource.TaskImpl.Title | src/client/resource/task.ts:84-86 | the title, present and non-empty while the check holds |
| TaskResource.TaskImpl.ProjectId | src/client/resource/task.ts:93-95 | the project id as stored, absent when the record has none, since the non-null assertion checks nothing |
| TaskResource.TaskImpl.Created | src/client/resource/task.ts:123-125 | the created time, present and non-empty while the check holds |
| TaskResource.TaskImpl.Updated | src/client/resource/task.ts:126-128 | the updated time, present and non-empty while the check holds |
| TaskResource.TaskImpl.Description | src/client/resource/task.ts:87-89 | the description, default "" |
| TaskResource.TaskImpl.Done | src/client/resource/task.ts:90-92 | true exactly when done is present and true |
| TaskResource.TaskImpl.Priority | src/client/resource/task.ts:96-98 | the priority, default 0 |
| TaskResource.TaskImpl.PercentDone | src/client/resource/task.ts:99-101 | the percentage done, default 0 |
| TaskResource.TaskImpl.Position | src/client/resource/task.ts:102-104 | the position, default 0 |
| TaskResource.TaskImpl.HexColor | src/client/resource/task.ts:105-107 | the colour, default "" |
| TaskResource.TaskImpl.RepeatAfter | src/client/resource/task.ts:117-119 | the repeat interval, default 0 |
| TaskResource.TaskImpl.BucketId | src/client/resource/task.ts:120-122 | the bucket id, default 0 |
| TaskResource.TaskImpl.IsFavorite | src/client/resource/task.ts:132-134 | true exactly when is_favorite is present and true |
| TaskResource.TaskImpl.Identifier | src/client/resource/task.ts:135-137 | the identifier, default "" |
| TaskResource.TaskImpl.Index | src/client/resource/task.ts:138-140 | the index, default 0 |
| TaskResource.TaskImpl.DueDate | src/client/resource/task.ts:108-110 | the due date as stored, or absent |
| TaskResource.TaskImpl.StartDate | src/client/resource/task.ts:111-113 | the start date as stored, or absent |
| TaskResource.TaskImpl.EndDate | src/client/resource/task.ts:114-116 | the end date as stored, or absent |
| TaskResource.TaskImpl.DoneAt | src/client/resource/task.ts:141-143 | the completion time as stored, or absent |
| TaskResource.TaskImpl.CoverImageAttachmentId | src/client/resource/task.ts:144-146 | the cover image attachment id as stored, or absent |
| TaskResource.TaskImpl.CreatedBy | src/client/resource/task.ts:129-131 | the creator is the user transform of `created_by` with the task's times: "unknown" with id 0 when absent, created time defaulting to the task's |
| TaskResource.TaskImpl.Assignees | src/client/resource/task.ts:148-150 | one user per assignee, in order; no assignees give [] |
| TaskResource.TaskImpl.Attachments | src/client/resource/task.ts:152-166 | one attachment view per attachment, in order; none give [] |
| TaskResource.TaskImpl.Labels | src/client/resource/task.ts:175-185 | one label view per label, in order; none give [] |
| TaskResource.TaskImpl.Reminders | src/client/resource/task.ts:195-201 | one reminder view per reminder, in order; none give [] |
| McpConfig.Issues | src/mcp/config.ts:7-34 | no issues exactly when the environment meets the schema; at most one per variable |
| McpConfig.Accepts | src/mcp/config.ts:7-34 | the schema: a URL, a non-empty token, and digits for each rate-limit variable that is set |
| McpConfig.Setting | src/mcp/config.ts:57-64 | a set variable gives the value of its digits, "0" included; an unset one gives the default |
| McpConfig.IssueLines | src/mcp/config.ts:43-45 | one "path: message" line per issue, in order |
| McpConfig.FailureMessage | src/mcp/config.ts:47-54 | starts with the title and a newline and ends with the fixed help text |
| McpConfig.LoadConfig | src/mcp/config.ts:39-65 | succeeds exactly when the environment is accepted; URL and token are copied verbatim and a rate limit is always present; otherwise the failure message of the issues |
| McpConfig.Defaults | src/mcp/config.ts:61-62 | without the rate-limit variables the limit is 500 requests per 60000 ms |
| McpConfig.RateLimitValues | src/mcp/config.ts:26-33 | a given rate-limit variable's digits are read as its value |
| McpConfig.ZeroKept | src/mcp/config.ts:26 | "0" is accepted and gives 0 |
| McpConfig.NonDigitsRejected | src/mcp/config.ts:26-33 | a rate-limit variable that is not one or more digits is rejected with the pattern issue |
| McpConfig.TokenRejected | src/mcp/config.ts:19 | a missing token is rejected with "Required" and an empty one with zod's minimum-length message |
| McpConfig.UrlRejected | src/mcp/config.ts:12 | a missing URL is rejected with "Required" and an invalid one with "Invalid url", as the first issue |
| McpConfig.IssueLinesPlain | src/mcp/config.ts:43-45 | no issue line holds a line break |
| McpConfig.MessageLines | src/mcp/config.ts:42-54 | the message read as lines is the title, one line per issue, an empty line and the help lines naming both required variables |
| McpConfig.HelpShape | src/mcp/config.ts:50-53 | the help text splits into its three lines between line breaks |
| ConfigValidation.Input | src/config/validation.ts:17-21 | a configuration as an input object: the same URL and token, and a rate limit exactly when it has one |
| ConfigValidation.ErrorOf | src/config/validation.ts:33-37 | code "VALIDATION_ERROR", the issue's message, field = path joined by "." |
| ConfigValidation.ErrorsOf | src/config/validation.ts:33-37 | one configuration error per issue, in order |
| ConfigValidation.Issues | src/config/validation.ts:7-21 | no issues exactly when the URL is valid, the token non-empty and a present rate limit has both values positive; at most four |
| ConfigValidation.Output | src/config/validation.ts:30 | the configuration zod returns reads back to the given input |
| ConfigValidation.ErrorJson | src/config/validation.ts:38 | the JSON object text of one error, in braces |
| ConfigValidation.ErrorsJson | src/config/validation.ts:38 | the error report is a JSON array |
| ConfigValidation.ErrorJsonShape | src/config/validation.ts:33-38 | each error is the JSON object of code, message and field, in that order |
| ConfigValidation.ValidateConfig | src/config/validation.ts:28-42 | resolves exactly when there is no issue, to a valid configuration whose input is the given one; otherwise "Configuration validation failed: " and the JSON of the errors |
| ConfigValidation.ValidResolvesToItself | src/config/validation.ts:28-30 | a valid configuration, with or without a rate limit, resolves to itself |
| ConfigValidation.AcceptedExactlyValid | src/config/validation.ts:7-21 | an input is accepted exactly when it is the object of some valid configuration |
| ConfigValidation.UrlRejected | src/config/validation.ts:18 | a configuration whose only fault is its URL has one issue, "API URL must be a valid URL" under "apiUrl" |
| ConfigValidation.EmptyTokenRejected | src/config/validation.ts:19 | an empty token is rejected with "Token cannot be empty" |
| ConfigValidation.MaxRequestsRejected | src/config/validation.ts:9 | maxRequests of 0 or less is rejected with "Maximum requests must be positive" under "rateLimit.maxRequests" |
| ConfigValidation.TimeWindowRejected | src/config/validation.ts:10 | timeWindow of 0 or less is rejected with "Time window must be positive" |
| Responses.ValidateTaskResponse | src/validation/responses.ts:36-42 | succeeds exactly on values the task schema accepts; otherwise "Invalid task response: " and the zod message |
| Responses.ValidateUserResponse | src/validation/responses.ts:44-50 | succeeds exactly on values the user schema accepts; otherwise "Invalid user response: " and the zod message |
| Responses.Conforms | src/validation/responses.ts:5-34 | zod's acceptance: the value has the schema's type and passes its checks, and an object has every required key and a valid value under every key it has |
| Responses.UserSchemaRules | src/validation/responses.ts:5-12 | a user is valid exactly when the id is positive, the username non-empty, the email valid, the name absent or a string, and both times datetimes |
| Responses.TaskSchemaRules | src/validation/responses.ts:15-34 | a task is valid exactly when its required fields and its present optional fields meet their rules |
| Responses.TaskCoreRules | src/validation/responses.ts:16-25 | the required part: positive id, non-empty title, boolean done, datetime times, valid creator, positive project id |
| Responses.TaskExtraRules | src/validation/responses.ts:26-33 | the optional part: dates are datetimes, bucket_id positive, numbers any number, strings any string |
| Responses.InvalidOptionalRejected | src/validation/responses.ts:27-33 | a bucket_id of 0 or a start_date that is not a datetime is rejected |
| Responses.MissingRequiredRejected | src/validation/responses.ts:17-24 | a task without title or created_by is rejected |
| Responses.UserName | src/validation/responses.ts:9 | a name that is not a string is rejected; a missing name leaves only the other rules to decide |
| ValidationErrors.NewValidationError | src/validation/errors.ts:4-10 | the message as given, name "ValidationError", and the zod error when one is given |
| ValidationErrors.PlainError | src/validation/errors.ts:4-10 | with only a message there is no zod error |
| ValidationErrors.Entries | src/validation/errors.ts:13-14 | one "path: message" entry per issue, in order |
| ValidationErrors.FromZodError | src/validation/errors.ts:12-18 | name "ValidationError", keeps the zod error, and the message starts with "Validation failed: " |
| ValidationErrors.OneEntryPerIssue | src/validation/errors.ts:13-17 | split at commas, the message holds exactly one entry per issue, in issue order |
| ValidationErrors.NestedEntry | src/validation/errors.ts:14 | a three-key path is written dotted before ": " and the message |
| ZodIssues.Segment.Display | src/validation/errors.ts:14 | a key is written as itself and an index in decimal |
| ZodIssues.SegmentTexts | src/validation/errors.ts:14 | one text per path segment, in order |
| ZodIssues.DottedPath | src/validation/errors.ts:14 | split at dots, the joined path gives back each segment when no segment has a dot |
| Text.Trim | src/renderers/markdown/LabelMarkdownRenderer.ts:43 | the result is a slice of the text with only white space cut off before and after it; it neither starts nor ends with white space, and text without white space is unchanged |
| Text.IntToString | src/mcp/utils/uri.ts:5 | a decimal digit string, with a "-" in front for negative numbers |
| Text.DigitsValueOfNatToString | src/mcp/utils/uri.ts:16 | reading back the decimal form of a natural gives the number |
| Text.CanonicalDigits | src/mcp/utils/uri.ts:16 | a digit string without leading zero is the decimal form of its value |

## Left out

- I/O. `fetch` and `Response.json()` are modelled as the `Exchange` input; the JSON serialisation of request bodies and `toMcpContent` are left out.
- Time and concurrency. `Date.now()` and the `setTimeout` sleep are the `now` and `wake` parameters. Calls that overlap across the `await` are not modelled.
- The concurrent resolution inside `Promise.all` in `renderList` is left out; only the ordered result is modelled.
- The MCP server, its resource handlers and the SDK's `UriTemplate` are not part of this model. `createUri` is the simple expansion of `vikunja://{resource}/{id}`.
- The thin wrappers in the project and base resources and in the task translation, and the async `create`/`get`/`list` bodies beyond their paths, are left out.
- `TaskImpl.getProject`, `buckets`, `comments`, `reactions`, `related_tasks` and `subscription` are left out. Their element types are not modelled. `buckets` and `comments` are constant empty lists in the source.
- Zod itself: the URL, e-mail and datetime checks are predicates given as parameters. So is the text of a zod error message in the response validators.
- ConfigValidation.ValidateConfig: an input whose fields have the wrong JSON type (a number for `apiUrl`, say) is not modelled. Fields are present or absent and of the right type. The rethrow of errors other than zod errors has no counterpart.
- HttpClient.ErrorBody: a `code` member that is not a number and a `message` member that is not a string are read as absent. In the source `json as HTTPError` checks no types, so `{code: "x"}` on a 400 gives a ValidationError whose code is "x", and `{message: 5}` gives the message "5". A `null` body and a primitive body on a 404 are modelled (`HttpClient.BodyFault`), with V8's TypeError wording.
- Url.NewUrl: resolution follows RFC 3986 plus three failures of the WHATWG URL Standard that `new URL` follows (no scheme, no host after a special scheme, an opaque path). The URL Standard's other rules are not modelled: a scheme that is not an ASCII letter followed by letters, digits, "+", "-" or "." ("1x://h/api" resolves in the model and throws in `new URL`), a port above 65535 ("http://h:99999/api" likewise), lower-casing of scheme and host, removal of a default port, IPv4 and IDNA host parsing, percent-encoding, "\" read as "/" under a special scheme, an empty path written as "/" under a special scheme (base "http://h/" with path "/" gives "http://h/" in `new URL` and "http://h" in the model), and the re-reading of missing or extra slashes after a special scheme ("http:h/x", "http:///x"). The resolution lemmas (`Url.ResolvePlainRelative`, `HttpClient.RequestUrlReplacesLastSegment`) are stated only on lower-case http and https bases with a plain host name, no default port and plain path characters, where the two standards agree.
- HttpClient.TargetUrl: inherits the gaps of `Url.NewUrl`; a base with an invalid scheme, a port above 65535 or a host the URL Standard's host parser refuses builds a URL in the model where `new URL` throws, so its failure cases are those of the model, not all of the source's.
- MarkdownHelpers.CreateListItem: takes a natural `level`. In the source a negative level makes `repeat` throw a RangeError; every caller passes a constant, so that path is not modelled.
- MarkdownHelpers.CreateHeading: takes a natural `level`, for the same reason; a negative level would make `repeat` throw a RangeError.
- Floating point. Numbers are integers. Non-integer `percent_done` formatting and `Number(...)` beyond the safe-integer range are not modelled.
- McpUri.RoundTrip: stated for every natural number. The source only guarantees it up to the safe-integer limit of JavaScript numbers.
- The tests expect several behaviours the code does not have, and the model follows the code. These are an `/api/v1` suffix on the base URL, rate limiting inside the client, a `client.config` accessor, escaping in `createLink`, `vikunja://tasks/...` task links, and `ValidationError`s from `validateTaskResponse`.
