# A verified model of the Harbor MCP server's core

The Harbor MCP server exposes eleven tools to MCP clients: list, get, create and delete for
projects; list and delete for repositories; list and delete for tags; and three Helm chart
tools: list_charts, list_chart_versions, and delete_chart, which deletes one version of a
chart. It forwards each call to a Harbor registry. This project
models the part of the server that makes decisions:

- **Startup check** (`App.ValidateEnvironment`): the server refuses to start unless
  `HARBOR_URL`, `HARBOR_USERNAME` and `HARBOR_PASSWORD` are all set. The error names the
  first missing variable.
- **Tool table** (`ToolDefinitions.Table`, `App.InlineTable`): each tool's description and
  JSON input schema. There are two copies: the shared definitions module and the server's
  inline copy. The model proves the two are the same.
- **Dispatcher** (`App.Plan`, `App.PlanTool`, `App.HandleToolRequest`, `App.CallTool`):
  - An unknown tool name is a method-not-found error.
  - Each tool checks its required arguments in order. A falsy one is an invalid-params error
    naming it.
  - Otherwise exactly one service operation runs, with the validated arguments.
  - The answer is one text entry. For a delete it is a fixed confirmation; otherwise it is
    the serialized result.
  - The call-tool handler turns any thrown error into a protocol error.
- **Service** (`Harbor.HarborService`):
  - Project identifiers are classified: a number when `Number(id)` is not NaN, otherwise a
    project name.
  - Repository paths are composed as `project/repository` and `charts/<chart>`.
  - Artifact listings are reshaped into tag and chart-version entries.
  - Repository listings are filtered into the chart view.
  - To delete a tag or chart version, the service lists the repository's artifacts, finds
    the first artifact whose `tags` array includes the tag string, and deletes that artifact
    by its digest. The model keeps the written match, `tags.includes(tag)`, which compares
    by strict equality and so never matches a tag record (see Findings).
  - Chart versions report the artifact's first `tags` entry as it is, as the source does,
    even when that entry is a tag record (see Findings).
- **Shared types** (`Types`): the error taxonomy (HarborError, ValidationError and
  ResourceError, with their JSON-RPC codes from section 5.1 of the JSON-RPC 2.0
  specification), the `TOOL_NAMES` constant and the `validateRequired` family of validators.

The remote registry is replaced by a store held in the service object:

- `artifacts`: what each repository's artifact listing answers. A listing can return an
  array, return nothing, or fail with a message.
- `repositories`: what each project's repository listing answers, in any of the shapes
  getCharts handles.
- `issued`: a log of the requests the service sends to the registry, in order: project
  get/delete, repository delete and artifact delete.

The listings are independent answers. A project or repository delete is logged only; it
does not update `artifacts` or `repositories`. An artifact delete removes the artifact from
its listing in `artifacts`. When digests are unique (the
service's `Valid()` invariant), the method proves that exactly the matched artifact is gone.

Some behaviour is passed in as parameters, so the model does not depend on it:

- the service operations as seen by the dispatcher (`ServiceCall -> Result<V, Thrown>`);
- `JSON.stringify`;
- JavaScript's numeric-literal grammar beyond plain decimal digits (`numberSyntax`).

Where the source disagrees with its own documentation and test fixtures, the model follows
the source:

- **createProject does not refetch.** The service's createProject
  (`src/services/harbor.service.ts:47-52`) passes the client's answer straight through. It
  does not look the new project up again and does not fail when no id comes back.
- **Not-found is a plain `Error`.** A missing tag or chart version is thrown as a plain
  `Error`, not as a ResourceError. The call-tool handler reports such an `Error` as an
  internal error with its message; `App.TranslateError` states that translation. The service
  model returns the message as a failure, and the dispatcher takes the service as a
  parameter, so the two are not connected in the model.
- **The service does not validate its inputs.** The service's test fixtures expect it to
  validate identifiers itself. The source service does not: only the dispatcher's
  `validateParam` validates.

## Model

| member | source | states |
|---|---|---|
| Types.NewHarborError | src/types/index.ts:2-14 | the error keeps its message; the code defaults to -32603 and an explicit code is kept; the name is "HarborError" |
| Types.NewValidationError | src/types/index.ts:16-24 | code -32602, name "ValidationError"; an instance of ValidationError and of HarborError, not of ResourceError |
| Types.NewResourceError | src/types/index.ts:26-34 | code -32601, name "ResourceError"; an instance of ResourceError and of HarborError, not of ValidationError |
| Types.ErrorNamesDistinguishClasses | src/types/index.ts:2-34 | two errors have the same name exactly when they have the same class; every error is a HarborError |
| Types.ToolNames | src/types/index.ts:93-105 | the values of TOOL_NAMES, one per key, in declaration order |
| Types.ToolNamesDistinct | src/types/index.ts:93-105 | eleven keys, each listed once; no two tools share a name |
| Types.ToolNameInjective | src/types/index.ts:93-105 | distinct keys have distinct tool names |
| Types.ToolOf | src/app.ts:242-412 | the switch's lookup: a key is found only for its own name, and no key is found for any other string |
| Types.ToolOfToolName | src/app.ts:242-412 | the lookup inverts TOOL_NAMES: every tool name is dispatched to its own key |
| Types.ValidateRequired | src/types/index.ts:119-123 | passes exactly when the value is truthy; otherwise a ValidationError "<name> is required" with code -32602 |
| Types.ValidateProjectId | src/types/index.ts:125-127 | passes exactly for a truthy value; otherwise a ValidationError "projectId is required" |
| Types.ValidateRepositoryName | src/types/index.ts:129-131 | passes exactly for a truthy value; otherwise a ValidationError "repositoryName is required" |
| Types.ValidateChartName | src/types/index.ts:133-135 | passes exactly for a truthy value; otherwise a ValidationError "chartName is required" |
| Types.ValidateTag | src/types/index.ts:137-139 | passes exactly for a truthy value; otherwise a ValidationError "tag is required" |
| Types.ValidateVersion | src/types/index.ts:141-143 | passes exactly for a truthy value; otherwise a ValidationError "version is required" |
| JsValues.Truthy | src/app.ts:236 | JavaScript truthiness: undefined, null, false, 0, NaN and "" are the falsy values |
| JsValues.Contains | src/services/harbor.service.ts:149 | `includes`: an occurrence needs the text to be at least as long; the empty text occurs everywhere |
| JsValues.OrElse | src/services/harbor.service.ts:124-126 | `message \|\| fallback`: the message when it is non-empty, else the fallback |
| JsValues.LastSegment | src/services/harbor.service.ts:154 | `split("/").pop()`: a suffix of the name with no '/', preceded by '/' unless it is the whole name |
| JsValues.LastSegmentUnique | src/services/harbor.service.ts:154 | the last segment is the only suffix with those properties |
| JsValues.FindIndex | src/services/harbor.service.ts:106-108 | `find`: the first index where the predicate holds, or none exactly when it holds nowhere |
| ToolDefinitions.RequiredLists | src/definitions/tool.definitions.ts:3-129 | every tool's required arguments, in declared order |
| ToolDefinitions.OneDefinitionPerTool | src/definitions/tool.definitions.ts:3-129 | the table's keys are exactly the TOOL_NAMES values, and each key is dispatched to a tool |
| ToolDefinitions.RequiredAreDeclaredStrings | src/definitions/tool.definitions.ts:3-129 | every required argument is a declared property of type "string", and metadata is never required |
| ToolDefinitions.MetadataIsObject | src/definitions/tool.definitions.ts:22-41 | only create_project declares metadata, and declares it as an object |
| ToolDefinitions.OnlyListProjectsTakesNoArguments | src/definitions/tool.definitions.ts:4-11 | list_projects is the only tool with no required arguments |
| ToolDefinitions.ProjectIdRequired | src/definitions/tool.definitions.ts:3-129 | every tool except list_projects and create_project requires projectId, and lists it first |
| Harbor.ClassifyProjectId | src/services/harbor.service.ts:38-61 | by name exactly when `Number(id)` is NaN; a plain decimal string is the project with that number |
| Harbor.DecimalValue | src/services/harbor.service.ts:40-41 | `Number(id)` of a string of decimal digits, a value below ten to the number of digits |
| Harbor.ClassifyExamples | src/services/harbor.service.ts:38-61 | "1" is project 1 and "42" is project 42; "" is project 0, because `Number("")` is 0; "test-project" is looked up by name |
| Harbor.IncludesTag | src/services/harbor.service.ts:107 | `a.tags && a.tags.includes(tag)`: some tags entry is the plain string `tag` |
| Harbor.RecordsNeverMatch | src/services/harbor.service.ts:106-108 | as written, the match never finds an artifact whose tags are all records |
| Harbor.IncludesTagIsHasTagOnNames | src/services/harbor.service.ts:106-108 | the written match finds no more than the match by tag name, and the two agree when all tags are plain strings |
| Harbor.RecordTagMissedAsWritten | src/services/harbor.service.ts:106-111 | for an artifact tagged by the record "latest", the written lookup finds nothing, while the lookup by name finds that artifact |
| Harbor.RemoveDigest | src/services/harbor.service.ts:114-118 | deleting by digest keeps only artifacts of other digests, and never adds one |
| Harbor.RemoveAbsentDigest | src/services/harbor.service.ts:114-118 | deleting a digest that is not in the list changes nothing |
| Harbor.RemoveDigestRemovesOne | src/services/harbor.service.ts:114-118 | with unique digests, deleting the digest of artifact i removes exactly artifact i, and digests stay unique |
| Harbor.RemoveOnlyMatch | src/services/harbor.service.ts:114-118 | deleting a digest that only artifact i has removes exactly artifact i |
| Harbor.RemoveDigestAppend | src/services/harbor.service.ts:114-118 | deleting by digest works piece by piece on a concatenation |
| Harbor.UniqueWithout | src/services/harbor.service.ts:114-118 | dropping one artifact keeps digests unique |
| Harbor.LookupIncludes | src/services/harbor.service.ts:99-111 | the written list-then-find: a failed listing is passed on with its message; otherwise the first artifact whose tags include the tag string, with its digest; no match exactly when no listed artifact's tags include it |
| Harbor.LookupTagged | src/services/harbor.service.ts:99-111 | the intended lookup: the same, matching an artifact one of whose tag entries is named by the tag |
| Harbor.LookupsAgreeOnBareNames | src/services/harbor.service.ts:106-108 | when every listed tag is a plain string, the written lookup and the lookup by name give the same result |
| Harbor.Summarize | src/services/harbor.service.ts:87-93 | the digest becomes the name, the tags are copied (or [] when absent), and size, push time and pull time are copied |
| Harbor.TagSummaries | src/services/harbor.service.ts:87-93 | one entry per artifact |
| Harbor.TagSummariesAt | src/services/harbor.service.ts:87-93 | entry i has artifact i's digest as its name, its tags (or [] when they are absent), and its size, push time and pull time |
| Harbor.FirstTagAsWritten | src/services/harbor.service.ts:172 | `tags?.[0] \|\| ""`: the first tags entry as it is, record or string, or "" when there is none |
| Harbor.FirstTagName | src/services/harbor.service.ts:172 | the intended version: the first tag's name, or "" when there is no tag |
| Harbor.FirstTagNameIsNameOfFirstTag | src/services/harbor.service.ts:172 | the intended version is the name of the entry the written code reports |
| Harbor.RecordVersionAsWritten | src/services/harbor.service.ts:172 | as written, a chart artifact tagged by the record "1.0.0" reports the record as its version, not the string "1.0.0" |
| Harbor.ChartVersionOf | src/services/harbor.service.ts:170-175 | the digest becomes the name, the first tags entry as written the version, and the push and update times the creation and update times |
| Harbor.ChartVersionList | src/services/harbor.service.ts:170-175 | one entry per artifact |
| Harbor.ChartVersionListAt | src/services/harbor.service.ts:170-175 | entry i has artifact i's digest, its first tags entry as it is (or ""), and its push time and update time |
| Harbor.RepositoryArray | src/services/harbor.service.ts:138-145 | an array is taken as it is, an object's `data` is used when truthy, and every other shape gives [] |
| Harbor.ChartOf | src/services/harbor.service.ts:153-159 | the chart name is the last segment of the repository name, so it has no '/' and occurs in that name; the version count is the artifact count, or 0 when it is absent; the latest version is ""; the creation and update times are the repository's |
| Harbor.IsChartRepository | src/services/harbor.service.ts:149 | `repo.name && repo.name.includes("/charts/")`: a non-empty name containing "/charts/", so at least as long as that text |
| Harbor.ChartRepositories | src/services/harbor.service.ts:148-150 | only repositories of the input whose name contains "/charts/" are kept, and never more than the input |
| Harbor.Charts | src/services/harbor.service.ts:147-159 | at most one chart per repository; every chart's name has no '/' and its latest version is "" |
| Harbor.ChartPositions | src/services/harbor.service.ts:148-150 | the indices of the chart repositories, increasing, with none left out |
| Harbor.ChartRepositoriesArePositions | src/services/harbor.service.ts:148-150 | the filter keeps exactly the repositories at the chart positions, in order |
| Harbor.ChartsAreTheChartRepositories | src/services/harbor.service.ts:147-159 | getCharts yields one chart per chart repository, in input order: entry k is the chart view of the k-th chart repository |
| Harbor.ChartRepositoriesOfPair | src/services/harbor.service.ts:148-150 | a chart repository followed by another repository filters to the first alone |
| Harbor.ChartOfExample | src/services/harbor.service.ts:153-159 | "project1/charts/chart1" with two artifacts is the chart "chart1" with two versions |
| Harbor.ChartsExample | src/services/harbor.service.ts:147-159 | "project1/charts/chart1" is reported as chart "chart1"; "project1/not-a-chart" is left out |
| Harbor.ChartPath | src/services/harbor.service.ts:164-167 | chart versions live under the repository `charts/<chartName>` of the project |
| Harbor.HarborService.constructor | src/services/harbor.service.ts:17-28 | the service starts from the given registry state, with no requests issued |
| Harbor.HarborService.GetProject | src/services/harbor.service.ts:38-45 | issues exactly one fetch, by number or by name as classified; nothing else changes |
| Harbor.HarborService.DeleteProject | src/services/harbor.service.ts:54-61 | issues exactly one delete, by number or by name as classified; nothing else changes |
| Harbor.HarborService.DeleteRepository | src/services/harbor.service.ts:72-76 | issues exactly one delete of "projectId/repositoryName"; nothing else changes |
| Harbor.HarborService.GetTags | src/services/harbor.service.ts:78-94 | fails exactly when the listing fails, with its message; otherwise the summaries of the listed artifacts (none when the listing is empty), one per artifact |
| Harbor.HarborService.GetCharts | src/services/harbor.service.ts:130-160 | fails exactly when the repository listing fails, with its message; otherwise exactly the chart view of the repository array the answer reduces to |
| Harbor.HarborService.GetChartVersions | src/services/harbor.service.ts:162-179 | lists "charts/<chartName>"; [] when the listing fails; otherwise exactly the chart-version entries of the listed artifacts, one per artifact |
| Harbor.HarborService.DeleteTagged | src/services/harbor.service.ts:99-118 | returns the written lookup's result. On a match it deletes that artifact's digest: the artifact leaves the listing and one delete request is logged. Otherwise nothing changes. Digests stay unique |
| Harbor.HarborService.DeleteTag | src/services/harbor.service.ts:96-127 | with the written `includes` match: listing error, or "Failed to delete tag" when its message is empty; "Tag <tag> not found in repository <repo>"; or success "Tag <tag> deleted successfully", with the artifact removed |
| Harbor.HarborService.DeleteChart | src/services/harbor.service.ts:181-215 | the same written steps under "charts/<chartName>", with the fallback "Failed to delete chart version", the not-found and success messages, and the artifact removed |
| App.ValidateEnvironment | src/app.ts:161-171 | starts exactly when all three variables are non-empty; otherwise the error names the first empty one, checked in the order URL, username, password |
| App.InlineTableIsSharedTable | src/app.ts:21-147 | the server's inline table equals the shared definitions table |
| App.InlineTableNamesEveryTool | src/app.ts:21-147 | the server's table has an entry for every tool name and for nothing else |
| App.ListToolsListsEachToolOnce | src/app.ts:206-212 | the listed names are exactly the table's keys, and no name is listed twice |
| App.ListTools | src/app.ts:206-212 | one listing per tool, in TOOL_NAMES order, carrying the table's description and schema for that name |
| App.TaxonomyCodesAreProtocolCodes | src/types/index.ts:7-34 | the taxonomy's default codes are the protocol's internal-error, invalid-params and method-not-found codes |
| App.ValidateParam | src/app.ts:235-240 | a truthy argument passes unchanged; a falsy one is invalid-params "<name> is required" |
| App.ValidateParamIsValidateRequired | src/app.ts:235-240 | validateParam and validateRequired refuse the same values, with the same message and code |
| App.TranslateError | src/app.ts:217-227 | a protocol error is rethrown unchanged; another Error becomes internal-error with its message; any other value becomes internal-error "Unknown error occurred" |
| App.Plan | src/app.ts:242-412 | method-not-found exactly when the name is no tool's, with "Unknown tool: <name>"; a planned call serves the named tool |
| App.PlanTool | src/app.ts:257-406 | a planned call serves tool k and carries only truthy checked arguments; a refusal is invalid-params, and list_projects is never refused |
| App.Confirmation | src/app.ts:296-404 | a fixed, non-empty confirmation exactly for the four deleting tools |
| App.Respond | src/app.ts:242-406 | a service failure propagates unchanged; a success is one text entry, the serialized result for a tool without confirmation |
| App.HandleToolRequest | src/app.ts:231-414 | a refused plan is thrown as its protocol error and no service runs; otherwise the planned call's outcome is answered |
| App.CallTool | src/app.ts:214-228 | missing arguments are an empty bag; a success passes through; any thrown value is translated to a protocol error |
| App.UnknownToolIsMethodNotFound | src/app.ts:408-412 | a name outside the table is method-not-found "Unknown tool: <name>", whatever the service does |
| App.ValidationFollowsSchema | src/app.ts:242-406 | a call is refused exactly when one of the schema's required arguments is falsy; the error names the first one |
| App.PlanToolRefusal | src/app.ts:257-406 | each case refuses exactly when one of the arguments it checks is falsy, naming the first such argument |
| App.PlanForwardsRequiredArguments | src/app.ts:242-406 | a successful call of tool k runs k's operation, with the schema's required arguments in order, unchanged |
| App.PlanToolForwards | src/app.ts:257-406 | each case calls its own operation, with the arguments it checked |
| App.CheckedArgumentsAreRequired | src/app.ts:257-406 | each case checks exactly the schema's required arguments, in order |
| App.CreateProjectForwardsMetadata | src/app.ts:273-280 | create_project forwards metadata exactly when it is truthy |
| App.RefusedCallRunsNoService | src/app.ts:235-240 | a refused call answers the validation error, whatever the service would do |
| App.SuccessIsOneTextEntry | src/app.ts:242-406 | a successful answer is one text entry: the fixed confirmation for a delete, or the serialized result for any other tool |
| App.DeleteConfirmations | src/app.ts:296-404 | the four deleting tools, and only they, answer their fixed confirmation text |
| App.CallToolTranslation | src/app.ts:214-228 | missing arguments act as {}; a dispatcher error reaches the client unchanged; translation is idempotent; any non-protocol error becomes internal-error |
| App.MissingArgumentIsInvalidParams | src/app.ts:214-240 | end to end: a known tool with a falsy required argument answers invalid-params, naming the first such argument |

## Left out

- The registry client is not modelled: HTTP, authentication, the TLS toggle and the
  connection options. The store stands in for the registry's answers.
- Logging, the MCP transport, dotenv loading and the server's startup sequence are I/O.
- The controllers, the HTTP routes and the developer tools are outside this core.
- The service's getProjects and getRepositories (`response || []`) and createProject (the
  project name, plus the metadata when it is truthy) each make one client call. The service
  model does not include them, because their answers are the client's. The dispatcher
  plans their calls, and `App.PlanTool` builds createProject's data the same way.
- Deletes of projects and repositories are logged in `issued` only. The listings are not
  updated afterwards, so a later getTags, getCharts or getChartVersions in the model still
  answers what it answered before, where the registry would no longer list the deleted
  repository or its artifacts.
- An artifact delete does not update the repository's `artifact_count` in `repositories`, so
  a later getCharts still reports the old count as `total_versions`.
- Fetching a project is logged; the record fetched is the registry's and is not modelled.
- A failed artifact delete request is not modelled: the delete always succeeds against the
  store.
- Harbor.ClassifyProjectId: `Number()` is computed only for strings of decimal digits. For
  other numeric strings (signs, fractions, exponents, hex, surrounding white space) the
  abstract `numberSyntax` decides whether the result is NaN, and the model does not build
  the number.
- Argument values (`JsValue`) hold numbers as reals, without floating-point rounding. Sizes
  and artifact counts are integers. A decimal project id becomes its exact value (`ById`),
  while `Number()` rounds values above 2^53. The exact `JSON.stringify(…, null, 2)` text is
  outside the model.
- `validateParam`'s `as string` is a type cast only. The model forwards the validated
  argument as it is, so a non-string truthy value reaches the service unchanged.
- An artifact listing that answers a truthy non-array value is not modelled. Such a value
  would make `.map`/`.find` throw.
- Artifact fields no core operation reads (type, ids) are left out.
- Some test fixtures disagree with the source:
  - The getTags test expects the raw artifacts back, while the source maps each artifact to
    a summary.
  - The service tests expect service-level validation, which the source lacks.
  - The model follows the source in both cases.

## Findings

| source | as written | input that shows it | evidently intended | confidence | as-written member | corrected member |
|---|---|---|---|---|---|---|
| src/services/harbor.service.ts:106-108, 191-193 | `a.tags.includes(tag)` compares the tag string with each entry by strict equality, so tag records never match | deleteTag("project", "repo", "latest") on an artifact whose tags are `[{name: "latest"}]`: the declared HarborArtifactTag[] shape and the test fixtures use this shape, yet the answer is "Tag latest not found in repository repo" | match an entry whose name is the tag | medium, not executed | Harbor.RecordTagMissedAsWritten | Harbor.LookupTagged |
| src/services/harbor.service.ts:172 | `artifact.tags?.[0] \|\| ""` reports the first entry itself, which is a record | getChartVersions on an artifact tagged `[{name: "1.0.0"}]` reports the record as the version, where HarborChartVersion declares a string and the test expects "1.0.0" | the first tag's name | medium, not executed | Harbor.RecordVersionAsWritten | Harbor.FirstTagName |
