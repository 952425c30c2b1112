/** The tool server's decision layer: validating the environment, the inline tool table the
    server advertises, mapping a tool call to one service operation, building the response,
    and translating thrown errors into protocol errors. The service and `JSON.stringify` are
    parameters: the dispatcher only decides which operation to call with which arguments and
    what to answer. */
module App {
  import opened Wrappers
  import opened JsValues
  import opened Types
  import opened ToolDefinitions

  // ---------------------------------------------------------------------------
  // Startup: environment
  // ---------------------------------------------------------------------------

  /** `process.env.NAME`: a missing variable reads as undefined. */
  function EnvValue(env: map<string, string>, name: string): string {
    if name in env then env[name] else ""
  }

  /** `validateEnvironment`: the first of HARBOR_URL, HARBOR_USERNAME, HARBOR_PASSWORD that is
      missing or empty is named in the thrown message. */
  function ValidateEnvironment(env: map<string, string>): (r: Outcome<string>)
    ensures r.Pass? <==>
      EnvValue(env, "HARBOR_URL") != "" && EnvValue(env, "HARBOR_USERNAME") != "" &&
      EnvValue(env, "HARBOR_PASSWORD") != ""
    ensures r == Fail("HARBOR_URL environment variable is required") <==> EnvValue(env, "HARBOR_URL") == ""
    ensures r == Fail("HARBOR_USERNAME environment variable is required") <==>
      EnvValue(env, "HARBOR_URL") != "" && EnvValue(env, "HARBOR_USERNAME") == ""
    ensures r == Fail("HARBOR_PASSWORD environment variable is required") <==>
      EnvValue(env, "HARBOR_URL") != "" && EnvValue(env, "HARBOR_USERNAME") != "" &&
      EnvValue(env, "HARBOR_PASSWORD") == ""
  {
    if EnvValue(env, "HARBOR_URL") == "" then Fail("HARBOR_URL environment variable is required")
    else if EnvValue(env, "HARBOR_USERNAME") == "" then Fail("HARBOR_USERNAME environment variable is required")
    else if EnvValue(env, "HARBOR_PASSWORD") == "" then Fail("HARBOR_PASSWORD environment variable is required")
    else Pass
  }

  // ---------------------------------------------------------------------------
  // The inline tool table and tool listing
  // ---------------------------------------------------------------------------

  /** The server's own copy of the tool table. */
  const InlineTable: map<string, ToolDef> := map[
    ToolName(ListProjects) := ToolDef("List all projects in Harbor",
      InputSchema("object", map[], [])),
    ToolName(GetProject) := ToolDef("Get project details by ID",
      InputSchema("object", map["projectId" := StringProp], ["projectId"])),
    ToolName(CreateProject) := ToolDef("Create a new project in Harbor",
      InputSchema("object", map["project_name" := StringProp, "metadata" := ObjectProp(map[
        "public" := StringProp,
        "enable_content_trust" := StringProp,
        "prevent_vul" := StringProp,
        "severity" := StringProp,
        "auto_scan" := StringProp
      ])], ["project_name"])),
    ToolName(DeleteProject) := ToolDef("Delete a project by ID",
      InputSchema("object", map["projectId" := StringProp], ["projectId"])),
    ToolName(ListRepositories) := ToolDef("List all repositories in a project",
      InputSchema("object", map["projectId" := StringProp], ["projectId"])),
    ToolName(DeleteRepository) := ToolDef("Delete a repository",
      InputSchema("object", map["projectId" := StringProp, "repositoryName" := StringProp],
        ["projectId", "repositoryName"])),
    ToolName(ListTags) := ToolDef("List all tags in a repository",
      InputSchema("object", map["projectId" := StringProp, "repositoryName" := StringProp],
        ["projectId", "repositoryName"])),
    ToolName(DeleteTag) := ToolDef("Delete a tag from a repository",
      InputSchema("object", map["projectId" := StringProp, "repositoryName" := StringProp, "tag" := StringProp],
        ["projectId", "repositoryName", "tag"])),
    ToolName(ListCharts) := ToolDef("List all Helm charts in a project",
      InputSchema("object", map["projectId" := StringProp], ["projectId"])),
    ToolName(ListChartVersions) := ToolDef("List all versions of a Helm chart",
      InputSchema("object", map["projectId" := StringProp, "chartName" := StringProp],
        ["projectId", "chartName"])),
    ToolName(DeleteChart) := ToolDef("Delete a specific version of a Helm chart",
      InputSchema("object", map["projectId" := StringProp, "chartName" := StringProp, "version" := StringProp],
        ["projectId", "chartName", "version"]))
  ]

  /** The server's copy is the shared definitions table, tool for tool. */
  lemma InlineTableIsSharedTable()
    ensures InlineTable == Table
  {
  }

  /** One entry of the list-tools answer. */
  datatype ToolListing = ToolListing(name: string, description: string, inputSchema: InputSchema)

  /** `Object.entries(TOOL_DEFINITIONS).map(...)`: one entry per tool, in the order the table
      lists them, which is the order of TOOL_NAMES. */
  function ListTools(): (r: seq<ToolListing>)
    ensures |r| == |AllToolKeys|
    ensures forall i | 0 <= i < |r| ::
      r[i].name == ToolName(AllToolKeys[i]) && r[i].name in InlineTable &&
      r[i].description == InlineTable[r[i].name].description &&
      r[i].inputSchema == InlineTable[r[i].name].inputSchema
  {
    seq(|AllToolKeys|, i requires 0 <= i < |AllToolKeys| =>
      var name := ToolName(AllToolKeys[i]);
      ToolListing(name, InlineTable[name].description, InlineTable[name].inputSchema))
  }

  /** The server's table has one entry per tool name and nothing else. */
  lemma InlineTableNamesEveryTool()
    ensures forall n :: n in InlineTable <==> exists k: ToolKey :: ToolName(k) == n
  {
    InlineTableIsSharedTable();
    OneDefinitionPerTool();
  }

  /** The list-tools answer names exactly the tools of TOOL_DEFINITIONS, each once. */
  lemma ListToolsListsEachToolOnce()
    ensures forall n :: n in InlineTable <==> exists i | 0 <= i < |ListTools()| :: ListTools()[i].name == n
    ensures forall i, j | 0 <= i < j < |ListTools()| :: ListTools()[i].name != ListTools()[j].name
  {
    var r := ListTools();
    forall n ensures n in InlineTable <==> exists i | 0 <= i < |r| :: r[i].name == n {
      InlineTableNamesEveryTool();
      if n in InlineTable {
        var k :| ToolName(k) == n;
        assert r[KeyIndex(k)].name == n;
      }
      if exists i | 0 <= i < |r| :: r[i].name == n {
        var i :| 0 <= i < |r| && r[i].name == n;
        assert ToolName(AllToolKeys[i]) == n;
      }
    }
    forall i, j | 0 <= i < j < |r| ensures r[i].name != r[j].name {
      ToolNamesDistinct();
      ToolNameInjective(AllToolKeys[i], AllToolKeys[j]);
    }
  }

  // ---------------------------------------------------------------------------
  // Protocol errors and responses
  // ---------------------------------------------------------------------------

  /** The protocol's error codes the server uses. */
  datatype ErrorCode = InvalidParams | MethodNotFound | InternalError

  /** Their JSON-RPC 2.0 values (section 5.1 of the JSON-RPC 2.0 specification). */
  function CodeValue(c: ErrorCode): int {
    match c
    case InvalidParams => -32602
    case MethodNotFound => -32601
    case InternalError => -32603
  }

  /** The codes the error taxonomy defaults to are the protocol codes named beside them. */
  lemma TaxonomyCodesAreProtocolCodes(message: string)
    ensures NewHarborError(message, None).code == CodeValue(InternalError)
    ensures NewValidationError(message).code == CodeValue(InvalidParams)
    ensures NewResourceError(message).code == CodeValue(MethodNotFound)
  {
  }

  datatype McpError = McpError(code: ErrorCode, message: string)

  /** What a handler may throw: a protocol error, another Error (message kept), or a value that
      is not an Error at all. */
  datatype Thrown = ThrownMcp(error: McpError) | ThrownError(message: string) | ThrownOther(value: JsValue)

  datatype Content = Content(kind: string, text: string)
  datatype ToolResponse = ToolResponse(content: seq<Content>)

  function TextResponse(text: string): ToolResponse {
    ToolResponse([Content("text", text)])
  }

  // ---------------------------------------------------------------------------
  // Dispatch
  // ---------------------------------------------------------------------------

  /** The data create_project forwards: `metadata` only when present and truthy. */
  datatype ProjectData = ProjectData(project_name: JsValue, metadata: Option<JsValue>)

  /** The one service operation a tool call maps to, with the arguments it receives. The `as
      string` casts convert nothing, so arguments are forwarded as they arrived. */
  datatype ServiceCall =
    | GetProjectsCall
    | GetProjectCall(projectId: JsValue)
    | CreateProjectCall(data: ProjectData)
    | DeleteProjectCall(projectId: JsValue)
    | GetRepositoriesCall(projectId: JsValue)
    | DeleteRepositoryCall(projectId: JsValue, repositoryName: JsValue)
    | GetTagsCall(projectId: JsValue, repositoryName: JsValue)
    | DeleteTagCall(projectId: JsValue, repositoryName: JsValue, tag: JsValue)
    | GetChartsCall(projectId: JsValue)
    | GetChartVersionsCall(projectId: JsValue, chartName: JsValue)
    | DeleteChartCall(projectId: JsValue, chartName: JsValue, version: JsValue)

  /** The tool a call serves. */
  function ToolOfCall(c: ServiceCall): ToolKey {
    match c
    case GetProjectsCall => ListProjects
    case GetProjectCall(_) => GetProject
    case CreateProjectCall(_) => CreateProject
    case DeleteProjectCall(_) => DeleteProject
    case GetRepositoriesCall(_) => ListRepositories
    case DeleteRepositoryCall(_, _) => DeleteRepository
    case GetTagsCall(_, _) => ListTags
    case DeleteTagCall(_, _, _) => DeleteTag
    case GetChartsCall(_) => ListCharts
    case GetChartVersionsCall(_, _) => ListChartVersions
    case DeleteChartCall(_, _, _) => DeleteChart
  }

  /** The validated arguments a call carries, in parameter order. */
  function CallArguments(c: ServiceCall): seq<JsValue> {
    match c
    case GetProjectsCall => []
    case GetProjectCall(p) => [p]
    case CreateProjectCall(d) => [d.project_name]
    case DeleteProjectCall(p) => [p]
    case GetRepositoriesCall(p) => [p]
    case DeleteRepositoryCall(p, r) => [p, r]
    case GetTagsCall(p, r) => [p, r]
    case DeleteTagCall(p, r, t) => [p, r, t]
    case GetChartsCall(p) => [p]
    case GetChartVersionsCall(p, c) => [p, c]
    case DeleteChartCall(p, c, v) => [p, c, v]
  }

  /** `args.name`: a missing argument reads as undefined. */
  function Arg(args: map<string, JsValue>, name: string): JsValue {
    if name in args then args[name] else Undef
  }

  /** `validateParam`: a falsy argument is an invalid-params error naming it; a truthy one is
      passed on unchanged. */
  function ValidateParam(param: JsValue, name: string): (r: Result<JsValue, McpError>)
    ensures r.Success? <==> Truthy(param)
    ensures r.Success? ==> r.value == param
    ensures r.Failure? ==> r.error == McpError(InvalidParams, name + " is required")
  {
    if !Truthy(param) then Failure(McpError(InvalidParams, name + " is required")) else Success(param)
  }

  /** validateParam and the shared validateRequired refuse the same values, with the same
      message and the same numeric code. */
  lemma ValidateParamIsValidateRequired(param: JsValue, name: string)
    ensures ValidateParam(param, name).Success? <==> ValidateRequired(param, name).Pass?
    ensures ValidateParam(param, name).Failure? ==>
      && ValidateParam(param, name).error.message == ValidateRequired(param, name).error.message
      && CodeValue(ValidateParam(param, name).error.code) == ValidateRequired(param, name).error.code
  {
  }

  /** The guard clauses and the `switch` of handleToolRequest: which operation to call, or the
      error thrown before any call. */
  function Plan(toolName: string, args: map<string, JsValue>): (r: Result<ServiceCall, McpError>)
    ensures r.Failure? && r.error.code == MethodNotFound <==> ToolOf(toolName).None?
    ensures ToolOf(toolName).None? ==> r.error.message == "Unknown tool: " + toolName
    ensures r.Success? ==> ToolName(ToolOfCall(r.value)) == toolName
  {
    match ToolOf(toolName)
    case None => Failure(McpError(MethodNotFound, "Unknown tool: " + toolName))
    case Some(k) => PlanTool(k, args)
  }

  /** One `case` of the `switch`: the checks of tool `k` and the operation it calls. */
  function PlanTool(k: ToolKey, args: map<string, JsValue>): (r: Result<ServiceCall, McpError>)
    ensures r.Success? ==> ToolOfCall(r.value) == k
    ensures r.Success? ==> forall v | v in CallArguments(r.value) :: Truthy(v)
    ensures r.Failure? ==> r.error.code == InvalidParams && k != ListProjects
  {
    match k
    case ListProjects => Success(GetProjectsCall)
    case GetProject =>
      var projectId :- ValidateParam(Arg(args, "projectId"), "projectId");
      Success(GetProjectCall(projectId))
    case CreateProject =>
      var project_name :- ValidateParam(Arg(args, "project_name"), "project_name");
      var metadata := Arg(args, "metadata");
      Success(CreateProjectCall(ProjectData(project_name, if Truthy(metadata) then Some(metadata) else None)))
    case DeleteProject =>
      var projectId :- ValidateParam(Arg(args, "projectId"), "projectId");
      Success(DeleteProjectCall(projectId))
    case ListRepositories =>
      var projectId :- ValidateParam(Arg(args, "projectId"), "projectId");
      Success(GetRepositoriesCall(projectId))
    case DeleteRepository =>
      var projectId :- ValidateParam(Arg(args, "projectId"), "projectId");
      var repositoryName :- ValidateParam(Arg(args, "repositoryName"), "repositoryName");
      Success(DeleteRepositoryCall(projectId, repositoryName))
    case ListTags =>
      var projectId :- ValidateParam(Arg(args, "projectId"), "projectId");
      var repositoryName :- ValidateParam(Arg(args, "repositoryName"), "repositoryName");
      Success(GetTagsCall(projectId, repositoryName))
    case DeleteTag =>
      var projectId :- ValidateParam(Arg(args, "projectId"), "projectId");
      var repositoryName :- ValidateParam(Arg(args, "repositoryName"), "repositoryName");
      var tag :- ValidateParam(Arg(args, "tag"), "tag");
      Success(DeleteTagCall(projectId, repositoryName, tag))
    case ListCharts =>
      var projectId :- ValidateParam(Arg(args, "projectId"), "projectId");
      Success(GetChartsCall(projectId))
    case ListChartVersions =>
      var projectId :- ValidateParam(Arg(args, "projectId"), "projectId");
      var chartName :- ValidateParam(Arg(args, "chartName"), "chartName");
      Success(GetChartVersionsCall(projectId, chartName))
    case DeleteChart =>
      var projectId :- ValidateParam(Arg(args, "projectId"), "projectId");
      var chartName :- ValidateParam(Arg(args, "chartName"), "chartName");
      var version :- ValidateParam(Arg(args, "version"), "version");
      Success(DeleteChartCall(projectId, chartName, version))
  }

  /** The fixed confirmation of a deleting tool; the other tools answer with the serialized
      result. */
  function Confirmation(k: ToolKey): (r: Option<string>)
    ensures r.Some? <==> k == DeleteProject || k == DeleteRepository || k == DeleteTag || k == DeleteChart
    ensures r.Some? ==> r.value != ""
  {
    match k
    case DeleteProject => Some("Project deleted successfully")
    case DeleteRepository => Some("Repository deleted successfully")
    case DeleteTag => Some("Tag deleted successfully")
    case DeleteChart => Some("Chart deleted successfully")
    case _ => None
  }

  /** The answer once the service has run: its error propagates; a result becomes one text
      entry, the confirmation for a delete and `JSON.stringify(result)` otherwise. */
  function Respond<V>(call: ServiceCall, outcome: Result<V, Thrown>, serialize: V -> string): (r: Result<ToolResponse, Thrown>)
    ensures outcome.Failure? ==> r == Failure(outcome.error)
    ensures outcome.Success? ==> r.Success? && |r.value.content| == 1 && r.value.content[0].kind == "text"
    ensures outcome.Success? && Confirmation(ToolOfCall(call)).None? ==>
      r.value.content[0].text == serialize(outcome.value)
  {
    match outcome
    case Failure(t) => Failure(t)
    case Success(v) =>
      match Confirmation(ToolOfCall(call))
      case Some(text) => Success(TextResponse(text))
      case None => Success(TextResponse(serialize(v)))
  }

  /** handleToolRequest: the service runs only when the plan succeeds. */
  function HandleToolRequest<V>(toolName: string, args: map<string, JsValue>,
                                service: ServiceCall -> Result<V, Thrown>,
                                serialize: V -> string): (r: Result<ToolResponse, Thrown>)
    ensures Plan(toolName, args).Failure? ==> r == Failure(ThrownMcp(Plan(toolName, args).error))
    ensures Plan(toolName, args).Success? ==> r == Respond(Plan(toolName, args).value, service(Plan(toolName, args).value), serialize)
  {
    match Plan(toolName, args)
    case Failure(e) => Failure(ThrownMcp(e))
    case Success(call) => Respond(call, service(call), serialize)
  }

  /** The call-tool handler's `catch`: a protocol error is rethrown as it is; another Error
      becomes an internal error with its message; anything else an internal error with a fixed
      message. */
  function TranslateError(t: Thrown): (e: McpError)
    ensures t.ThrownMcp? ==> e == t.error
    ensures t.ThrownError? ==> e == McpError(InternalError, t.message)
    ensures t.ThrownOther? ==> e == McpError(InternalError, "Unknown error occurred")
  {
    match t
    case ThrownMcp(e) => e
    case ThrownError(m) => McpError(InternalError, m)
    case ThrownOther(_) => McpError(InternalError, "Unknown error occurred")
  }

  /** The call-tool handler: missing `arguments` are an empty bag. */
  function CallTool<V>(toolName: string, arguments: Option<map<string, JsValue>>,
                       service: ServiceCall -> Result<V, Thrown>,
                       serialize: V -> string): (r: Result<ToolResponse, McpError>)
    ensures var h := HandleToolRequest(toolName, arguments.GetOr(map[]), service, serialize);
      && (h.Success? ==> r == Success(h.value))
      && (h.Failure? ==> r == Failure(TranslateError(h.error)))
  {
    match HandleToolRequest(toolName, arguments.GetOr(map[]), service, serialize)
    case Success(r) => Success(r)
    case Failure(t) => Failure(TranslateError(t))
  }

  // ---------------------------------------------------------------------------
  // Properties of the dispatcher
  // ---------------------------------------------------------------------------

  /** The first required argument that is falsy in `args`. */
  function FirstMissing(required: seq<string>, args: map<string, JsValue>): Option<nat> {
    FindIndex(required, name => !Truthy(Arg(args, name)))
  }

  /** An unknown tool is a method-not-found error naming it, and no service runs: the answer
      is the same whatever the service would do. */
  lemma UnknownToolIsMethodNotFound<V>(toolName: string, args: map<string, JsValue>,
                                       service: ServiceCall -> Result<V, Thrown>,
                                       serialize: V -> string)
    requires toolName !in InlineTable
    ensures HandleToolRequest(toolName, args, service, serialize) ==
      Failure(ThrownMcp(McpError(MethodNotFound, "Unknown tool: " + toolName)))
    ensures CallTool(toolName, Some(args), service, serialize) ==
      Failure(McpError(MethodNotFound, "Unknown tool: " + toolName))
  {
  }

  /** The dispatcher validates exactly the table's required arguments, in the table's order:
      the call is refused precisely when one of them is falsy, and the error names the first
      such one. */
  lemma {:induction false} ValidationFollowsSchema(toolName: string, args: map<string, JsValue>)
    requires toolName in InlineTable
    ensures var required := InlineTable[toolName].inputSchema.required;
      && (Plan(toolName, args).Failure? <==> FirstMissing(required, args).Some?)
      && (Plan(toolName, args).Failure? ==>
            Plan(toolName, args).error ==
              McpError(InvalidParams, required[FirstMissing(required, args).value] + " is required"))
  {
    var k :| ToolName(k) == toolName;
    ToolOfToolName(k);
    CheckedArgumentsAreRequired(k);
    PlanToolRefusal(k, args);
  }

  /** The `case` of tool `k` refuses the call exactly when one of its checked arguments is
      falsy, naming the first such one. */
  lemma PlanToolRefusal(k: ToolKey, args: map<string, JsValue>)
    ensures var checked := CheckedArguments(k);
      && (PlanTool(k, args).Failure? <==> FirstMissing(checked, args).Some?)
      && (PlanTool(k, args).Failure? ==>
            PlanTool(k, args).error ==
              McpError(InvalidParams, checked[FirstMissing(checked, args).value] + " is required"))
  {
    var missing := name => !Truthy(Arg(args, name));
    if k != ListProjects {
      FindIndexUnfold(CheckedArguments(k), missing);
    }
  }

  /** FindIndex on a list of at most three names, written out. */
  lemma FindIndexUnfold(names: seq<string>, p: string -> bool)
    requires 1 <= |names| <= 3
    ensures FindIndex(names, p) ==
      if p(names[0]) then Some(0)
      else if |names| == 1 then None
      else if p(names[1]) then Some(1)
      else if |names| == 2 then None
      else if p(names[2]) then Some(2)
      else None
  {
    var r := FindIndex(names, p);
    if !p(names[0]) && |names| >= 2 && !p(names[1]) && |names| == 3 && !p(names[2]) {
      assert r.None?;
    }
  }

  /** `call` carries, in order, the values of the `required` arguments in `args`. */
  predicate Forwards(call: ServiceCall, required: seq<string>, args: map<string, JsValue>) {
    && |CallArguments(call)| == |required|
    && forall i | 0 <= i < |required| :: CallArguments(call)[i] == Arg(args, required[i])
  }

  /** A successful plan for tool `k` serves `k` and forwards that tool's required arguments,
      in the table's order, exactly as they arrived. */
  lemma PlanForwardsRequiredArguments(k: ToolKey, args: map<string, JsValue>)
    requires Plan(ToolName(k), args).Success?
    ensures ToolOfCall(Plan(ToolName(k), args).value) == k
    ensures Forwards(Plan(ToolName(k), args).value, InlineTable[ToolName(k)].inputSchema.required, args)
  {
    ToolOfToolName(k);
    PlanToolForwards(k, args);
    CheckedArgumentsAreRequired(k);
  }

  /** The arguments the `case` of tool `k` passes to validateParam, in order. */
  function CheckedArguments(k: ToolKey): seq<string> {
    match k
    case ListProjects => []
    case GetProject => ["projectId"]
    case CreateProject => ["project_name"]
    case DeleteProject => ["projectId"]
    case ListRepositories => ["projectId"]
    case DeleteRepository => ["projectId", "repositoryName"]
    case ListTags => ["projectId", "repositoryName"]
    case DeleteTag => ["projectId", "repositoryName", "tag"]
    case ListCharts => ["projectId"]
    case ListChartVersions => ["projectId", "chartName"]
    case DeleteChart => ["projectId", "chartName", "version"]
  }

  /** A successful `case` of tool `k` calls that tool's operation with the checked arguments. */
  lemma PlanToolForwards(k: ToolKey, args: map<string, JsValue>)
    requires PlanTool(k, args).Success?
    ensures ToolOfCall(PlanTool(k, args).value) == k
    ensures Forwards(PlanTool(k, args).value, CheckedArguments(k), args)
  {
  }

  /** The dispatcher checks exactly the arguments the advertised schema declares required. */
  lemma CheckedArgumentsAreRequired(k: ToolKey)
    ensures CheckedArguments(k) == InlineTable[ToolName(k)].inputSchema.required
  {
    InlineTableIsSharedTable();
    RequiredLists();
  }

  /** create_project forwards `metadata` exactly when it is truthy; otherwise the data holds
      only the project name. */
  lemma CreateProjectForwardsMetadata(args: map<string, JsValue>)
    requires Truthy(Arg(args, "project_name"))
    ensures Plan("create_project", args) == Success(CreateProjectCall(ProjectData(
      Arg(args, "project_name"),
      if Truthy(Arg(args, "metadata")) then Some(Arg(args, "metadata")) else None)))
  {
  }

  /** When validation refuses a call, the answer does not depend on the service: no service
      operation runs. */
  lemma RefusedCallRunsNoService<V>(toolName: string, args: map<string, JsValue>,
                                    s1: ServiceCall -> Result<V, Thrown>,
                                    s2: ServiceCall -> Result<V, Thrown>,
                                    serialize: V -> string)
    requires Plan(toolName, args).Failure?
    ensures HandleToolRequest(toolName, args, s1, serialize) == HandleToolRequest(toolName, args, s2, serialize)
    ensures HandleToolRequest(toolName, args, s1, serialize) == Failure(ThrownMcp(Plan(toolName, args).error))
  {
  }

  /** Every successful answer is exactly one text entry; a delete answers its fixed
      confirmation whatever the service returned, any other tool its serialized result. */
  lemma SuccessIsOneTextEntry<V>(toolName: string, args: map<string, JsValue>,
                                 service: ServiceCall -> Result<V, Thrown>,
                                 serialize: V -> string)
    requires HandleToolRequest(toolName, args, service, serialize).Success?
    ensures var r := HandleToolRequest(toolName, args, service, serialize).value;
      && |r.content| == 1 && r.content[0].kind == "text"
      && Plan(toolName, args).Success? && service(Plan(toolName, args).value).Success?
      && var k := ToolOfCall(Plan(toolName, args).value);
         r.content[0].text ==
           if Confirmation(k).Some? then Confirmation(k).value
           else serialize(service(Plan(toolName, args).value).value)
  {
  }

  /** The four deleting tools and their confirmations. */
  lemma DeleteConfirmations()
    ensures Confirmation(DeleteProject) == Some("Project deleted successfully")
    ensures Confirmation(DeleteRepository) == Some("Repository deleted successfully")
    ensures Confirmation(DeleteTag) == Some("Tag deleted successfully")
    ensures Confirmation(DeleteChart) == Some("Chart deleted successfully")
    ensures forall k: ToolKey :: Confirmation(k).Some? <==>
      k == DeleteProject || k == DeleteRepository || k == DeleteTag || k == DeleteChart
  {
  }

  /** The call-tool handler: missing arguments behave as an empty bag, a protocol error from the
      dispatcher reaches the client unchanged, and translating is stable under rethrowing. */
  lemma CallToolTranslation<V>(toolName: string, args: map<string, JsValue>,
                               service: ServiceCall -> Result<V, Thrown>,
                               serialize: V -> string, t: Thrown)
    ensures CallTool(toolName, None, service, serialize) == CallTool(toolName, Some(map[]), service, serialize)
    ensures Plan(toolName, args).Failure? ==>
      CallTool(toolName, Some(args), service, serialize) == Failure(Plan(toolName, args).error)
    ensures TranslateError(ThrownMcp(TranslateError(t))) == TranslateError(t)
    ensures !t.ThrownMcp? ==> TranslateError(t).code == InternalError
  {
  }

  /** End to end: a known tool called with a falsy required argument is an invalid-params error
      naming the first such argument. */
  lemma MissingArgumentIsInvalidParams<V>(toolName: string, args: map<string, JsValue>,
                                          service: ServiceCall -> Result<V, Thrown>,
                                          serialize: V -> string)
    requires toolName in InlineTable
    requires FirstMissing(InlineTable[toolName].inputSchema.required, args).Some?
    ensures var required := InlineTable[toolName].inputSchema.required;
      CallTool(toolName, Some(args), service, serialize) ==
        Failure(McpError(InvalidParams, required[FirstMissing(required, args).value] + " is required"))
  {
    ValidationFollowsSchema(toolName, args);
  }
}
