/** The error taxonomy, the registry's record shapes, the tool names and the required-field
    validators of the adapter. */
module Types {
  import opened Wrappers
  import opened JsValues

  // ---------------------------------------------------------------------------
  // Error taxonomy
  // ---------------------------------------------------------------------------

  /** The three error classes; ValidationError and ResourceError extend HarborError. */
  datatype ErrorClass = HarborErrorClass | ValidationErrorClass | ResourceErrorClass

  /** An error object: its most specific class, its message and its numeric code. */
  datatype HarborError = HarborError(cls: ErrorClass, message: string, code: int)

  /** JSON-RPC 2.0 error codes (section 5.1 of the JSON-RPC 2.0 specification) that the
      classes default to. */
  const InternalErrorCode: int := -32603
  const InvalidParamsCode: int := -32602
  const MethodNotFoundCode: int := -32601

  /** `new HarborError(message, code?)`: the code defaults to the internal-error code. */
  function NewHarborError(message: string, code: Option<int>): (e: HarborError)
    ensures e.cls == HarborErrorClass && e.message == message
    ensures code.None? ==> e.code == -32603
    ensures code.Some? ==> e.code == code.value
    ensures Name(e) == "HarborError"
  {
    HarborError(HarborErrorClass, message, code.GetOr(InternalErrorCode))
  }

  /** `new ValidationError(message)`: always the invalid-params code. */
  function NewValidationError(message: string): (e: HarborError)
    ensures e.message == message && e.code == -32602
    ensures Name(e) == "ValidationError"
    ensures InstanceOf(e, ValidationErrorClass) && InstanceOf(e, HarborErrorClass)
    ensures !InstanceOf(e, ResourceErrorClass)
  {
    HarborError(ValidationErrorClass, message, InvalidParamsCode)
  }

  /** `new ResourceError(message)`: always the method-not-found code. */
  function NewResourceError(message: string): (e: HarborError)
    ensures e.message == message && e.code == -32601
    ensures Name(e) == "ResourceError"
    ensures InstanceOf(e, ResourceErrorClass) && InstanceOf(e, HarborErrorClass)
    ensures !InstanceOf(e, ValidationErrorClass)
  {
    HarborError(ResourceErrorClass, message, MethodNotFoundCode)
  }

  /** The `name` field each constructor sets last. */
  function Name(e: HarborError): string {
    match e.cls
    case HarborErrorClass => "HarborError"
    case ValidationErrorClass => "ValidationError"
    case ResourceErrorClass => "ResourceError"
  }

  /** `e instanceof C`: true for the object's own class and for its base class HarborError. */
  predicate InstanceOf(e: HarborError, c: ErrorClass) {
    c == HarborErrorClass || e.cls == c
  }

  /** The three classes are told apart by their names, and every error of the taxonomy is a
      HarborError. */
  lemma ErrorNamesDistinguishClasses(e1: HarborError, e2: HarborError)
    ensures Name(e1) == Name(e2) <==> e1.cls == e2.cls
    ensures InstanceOf(e1, HarborErrorClass)
  {
  }

  // ---------------------------------------------------------------------------
  // Registry record shapes
  // ---------------------------------------------------------------------------

  /** HarborRepository; every field the registry may omit is an Option. */
  datatype HarborRepository = HarborRepository(
    name: Option<string>,
    project_id: Option<int>,
    artifact_count: Option<int>,
    creation_time: Option<string>,
    update_time: Option<string>)

  /** HarborArtifactTag: the tag record the type declarations promise for `tags` entries. */
  datatype HarborArtifactTag = HarborArtifactTag(
    id: int,
    name: string,
    push_time: string,
    pull_time: string,
    immutable: bool,
    repository_id: Option<int>,
    artifact_id: Option<int>,
    signed: Option<bool>)

  /** An entry of an artifact's `tags` array as it may arrive at run time: a bare string or a
      tag record. The service reads the array untyped, so both kinds are possible. */
  datatype TagEntry = TagName(name: string) | TagRecord(tag: HarborArtifactTag)

  /** The name an entry stands for: the string itself, or the record's `name`. */
  function EntryName(e: TagEntry): string {
    match e
    case TagName(n) => n
    case TagRecord(t) => t.name
  }

  /** HarborArtifact; `tags` is absent (None) or an array. */
  datatype HarborArtifact = HarborArtifact(
    digest: string,
    tags: Option<seq<TagEntry>>,
    size: Option<int>,
    push_time: Option<string>,
    pull_time: Option<string>,
    update_time: Option<string>)

  /** HarborChart, the derived chart view of a repository. */
  datatype HarborChart = HarborChart(
    name: string,
    total_versions: int,
    latest_version: string,
    created: Option<string>,
    updated: Option<string>)

  /** HarborChartVersion. `version` is declared a string, but the service fills it with the
      artifact's first `tags` entry, which may be a tag record; the model keeps the entry. */
  datatype HarborChartVersion = HarborChartVersion(
    name: string,
    version: TagEntry,
    created: Option<string>,
    updated: Option<string>)

  /** DeleteResponse. */
  datatype DeleteResponse = DeleteResponse(success: bool, message: string)

  // ---------------------------------------------------------------------------
  // Tool names
  // ---------------------------------------------------------------------------

  /** The keys of the TOOL_NAMES constant. */
  datatype ToolKey =
    | ListProjects | GetProject | CreateProject | DeleteProject
    | ListRepositories | DeleteRepository
    | ListTags | DeleteTag
    | ListCharts | ListChartVersions | DeleteChart

  /** The keys in declaration order. */
  const AllToolKeys: seq<ToolKey> := [
    ListProjects, GetProject, CreateProject, DeleteProject,
    ListRepositories, DeleteRepository,
    ListTags, DeleteTag,
    ListCharts, ListChartVersions, DeleteChart
  ]

  /** TOOL_NAMES[key]: the tool name clients use. */
  function ToolName(k: ToolKey): string {
    match k
    case ListProjects => "list_projects"
    case GetProject => "get_project"
    case CreateProject => "create_project"
    case DeleteProject => "delete_project"
    case ListRepositories => "list_repositories"
    case DeleteRepository => "delete_repository"
    case ListTags => "list_tags"
    case DeleteTag => "delete_tag"
    case ListCharts => "list_charts"
    case ListChartVersions => "list_chart_versions"
    case DeleteChart => "delete_chart"
  }

  /** The values of TOOL_NAMES in declaration order. */
  function ToolNames(): (names: seq<string>)
    ensures |names| == |AllToolKeys|
    ensures forall i :: 0 <= i < |names| ==> names[i] == ToolName(AllToolKeys[i])
  {
    seq(|AllToolKeys|, i requires 0 <= i < |AllToolKeys| => ToolName(AllToolKeys[i]))
  }

  /** The position of a key in AllToolKeys. */
  function KeyIndex(k: ToolKey): (i: nat)
    ensures i < |AllToolKeys| && AllToolKeys[i] == k
  {
    match k
    case ListProjects => 0 case GetProject => 1 case CreateProject => 2
    case DeleteProject => 3 case ListRepositories => 4 case DeleteRepository => 5
    case ListTags => 6 case DeleteTag => 7 case ListCharts => 8
    case ListChartVersions => 9 case DeleteChart => 10
  }

  /** TOOL_NAMES has eleven entries, lists every key once, and no two keys share a name. */
  lemma ToolNamesDistinct()
    ensures |AllToolKeys| == 11 && |ToolNames()| == 11
    ensures forall k: ToolKey :: k in AllToolKeys
    ensures forall i, j :: 0 <= i < j < |AllToolKeys| ==> AllToolKeys[i] != AllToolKeys[j]
    ensures forall i, j :: 0 <= i < j < |ToolNames()| ==> ToolNames()[i] != ToolNames()[j]
  {
    forall k: ToolKey
      ensures k in AllToolKeys
    {
      var i := KeyIndex(k);
    }
    forall k1: ToolKey, k2: ToolKey | k1 != k2
      ensures ToolName(k1) != ToolName(k2)
    {
      ToolNameInjective(k1, k2);
    }
  }

  /** Distinct keys have distinct names. */
  lemma ToolNameInjective(k1: ToolKey, k2: ToolKey)
    ensures ToolName(k1) == ToolName(k2) ==> k1 == k2
  {
    if ToolName(k1) == ToolName(k2) {
      var n := ToolName(k1);
      assert |n| > 6;
      assert n[..6] == ToolName(k2)[..6];
    }
  }

  /** The key whose TOOL_NAMES value is `name`, if any: what the dispatcher's `switch`
      compares against. */
  function ToolOf(name: string): (r: Option<ToolKey>)
    ensures r.Some? ==> ToolName(r.value) == name
    ensures r.None? ==> forall k: ToolKey :: ToolName(k) != name
  {
    if name == "list_projects" then Some(ListProjects)
    else if name == "get_project" then Some(GetProject)
    else if name == "create_project" then Some(CreateProject)
    else if name == "delete_project" then Some(DeleteProject)
    else if name == "list_repositories" then Some(ListRepositories)
    else if name == "delete_repository" then Some(DeleteRepository)
    else if name == "list_tags" then Some(ListTags)
    else if name == "delete_tag" then Some(DeleteTag)
    else if name == "list_charts" then Some(ListCharts)
    else if name == "list_chart_versions" then Some(ListChartVersions)
    else if name == "delete_chart" then Some(DeleteChart)
    else None
  }

  /** ToolOf inverts ToolName. */
  lemma ToolOfToolName(k: ToolKey)
    ensures ToolOf(ToolName(k)) == Some(k)
  {
    ToolNameInjective(k, ToolOf(ToolName(k)).value);
  }

  // ---------------------------------------------------------------------------
  // Validators
  // ---------------------------------------------------------------------------

  /** `validateRequired(value, name)`: returns normally exactly when `value` is truthy and
      otherwise throws a ValidationError saying that `name` is required. */
  function ValidateRequired(value: JsValue, name: string): (r: Outcome<HarborError>)
    ensures r.Pass? <==> Truthy(value)
    ensures r.Fail? ==> r.error == NewValidationError(name + " is required")
    ensures r.Fail? ==> r.error.code == -32602 && Name(r.error) == "ValidationError"
  {
    if !Truthy(value) then Fail(NewValidationError(name + " is required")) else Pass
  }

  /** The wrappers: ValidateRequired with each one's fixed field name. */
  function ValidateProjectId(projectId: JsValue): (r: Outcome<HarborError>)
    ensures r.Pass? <==> Truthy(projectId)
    ensures r.Fail? ==> r.error.message == "projectId is required" && r.error.cls == ValidationErrorClass
  {
    ValidateRequired(projectId, "projectId")
  }

  function ValidateRepositoryName(repositoryName: JsValue): (r: Outcome<HarborError>)
    ensures r.Pass? <==> Truthy(repositoryName)
    ensures r.Fail? ==> r.error.message == "repositoryName is required" && r.error.cls == ValidationErrorClass
  {
    ValidateRequired(repositoryName, "repositoryName")
  }

  function ValidateChartName(chartName: JsValue): (r: Outcome<HarborError>)
    ensures r.Pass? <==> Truthy(chartName)
    ensures r.Fail? ==> r.error.message == "chartName is required" && r.error.cls == ValidationErrorClass
  {
    ValidateRequired(chartName, "chartName")
  }

  function ValidateTag(tag: JsValue): (r: Outcome<HarborError>)
    ensures r.Pass? <==> Truthy(tag)
    ensures r.Fail? ==> r.error.message == "tag is required" && r.error.cls == ValidationErrorClass
  {
    ValidateRequired(tag, "tag")
  }

  function ValidateVersion(version: JsValue): (r: Outcome<HarborError>)
    ensures r.Pass? <==> Truthy(version)
    ensures r.Fail? ==> r.error.message == "version is required" && r.error.cls == ValidationErrorClass
  {
    ValidateRequired(version, "version")
  }
}
