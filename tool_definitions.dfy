/** The TOOL_DEFINITIONS constant: for every tool, its description and the JSON schema of its
    arguments (declared properties and the ordered list of required ones). */
module ToolDefinitions {
  import opened Types

  /** A declared property: a string, or an object with its own properties. */
  datatype PropSchema = StringProp | ObjectProp(properties: map<string, PropSchema>)

  /** The `type` keyword of a property schema. */
  function TypeName(p: PropSchema): string {
    match p
    case StringProp => "string"
    case ObjectProp(_) => "object"
  }

  /** `inputSchema`: its `type` is `"object"` for every tool. */
  datatype InputSchema = InputSchema(schemaType: string, properties: map<string, PropSchema>, required: seq<string>)

  datatype ToolDef = ToolDef(description: string, inputSchema: InputSchema)

  const MetadataSchema: PropSchema := ObjectProp(map[
    "public" := StringProp,
    "enable_content_trust" := StringProp,
    "prevent_vul" := StringProp,
    "severity" := StringProp,
    "auto_scan" := StringProp
  ])

  /** The table, keyed by TOOL_NAMES values. */
  const Table: map<string, ToolDef> := map[
    ToolName(ListProjects) := ToolDef("List all projects in Harbor",
      InputSchema("object", map[], [])),
    ToolName(GetProject) := ToolDef("Get project details by ID",
      InputSchema("object", map["projectId" := StringProp], ["projectId"])),
    ToolName(CreateProject) := ToolDef("Create a new project in Harbor",
      InputSchema("object", map["project_name" := StringProp, "metadata" := MetadataSchema], ["project_name"])),
    ToolName(DeleteProject) := ToolDef("Delete a project by ID",
      InputSchema("object", map["projectId" := StringProp], ["projectId"])),
    ToolName(ListRepositories) := ToolDef("List all repositories in a project",
      InputSchema("object", map["projectId" := StringProp], ["projectId"])),
    ToolName(DeleteRepository) := ToolDef("Delete a repository",
      InputSchema("object", map["projectId" := StringProp, "repositoryName" := StringProp],
        ["projectId", "repositoryName"])),
    ToolName(ListTags) := ToolDef("List all tags in a repository",
      InputSchema("object", map["projectId" := StringProp, "repositoryName" := StringProp],
        ["projectId", "repositoryName"])),
    ToolName(DeleteTag) := ToolDef("Delete a tag from a repository",
      InputSchema("object", map["projectId" := StringProp, "repositoryName" := StringProp, "tag" := StringProp],
        ["projectId", "repositoryName", "tag"])),
    ToolName(ListCharts) := ToolDef("List all Helm charts in a project",
      InputSchema("object", map["projectId" := StringProp], ["projectId"])),
    ToolName(ListChartVersions) := ToolDef("List all versions of a Helm chart",
      InputSchema("object", map["projectId" := StringProp, "chartName" := StringProp],
        ["projectId", "chartName"])),
    ToolName(DeleteChart) := ToolDef("Delete a specific version of a Helm chart",
      InputSchema("object", map["projectId" := StringProp, "chartName" := StringProp, "version" := StringProp],
        ["projectId", "chartName", "version"]))
  ]

  /** The required arguments of tool `k`, in declared order. */
  function Required(k: ToolKey): seq<string> {
    Table[ToolName(k)].inputSchema.required
  }

  /** The required arguments of every tool, in order. */
  lemma RequiredLists()
    ensures Required(ListProjects) == []
    ensures Required(GetProject) == ["projectId"]
    ensures Required(CreateProject) == ["project_name"]
    ensures Required(DeleteProject) == ["projectId"]
    ensures Required(ListRepositories) == ["projectId"]
    ensures Required(DeleteRepository) == ["projectId", "repositoryName"]
    ensures Required(ListTags) == ["projectId", "repositoryName"]
    ensures Required(DeleteTag) == ["projectId", "repositoryName", "tag"]
    ensures Required(ListCharts) == ["projectId"]
    ensures Required(ListChartVersions) == ["projectId", "chartName"]
    ensures Required(DeleteChart) == ["projectId", "chartName", "version"]
  {
  }

  /** The table has exactly one entry per TOOL_NAMES value (which are distinct, see
      ToolNamesDistinct). */
  lemma OneDefinitionPerTool()
    ensures Table.Keys == set k: ToolKey :: ToolName(k)
    ensures forall name | name in Table :: ToolOf(name).Some?
  {
    forall name | name in Table ensures ToolOf(name).Some? {
      var k :| ToolName(k) == name;
      ToolOfToolName(k);
    }
  }

  /** Every required name is a declared property of that tool, declared as a string;
      `metadata` is an object property and nothing requires it. */
  lemma RequiredAreDeclaredStrings(name: string, arg: string)
    requires name in Table && arg in Table[name].inputSchema.required
    ensures arg in Table[name].inputSchema.properties
    ensures TypeName(Table[name].inputSchema.properties[arg]) == "string"
    ensures arg != "metadata"
  {
  }

  /** `metadata` is declared only by create_project, and there as an object. */
  lemma MetadataIsObject(name: string)
    requires name in Table && "metadata" in Table[name].inputSchema.properties
    ensures name == "create_project"
    ensures TypeName(Table[name].inputSchema.properties["metadata"]) == "object"
  {
  }

  /** list_projects requires nothing; every other tool requires at least one argument. */
  lemma OnlyListProjectsTakesNoArguments(k: ToolKey)
    ensures Required(k) == [] <==> k == ListProjects
  {
  }

  /** projectId is required by every tool except list_projects and create_project, and
      comes first wherever it is required. */
  lemma ProjectIdRequired(k: ToolKey)
    ensures "projectId" in Required(k) <==> k != ListProjects && k != CreateProject
    ensures "projectId" in Required(k) ==> Required(k)[0] == "projectId"
  {
  }
}
