// The Model Context Protocol request router (src/mcp.rs): the registries
// of tools, resources and prompts filled at start-up, the dispatch of the
// six request methods, the dispatch of the ten tools with their argument
// checks, and the prompt lookup. The managers a tool drives are oracles:
// what each of them answers is a field of `Backends`.

module Mcp {
  import opened Common
  import opened Errors

  /** A tool and its input schema: the string properties it takes (name and description) and
    * the ones it requires (`input_schema` is built from these by `Schema`). */
  datatype Tool = Tool(name: string, description: string, properties: seq<(string, string)>, required: seq<string>)

  datatype Resource = Resource(uri: string, name: string, description: string, mimeType: string)

  datatype PromptArgument = PromptArgument(name: string, description: string, required: bool)

  datatype Prompt = Prompt(name: string, description: string, arguments: seq<PromptArgument>)

  datatype Request = Request(methodName: string, params: Json)

  datatype McpError = McpError(code: int, message: string, data: Option<Json>)

  datatype Response = Response(result: Option<Json>, error: Option<McpError>)

  /** What the managers behind the tools answer. A listing is the
    * serialized list; an error is the text of the manager's error. */
  datatype Backends = Backends(
    listDevices: Result<Json, string>,
    connectDevice: string -> Result<(), string>,
    installApp: (string, string) -> Result<(), string>,
    listSimulators: Result<Json, string>,
    startSimulator: string -> Result<(), string>,
    stopSimulator: string -> Result<(), string>,
    buildProject: Option<string> -> Result<(), string>,
    projectStatus: Result<Json, string>,
    runTests: (Option<string>, Option<string>) -> Result<(), string>,
    recordTest: string -> Result<(), string>)

  /** One possible iteration order of each registry (a `HashMap`'s
    * `values()` has none fixed). */
  datatype Orders = Orders(tools: seq<string>, resources: seq<string>, prompts: seq<string>)

  // ---------------------------------------------------------------------
  // Registration

  /** The schema of one string property. */
  function Property(description: string): Json
  {
    JObject(map["type" := JString("string"), "description" := JString(description)])
  }

  /** The "properties" object of a schema: each named property, a string. */
  function Properties(props: seq<(string, string)>): (m: map<string, Json>)
    ensures m.Keys == set i | 0 <= i < |props| :: props[i].0
  {
    if props == [] then map[]
    else
      var prev := Properties(props[..|props| - 1]);
      assert forall i | 0 <= i < |props| - 1 :: props[..|props| - 1][i] == props[i];
      prev[Last(props).0 := Property(Last(props).1)]
  }

  /** The JSON schema of a tool's input: an object with the given
    * properties and, when there are any, the list of required ones. */
  function Schema(props: seq<(string, string)>, required: seq<string>): (j: Json)
    ensures j.JObject? && Field(j, "properties") == Some(JObject(Properties(props)))
    ensures required == [] <==> Field(j, "required").None?
    ensures |RequiredArray(j)| == |required|
    ensures forall i | 0 <= i < |required| :: RequiredArray(j)[i] == JString(required[i])
  {
    var base := map["type" := JString("object"), "properties" := JObject(Properties(props))];
    var names := seq(|required|, i requires 0 <= i < |required| => JString(required[i]));
    JObject(if required == [] then base else base["required" := JArray(names)])
  }

  /** The entries of a schema's "required" list (none when it has none). */
  function RequiredArray(schema: Json): seq<Json>
  {
    match Field(schema, "required")
    case Some(JArray(items)) => items
    case _ => []
  }

  const DeviceListTool := Tool("device_list", "List all connected devices", [], [])
  const DeviceConnectTool := Tool("device_connect", "Connect to a specific device",
    [("device_id", "Device ID to connect to")], ["device_id"])
  const DeviceInstallTool := Tool("device_install", "Install app on device",
    [("device_id", "Device ID"), ("app_path", "Path to app file")],
    ["device_id", "app_path"])
  const SimulatorListTool := Tool("simulator_list", "List all available simulators", [], [])
  const SimulatorStartTool := Tool("simulator_start", "Start a simulator",
    [("simulator_id", "Simulator ID to start")], ["simulator_id"])
  const SimulatorStopTool := Tool("simulator_stop", "Stop a simulator",
    [("simulator_id", "Simulator ID to stop")], ["simulator_id"])
  const ProjectBuildTool := Tool("project_build", "Build the current project",
    [("target", "Build target (optional)")], [])
  const ProjectStatusTool := Tool("project_status", "Get project status", [], [])
  const TestRunTool := Tool("test_run", "Run tests",
    [("suite", "Test suite name (optional)"),
     ("device_id", "Device ID to run tests on (optional)")], [])
  const TestRecordTool := Tool("test_record", "Record a test",
    [("output", "Output file path")], ["output"])

  /** The tools `register_tools` installs, keyed as it keys them. */
  function ToolRegistry(): map<string, Tool>
  {
    map["device_list" := DeviceListTool,
        "device_connect" := DeviceConnectTool,
        "device_install" := DeviceInstallTool,
        "simulator_list" := SimulatorListTool,
        "simulator_start" := SimulatorStartTool,
        "simulator_stop" := SimulatorStopTool,
        "project_build" := ProjectBuildTool,
        "project_status" := ProjectStatusTool,
        "test_run" := TestRunTool,
        "test_record" := TestRecordTool]
  }

  const ResourceScheme := "kmobile://"

  /** The resources `register_resources` installs. */
  function ResourceRegistry(): map<string, Resource>
  {
    map["devices" := Resource("kmobile://devices", "Connected Devices",
                              "List of currently connected devices", "application/json"),
        "simulators" := Resource("kmobile://simulators", "Available Simulators",
                                 "List of available simulators", "application/json"),
        "project" := Resource("kmobile://project", "Current Project",
                              "Current project information", "application/json")]
  }

  /** The prompts `register_prompts` installs. */
  function PromptRegistry(): map<string, Prompt>
  {
    map["mobile_deploy" := Prompt("mobile_deploy", "Deploy mobile application to device or simulator",
          [PromptArgument("platform", "Target platform (android/ios)", true),
           PromptArgument("target", "Deployment target (device/simulator)", true),
           PromptArgument("app_path", "Path to application file", false)]),
        "mobile_test" := Prompt("mobile_test", "Run mobile application tests",
          [PromptArgument("test_type", "Type of test (unit/integration/e2e)", true),
           PromptArgument("device_id", "Device ID to run tests on", false)])]
  }

  /** The names `register_tools` uses as keys. */
  const ToolNames: set<string> :=
    {"device_list", "device_connect", "device_install", "simulator_list", "simulator_start",
     "simulator_stop", "project_build", "project_status", "test_run", "test_record"}

  /** The ten tools, each under its own name. */
  lemma ToolRegistryShape()
    ensures ToolRegistry().Keys == ToolNames
    ensures forall k | k in ToolRegistry() :: ToolRegistry()[k].name == k
  {
    var t := ToolRegistry();
    assert t["device_list"].name == "device_list";
    assert t["device_connect"].name == "device_connect";
    assert t["device_install"].name == "device_install";
    assert t["simulator_list"].name == "simulator_list";
    assert t["simulator_start"].name == "simulator_start";
    assert t["simulator_stop"].name == "simulator_stop";
    assert t["project_build"].name == "project_build";
    assert t["project_status"].name == "project_status";
    assert t["test_run"].name == "test_run";
    assert t["test_record"].name == "test_record";
  }

  /** No two of the ten names coincide. */
  lemma ToolCount()
    ensures |ToolNames| == 10
  {
  }

  /** Three resources, each under the last segment of its `kmobile://` URI. */
  lemma ResourceRegistryShape()
    ensures ResourceRegistry().Keys == {"devices", "simulators", "project"}
    ensures forall k | k in ResourceRegistry() :: ResourceRegistry()[k].uri == ResourceScheme + k
  {
    var r := ResourceRegistry();
    assert r["devices"].uri == ResourceScheme + "devices";
    assert r["simulators"].uri == ResourceScheme + "simulators";
    assert r["project"].uri == ResourceScheme + "project";
  }

  /** Two prompts, each under its own name. */
  lemma PromptRegistryShape()
    ensures |PromptRegistry()| == 2
    ensures forall k | k in PromptRegistry() :: PromptRegistry()[k].name == k
  {
    assert PromptRegistry().Keys == {"mobile_deploy", "mobile_test"};
  }

  // ---------------------------------------------------------------------
  // Responses

  /** The protocol's own rule: a response carries a result or an error,
    * never both and never neither. */
  predicate WellFormed(resp: Response)
  {
    resp.result.Some? != resp.error.Some?
  }

  function Failure(code: int, message: string): (resp: Response)
    ensures WellFormed(resp) && resp.error.Some? && resp.error.value.code == code
  {
    Response(None, Some(McpError(code, message, None)))
  }

  /** The request methods `handle_request` dispatches. */
  const KnownMethods: set<string> :=
    {"tools/list", "tools/call", "resources/list", "resources/read", "prompts/list", "prompts/get"}

  const MethodNotFound := Failure(-32601, "Method not found")
  const UnknownTool := Failure(-32602, "Unknown tool")
  const PromptNotFound := Failure(-32602, "Prompt not found")

  /** A successful result: one JSON object. */
  function Answer(fields: map<string, Json>): (resp: Response)
    ensures WellFormed(resp) && resp.result == Some(JObject(fields))
  {
    Response(Some(JObject(fields)), None)
  }

  /** The result a tool that only acts reports. */
  function Done(message: string): (resp: Response)
    ensures WellFormed(resp) && resp.result.Some? && BoolField(resp.result.value, "success") == Some(true)
    ensures StrField(resp.result.value, "message") == Some(message)
  {
    Answer(map["success" := JBool(true), "message" := JString(message)])
  }

  /** A required string argument: its absence is an MCP server error. */
  function Require(args: Json, key: string, missing: string): (r: KResult<string>)
    ensures r.Ok? <==> StrField(args, key).Some?
    ensures r.Ok? ==> r.value == StrField(args, key).value
    ensures r.Err? ==> r.error == KMobileError(McpServerError, missing)
  {
    match StrField(args, key)
    case Some(s) => Ok(s)
    case None => Err(KMobileError(McpServerError, missing))
  }

  /** `.map_err(|e| McpServerError(e.to_string()))`. */
  function Served<T>(r: Result<T, string>): (s: KResult<T>)
    ensures s.Ok? <==> r.Ok?
    ensures s.Ok? ==> s.value == r.value
    ensures s.Err? ==> s.error == KMobileError(McpServerError, r.error)
  {
    match r
    case Ok(v) => Ok(v)
    case Err(e) => Err(KMobileError(McpServerError, e))
  }

  /** `params.get("arguments")`, or the empty object. */
  function ArgumentsOf(params: Json): (args: Json)
    ensures Field(params, "arguments").None? ==> args == JObject(map[])
    ensures Field(params, "arguments").Some? ==> args == Field(params, "arguments").value
  {
    match Field(params, "arguments")
    case Some(a) => a
    case None => JObject(map[])
  }

  // ---------------------------------------------------------------------
  // Tools

  /** What every tool handler promises: a well-formed result on success,
    * an MCP server error otherwise. */
  predicate Reply(r: KResult<Response>)
  {
    (r.Ok? ==> WellFormed(r.value) && r.value.result.Some?)
    && (r.Err? ==> r.error.kind == McpServerError)
  }

  /** `handle_device_list`: the device manager's listing. */
  function DeviceList(b: Backends): (r: KResult<Response>)
    ensures Reply(r) && (r.Ok? <==> b.listDevices.Ok?)
    ensures r.Ok? ==> Field(r.value.result.value, "devices") == Some(b.listDevices.value)
  {
    var devices :- Served(b.listDevices);
    Ok(Answer(map["devices" := devices]))
  }

  /** `handle_device_connect`: needs a device id. */
  function DeviceConnect(args: Json, b: Backends): (r: KResult<Response>)
    ensures Reply(r)
    ensures StrField(args, "device_id").None? ==> r == Err(KMobileError(McpServerError, "Device ID not provided"))
    ensures r.Ok? <==> StrField(args, "device_id").Some? && b.connectDevice(StrField(args, "device_id").value).Ok?
    ensures r.Ok? ==> r.value == Done("Connected to device: " + StrField(args, "device_id").value)
  {
    var id :- Require(args, "device_id", "Device ID not provided");
    var _ :- Served(b.connectDevice(id));
    Ok(Done("Connected to device: " + id))
  }

  /** `handle_device_install`: needs a device id, then an app path. */
  function DeviceInstall(args: Json, b: Backends): (r: KResult<Response>)
    ensures Reply(r)
    ensures StrField(args, "device_id").None? ==> r == Err(KMobileError(McpServerError, "Device ID not provided"))
    ensures StrField(args, "device_id").Some? && StrField(args, "app_path").None? ==>
              r == Err(KMobileError(McpServerError, "App path not provided"))
    ensures r.Ok? <==> StrField(args, "device_id").Some? && StrField(args, "app_path").Some?
                       && b.installApp(StrField(args, "device_id").value, StrField(args, "app_path").value).Ok?
    ensures r.Ok? ==> r.value == Done("Installed app on device: " + StrField(args, "device_id").value)
  {
    var id :- Require(args, "device_id", "Device ID not provided");
    var app :- Require(args, "app_path", "App path not provided");
    var _ :- Served(b.installApp(id, app));
    Ok(Done("Installed app on device: " + id))
  }

  /** `handle_simulator_list`: the simulator manager's listing. */
  function SimulatorList(b: Backends): (r: KResult<Response>)
    ensures Reply(r) && (r.Ok? <==> b.listSimulators.Ok?)
    ensures r.Ok? ==> Field(r.value.result.value, "simulators") == Some(b.listSimulators.value)
  {
    var simulators :- Served(b.listSimulators);
    Ok(Answer(map["simulators" := simulators]))
  }

  /** `handle_simulator_start`: needs a simulator id. */
  function SimulatorStart(args: Json, b: Backends): (r: KResult<Response>)
    ensures Reply(r)
    ensures StrField(args, "simulator_id").None? ==> r == Err(KMobileError(McpServerError, "Simulator ID not provided"))
    ensures r.Ok? <==> StrField(args, "simulator_id").Some? && b.startSimulator(StrField(args, "simulator_id").value).Ok?
    ensures r.Ok? ==> r.value == Done("Started simulator: " + StrField(args, "simulator_id").value)
  {
    var id :- Require(args, "simulator_id", "Simulator ID not provided");
    var _ :- Served(b.startSimulator(id));
    Ok(Done("Started simulator: " + id))
  }

  /** `handle_simulator_stop`: needs a simulator id. */
  function SimulatorStop(args: Json, b: Backends): (r: KResult<Response>)
    ensures Reply(r)
    ensures StrField(args, "simulator_id").None? ==> r == Err(KMobileError(McpServerError, "Simulator ID not provided"))
    ensures r.Ok? <==> StrField(args, "simulator_id").Some? && b.stopSimulator(StrField(args, "simulator_id").value).Ok?
    ensures r.Ok? ==> r.value == Done("Stopped simulator: " + StrField(args, "simulator_id").value)
  {
    var id :- Require(args, "simulator_id", "Simulator ID not provided");
    var _ :- Served(b.stopSimulator(id));
    Ok(Done("Stopped simulator: " + id))
  }

  /** `handle_project_build`: the target is optional. */
  function ProjectBuild(args: Json, b: Backends): (r: KResult<Response>)
    ensures Reply(r) && (r.Ok? <==> b.buildProject(StrField(args, "target")).Ok?)
    ensures r.Ok? ==> r.value == Done("Project built successfully")
  {
    var _ :- Served(b.buildProject(StrField(args, "target")));
    Ok(Done("Project built successfully"))
  }

  /** `handle_project_status`: the project manager's status. */
  function ProjectStatus(b: Backends): (r: KResult<Response>)
    ensures Reply(r) && (r.Ok? <==> b.projectStatus.Ok?)
    ensures r.Ok? ==> Field(r.value.result.value, "status") == Some(b.projectStatus.value)
  {
    var status :- Served(b.projectStatus);
    Ok(Answer(map["status" := status]))
  }

  /** `handle_test_run`: suite and device are optional. */
  function TestRun(args: Json, b: Backends): (r: KResult<Response>)
    ensures Reply(r) && (r.Ok? <==> b.runTests(StrField(args, "suite"), StrField(args, "device_id")).Ok?)
    ensures r.Ok? ==> r.value == Done("Tests completed successfully")
  {
    var _ :- Served(b.runTests(StrField(args, "suite"), StrField(args, "device_id")));
    Ok(Done("Tests completed successfully"))
  }

  /** `handle_test_record`: needs an output path. */
  function TestRecord(args: Json, b: Backends): (r: KResult<Response>)
    ensures Reply(r)
    ensures StrField(args, "output").None? ==> r == Err(KMobileError(McpServerError, "Output path not provided"))
    ensures r.Ok? <==> StrField(args, "output").Some? && b.recordTest(StrField(args, "output").value).Ok?
    ensures r.Ok? ==> r.value == Done("Test recorded to: " + StrField(args, "output").value)
  {
    var output :- Require(args, "output", "Output path not provided");
    var _ :- Served(b.recordTest(output));
    Ok(Done("Test recorded to: " + output))
  }

  /** `handle_tool_call` after the tool name was read: the dispatch over the
    * ten tool names to their handlers. */
  function ToolCall(name: string, args: Json, b: Backends): (r: KResult<Response>)
    ensures r.Ok? ==> WellFormed(r.value)
    ensures name in ToolNames ==> Reply(r)
    ensures r == Ok(UnknownTool) <==> name !in ToolNames
    ensures r.Err? ==> r.error.kind == McpServerError
  {
    if name == "device_list" then DeviceList(b)
    else if name == "device_connect" then DeviceConnect(args, b)
    else if name == "device_install" then DeviceInstall(args, b)
    else if name == "simulator_list" then SimulatorList(b)
    else if name == "simulator_start" then SimulatorStart(args, b)
    else if name == "simulator_stop" then SimulatorStop(args, b)
    else if name == "project_build" then ProjectBuild(args, b)
    else if name == "project_status" then ProjectStatus(b)
    else if name == "test_run" then TestRun(args, b)
    else if name == "test_record" then TestRecord(args, b)
    else Ok(UnknownTool)
  }

  /** The tools of each manager. */
  const DeviceTools: set<string> := {"device_list", "device_connect", "device_install"}
  const SimulatorTools: set<string> := {"simulator_list", "simulator_start", "simulator_stop"}
  const ProjectTools: set<string> := {"project_build", "project_status", "test_run", "test_record"}

  /** Every argument a registered tool's schema lists as required is
    * enforced by its handler: a call without it, as a string, fails. */
  lemma RequiredArgumentsEnforced(name: string, args: Json, b: Backends, key: string)
    requires name in ToolRegistry() && key in ToolRegistry()[name].required
    requires StrField(args, key).None?
    ensures ToolCall(name, args, b).Err?
  {
    var required := ToolRegistry()[name].required;
    if name in DeviceTools {
      DeviceArgumentsEnforced(name, args, b, key);
    } else if name in SimulatorTools {
      SimulatorArgumentsEnforced(name, args, b, key);
    } else {
      ProjectArgumentsEnforced(name, args, b, key);
    }
  }

  lemma DeviceArgumentsEnforced(name: string, args: Json, b: Backends, key: string)
    requires name in DeviceTools && key in ToolRegistry()[name].required
    requires StrField(args, key).None?
    ensures ToolCall(name, args, b).Err?
  {
  }

  lemma SimulatorArgumentsEnforced(name: string, args: Json, b: Backends, key: string)
    requires name in SimulatorTools && key in ToolRegistry()[name].required
    requires StrField(args, key).None?
    ensures ToolCall(name, args, b).Err?
  {
  }

  lemma ProjectArgumentsEnforced(name: string, args: Json, b: Backends, key: string)
    requires name in ProjectTools && key in ToolRegistry()[name].required
    requires StrField(args, key).None?
    ensures ToolCall(name, args, b).Err?
  {
  }

  /** The managers succeed for every argument. */
  ghost predicate Healthy(b: Backends)
  {
    b.listDevices.Ok? && b.listSimulators.Ok? && b.projectStatus.Ok?
    && (forall id: string :: b.connectDevice(id).Ok?)
    && (forall id: string, app: string :: b.installApp(id, app).Ok?)
    && (forall id: string :: b.startSimulator(id).Ok?)
    && (forall id: string :: b.stopSimulator(id).Ok?)
    && (forall target: Option<string> :: b.buildProject(target).Ok?)
    && (forall suite: Option<string>, device: Option<string> :: b.runTests(suite, device).Ok?)
    && (forall output: string :: b.recordTest(output).Ok?)
  }

  /** Conversely, with healthy managers a registered tool whose required
    * arguments are all present answers with a result: optional arguments
    * are never demanded. */
  lemma RequiredArgumentsSuffice(name: string, args: Json, b: Backends)
    requires name in ToolRegistry() && Healthy(b)
    requires forall key | key in ToolRegistry()[name].required :: StrField(args, key).Some?
    ensures ToolCall(name, args, b).Ok? && ToolCall(name, args, b).value.result.Some?
  {
    if name in DeviceTools {
      DeviceArgumentsSuffice(name, args, b);
    } else if name in SimulatorTools {
      SimulatorArgumentsSuffice(name, args, b);
    } else {
      ProjectArgumentsSuffice(name, args, b);
    }
  }

  lemma DeviceArgumentsSuffice(name: string, args: Json, b: Backends)
    requires name in DeviceTools && Healthy(b)
    requires forall key | key in ToolRegistry()[name].required :: StrField(args, key).Some?
    ensures ToolCall(name, args, b).Ok? && ToolCall(name, args, b).value.result.Some?
  {
    var required := ToolRegistry()[name].required;
    if name != "device_list" {
      assert "device_id" in required;
    }
    if name == "device_install" {
      assert "app_path" in required;
    }
  }

  lemma SimulatorArgumentsSuffice(name: string, args: Json, b: Backends)
    requires name in SimulatorTools && Healthy(b)
    requires forall key | key in ToolRegistry()[name].required :: StrField(args, key).Some?
    ensures ToolCall(name, args, b).Ok? && ToolCall(name, args, b).value.result.Some?
  {
    if name != "simulator_list" {
      assert "simulator_id" in ToolRegistry()[name].required;
    }
  }

  lemma ProjectArgumentsSuffice(name: string, args: Json, b: Backends)
    requires name in ProjectTools && Healthy(b)
    requires forall key | key in ToolRegistry()[name].required :: StrField(args, key).Some?
    ensures ToolCall(name, args, b).Ok? && ToolCall(name, args, b).value.result.Some?
  {
    if name == "test_record" {
      assert "output" in ToolRegistry()[name].required;
    }
  }

  /** A JSON object's serialization of each registry entry, as serde
    * writes the struct. */
  function ToolJson(t: Tool): Json
  {
    JObject(map["name" := JString(t.name), "description" := JString(t.description),
                "input_schema" := Schema(t.properties, t.required)])
  }

  function ResourceJson(r: Resource): Json
  {
    JObject(map["uri" := JString(r.uri), "name" := JString(r.name),
                "description" := JString(r.description), "mime_type" := JString(r.mimeType)])
  }

  function PromptArgumentJson(a: PromptArgument): Json
  {
    JObject(map["name" := JString(a.name), "description" := JString(a.description),
                "required" := JBool(a.required)])
  }

  function PromptJson(p: Prompt): Json
  {
    JObject(map["name" := JString(p.name), "description" := JString(p.description),
                "arguments" := JArray(seq(|p.arguments|, i requires 0 <= i < |p.arguments| => PromptArgumentJson(p.arguments[i])))])
  }

  /** The values of a registry in the given iteration order. */
  function Listed<T>(m: map<string, T>, order: seq<string>, toJson: T -> Json): (items: seq<Json>)
    requires Enumerates(order, m.Keys)
    ensures |items| == |order|
    ensures forall k | k in m :: toJson(m[k]) in items
  {
    var items := seq(|order|, i requires 0 <= i < |order| => toJson(m[order[i]]));
    assert forall k | k in m :: toJson(m[k]) in items by {
      forall k | k in m ensures toJson(m[k]) in items {
        var i :| 0 <= i < |order| && order[i] == k;
        assert items[i] == toJson(m[k]);
      }
    }
    items
  }

  // ---------------------------------------------------------------------
  // The server

  /** Inserting every entry of `m` into an empty registry gives `m`. */
  lemma MergedIntoEmpty<V>(m: map<string, V>)
    ensures map[] + m == m
  {
  }

  class Server {
    var tools: map<string, Tool>
    var resources: map<string, Resource>
    var prompts: map<string, Prompt>

    /** `McpServer::new` once its managers exist: all three registries
      * filled. */
    constructor()
      ensures tools == ToolRegistry() && resources == ResourceRegistry() && prompts == PromptRegistry()
    {
      tools := map[];
      resources := map[];
      prompts := map[];
      new;
      RegisterTools();
      RegisterResources();
      RegisterPrompts();
      MergedIntoEmpty(ToolRegistry());
      MergedIntoEmpty(ResourceRegistry());
      MergedIntoEmpty(PromptRegistry());
    }

    /** `register_tools`: the ten insertions, in one merge. */
    method RegisterTools()
      modifies this`tools
      ensures tools == old(tools) + ToolRegistry()
    {
      tools := tools + ToolRegistry();
    }

    /** `register_resources`: the three insertions, in one merge. */
    method RegisterResources()
      modifies this`resources
      ensures resources == old(resources) + ResourceRegistry()
    {
      resources := resources + ResourceRegistry();
    }

    /** `register_prompts`: the two insertions, in one merge. */
    method RegisterPrompts()
      modifies this`prompts
      ensures prompts == old(prompts) + PromptRegistry()
    {
      prompts := prompts + PromptRegistry();
    }

    /** The iteration orders fit the registries. */
    predicate Fits(orders: Orders)
      reads this
    {
      Enumerates(orders.tools, tools.Keys) && Enumerates(orders.resources, resources.Keys)
      && Enumerates(orders.prompts, prompts.Keys)
    }

    /** `handle_tools_list`: every registered tool, once. */
    function ToolsList(order: seq<string>): (resp: Response)
      reads this`tools
      requires Enumerates(order, tools.Keys)
      ensures WellFormed(resp) && resp.result.Some? && Field(resp.result.value, "tools").Some?
      ensures Field(resp.result.value, "tools").value.JArray?
      ensures var items := Field(resp.result.value, "tools").value.items;
              |items| == |order| && forall k | k in tools :: ToolJson(tools[k]) in items
    {
      Answer(map["tools" := JArray(Listed(tools, order, ToolJson))])
    }

    /** `handle_resources_list`: every registered resource, once. */
    function ResourcesList(order: seq<string>): (resp: Response)
      reads this`resources
      requires Enumerates(order, resources.Keys)
      ensures WellFormed(resp) && resp.result.Some? && Field(resp.result.value, "resources").Some?
      ensures Field(resp.result.value, "resources").value.JArray?
      ensures var items := Field(resp.result.value, "resources").value.items;
              |items| == |order| && forall k | k in resources :: ResourceJson(resources[k]) in items
    {
      Answer(map["resources" := JArray(Listed(resources, order, ResourceJson))])
    }

    /** `handle_prompts_list`: every registered prompt, once. */
    function PromptsList(order: seq<string>): (resp: Response)
      reads this`prompts
      requires Enumerates(order, prompts.Keys)
      ensures WellFormed(resp) && resp.result.Some? && Field(resp.result.value, "prompts").Some?
      ensures Field(resp.result.value, "prompts").value.JArray?
      ensures var items := Field(resp.result.value, "prompts").value.items;
              |items| == |order| && forall k | k in prompts :: PromptJson(prompts[k]) in items
    {
      Answer(map["prompts" := JArray(Listed(prompts, order, PromptJson))])
    }

    /** `handle_tool_call`: a call needs a tool name; arguments default to
      * the empty object. The dispatch does not consult `tools`. */
    function HandleToolCall(params: Json, b: Backends): (r: KResult<Response>)
      ensures StrField(params, "name").None? ==> r == Err(KMobileError(McpServerError, "Tool name not provided"))
      ensures StrField(params, "name").Some? ==>
                r == ToolCall(StrField(params, "name").value, ArgumentsOf(params), b)
      ensures r.Ok? ==> WellFormed(r.value)
    {
      var name :- Require(params, "name", "Tool name not provided");
      ToolCall(name, ArgumentsOf(params), b)
    }

    /** `handle_resource_read`: needs a URI; no resource is read yet. */
    function HandleResourceRead(params: Json): (r: KResult<Response>)
      ensures r.Ok? <==> StrField(params, "uri").Some?
      ensures r.Err? ==> r.error == KMobileError(McpServerError, "Resource URI not provided")
      ensures r.Ok? ==> r.value == Answer(map["contents" := JArray([])])
    {
      var _ :- Require(params, "uri", "Resource URI not provided");
      Ok(Answer(map["contents" := JArray([])]))
    }

    /** `handle_prompt_get`: a registered prompt's description and no
      * messages; an unknown name is a protocol error, a missing one a
      * server error. */
    function HandlePromptGet(params: Json): (r: KResult<Response>)
      reads this`prompts
      ensures StrField(params, "name").None? ==> r == Err(KMobileError(McpServerError, "Prompt name not provided"))
      ensures StrField(params, "name").Some? ==> r.Ok?
      ensures r.Ok? ==> WellFormed(r.value)
      ensures var name := StrField(params, "name");
              name.Some? && name.value in prompts ==>
                r.value.result.Some?
                && StrField(r.value.result.value, "description") == Some(prompts[name.value].description)
                && Field(r.value.result.value, "messages") == Some(JArray([]))
      ensures var name := StrField(params, "name");
              name.Some? && name.value !in prompts ==> r == Ok(PromptNotFound)
    {
      var name :- Require(params, "name", "Prompt name not provided");
      if name in prompts then
        Ok(Answer(map["description" := JString(prompts[name].description), "messages" := JArray([])]))
      else
        Ok(PromptNotFound)
    }

    /** `handle_request`: the six methods the server knows; any other is
      * answered with "Method not found". */
    function HandleRequest(req: Request, b: Backends, orders: Orders): (r: KResult<Response>)
      reads this
      requires Fits(orders)
      ensures r.Ok? ==> WellFormed(r.value)
      ensures req.methodName !in KnownMethods ==> r == Ok(MethodNotFound)
      ensures req.methodName == "tools/list" ==> r == Ok(ToolsList(orders.tools))
      ensures req.methodName == "tools/call" ==> r == HandleToolCall(req.params, b)
      ensures req.methodName == "resources/list" ==> r == Ok(ResourcesList(orders.resources))
      ensures req.methodName == "resources/read" ==> r == HandleResourceRead(req.params)
      ensures req.methodName == "prompts/list" ==> r == Ok(PromptsList(orders.prompts))
      ensures req.methodName == "prompts/get" ==> r == HandlePromptGet(req.params)
    {
      if req.methodName == "tools/list" then Ok(ToolsList(orders.tools))
      else if req.methodName == "tools/call" then HandleToolCall(req.params, b)
      else if req.methodName == "resources/list" then Ok(ResourcesList(orders.resources))
      else if req.methodName == "resources/read" then HandleResourceRead(req.params)
      else if req.methodName == "prompts/list" then Ok(PromptsList(orders.prompts))
      else if req.methodName == "prompts/get" then HandlePromptGet(req.params)
      else Ok(MethodNotFound)
    }
  }

  /** On a freshly built server every registered prompt is found by name,
    * and the "Unknown tool" answer comes exactly for the names outside the
    * tool registry. */
  lemma FreshServerAnswers(s: Server, params: Json, b: Backends)
    requires s.tools == ToolRegistry() && s.prompts == PromptRegistry()
    requires StrField(params, "name").Some?
    ensures s.HandleToolCall(params, b) == Ok(UnknownTool) <==> StrField(params, "name").value !in s.tools
    ensures s.HandlePromptGet(params).Ok?
    ensures s.HandlePromptGet(params) == Ok(PromptNotFound) <==> StrField(params, "name").value !in s.prompts
  {
  }
}
