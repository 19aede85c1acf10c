/**
  The stdio variant of the server: the same five tools, declared as a literal list
  of MCP Tool objects, and a call handler that answers a list of exactly one text
  content item. It is written here on its own, apart from the HTTP gateway, and
  then proved to agree with it.
*/
module StdioServer {
  import opened Wrappers
  import opened Json
  import opened Py
  import Registry
  import Gateway

  /** An MCP Tool: name, description and the input JSON Schema. */
  datatype Tool = Tool(name: string, description: string, inputSchema: Json)

  /** An MCP TextContent item. */
  datatype TextContent = TextContent(kind: string, text: string)

  function Prop(kind: string, description: string): Json {
    JObj([("type", JStr(kind)), ("description", JStr(description))])
  }

  function Schema(properties: Object, required: seq<Json>): Json {
    JObj([("type", JStr("object")), ("properties", JObj(properties)), ("required", JArr(required))])
  }

  /** The tools list_tools announces. */
  function ListTools(): seq<Tool> {
    [
      Tool("register_agent", "Register a new agent with the business server",
        Schema([("name", Prop("string", "Name of the agent to register")),
                ("version", Prop("string", "Version of the agent"))],
               [JStr("name"), JStr("version")])),
      Tool("report_status", "Report agent status to the business server",
        Schema([("agent_id", Prop("string", "ID of the agent reporting status")),
                ("status", Prop("string", "Current status of the agent")),
                ("cpu_usage", Prop("number", "CPU usage percentage (optional)")),
                ("memory_usage", Prop("number", "Memory usage percentage (optional)"))],
               [JStr("agent_id"), JStr("status")])),
      Tool("get_tasks", "Get tasks assigned to a specific agent",
        Schema([("agent_id", Prop("string", "ID of the agent to get tasks for"))], [JStr("agent_id")])),
      Tool("add_number", "Add 1 to a given number using the business server",
        Schema([("number", Prop("integer", "The number to add 1 to"))], [JStr("number")])),
      Tool("get_joke", "Get a random joke from the business server", Schema([], []))
    ]
  }

  /** A Tool as its fields appear on the wire. */
  function Wire(t: Tool): Json {
    JObj([("name", JStr(t.name)), ("description", JStr(t.description)), ("inputSchema", t.inputSchema)])
  }

  lemma RegisterAgentEntry()
    ensures Wire(ListTools()[0]) == Registry.Tools()[0]
  {
    var spec := Registry.Catalog[0];
    assert Registry.Strings(spec.required) == [JStr("name"), JStr("version")];
    assert Registry.EncodeProperties(spec.properties)
           == [Registry.EncodeProperty(spec.properties[0]), Registry.EncodeProperty(spec.properties[1])];
  }

  lemma ReportStatusEntry()
    ensures Wire(ListTools()[1]) == Registry.Tools()[1]
  {
    var spec := Registry.Catalog[1];
    assert Registry.Strings(spec.required) == [JStr("agent_id"), JStr("status")];
    assert Registry.EncodeProperties(spec.properties)
           == [Registry.EncodeProperty(spec.properties[0]), Registry.EncodeProperty(spec.properties[1]),
               Registry.EncodeProperty(spec.properties[2]), Registry.EncodeProperty(spec.properties[3])];
  }

  lemma GetTasksEntry()
    ensures Wire(ListTools()[2]) == Registry.Tools()[2]
  {
    var spec := Registry.Catalog[2];
    assert Registry.Strings(spec.required) == [JStr("agent_id")];
    assert Registry.EncodeProperties(spec.properties) == [Registry.EncodeProperty(spec.properties[0])];
  }

  lemma AddNumberEntry()
    ensures Wire(ListTools()[3]) == Registry.Tools()[3]
  {
    var spec := Registry.Catalog[3];
    assert Registry.Strings(spec.required) == [JStr("number")];
    assert Registry.EncodeProperties(spec.properties) == [Registry.EncodeProperty(spec.properties[0])];
  }

  lemma GetJokeEntry()
    ensures Wire(ListTools()[4]) == Registry.Tools()[4]
  {
  }

  /**
    The two servers announce the same catalog: five tools whose names, descriptions
    and schemas agree entry for entry with the HTTP server's, in the same order.
  */
  lemma ListToolsMatchesHttp()
    ensures |ListTools()| == |Registry.Tools()| == 5
    ensures forall i :: 0 <= i < 5 ==> Wire(ListTools()[i]) == Registry.Tools()[i]
  {
    RegisterAgentEntry();
    ReportStatusEntry();
    GetTasksEntry();
    AddNumberEntry();
    GetJokeEntry();
  }

  /** Tool names are pairwise distinct, and each schema's "required" names are keys of its "properties". */
  lemma ListToolsWellFormed()
    ensures forall i, j :: 0 <= i < j < |ListTools()| ==> ListTools()[i].name != ListTools()[j].name
    ensures forall i :: 0 <= i < |ListTools()| ==> Registry.SchemaWellFormed(ListTools()[i].inputSchema)
  {
    ListToolsMatchesHttp();
    var tools := ListTools();
    forall i | 0 <= i < |tools|
      ensures Registry.NameOf(Registry.Tools()[i]) == JStr(tools[i].name)
      ensures Registry.SchemaWellFormed(tools[i].inputSchema)
    {
      var entry := Registry.Tools()[i];
      assert entry == Wire(tools[i]);
      LookupAt(entry.fields, 0, "name");
      LookupAt(entry.fields, 2, "inputSchema");
    }
  }

  /** arguments[key] on the argument dict; a missing key raises KeyError(key). */
  function Argument(arguments: Object, key: string): Result<Json, string> {
    match Lookup(arguments, key)
    case Some(v) => Success(v)
    case None => Failure(ErrorText(KeyError(key)))
  }

  /** result.get(key, default) on the downstream reply. */
  function Field(result: Json, key: string, default: Json): Result<Json, string> {
    match Get(result, key, default)
    case Success(v) => Success(v)
    case Failure(e) => Failure(ErrorText(e))
  }

  /**
    The body of the handler's try block: the text of a normal completion, or str(e)
    of the exception that left it.
  */
  function Attempt(name: string, arguments: Object, downstream: Gateway.Downstream, dumps: Gateway.Dumps)
    : Result<string, string>
  {
    if name == "register_agent" then
      var n :- Argument(arguments, "name");
      var v :- Argument(arguments, "version");
      var result :- downstream(Gateway.RegisterAgent(n, v));
      var id :- Field(result, "agent_id", JNull);
      Success("Agent registered successfully. Agent ID: " + Str(id))
    else if name == "report_status" then
      var a :- Argument(arguments, "agent_id");
      var s :- Argument(arguments, "status");
      var result :- downstream(Gateway.ReportStatus(a, s, Lookup(arguments, "cpu_usage").GetOr(JNull),
                                                     Lookup(arguments, "memory_usage").GetOr(JNull)));
      var message :- Field(result, "message", JNull);
      Success("Status reported successfully: " + Str(message))
    else if name == "get_tasks" then
      var a :- Argument(arguments, "agent_id");
      var result :- downstream(Gateway.GetTasks(a));
      var tasks :- Field(result, "tasks", JObj([]));
      Success("Tasks for agent " + Str(a) + ":\n" + dumps(tasks))
    else if name == "add_number" then
      var n :- Argument(arguments, "number");
      var result :- downstream(Gateway.AddNumber(n));
      var sum :- Field(result, "result", JNull);
      Success("Result: " + Str(n) + " + 1 = " + Str(sum))
    else if name == "get_joke" then
      var result :- downstream(Gateway.GetJoke);
      var setup :- Field(result, "setup", JStr(""));
      var punchline :- Field(result, "punchline", JStr(""));
      Success("Here's a joke for you:\n\nSetup: " + Str(setup) + "\nPunchline: " + Str(punchline))
    else
      Success("Unknown tool: " + name)
  }

  /** call_tool: exactly one text item, whatever happens. */
  function HandleCallTool(name: string, arguments: Object, downstream: Gateway.Downstream, dumps: Gateway.Dumps)
    : (r: seq<TextContent>)
    ensures |r| == 1 && r[0].kind == "text"
    ensures Attempt(name, arguments, downstream, dumps).Failure? ==>
              r[0].text == "Error executing " + name + ": " + Attempt(name, arguments, downstream, dumps).error
  {
    [TextContent("text", Text(name, Attempt(name, arguments, downstream, dumps)))]
  }

  /** The handler's text: the try block's text, or the error text for the exception that left it. */
  function Text(name: string, attempt: Result<string, string>): string {
    match attempt
    case Success(text) => text
    case Failure(cause) => "Error executing " + name + ": " + cause
  }

  lemma RegisterAgentAgrees(arguments: Object, downstream: Gateway.Downstream, dumps: Gateway.Dumps)
    ensures Text("register_agent", Attempt("register_agent", arguments, downstream, dumps))
            == Gateway.CallTool(JStr("register_agent"), JObj(arguments), downstream, dumps).text
  {
  }

  lemma ReportStatusAgrees(arguments: Object, downstream: Gateway.Downstream, dumps: Gateway.Dumps)
    ensures Text("report_status", Attempt("report_status", arguments, downstream, dumps))
            == Gateway.CallTool(JStr("report_status"), JObj(arguments), downstream, dumps).text
  {
  }

  lemma GetTasksAgrees(arguments: Object, downstream: Gateway.Downstream, dumps: Gateway.Dumps)
    ensures Text("get_tasks", Attempt("get_tasks", arguments, downstream, dumps))
            == Gateway.CallTool(JStr("get_tasks"), JObj(arguments), downstream, dumps).text
  {
  }

  lemma AddNumberAgrees(arguments: Object, downstream: Gateway.Downstream, dumps: Gateway.Dumps)
    ensures Text("add_number", Attempt("add_number", arguments, downstream, dumps))
            == Gateway.CallTool(JStr("add_number"), JObj(arguments), downstream, dumps).text
  {
  }

  lemma GetJokeAgrees(arguments: Object, downstream: Gateway.Downstream, dumps: Gateway.Dumps)
    ensures Text("get_joke", Attempt("get_joke", arguments, downstream, dumps))
            == Gateway.CallTool(JStr("get_joke"), JObj(arguments), downstream, dumps).text
  {
  }

  /**
    For the same name, arguments and downstream behaviour, the stdio handler's one
    text item holds exactly the text of the HTTP server's call_tool.
  */
  lemma SameTextAsHttp(name: string, arguments: Object, downstream: Gateway.Downstream, dumps: Gateway.Dumps)
    ensures HandleCallTool(name, arguments, downstream, dumps)
            == [TextContent("text", Gateway.CallTool(JStr(name), JObj(arguments), downstream, dumps).text)]
  {
    if name == "register_agent" {
      RegisterAgentAgrees(arguments, downstream, dumps);
    } else if name == "report_status" {
      ReportStatusAgrees(arguments, downstream, dumps);
    } else if name == "get_tasks" {
      GetTasksAgrees(arguments, downstream, dumps);
    } else if name == "add_number" {
      AddNumberAgrees(arguments, downstream, dumps);
    } else if name == "get_joke" {
      GetJokeAgrees(arguments, downstream, dumps);
    }
  }

  /** A name outside the catalog answers "Unknown tool: <name>" and reaches no business operation. */
  lemma UnknownTool(name: string, arguments: Object, downstream: Gateway.Downstream, dumps: Gateway.Dumps)
    requires !Registry.IsToolName(name)
    ensures HandleCallTool(name, arguments, downstream, dumps) == [TextContent("text", "Unknown tool: " + name)]
    ensures Gateway.CallTool(JStr(name), JObj(arguments), downstream, dumps).issued.None?
  {
    Gateway.UnknownTool(JStr(name), JObj(arguments), downstream, dumps);
    SameTextAsHttp(name, arguments, downstream, dumps);
  }
}
