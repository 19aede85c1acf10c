/**
  The tool gateway of the HTTP server (`call_tool`): routes a tool name and an
  argument dict to one business-server operation and turns the outcome into the
  text the LLM reads. Every failure, whether a missing argument, an HTTP error or a
  malformed reply, becomes "Error executing <name>: <str(e)>"; a name outside the
  catalog becomes "Unknown tool: <name>" and reaches no downstream operation.
*/
module Gateway {
  import opened Wrappers
  import opened Json
  import opened Py
  import Registry
  import Text

  /** The business-server operations, carrying the argument values the gateway passes on. */
  datatype Call =
    | RegisterAgent(name: Json, version: Json)
    | ReportStatus(agentId: Json, status: Json, cpuUsage: Json, memoryUsage: Json)
    | GetTasks(agentId: Json)
    | AddNumber(number: Json)
    | GetJoke
  {
    /** The catalog tool that issues this call. */
    function ToolName(): string {
      match this
      case RegisterAgent(_, _) => "register_agent"
      case ReportStatus(_, _, _, _) => "report_status"
      case GetTasks(_) => "get_tasks"
      case AddNumber(_) => "add_number"
      case GetJoke => "get_joke"
    }

    /** The values passed for the tool's required arguments, in "required" order. */
    function RequiredValues(): seq<Json> {
      match this
      case RegisterAgent(n, v) => [n, v]
      case ReportStatus(a, s, _, _) => [a, s]
      case GetTasks(a) => [a]
      case AddNumber(n) => [n]
      case GetJoke => []
    }
  }

  /**
    The business server as reached over HTTP: the decoded body of a 2xx reply, or
    the text str(e) of the error the HTTP client raised (connection failure,
    non-2xx status, undecodable body).
  */
  type Downstream = Call -> Result<Json, string>

  /** json.dumps(value, indent=2), kept opaque. */
  type Dumps = Json -> string

  datatype Route = Unknown | Invoke(call: Call)

  /**
    The argument reads of `call_tool` before any downstream request, in the source's
    order; `arguments[k]` on a dict without k raises KeyError(k).
  */
  function Prepare(name: Json, arguments: Json): Result<Route, PyError> {
    if name == JStr("register_agent") then
      var n :- Subscript(arguments, "name");
      var v :- Subscript(arguments, "version");
      Success(Invoke(RegisterAgent(n, v)))
    else if name == JStr("report_status") then
      var a :- Subscript(arguments, "agent_id");
      var s :- Subscript(arguments, "status");
      var c :- Get(arguments, "cpu_usage", JNull);
      var m :- Get(arguments, "memory_usage", JNull);
      Success(Invoke(ReportStatus(a, s, c, m)))
    else if name == JStr("get_tasks") then
      var a :- Subscript(arguments, "agent_id");
      Success(Invoke(GetTasks(a)))
    else if name == JStr("add_number") then
      var n :- Subscript(arguments, "number");
      Success(Invoke(AddNumber(n)))
    else if name == JStr("get_joke") then
      Success(Invoke(GetJoke))
    else
      Success(Unknown)
  }

  /** The text before the new agent's id in the register_agent answer. */
  const RegisteredText: string := "Agent registered successfully. Agent ID: "

  /** The success text built from the downstream reply; `.get` on a reply that is not a dict raises. */
  function Format(call: Call, body: Json, dumps: Dumps): Result<string, PyError> {
    match call
    case RegisterAgent(_, _) =>
      var id :- Get(body, "agent_id", JNull);
      Success(RegisteredText + Str(id))
    case ReportStatus(_, _, _, _) =>
      var message :- Get(body, "message", JNull);
      Success("Status reported successfully: " + Str(message))
    case GetTasks(agentId) =>
      var tasks :- Get(body, "tasks", JObj([]));
      Success("Tasks for agent " + Str(agentId) + ":\n" + dumps(tasks))
    case AddNumber(number) =>
      var result :- Get(body, "result", JNull);
      Success("Result: " + Str(number) + " + 1 = " + Str(result))
    case GetJoke =>
      var setup :- Get(body, "setup", JStr(""));
      var punchline :- Get(body, "punchline", JStr(""));
      Success("Here's a joke for you:\n\nSetup: " + Str(setup) + "\nPunchline: " + Str(punchline))
  }

  function ErrorMessage(name: Json, cause: string): string {
    "Error executing " + Str(name) + ": " + cause
  }

  /** The text `call_tool` returns, and the downstream call it issued, if any. */
  datatype ToolOutcome = ToolOutcome(text: string, issued: Option<Call>)

  function CallTool(name: Json, arguments: Json, downstream: Downstream, dumps: Dumps): (r: ToolOutcome)
    ensures r.issued.Some? ==> name == JStr(r.issued.value.ToolName())
  {
    match Prepare(name, arguments)
    case Failure(e) => ToolOutcome(ErrorMessage(name, ErrorText(e)), None)
    case Success(Unknown) => ToolOutcome("Unknown tool: " + Str(name), None)
    case Success(Invoke(call)) =>
      var text :=
        match downstream(call)
        case Failure(cause) => ErrorMessage(name, cause)
        case Success(body) =>
          (match Format(call, body, dumps)
           case Success(t) => t
           case Failure(e) => ErrorMessage(name, ErrorText(e)));
      ToolOutcome(text, Some(call))
  }

  /** The first name of `required` that is not a key of the argument dict. */
  function FirstMissing(required: seq<string>, arguments: Object): (r: Option<string>)
    ensures r.Some? ==> r.value in required && !HasKey(arguments, r.value)
    ensures r.Some? ==> exists k :: 0 <= k < |required| && required[k] == r.value
                                    && forall j :: 0 <= j < k ==> HasKey(arguments, required[j])
    ensures r.None? ==> forall k :: k in required ==> HasKey(arguments, k)
    decreases |required|
  {
    if |required| == 0 then None
    else if !HasKey(arguments, required[0]) then Some(required[0])
    else
      var r := FirstMissing(required[1..], arguments);
      if r.Some? then FirstAfterPresent(required, arguments, r.value); r else r
  }

  /** A key first missing from the tail, behind a present head, is first missing from the whole list. */
  lemma FirstAfterPresent(required: seq<string>, arguments: Object, key: string)
    requires |required| > 0 && HasKey(arguments, required[0])
    requires exists k :: 0 <= k < |required| - 1 && required[1..][k] == key
                         && forall j :: 0 <= j < k ==> HasKey(arguments, required[1..][j])
    ensures exists k :: 0 <= k < |required| && required[k] == key
                        && forall j :: 0 <= j < k ==> HasKey(arguments, required[j])
  {
    var k :| 0 <= k < |required| - 1 && required[1..][k] == key
             && forall j :: 0 <= j < k ==> HasKey(arguments, required[1..][j]);
    forall j | 0 <= j < k + 1 ensures HasKey(arguments, required[j]) {
      if j > 0 { assert required[j] == required[1..][j - 1]; }
    }
    assert required[k + 1] == key;
  }

  /** A name outside the catalog gets "Unknown tool: <name>" and no downstream call. */
  lemma UnknownTool(name: Json, arguments: Json, downstream: Downstream, dumps: Dumps)
    requires !(name.JStr? && Registry.IsToolName(name.s))
    ensures CallTool(name, arguments, downstream, dumps) == ToolOutcome("Unknown tool: " + Str(name), None)
  {
    assert Registry.Catalog[0].name == "register_agent";
    assert Registry.Catalog[1].name == "report_status";
    assert Registry.Catalog[2].name == "get_tasks";
    assert Registry.Catalog[3].name == "add_number";
    assert Registry.Catalog[4].name == "get_joke";
  }

  /**
    A catalog tool called with a dict that lacks one of its required arguments fails
    with KeyError on the first missing one, in "required" order, before any
    downstream call.
  */
  lemma MissingRequiredArgument(name: string, arguments: Object, missing: string, downstream: Downstream, dumps: Dumps)
    requires Registry.IsToolName(name)
    requires FirstMissing(Registry.RequiredOf(name), arguments) == Some(missing)
    ensures CallTool(JStr(name), JObj(arguments), downstream, dumps)
            == ToolOutcome("Error executing " + name + ": '" + missing + "'", None)
  {
    PrepareMissing(name, arguments, missing);
    ExceptionsBecomeErrorText(JStr(name), JObj(arguments), downstream, dumps);
    KeyErrorText(name, missing);
  }

  /** The error text of a KeyError is the key between single quotes. */
  lemma KeyErrorText(name: string, missing: string)
    ensures "Error executing " + Str(JStr(name)) + ": " + ErrorText(KeyError(missing))
            == "Error executing " + name + ": '" + missing + "'"
  {
    var prefix := "Error executing " + name;
    assert ErrorText(KeyError(missing)) == "'" + missing + "'";
    assert ": " + "'" == ": '";
    assert prefix + ": " + ("'" + missing + "'") == prefix + (": " + "'") + missing + "'";
  }

  /** The argument reads stop at the first missing required key. */
  lemma PrepareMissing(name: string, arguments: Object, missing: string)
    requires Registry.IsToolName(name)
    requires FirstMissing(Registry.RequiredOf(name), arguments) == Some(missing)
    ensures Prepare(JStr(name), JObj(arguments)) == Failure(KeyError(missing))
  {
    var required := Registry.RequiredOf(name);
    if name == "register_agent" {
      assert required == ["name", "version"];
      if HasKey(arguments, "name") {
        assert missing == "version";
      } else {
        assert missing == "name";
      }
    } else if name == "report_status" {
      assert required == ["agent_id", "status"];
      if HasKey(arguments, "agent_id") {
        assert missing == "status";
      } else {
        assert missing == "agent_id";
      }
    } else if name == "get_tasks" {
      assert required == ["agent_id"];
    } else if name == "add_number" {
      assert required == ["number"];
    } else {
      // get_joke requires nothing, so nothing can be missing
      assert false;
    }
  }

  /**
    A catalog tool called with every required argument present issues exactly one
    downstream call: the operation of that tool, carrying the argument values.
  */
  lemma CompleteArguments(name: string, arguments: Object, downstream: Downstream, dumps: Dumps)
    requires Registry.IsToolName(name)
    requires FirstMissing(Registry.RequiredOf(name), arguments).None?
    ensures var r := CallTool(JStr(name), JObj(arguments), downstream, dumps);
            && r.issued.Some?
            && r.issued.value.ToolName() == name
            && |r.issued.value.RequiredValues()| == |Registry.RequiredOf(name)|
            && forall i :: 0 <= i < |Registry.RequiredOf(name)| ==>
                 Lookup(arguments, Registry.RequiredOf(name)[i]) == Some(r.issued.value.RequiredValues()[i])
  {
    var required := Registry.RequiredOf(name);
    assert forall i :: 0 <= i < |required| ==> required[i] in required;
    if name == "register_agent" {
      assert required == ["name", "version"];
    } else if name == "report_status" {
      assert required == ["agent_id", "status"];
    } else if name == "get_tasks" {
      assert required == ["agent_id"];
    } else if name == "add_number" {
      assert required == ["number"];
    } else {
      assert name == "get_joke" by {
        assert Registry.Catalog[0].name == "register_agent";
        assert Registry.Catalog[1].name == "report_status";
        assert Registry.Catalog[2].name == "get_tasks";
        assert Registry.Catalog[3].name == "add_number";
        assert Registry.Catalog[4].name == "get_joke";
      }
    }
  }

  /** A downstream failure reaches the caller as "Error executing <name>: <cause>". */
  lemma DownstreamFailure(name: Json, arguments: Json, downstream: Downstream, dumps: Dumps, call: Call, cause: string)
    requires CallTool(name, arguments, downstream, dumps).issued == Some(call)
    requires downstream(call) == Failure(cause)
    ensures CallTool(name, arguments, downstream, dumps).text == "Error executing " + Str(name) + ": " + cause
  {
  }

  /**
    Every exception raised inside call_tool reaches the caller as
    "Error executing <name>: <str(e)>": an argument read that raises, or a reply
    the formatting cannot read.
  */
  lemma ExceptionsBecomeErrorText(name: Json, arguments: Json, downstream: Downstream, dumps: Dumps)
    ensures var r := CallTool(name, arguments, downstream, dumps);
            Prepare(name, arguments).Failure? ==>
              r == ToolOutcome("Error executing " + Str(name) + ": " + ErrorText(Prepare(name, arguments).error), None)
    ensures var r := CallTool(name, arguments, downstream, dumps);
            forall call, body :: Prepare(name, arguments) == Success(Invoke(call)) && downstream(call) == Success(body)
                                 && Format(call, body, dumps).Failure? ==>
              r == ToolOutcome("Error executing " + Str(name) + ": " + ErrorText(Format(call, body, dumps).error), Some(call))
  {
  }

  /** Arguments that are not a dict: the first required read raises TypeError, before any downstream call. */
  lemma NonDictArguments(name: string, arguments: Json, downstream: Downstream, dumps: Dumps)
    requires Registry.IsToolName(name) && name != "get_joke"
    requires !arguments.JObj?
    ensures |Registry.RequiredOf(name)| > 0
    ensures var e := Subscript(arguments, Registry.RequiredOf(name)[0]);
            && e.Failure? && e.error.TypeError?
            && CallTool(JStr(name), arguments, downstream, dumps)
               == ToolOutcome("Error executing " + name + ": " + ErrorText(e.error), None)
  {
    var required := Registry.RequiredOf(name);
    if name == "register_agent" {
      assert required == ["name", "version"];
    } else if name == "report_status" {
      assert required == ["agent_id", "status"];
    } else if name == "get_tasks" {
      assert required == ["agent_id"];
    } else {
      assert required == ["number"];
    }
    assert Prepare(JStr(name), arguments) == Failure(Subscript(arguments, required[0]).error);
    ExceptionsBecomeErrorText(JStr(name), arguments, downstream, dumps);
  }

  /**
    A reply body that is not a dict cannot be read with .get: the answer is the
    AttributeError text, for every tool.
  */
  lemma UnreadableReply(name: Json, arguments: Json, downstream: Downstream, dumps: Dumps, call: Call, body: Json)
    requires CallTool(name, arguments, downstream, dumps).issued == Some(call)
    requires downstream(call) == Success(body)
    requires !body.JObj?
    ensures CallTool(name, arguments, downstream, dumps).text
            == "Error executing " + Str(name) + ": '" + TypeName(body) + "' object has no attribute 'get'"
  {
    IssuedWasPrepared(name, arguments, downstream, dumps, call);
    FormatNeedsDict(call, body, dumps);
    ExceptionsBecomeErrorText(name, arguments, downstream, dumps);
  }

  lemma IssuedWasPrepared(name: Json, arguments: Json, downstream: Downstream, dumps: Dumps, call: Call)
    requires CallTool(name, arguments, downstream, dumps).issued == Some(call)
    ensures Prepare(name, arguments) == Success(Invoke(call))
  {
  }

  /** Every formatting starts with body.get(...), which raises AttributeError on a non-dict. */
  lemma FormatNeedsDict(call: Call, body: Json, dumps: Dumps)
    requires !body.JObj?
    ensures Format(call, body, dumps) == Failure(AttributeError("'" + TypeName(body) + "' object has no attribute 'get'"))
  {
  }

  /** add_number on an integer n, answered with {"result": n + 1}, reads "Result: n + 1 = n+1". */
  lemma AddNumberText(n: int, arguments: Object, downstream: Downstream, dumps: Dumps)
    requires Lookup(arguments, "number") == Some(JInt(n))
    requires downstream(AddNumber(JInt(n))) == Success(JObj([("result", JInt(n + 1))]))
    ensures CallTool(JStr("add_number"), JObj(arguments), downstream, dumps)
            == ToolOutcome("Result: " + Text.IntToString(n) + " + 1 = " + Text.IntToString(n + 1),
                           Some(AddNumber(JInt(n))))
  {
  }

  /** report_status answered with a dict reads "Status reported successfully: " and its "message" (None when absent). */
  lemma ReportStatusText(arguments: Object, agentId: Json, status: Json, downstream: Downstream, dumps: Dumps,
                         body: Object)
    requires Lookup(arguments, "agent_id") == Some(agentId)
    requires Lookup(arguments, "status") == Some(status)
    requires downstream(ReportStatus(agentId, status, Lookup(arguments, "cpu_usage").GetOr(JNull),
                                     Lookup(arguments, "memory_usage").GetOr(JNull)))
             == Success(JObj(body))
    ensures CallTool(JStr("report_status"), JObj(arguments), downstream, dumps).text
            == "Status reported successfully: " + Str(Lookup(body, "message").GetOr(JNull))
  {
  }

  /**
    get_joke, whatever its arguments, answered with a dict reads the joke template,
    with "" for a missing setup or punchline.
  */
  lemma JokeText(arguments: Json, downstream: Downstream, dumps: Dumps, body: Object)
    requires downstream(GetJoke) == Success(JObj(body))
    ensures CallTool(JStr("get_joke"), arguments, downstream, dumps).text
            == "Here's a joke for you:\n\nSetup: " + Str(Lookup(body, "setup").GetOr(JStr("")))
               + "\nPunchline: " + Str(Lookup(body, "punchline").GetOr(JStr("")))
  {
  }

  /** An empty joke reply still reads as the template, with both parts empty. */
  lemma JokeDefaults(arguments: Json, downstream: Downstream, dumps: Dumps)
    requires downstream(GetJoke) == Success(JObj([]))
    ensures CallTool(JStr("get_joke"), arguments, downstream, dumps).text
            == "Here's a joke for you:\n\nSetup: \nPunchline: "
  {
    JokeText(arguments, downstream, dumps, []);
  }
}
