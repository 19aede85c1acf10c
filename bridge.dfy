/**
  The components together: what the chat client reads back from the HTTP server's
  answers, what the gateway answers when the business back end is the downstream,
  and what a client's handshake leaves in the server's session store.
*/
module Bridge {
  import opened Wrappers
  import opened Json
  import opened Py
  import Text
  import Registry
  import Gateway
  import Dispatcher
  import Business
  import Client

  /** The HTTP server as the client's transport: every dict request gets the dispatcher's answer. */
  function Served(s: Dispatcher.Store, peer: string, now: string,
                  downstream: Gateway.Downstream, dumps: Gateway.Dumps): Client.Transport
  {
    (request: Json) => if request.JObj? then Some(Dispatcher.Respond(s, peer, request.fields, now, downstream, dumps)) else None
  }

  /** The server's answer to the client's tools/call carries the gateway's text under id 3. */
  lemma ToolCallAnswer(s: Dispatcher.Store, peer: string, now: string, name: Json, arguments: Json,
                       downstream: Gateway.Downstream, dumps: Gateway.Dumps)
    ensures Dispatcher.Respond(s, peer, Client.ToolCallRequest(name, arguments).fields, now, downstream, dumps)
            == Dispatcher.ToolCallResult(JInt(3), Gateway.CallTool(name, arguments, downstream, dumps).text)
  {
    var request := Client.ToolCallRequest(name, arguments).fields;
    var params: Object := [("name", name), ("arguments", arguments)];
    LookupAt(request, 1, "id");
    LookupAt(request, 2, "method");
    LookupAt(request, 3, "params");
    LookupAt(params, 0, "name");
    LookupAt(params, 1, "arguments");
    Dispatcher.ToolsCall(s, peer, request, now, downstream, dumps);
  }

  /** The client reads the text of the single content block back unchanged. */
  lemma ToolCallResultReads(id: Json, text: string)
    ensures Client.ToolCallText(Some(Dispatcher.ToolCallResult(id, text))) == Success(JStr(text))
  {
    var block: Object := [("type", JStr("text")), ("text", JStr(text))];
    var result: Object := [("content", JArr([JObj(block)]))];
    LookupAt(Dispatcher.ToolCallResult(id, text).fields, 2, "result");
    LookupAt(result, 0, "content");
    LookupAt(block, 1, "text");
  }

  /**
    A tools/call sent by the client is answered with the gateway's text, and the
    client reads exactly that text back, whatever the tool did.
  */
  lemma ToolCallEndToEnd(s: Dispatcher.Store, peer: string, now: string, name: Json, arguments: Json,
                         downstream: Gateway.Downstream, dumps: Gateway.Dumps)
    ensures Client.CallToolReply(true, name, arguments, Served(s, peer, now, downstream, dumps))
            == Success(JStr(Gateway.CallTool(name, arguments, downstream, dumps).text))
  {
    ToolCallAnswer(s, peer, now, name, arguments, downstream, dumps);
    ToolCallResultReads(JInt(3), Gateway.CallTool(name, arguments, downstream, dumps).text);
  }

  /** An error answer has no result, so the client reads "No response from tool". */
  lemma ErrorReadsAsNoResponse(id: Json, data: string)
    ensures Client.ToolCallText(Some(Dispatcher.ErrorResponse(id, data))) == Success(JStr(Client.NoResponse))
  {
    assert !HasKey(Dispatcher.ErrorResponse(id, data).fields, "result");
  }

  /** The catalog as the client holds it after _get_tools. */
  function ClientCatalog(): (r: seq<Client.Tool>)
    ensures |r| == |Registry.Catalog|
    ensures forall i :: 0 <= i < |r| ==>
              r[i] == Client.Tool(JStr(Registry.Catalog[i].name), JStr(Registry.Catalog[i].description),
                                  Registry.EncodeSchema(Registry.Catalog[i]))
  {
    seq(|Registry.Catalog|, i requires 0 <= i < |Registry.Catalog| =>
      Client.Tool(JStr(Registry.Catalog[i].name), JStr(Registry.Catalog[i].description),
                  Registry.EncodeSchema(Registry.Catalog[i])))
  }

  /** Each catalog entry the server lists reads back as the matching client-side Tool. */
  lemma EntryReads(i: int)
    requires 0 <= i < |Registry.Catalog|
    ensures Client.ToolFrom(Registry.Tools()[i]) == Success(ClientCatalog()[i])
  {
    var t := Registry.Catalog[i];
    var fields: Object := [("name", JStr(t.name)), ("description", JStr(t.description)), ("inputSchema", Registry.EncodeSchema(t))];
    assert Registry.Tools()[i] == JObj(fields);
    LookupAt(fields, 0, "name");
    LookupAt(fields, 1, "description");
    LookupAt(fields, 2, "inputSchema");
  }

  /** A tools/list answer, whatever its entries, reads as the list comprehension over them. */
  lemma ListedEntriesRead(id: Json, entries: seq<Json>)
    ensures var response := JObj([("jsonrpc", JStr("2.0")), ("id", id), ("result", JObj([("tools", JArr(entries))]))]);
            Client.CatalogFromResponse(Some(response))
            == (match Client.ToolsFrom(entries)
                case Success(tools) => Success(Some(tools))
                case Failure(e) => Failure(e))
  {
    var result: Object := [("tools", JArr(entries))];
    LookupAt([("jsonrpc", JStr("2.0")), ("id", id), ("result", JObj(result))], 2, "result");
    LookupAt(result, 0, "tools");
  }

  /** The catalog entries read back as ClientCatalog, all of them and in order. */
  lemma CatalogEntriesRead()
    ensures Client.ToolsFrom(Registry.Tools()) == Success(ClientCatalog())
  {
    var entries := Registry.Tools();
    forall i | 0 <= i < |entries|
      ensures Client.ToolFrom(entries[i]) == Success(ClientCatalog()[i])
    {
      EntryReads(i);
    }
    var built := Client.ToolsFrom(entries);
    assert built.value == ClientCatalog();
  }

  /** The client reads a tools/list answer as the whole catalog, in order. */
  lemma ToolsListResultReads(id: Json)
    ensures Client.CatalogFromResponse(Some(Dispatcher.ToolsListResult(id))) == Success(Some(ClientCatalog()))
  {
    ListedEntriesRead(id, Registry.Tools());
    CatalogEntriesRead();
  }

  /**
    The client rebuilds the server's catalog from the tools/list answer: one Tool per
    entry, in order, with inputSchema kept as the tool's schema.
  */
  lemma CatalogEndToEnd(s: Dispatcher.Store, peer: string, now: string,
                        downstream: Gateway.Downstream, dumps: Gateway.Dumps)
    ensures Client.ToolsOutcome(true, Served(s, peer, now, downstream, dumps)) == Success(Some(ClientCatalog()))
  {
    var request := Client.ToolsListRequest.fields;
    LookupAt(request, 1, "id");
    LookupAt(request, 2, "method");
    Dispatcher.ToolsList(s, peer, request, now, now, downstream, dumps);
    ToolsListResultReads(JInt(2));
  }

  /**
    "Agent ID: " does not start at j < 31 of a registration text: at 0 the seventh
    character is 'r', not 'I', and no character from 1 to 30 is an 'A'.
  */
  lemma NotMarkerAt(agentId: string, j: int)
    requires 0 <= j < 31
    ensures !Text.OccursAt(Gateway.RegisteredText + agentId, "Agent ID: ", j)
  {
    var s := Gateway.RegisteredText + agentId;
    assert s[j..j + 10][0] == s[j] && s[j..j + 10][6] == s[j + 6];
    if j == 0 {
      assert s[6] == Gateway.RegisteredText[6] == 'r';
    } else {
      assert s[j] == Gateway.RegisteredText[j] != 'A';
    }
  }

  /** "Agent ID: " does not start before index 31 of a registration text. */
  lemma NoEarlyMarker(agentId: string)
    ensures forall j :: 0 <= j < 31 ==> !Text.OccursAt(Gateway.RegisteredText + agentId, "Agent ID: ", j)
  {
    forall j | 0 <= j < 31 ensures !Text.OccursAt(Gateway.RegisteredText + agentId, "Agent ID: ", j) {
      NotMarkerAt(agentId, j);
    }
  }

  /** The agent id in a registration answer starts right after the 31 characters before "Agent ID: ". */
  lemma MarkerAt31(agentId: string)
    ensures Text.Find(Gateway.RegisteredText + agentId, "Agent ID: ") == 31
  {
    var s := Gateway.RegisteredText + agentId;
    assert s[31..41] == "Agent ID: ";
    NoEarlyMarker(agentId);
    Text.FindIs(s, "Agent ID: ", 31);
  }

  /** Splitting a registration text on "Agent ID: " gives the prefix and the id. */
  lemma SplitRegistration(agentId: string)
    requires !Text.Contains(agentId, "Agent ID: ")
    ensures Text.Split(Gateway.RegisteredText + agentId, "Agent ID: ")
            == ["Agent registered successfully. ", agentId]
  {
    var s := Gateway.RegisteredText + agentId;
    MarkerAt31(agentId);
    assert s[..31] == "Agent registered successfully. ";
    assert s[41..] == agentId;
    assert Text.Split(agentId, "Agent ID: ") == [agentId];
  }

  /** A registration text contains "Agent ID:". */
  lemma RegistrationHasMarker(agentId: string)
    ensures Text.Contains(Gateway.RegisteredText + agentId, "Agent ID:")
  {
    var s := Gateway.RegisteredText + agentId;
    assert s[31..40] == "Agent ID:";
    assert Text.OccursAt(s, "Agent ID:", 31);
  }

  /** Stripping a string whose ends are not whitespace changes nothing. */
  lemma StripKeeps(x: string)
    requires |x| == 0 || (!Text.IsSpace(x[0]) && !Text.IsSpace(x[|x| - 1]))
    ensures Text.Strip(x) == x
  {
    assert Text.StripLeft(x) == x;
    assert Text.StripRight(x) == x;
  }

  /**
    The client parses back exactly the id the gateway put in the registration text,
    for any id that does not itself contain "Agent ID: " and has no leading or
    trailing whitespace (a uuid4 string, for one).
  */
  lemma RegistrationTextParses(agentId: string)
    requires !Text.Contains(agentId, "Agent ID: ")
    requires |agentId| == 0 || (!Text.IsSpace(agentId[0]) && !Text.IsSpace(agentId[|agentId| - 1]))
    ensures Client.ParseAgentId(Success(JStr(Gateway.RegisteredText + agentId))) == Some(agentId)
  {
    var s := Gateway.RegisteredText + agentId;
    RegistrationHasMarker(agentId);
    assert Py.Contains(JStr(s), "Agent ID:") == Success(true);
    SplitRegistration(agentId);
    var parts := Text.Split(s, "Agent ID: ");
    assert |parts| == 2 && parts[1] == agentId;
    StripKeeps(agentId);
  }

  /**
    The registration ChatBot.initialize performs, served by the HTTP server over a
    back end that answers {"agent_id": id}, leaves the client holding that id.
  */
  lemma RegistrationEndToEnd(s: Dispatcher.Store, peer: string, now: string, agentId: string,
                             downstream: Gateway.Downstream, dumps: Gateway.Dumps)
    requires downstream(Gateway.RegisterAgent(JStr("ChatBot"), JStr("1.0.0")))
             == Success(JObj([("agent_id", JStr(agentId))]))
    requires !Text.Contains(agentId, "Agent ID: ")
    requires |agentId| == 0 || (!Text.IsSpace(agentId[0]) && !Text.IsSpace(agentId[|agentId| - 1]))
    ensures Client.ParseAgentId(Client.CallToolReply(true, JStr("register_agent"), Client.Registration,
                                                     Served(s, peer, now, downstream, dumps)))
            == Some(agentId)
  {
    ToolCallEndToEnd(s, peer, now, JStr("register_agent"), Client.Registration, downstream, dumps);
    RegistrationAnswer(agentId, downstream, dumps);
    RegistrationTextParses(agentId);
  }

  /** The gateway's answer to the client's registration, over a back end that answers {"agent_id": id}. */
  lemma RegistrationAnswer(agentId: string, downstream: Gateway.Downstream, dumps: Gateway.Dumps)
    requires downstream(Gateway.RegisterAgent(JStr("ChatBot"), JStr("1.0.0")))
             == Success(JObj([("agent_id", JStr(agentId))]))
    ensures Gateway.CallTool(JStr("register_agent"), Client.Registration, downstream, dumps).text
            == Gateway.RegisteredText + agentId
  {
    var arguments := Client.Registration.fields;
    LookupAt(arguments, 0, "name");
    LookupAt(arguments, 1, "version");
  }

  /** add_number served by the business adder reads "Result: n + 1 = n+1". */
  lemma AddNumberThroughBusiness(n: int, arguments: Object, downstream: Gateway.Downstream, dumps: Gateway.Dumps)
    requires Lookup(arguments, "number") == Some(JInt(n))
    requires downstream(Gateway.AddNumber(JInt(n))) == Success(Business.Adder(n))
    ensures Gateway.CallTool(JStr("add_number"), JObj(arguments), downstream, dumps).text
            == "Result: " + Text.IntToString(n) + " + 1 = " + Text.IntToString(n + 1)
  {
    Gateway.AddNumberText(n, arguments, downstream, dumps);
  }

  /**
    A status report for an agent the back end never registered fails with its 404,
    and the gateway answers "Error executing report_status: <error text>".
  */
  lemma UnknownAgentReport(server: Business.BusinessServer, agentId: string, status: string, arguments: Object,
                           downstream: Gateway.Downstream, dumps: Gateway.Dumps,
                           errorText: Business.HttpError -> string)
    requires agentId !in server.agents
    requires Lookup(arguments, "agent_id") == Some(JStr(agentId))
    requires Lookup(arguments, "status") == Some(JStr(status))
    requires var call := Gateway.ReportStatus(JStr(agentId), JStr(status),
                                              Lookup(arguments, "cpu_usage").GetOr(JNull),
                                              Lookup(arguments, "memory_usage").GetOr(JNull));
             downstream(call) == Failure(errorText(server.ReportStatus(agentId, status, None, None).error))
    ensures Gateway.CallTool(JStr("report_status"), JObj(arguments), downstream, dumps).text
            == Gateway.ErrorMessage(JStr("report_status"), errorText(Business.NotFound))
  {
    var call := Gateway.ReportStatus(JStr(agentId), JStr(status),
                                     Lookup(arguments, "cpu_usage").GetOr(JNull),
                                     Lookup(arguments, "memory_usage").GetOr(JNull));
    ReportStatusPrepared(arguments, JStr(agentId), JStr(status));
    assert downstream(call) == Failure(errorText(Business.NotFound));
  }

  /**
    A status report for a registered agent succeeds, and the gateway answers
    "Status reported successfully: Status received for agent <id>".
  */
  lemma KnownAgentReport(server: Business.BusinessServer, agentId: string, status: string, arguments: Object,
                         downstream: Gateway.Downstream, dumps: Gateway.Dumps)
    requires agentId in server.agents
    requires Lookup(arguments, "agent_id") == Some(JStr(agentId))
    requires Lookup(arguments, "status") == Some(JStr(status))
    requires var call := Gateway.ReportStatus(JStr(agentId), JStr(status),
                                              Lookup(arguments, "cpu_usage").GetOr(JNull),
                                              Lookup(arguments, "memory_usage").GetOr(JNull));
             downstream(call) == Success(server.ReportStatus(agentId, status, None, None).value)
    ensures Gateway.CallTool(JStr("report_status"), JObj(arguments), downstream, dumps).text
            == "Status reported successfully: " + "Status received for agent " + agentId
  {
    var reply := server.ReportStatus(agentId, status, None, None).value;
    Gateway.ReportStatusText(arguments, JStr(agentId), JStr(status), downstream, dumps, reply.fields);
  }

  /** report_status reads agent_id and status, and passes the two optional usages as they are. */
  lemma ReportStatusPrepared(arguments: Object, agentId: Json, status: Json)
    requires Lookup(arguments, "agent_id") == Some(agentId)
    requires Lookup(arguments, "status") == Some(status)
    ensures Gateway.Prepare(JStr("report_status"), JObj(arguments))
            == Success(Gateway.Invoke(Gateway.ReportStatus(agentId, status,
                                                           Lookup(arguments, "cpu_usage").GetOr(JNull),
                                                           Lookup(arguments, "memory_usage").GetOr(JNull))))
  {
  }

  /** Tasks for a registered agent: the whole task table, serialised, under "Tasks for agent <id>:". */
  lemma KnownAgentTasks(server: Business.BusinessServer, agentId: string, arguments: Object,
                        downstream: Gateway.Downstream, dumps: Gateway.Dumps)
    requires agentId in server.agents
    requires Lookup(arguments, "agent_id") == Some(JStr(agentId))
    requires downstream(Gateway.GetTasks(JStr(agentId))) == Success(server.GetTasks(agentId).value)
    ensures Gateway.CallTool(JStr("get_tasks"), JObj(arguments), downstream, dumps).text
            == "Tasks for agent " + agentId + ":\n" + dumps(JObj(Business.Tasks))
  {
  }

  /** The method each of the client's four messages names, as the dispatcher reads it. */
  lemma ClientMethods(name: Json, arguments: Json, now: string)
    ensures Dispatcher.MethodOf(Client.InitializeRequest.fields) == JStr("initialize")
    ensures Dispatcher.MethodOf(Client.InitializedNotification.fields) == JStr("notifications/initialized")
    ensures Dispatcher.MethodOf(Client.ToolsListRequest.fields) == JStr("tools/list")
    ensures Dispatcher.MethodOf(Client.ToolCallRequest(name, arguments).fields) == JStr("tools/call")
    ensures Dispatcher.ParamsOf(Client.ToolCallRequest(name, arguments).fields)
            == JObj([("name", name), ("arguments", arguments)])
    ensures Dispatcher.RecordOf([("name", name), ("arguments", arguments)], now)
            == Dispatcher.ToolCallRecord(name, arguments, now)
  {
    HandshakeMethods();
    ToolCallShape(name, arguments, now);
  }

  lemma HandshakeMethods()
    ensures Dispatcher.MethodOf(Client.InitializeRequest.fields) == JStr("initialize")
    ensures Dispatcher.MethodOf(Client.InitializedNotification.fields) == JStr("notifications/initialized")
    ensures Dispatcher.MethodOf(Client.ToolsListRequest.fields) == JStr("tools/list")
  {
    LookupAt(Client.InitializeRequest.fields, 2, "method");
    LookupAt(Client.InitializedNotification.fields, 1, "method");
    LookupAt(Client.ToolsListRequest.fields, 2, "method");
  }

  lemma ToolCallShape(name: Json, arguments: Json, now: string)
    ensures Dispatcher.MethodOf(Client.ToolCallRequest(name, arguments).fields) == JStr("tools/call")
    ensures Dispatcher.ParamsOf(Client.ToolCallRequest(name, arguments).fields)
            == JObj([("name", name), ("arguments", arguments)])
    ensures Dispatcher.RecordOf([("name", name), ("arguments", arguments)], now)
            == Dispatcher.ToolCallRecord(name, arguments, now)
  {
    LookupAt(Client.ToolCallRequest(name, arguments).fields, 2, "method");
    LookupAt(Client.ToolCallRequest(name, arguments).fields, 3, "params");
    LookupAt([("name", name), ("arguments", arguments)], 0, "name");
    LookupAt([("name", name), ("arguments", arguments)], 1, "arguments");
  }

  /** One request applied to a store. */
  function Step(s: Dispatcher.Store, r: Dispatcher.Incoming): Dispatcher.Store {
    Dispatcher.NextStore(s, r.clientId, r.request, r.now)
  }

  /** Four requests in a row are four steps. */
  lemma RunFour(s: Dispatcher.Store, r1: Dispatcher.Incoming, r2: Dispatcher.Incoming,
                r3: Dispatcher.Incoming, r4: Dispatcher.Incoming)
    ensures Dispatcher.Run(s, [r1, r2, r3, r4]) == Step(Step(Step(Step(s, r1), r2), r3), r4)
  {
    var s1 := Step(s, r1);
    var s2 := Step(s1, r2);
    var s3 := Step(s2, r3);
    var s4 := Step(s3, r4);
    assert Dispatcher.Run(s3, [r4]) == Dispatcher.Run(s4, []) == s4;
    assert [r3, r4][1..] == [r4];
    assert Dispatcher.Run(s2, [r3, r4]) == Dispatcher.Run(s3, [r4]);
    assert [r2, r3, r4][1..] == [r3, r4];
    assert Dispatcher.Run(s1, [r2, r3, r4]) == Dispatcher.Run(s2, [r3, r4]);
    assert [r1, r2, r3, r4][1..] == [r2, r3, r4];
    assert Dispatcher.Run(s, [r1, r2, r3, r4]) == Dispatcher.Run(s1, [r2, r3, r4]);
  }

  /** The handshake for any four requests naming the four methods in order. */
  lemma HandshakeSteps(s: Dispatcher.Store, peer: string, init: Object, note: Object, list: Object, call: Object,
                       t1: string, t2: string, t3: string, t4: string, record: Dispatcher.ToolCallRecord)
    requires Dispatcher.Consistent(s)
    requires peer !in s.clients
    requires Dispatcher.MethodOf(init) == JStr("initialize")
    requires Dispatcher.MethodOf(note) == JStr("notifications/initialized")
    requires Dispatcher.MethodOf(list) == JStr("tools/list")
    requires Dispatcher.MethodOf(call) == JStr("tools/call")
    requires Dispatcher.ParamsOf(call).JObj? && Dispatcher.RecordOf(Dispatcher.ParamsOf(call).fields, t4) == record
    ensures var after := Dispatcher.Run(s, [
              Dispatcher.Incoming(peer, init, t1), Dispatcher.Incoming(peer, note, t2),
              Dispatcher.Incoming(peer, list, t3), Dispatcher.Incoming(peer, call, t4)]);
            && peer in after.sessions
            && after.sessions[peer] == Dispatcher.Session(t1, 3, [record])
            && after.clients == s.clients + {peer}
  {
    var r1 := Dispatcher.Incoming(peer, init, t1);
    var r2 := Dispatcher.Incoming(peer, note, t2);
    var r3 := Dispatcher.Incoming(peer, list, t3);
    var r4 := Dispatcher.Incoming(peer, call, t4);
    RunFour(s, r1, r2, r3, r4);
    var s1 := Step(s, r1);
    Dispatcher.FirstInitialize(s, peer, init, t1);
    assert s1.clients == s.clients + {peer} && s1.sessions[peer] == Dispatcher.Session(t1, 1, []);
    var s2 := Step(s1, r2);
    Dispatcher.InitializedNotification(s1, peer, note, t2, _ => Failure(""), _ => "");
    var s3 := Step(s2, r3);
    Dispatcher.ToolsList(s2, peer, list, t3, t3, _ => Failure(""), _ => "");
    assert s3.clients == s1.clients && s3.sessions[peer] == Dispatcher.Session(t1, 2, []);
    Dispatcher.ToolsCall(s3, peer, call, t4, _ => Failure(""), _ => "");
  }

  /**
    A new peer's handshake (initialize, the initialized notification, tools/list)
    followed by one tools/call leaves its session with count 3 and one record.
  */
  lemma HandshakeSession(s: Dispatcher.Store, peer: string, t1: string, t2: string, t3: string, t4: string,
                         name: Json, arguments: Json)
    requires Dispatcher.Consistent(s)
    requires peer !in s.clients
    ensures var after := Dispatcher.Run(s, [
              Dispatcher.Incoming(peer, Client.InitializeRequest.fields, t1),
              Dispatcher.Incoming(peer, Client.InitializedNotification.fields, t2),
              Dispatcher.Incoming(peer, Client.ToolsListRequest.fields, t3),
              Dispatcher.Incoming(peer, Client.ToolCallRequest(name, arguments).fields, t4)]);
            && peer in after.sessions
            && after.sessions[peer] == Dispatcher.Session(t1, 3, [Dispatcher.ToolCallRecord(name, arguments, t4)])
            && after.clients == s.clients + {peer}
  {
    ClientMethods(name, arguments, t4);
    HandshakeSteps(s, peer, Client.InitializeRequest.fields, Client.InitializedNotification.fields,
                   Client.ToolsListRequest.fields, Client.ToolCallRequest(name, arguments).fields,
                   t1, t2, t3, t4, Dispatcher.ToolCallRecord(name, arguments, t4));
  }
}
