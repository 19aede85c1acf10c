/**
  The chat client: a JSON-RPC client of the HTTP server (McpServerManager), the
  request payload it sends to the LLM, and the chat loop (ChatBot) that keeps the
  conversation history and runs the tool calls the LLM proposes.

  The network is a parameter: a Transport gives the decoded reply body of one POST
  to the server, or None when the post, its status or its decoding failed.
  The LLM is a parameter too: an Llm gives the value chat_completion returns
  for a payload.
*/
module Client {
  import opened Wrappers
  import opened Json
  import opened Py
  import Text

  datatype Tool = Tool(name: Json, description: Json, inputSchema: Json)

  datatype Message = Message(role: string, content: string)

  type Transport = Json -> Option<Json>

  /** chat_completion: the reply message when it proposes tool calls, else the reply content or an error text. */
  type Llm = Json -> Json

  /** json.loads of the arguments text of a proposed tool call. */
  type Decode = Json -> Result<Json, PyError>

  const NotConnected: string := "Not connected to MCP server"
  const NoResponse: string := "No response from tool"

  // The JSON-RPC messages the client sends.

  const InitializeRequest: Json := JObj([
    ("jsonrpc", JStr("2.0")), ("id", JInt(1)), ("method", JStr("initialize")),
    ("params", JObj([
      ("protocolVersion", JStr("2024-11-05")),
      ("capabilities", JObj([("tools", JObj([]))])),
      ("clientInfo", JObj([("name", JStr("mcp-client")), ("version", JStr("1.0.0"))]))]))])

  const InitializedNotification: Json := JObj([("jsonrpc", JStr("2.0")), ("method", JStr("notifications/initialized"))])

  const ToolsListRequest: Json := JObj([("jsonrpc", JStr("2.0")), ("id", JInt(2)), ("method", JStr("tools/list"))])

  function ToolCallRequest(name: Json, arguments: Json): Json {
    JObj([("jsonrpc", JStr("2.0")), ("id", JInt(3)), ("method", JStr("tools/call")),
          ("params", JObj([("name", name), ("arguments", arguments)]))])
  }

  /** Each request kind carries its fixed id (1, 2, 3); the notification carries none. */
  lemma RequestIds(name: Json, arguments: Json)
    ensures Lookup(InitializeRequest.fields, "id") == Some(JInt(1))
    ensures Lookup(ToolsListRequest.fields, "id") == Some(JInt(2))
    ensures Lookup(ToolCallRequest(name, arguments).fields, "id") == Some(JInt(3))
    ensures !HasKey(InitializedNotification.fields, "id")
    ensures Lookup(ToolCallRequest(name, arguments).fields, "params") == Some(JObj([("name", name), ("arguments", arguments)]))
  {
    LookupAt(ToolCallRequest(name, arguments).fields, 3, "params");
  }

  // Reading replies.

  /**
    response["result"][key] when `response and "result" in response and key in
    response["result"]` holds, None when it does not; the tests can raise on
    values of the wrong type.
  */
  function ResultMember(response: Option<Json>, key: string): (r: Result<Option<Json>, PyError>)
    ensures response.None? ==> r == Success(None)
    ensures r.Success? && r.value.Some? ==>
              response.Some? && response.value.JObj? && HasKey(response.value.fields, "result")
    ensures response.Some? && response.value.JObj? ==>
              match Lookup(response.value.fields, "result")
              case None => r == Success(None)
              case Some(result) =>
                result.JObj? ==> r == Success(Lookup(result.fields, key))
  {
    if response.None? || !Truthy(response.value) then Success(None)
    else
      var hasResult :- Contains(response.value, "result");
      if !hasResult then Success(None)
      else
        var result :- Subscript(response.value, "result");
        var hasKey :- Contains(result, key);
        if !hasKey then Success(None)
        else
          var member :- Subscript(result, key);
          Success(Some(member))
  }

  /**
    The text call_tool returns for a tools/call reply: the "text" of the first
    content block, str(content) when that block has none or content is not a
    non-empty list, and "No response from tool" when there is no reply or it
    lacks result.content. A failed transport never surfaces as an exception.
  */
  function ToolCallText(response: Option<Json>): (r: Result<Json, PyError>)
    ensures response.None? ==> r == Success(JStr(NoResponse))
    ensures r.Failure? ==> !r.error.RuntimeError?
  {
    var content :- ResultMember(response, "content");
    match content
    case None => Success(JStr(NoResponse))
    case Some(c) =>
      if c.JArr? && |c.items| > 0 then Get(c.items[0], "text", JStr(Str(c)))
      else Success(JStr(Str(c)))
  }

  /**
    How call_tool reads a reply dict: no "result", or a result dict without
    "content", reads as "No response from tool"; a non-empty content list gives the
    "text" of its first block (str(content) when the block has none, AttributeError
    when it is not a dict); any other content gives str(content). A reply that is
    not a dict reads as "No response from tool" when it is falsy or has no
    "result" in it, and raises TypeError otherwise (`in` on an int, or indexing a
    list or a str with "result").
  */
  lemma ToolCallTextReads(response: Option<Json>)
    ensures var r := ToolCallText(response);
            response.Some? && response.value.JObj? ==>
              match Lookup(response.value.fields, "result")
              case None => r == Success(JStr(NoResponse))
              case Some(result) =>
                result.JObj? ==>
                  match Lookup(result.fields, "content")
                  case None => r == Success(JStr(NoResponse))
                  case Some(c) =>
                    if c.JArr? && |c.items| > 0 then
                      (r.Success? <==> c.items[0].JObj?)
                      && (c.items[0].JObj? ==> r.value == Lookup(c.items[0].fields, "text").GetOr(JStr(Str(c))))
                    else r == Success(JStr(Str(c)))
    ensures var r := ToolCallText(response);
            response.Some? && !response.value.JObj? ==>
              (r.Failure? <==> Truthy(response.value) && Contains(response.value, "result") != Success(false))
              && (r.Failure? ==> r.error.TypeError?)
              && (r.Success? ==> r.value == JStr(NoResponse))
  {
  }

  /** One Tool from one catalog entry; a missing field raises KeyError. */
  function ToolFrom(entry: Json): Result<Tool, PyError> {
    var name :- Subscript(entry, "name");
    var description :- Subscript(entry, "description");
    var schema :- Subscript(entry, "inputSchema");
    Success(Tool(name, description, schema))
  }

  /** The list comprehension over the catalog entries: all of them, in order, or the first failure. */
  function ToolsFrom(entries: seq<Json>): (r: Result<seq<Tool>, PyError>)
    ensures r.Success? <==> forall i :: 0 <= i < |entries| ==> ToolFrom(entries[i]).Success?
    ensures r.Success? ==> |r.value| == |entries|
                           && forall i :: 0 <= i < |entries| ==> ToolFrom(entries[i]) == Success(r.value[i])
    ensures r.Failure? ==> exists k :: 0 <= k < |entries| && ToolFrom(entries[k]) == Failure(r.error)
                                       && forall j :: 0 <= j < k ==> ToolFrom(entries[j]).Success?
    decreases |entries|
  {
    if |entries| == 0 then Success([])
    else
      var first :- ToolFrom(entries[0]);
      var rest :- ToolsFrom(entries[1..]);
      Success([first] + rest)
  }

  /**
    What _get_tools makes of a tools/list reply: Some(tools) when it replaces the
    tool list, None when the reply has no result.tools and the list stays as it was.
  */
  function CatalogFromResponse(response: Option<Json>): (r: Result<Option<seq<Tool>>, PyError>)
    ensures response.None? ==> r == Success(None)
  {
    var listed :- ResultMember(response, "tools");
    match listed
    case None => Success(None)
    case Some(l) =>
      var entries :- Iterate(l);
      var tools :- ToolsFrom(entries);
      Success(Some(tools))
  }

  /**
    How _get_tools reads a reply dict: no "result", or a result dict without
    "tools", leaves the tools as they were; a "tools" list becomes the Tools read
    from its entries, or the first entry's KeyError. A reply that is not a dict
    leaves the tools as they were when it is falsy or has no "result" in it, and
    raises TypeError otherwise.
  */
  lemma CatalogFromResponseReads(response: Option<Json>)
    ensures var r := CatalogFromResponse(response);
            response.Some? && response.value.JObj? ==>
              match Lookup(response.value.fields, "result")
              case None => r == Success(None)
              case Some(result) =>
                result.JObj? ==>
                  match Lookup(result.fields, "tools")
                  case None => r == Success(None)
                  case Some(listed) =>
                    listed.JArr? ==>
                      (r.Success? <==> ToolsFrom(listed.items).Success?)
                      && (r.Success? ==> r.value == Some(ToolsFrom(listed.items).value))
                      && (r.Failure? ==> r.error == ToolsFrom(listed.items).error)
    ensures var r := CatalogFromResponse(response);
            response.Some? && !response.value.JObj? ==>
              (r.Failure? <==> Truthy(response.value) && Contains(response.value, "result") != Success(false))
              && (r.Failure? ==> r.error.TypeError?)
              && (r.Success? ==> r.value == None)
  {
  }

  /** call_tool as a function of the connection state and the transport. */
  function CallToolReply(connected: bool, name: Json, arguments: Json, transport: Transport): (r: Result<Json, PyError>)
    ensures !connected <==> r == Failure(RuntimeError(NotConnected))
  {
    if !connected then Failure(RuntimeError(NotConnected))
    else ToolCallText(transport(ToolCallRequest(name, arguments)))
  }

  /** _get_tools as a function of the connection state and the transport. */
  function ToolsOutcome(connected: bool, transport: Transport): Result<Option<seq<Tool>>, PyError> {
    if !connected then Failure(RuntimeError(NotConnected))
    else CatalogFromResponse(transport(ToolsListRequest))
  }

  class McpServerManager {
    /** Whether the HTTP client exists (connect_to_server has run). */
    var connected: bool
    var tools: seq<Tool>

    constructor ()
      ensures !connected && tools == []
    {
      connected := false;
      tools := [];
    }

    /**
      _send_request: RuntimeError before connecting; after that, the reply body,
      with every transport, status or decoding error turned into None.
    */
    method SendRequest(request: Json, transport: Transport) returns (r: Result<Option<Json>, PyError>)
      ensures !connected ==> r == Failure(RuntimeError(NotConnected))
      ensures connected ==> r.Success? && r.value == transport(request)
    {
      if !connected {
        return Failure(RuntimeError(NotConnected));
      }
      r := Success(transport(request));
    }

    method CallTool(name: Json, arguments: Json, transport: Transport) returns (r: Result<Json, PyError>)
      ensures r == CallToolReply(connected, name, arguments, transport)
    {
      var response :- SendRequest(ToolCallRequest(name, arguments), transport);
      r := ToolCallText(response);
    }

    /** _get_tools: replaces the tool list when the reply holds result.tools. */
    method GetTools(transport: Transport) returns (error: Option<PyError>)
      modifies this
      ensures connected == old(connected)
      ensures var outcome := ToolsOutcome(old(connected), transport);
              && error == (if outcome.Failure? then Some(outcome.error) else None)
              && tools == (if outcome.Success? && outcome.value.Some? then outcome.value.value else old(tools))
    {
      var response := SendRequest(ToolsListRequest, transport);
      if response.Failure? {
        return Some(response.error);
      }
      var catalog := CatalogFromResponse(response.value);
      if catalog.Failure? {
        return Some(catalog.error);
      }
      if catalog.value.Some? {
        tools := catalog.value.value;
      }
      error := None;
    }

    /**
      connect_to_server without the health probe: create the client, send
      initialize and the initialized notification (their replies are not used),
      then load the tools.
    */
    method ConnectToServer(transport: Transport) returns (error: Option<PyError>)
      modifies this
      ensures connected
      ensures var outcome := ToolsOutcome(true, transport);
              && error == (if outcome.Failure? then Some(outcome.error) else None)
              && tools == (if outcome.Success? && outcome.value.Some? then outcome.value.value else old(tools))
    {
      connected := true;
      var _ := SendRequest(InitializeRequest, transport);
      var _ := transport(InitializedNotification);
      error := GetTools(transport);
    }
  }

  // The LLM request payload.

  const Model: string := "meta-llama/llama-3.3-8b-instruct:free"

  function EncodeMessages(messages: seq<Message>): seq<Json> {
    if |messages| == 0 then []
    else [JObj([("role", JStr(messages[0].role)), ("content", JStr(messages[0].content))])]
         + EncodeMessages(messages[1..])
  }

  /** Each Tool in the function-calling format of the chat API. */
  function EncodeTools(tools: seq<Tool>): seq<Json> {
    if |tools| == 0 then []
    else [JObj([("type", JStr("function")),
                ("function", JObj([("name", tools[0].name), ("description", tools[0].description),
                                   ("parameters", tools[0].inputSchema)]))])]
         + EncodeTools(tools[1..])
  }

  /** The chat completion request body; tools and tool_choice only when there are tools. */
  function CompletionPayload(model: string, messages: seq<Message>, tools: seq<Tool>): (r: Json)
    ensures r.JObj?
    ensures Lookup(r.fields, "model") == Some(JStr(model))
    ensures HasKey(r.fields, "tools") <==> |tools| > 0
    ensures Lookup(r.fields, "tool_choice") == (if |tools| > 0 then Some(JStr("auto")) else None)
  {
    var shown := JArr(EncodeMessages(messages));
    if |tools| > 0 then
      var fields := [("model", JStr(model)), ("messages", shown), ("temperature", JFloat("0.7")),
                     ("max_tokens", JInt(1000)), ("tools", JArr(EncodeTools(tools))), ("tool_choice", JStr("auto"))];
      LookupAt(fields, 0, "model");
      LookupAt(fields, 5, "tool_choice");
      assert fields[4].0 == "tools";
      JObj(fields)
    else
      var fields := [("model", JStr(model)), ("messages", shown), ("temperature", JFloat("0.7")),
                     ("max_tokens", JInt(1000))];
      LookupAt(fields, 0, "model");
      JObj(fields)
  }

  /** Reads the messages back out of a payload's "messages" list. */
  function DecodeMessages(items: seq<Json>): Option<seq<Message>> {
    if |items| == 0 then Some([])
    else
      var item := items[0];
      if item.JObj? && |item.fields| == 2 && item.fields[0].0 == "role" && item.fields[1].0 == "content"
         && item.fields[0].1.JStr? && item.fields[1].1.JStr?
      then
        match DecodeMessages(items[1..])
        case None => None
        case Some(rest) => Some([Message(item.fields[0].1.s, item.fields[1].1.s)] + rest)
      else None
  }

  /** Reads the tools back out of a payload's "tools" list. */
  function DecodeTools(items: seq<Json>): Option<seq<Tool>> {
    if |items| == 0 then Some([])
    else
      var item := items[0];
      if item.JObj? && |item.fields| == 2 && item.fields[0] == ("type", JStr("function"))
         && item.fields[1].0 == "function" && item.fields[1].1.JObj? && |item.fields[1].1.fields| == 3
      then
        var f := item.fields[1].1.fields;
        if f[0].0 == "name" && f[1].0 == "description" && f[2].0 == "parameters" then
          match DecodeTools(items[1..])
          case None => None
          case Some(rest) => Some([Tool(f[0].1, f[1].1, f[2].1)] + rest)
        else None
      else None
  }

  /** The messages a payload sends, and the tools it offers (none when it has no "tools"). */
  function PayloadContents(payload: Json): Option<(seq<Message>, seq<Tool>)> {
    if !payload.JObj? then None
    else
      var messages := Lookup(payload.fields, "messages");
      var tools := Lookup(payload.fields, "tools");
      if !(messages.Some? && messages.value.JArr?) then None
      else
        var m := DecodeMessages(messages.value.items);
        var t := if tools.None? then Some([])
                 else if tools.value.JArr? then DecodeTools(tools.value.items)
                 else None;
        if m.Some? && t.Some? then Some((m.value, t.value)) else None
  }

  lemma {:induction false} MessagesRoundTrip(messages: seq<Message>)
    ensures DecodeMessages(EncodeMessages(messages)) == Some(messages)
    decreases |messages|
  {
    if |messages| > 0 {
      MessagesRoundTrip(messages[1..]);
      var items := EncodeMessages(messages);
      assert items[1..] == EncodeMessages(messages[1..]);
      var item := items[0];
      assert item == JObj([("role", JStr(messages[0].role)), ("content", JStr(messages[0].content))]);
      assert DecodeMessages(items) == Some([messages[0]] + messages[1..]);
      assert [messages[0]] + messages[1..] == messages;
    }
  }

  lemma {:induction false} ToolsRoundTrip(tools: seq<Tool>)
    ensures DecodeTools(EncodeTools(tools)) == Some(tools)
    decreases |tools|
  {
    if |tools| > 0 {
      ToolsRoundTrip(tools[1..]);
      var items := EncodeTools(tools);
      assert items[1..] == EncodeTools(tools[1..]);
      assert DecodeTools(items) == Some([tools[0]] + tools[1..]);
      assert [tools[0]] + tools[1..] == tools;
    }
  }

  /**
    The payload carries every message as {role, content} and every tool in the
    function-calling format, both in their original order, and nothing can be lost:
    reading them back gives exactly the messages and tools it was built from.
  */
  lemma PayloadRoundTrip(model: string, messages: seq<Message>, tools: seq<Tool>)
    ensures PayloadContents(CompletionPayload(model, messages, tools)) == Some((messages, tools))
  {
    var fields := CompletionPayload(model, messages, tools).fields;
    MessagesRoundTrip(messages);
    ToolsRoundTrip(tools);
    LookupAt(fields, 1, "messages");
    if |tools| > 0 {
      LookupAt(fields, 4, "tools");
    } else {
      assert Lookup(fields, "tools") == None;
    }
  }

  // The chat loop.

  const SystemPrompt: string := "You are a helpful assistant that can interact with a business server through various tools. \n            You have access to the following tools:\n            - register_agent: Register a new agent\n            - report_status: Report agent status  \n            - get_tasks: Get tasks for an agent\n            - add_number: Add 1 to a number\n            - get_joke: Get a random joke\n            \n            When a user asks for something that can be accomplished with these tools, use the appropriate tool.\n            For example, if they ask for a joke, use the get_joke tool.\n            If they ask to add 1 to a number, use the add_number tool.\n            Be helpful and conversational in your responses."

  const FollowUp: string := "Please provide a helpful response based on the tool results above."

  const ErrorPrefix: string := "Error processing your request: "

  const ToolsPreamble: string := "I used some tools to help you. "

  /**
    The agent id initialize keeps from the registration reply: the text after the
    first "Agent ID: ", stripped, when the reply contains "Agent ID:"; None when it
    does not, and None when reading it raises (the reply is not a string, or the
    marker lacks its trailing space). The value kept from the gateway's own
    registration text is stated in Bridge.RegistrationTextParses.
  */
  function ParseAgentId(reply: Result<Json, PyError>): (r: Option<string>)
    ensures r.Some? ==> reply.Success? && reply.value.JStr? && Text.Contains(reply.value.s, "Agent ID:")
    ensures r.Some? ==> |r.value| == 0 || (!Text.IsSpace(r.value[0]) && !Text.IsSpace(r.value[|r.value| - 1]))
  {
    match reply
    case Failure(_) => None
    case Success(v) =>
      match Contains(v, "Agent ID:")
      case Failure(_) => None
      case Success(found) =>
        if !found || !v.JStr? then None else AfterMarker(v.s)
  }

  /** reply.split("Agent ID: ")[1].strip(), None when the split gives one part. */
  function AfterMarker(s: string): (r: Option<string>)
    ensures r.Some? ==> |r.value| == 0 || (!Text.IsSpace(r.value[0]) && !Text.IsSpace(r.value[|r.value| - 1]))
  {
    var parts := Text.Split(s, "Agent ID: ");
    if |parts| < 2 then None else Some(Text.Strip(parts[1]))
  }

  /** The arguments of the registration initialize performs. */
  const Registration: Json := JObj([("name", JStr("ChatBot")), ("version", JStr("1.0.0"))])

  /** The line the chat loop records for one proposed tool call, or the exception it raises. */
  function Summary(connected: bool, toolCall: Json, decode: Decode, transport: Transport): Result<string, PyError> {
    var fn :- Subscript(toolCall, "function");
    var name :- Subscript(fn, "name");
    var rawArguments :- Subscript(fn, "arguments");
    var arguments :- decode(rawArguments);
    var result :- CallToolReply(connected, name, arguments, transport);
    Success("Tool '" + Str(name) + "' result: " + Str(result))
  }

  /**
    The line for one proposed call: "Tool '<name>' result: <text>" from the call's
    function.name and function.arguments, or the KeyError of the first missing
    field, the decoding error, or call_tool's exception.
  */
  lemma SummaryReads(connected: bool, toolCall: Json, decode: Decode, transport: Transport)
    ensures var s := Summary(connected, toolCall, decode, transport);
            toolCall.JObj? ==>
              match Lookup(toolCall.fields, "function")
              case None => s == Failure(KeyError("function"))
              case Some(fn) =>
                fn.JObj? ==>
                  match (Lookup(fn.fields, "name"), Lookup(fn.fields, "arguments"))
                  case (None, _) => s == Failure(KeyError("name"))
                  case (Some(_), None) => s == Failure(KeyError("arguments"))
                  case (Some(name), Some(raw)) =>
                    match decode(raw)
                    case Failure(e) => s == Failure(e)
                    case Success(arguments) =>
                      var reply := CallToolReply(connected, name, arguments, transport);
                      (s.Success? <==> reply.Success?)
                      && (s.Success? ==> s.value == "Tool '" + Str(name) + "' result: " + Str(reply.value))
                      && (s.Failure? ==> s.error == reply.error)
                      && (!connected ==> s == Failure(RuntimeError(NotConnected)))
  {
  }

  /** The lines for all proposed calls, in proposal order, or the first exception. */
  function Summaries(connected: bool, calls: seq<Json>, decode: Decode, transport: Transport)
    : (r: Result<seq<string>, PyError>)
    ensures r.Success? <==> forall i :: 0 <= i < |calls| ==> Summary(connected, calls[i], decode, transport).Success?
    ensures r.Success? ==> |r.value| == |calls|
                           && forall i :: 0 <= i < |calls| ==> Summary(connected, calls[i], decode, transport) == Success(r.value[i])
    ensures r.Failure? ==> exists k :: 0 <= k < |calls| && Summary(connected, calls[k], decode, transport) == Failure(r.error)
                                       && forall j :: 0 <= j < k ==> Summary(connected, calls[j], decode, transport).Success?
    decreases |calls|
  {
    if |calls| == 0 then Success([])
    else
      var line :- Summary(connected, calls[0], decode, transport);
      var rest :- Summaries(connected, calls[1..], decode, transport);
      Success([line] + rest)
  }

  /** The lines already collected, followed by what the remaining calls give. */
  function Prepend(lines: seq<string>, rest: Result<seq<string>, PyError>): Result<seq<string>, PyError> {
    match rest
    case Success(more) => Success(lines + more)
    case Failure(e) => Failure(e)
  }

  lemma PrependTwice(lines: seq<string>, more: seq<string>, rest: Result<seq<string>, PyError>)
    ensures Prepend(lines, Prepend(more, rest)) == Prepend(lines + more, rest)
  {
    if rest.Success? {
      assert lines + (more + rest.value) == (lines + more) + rest.value;
    }
  }

  /** Summaries takes the first call's line, then the rest. */
  lemma SummariesStep(connected: bool, calls: seq<Json>, decode: Decode, transport: Transport)
    requires |calls| > 0
    ensures Summaries(connected, calls, decode, transport)
            == match Summary(connected, calls[0], decode, transport)
               case Failure(e) => Failure(e)
               case Success(line) => Prepend([line], Summaries(connected, calls[1..], decode, transport))
  {
  }

  /** One step of the loop over the calls: the i-th call's line is taken, or its error ends the list. */
  lemma SummariesAdvance(connected: bool, calls: seq<Json>, i: nat, lines: seq<string>, decode: Decode, transport: Transport)
    requires i < |calls|
    requires Summaries(connected, calls, decode, transport) == Prepend(lines, Summaries(connected, calls[i..], decode, transport))
    ensures var line := Summary(connected, calls[i], decode, transport);
            && (line.Failure? ==> Summaries(connected, calls, decode, transport) == Failure(line.error))
            && (line.Success? ==> Summaries(connected, calls, decode, transport)
                                  == Prepend(lines + [line.value], Summaries(connected, calls[i + 1..], decode, transport)))
  {
    assert calls[i..][0] == calls[i] && calls[i..][1..] == calls[i + 1..];
    SummariesStep(connected, calls[i..], decode, transport);
    var line := Summary(connected, calls[i], decode, transport);
    if line.Success? {
      PrependTwice(lines, [line.value], Summaries(connected, calls[i + 1..], decode, transport));
    }
  }

  /** The loop over the calls starts with no lines, and ends with all of them. */
  lemma SummariesBounds(connected: bool, calls: seq<Json>, lines: seq<string>, decode: Decode, transport: Transport)
    ensures Summaries(connected, calls, decode, transport) == Prepend([], Summaries(connected, calls[0..], decode, transport))
    ensures Summaries(connected, calls, decode, transport) == Prepend(lines, Summaries(connected, calls[|calls|..], decode, transport))
            ==> Summaries(connected, calls, decode, transport) == Success(lines)
  {
    assert calls[0..] == calls;
    var all := Summaries(connected, calls, decode, transport);
    assert all.Success? ==> [] + all.value == all.value;
    assert calls[|calls|..] == [];
    assert lines + [] == lines;
  }

  /** Whether chat takes a completion for a tool-call proposal. */
  predicate ProposesTools(response: Json) {
    response.JObj? && HasKey(response.fields, "tool_calls")
  }

  /** What one chat turn appends after the user message, and what it answers. */
  datatype Turn = Turn(added: seq<Message>, reply: string)

  /** The summary lines of a proposal: its tool_calls iterated and run in order. */
  function ProposedLines(proposal: Object, connected: bool, decode: Decode, transport: Transport)
    : Result<seq<string>, PyError>
  {
    var calls :- Iterate(Lookup(proposal, "tool_calls").GetOr(JNull));
    Summaries(connected, calls, decode, transport)
  }

  /** The tool path: the summary message, then the answer to the follow-up request. */
  function ToolTurn(asked: seq<Message>, lines: Result<seq<string>, PyError>, llm: Llm): (t: Turn)
    ensures lines.Failure? ==> t.added == []
    ensures lines.Success? ==> |t.added| == 2 && t.added[0] == Message("assistant", ToolsPreamble + Text.Join(" ", lines.value))
  {
    match lines
    case Failure(e) => Turn([], ErrorPrefix + ErrorText(e))
    case Success(ls) =>
      var toolMessage := Message("assistant", ToolsPreamble + Text.Join(" ", ls));
      var final := llm(CompletionPayload(Model, asked + [toolMessage, Message("user", FollowUp)], []));
      Turn([toolMessage, Message("assistant", Str(final))], Str(final))
  }

  function ChatTurn(llmReady: bool, connected: bool, tools: seq<Tool>, asked: seq<Message>,
                    llm: Llm, decode: Decode, transport: Transport): (t: Turn)
    ensures |t.added| <= 2
    ensures |t.added| > 0 ==> t.added[|t.added| - 1] == Message("assistant", t.reply)
    ensures |t.added| == 0 ==> |ErrorPrefix| <= |t.reply| && t.reply[..|ErrorPrefix|] == ErrorPrefix
  {
    if !llmReady then Turn([], ErrorPrefix + "'NoneType' object has no attribute 'chat_completion'")
    else
      var response := llm(CompletionPayload(Model, asked, tools));
      if !ProposesTools(response) then Turn([Message("assistant", Str(response))], Str(response))
      else ToolTurn(asked, ProposedLines(response.fields, connected, decode, transport), llm)
  }

  /**
    The tool path answers str(e) after the error prefix when reading or running the
    calls fails; otherwise it answers str of the LLM's reply to the history followed
    by the summary and the follow-up question, sent without tools.
  */
  lemma ToolTurnReply(asked: seq<Message>, lines: Result<seq<string>, PyError>, llm: Llm)
    ensures var t := ToolTurn(asked, lines, llm);
            && (lines.Failure? ==> t.reply == ErrorPrefix + ErrorText(lines.error))
            && (lines.Success? ==>
                  && t.reply == Str(llm(CompletionPayload(Model, asked + [t.added[0], Message("user", FollowUp)], [])))
                  && t.added[1] == Message("assistant", t.reply))
  {
  }

  /**
    Before initialize a turn answers the AttributeError text after the error prefix
    and adds nothing; a completion that proposes no tool calls is answered with
    str(response).
  */
  lemma ChatTurnReply(llmReady: bool, connected: bool, tools: seq<Tool>, asked: seq<Message>,
                      llm: Llm, decode: Decode, transport: Transport)
    ensures var t := ChatTurn(llmReady, connected, tools, asked, llm, decode, transport);
            && (!llmReady ==> t.added == [] && t.reply == ErrorPrefix + "'NoneType' object has no attribute 'chat_completion'")
            && (llmReady && !ProposesTools(llm(CompletionPayload(Model, asked, tools))) ==>
                  t.reply == Str(llm(CompletionPayload(Model, asked, tools))))
  {
  }

  class ChatBot {
    const mcp: McpServerManager
    /** Whether the LLM client exists (initialize has run). */
    var llmReady: bool
    var history: seq<Message>
    var agentId: Option<string>

    constructor ()
      ensures fresh(mcp) && !mcp.connected && mcp.tools == []
      ensures !llmReady && history == [] && agentId == None
    {
      mcp := new McpServerManager();
      llmReady := false;
      history := [];
      agentId := None;
    }

    /**
      initialize, with the API key present and the server reachable: create the LLM
      client, connect (a failure there ends initialize), register as an agent, keep
      the agent id when one can be read, and append the system prompt.
    */
    method Initialize(transport: Transport) returns (error: Option<PyError>)
      modifies this, mcp
      ensures llmReady && mcp.connected
      ensures var outcome := ToolsOutcome(true, transport);
              && error == (if outcome.Failure? then Some(outcome.error) else None)
              && mcp.tools == (if outcome.Success? && outcome.value.Some? then outcome.value.value else old(mcp.tools))
      ensures error.Some? ==> history == old(history) && agentId == old(agentId)
      ensures error.None? ==> history == old(history) + [Message("system", SystemPrompt)]
      ensures error.None? ==>
                var parsed := ParseAgentId(CallToolReply(true, JStr("register_agent"), Registration, transport));
                agentId == (if parsed.Some? then parsed else old(agentId))
    {
      llmReady := true;
      error := mcp.ConnectToServer(transport);
      if error.Some? {
        return;
      }
      var reply := mcp.CallTool(JStr("register_agent"), Registration, transport);
      var parsed := ParseAgentId(reply);
      if parsed.Some? {
        agentId := parsed;
      }
      history := history + [Message("system", SystemPrompt)];
    }

    /** One proposed tool call: read its name and arguments, and send it to the server. */
    method Invoke(toolCall: Json, decode: Decode, transport: Transport) returns (r: Result<string, PyError>)
      ensures r == Summary(mcp.connected, toolCall, decode, transport)
    {
      var fn :- Subscript(toolCall, "function");
      var name :- Subscript(fn, "name");
      var rawArguments :- Subscript(fn, "arguments");
      var arguments :- decode(rawArguments);
      var result :- mcp.CallTool(name, arguments, transport);
      r := Success("Tool '" + Str(name) + "' result: " + Str(result));
    }

    /** The loop over the proposed tool calls, each sent to the server in turn. */
    method InvokeProposed(calls: seq<Json>, decode: Decode, transport: Transport) returns (r: Result<seq<string>, PyError>)
      ensures r == Summaries(mcp.connected, calls, decode, transport)
    {
      var connected := mcp.connected;
      var lines: seq<string> := [];
      var i := 0;
      SummariesBounds(connected, calls, [], decode, transport);
      while i < |calls|
        invariant 0 <= i <= |calls|
        invariant Summaries(connected, calls, decode, transport)
                  == Prepend(lines, Summaries(connected, calls[i..], decode, transport))
      {
        var line := Invoke(calls[i], decode, transport);
        SummariesAdvance(connected, calls, i, lines, decode, transport);
        if line.Failure? {
          return Failure(line.error);
        }
        lines := lines + [line.value];
        i := i + 1;
      }
      SummariesBounds(connected, calls, lines, decode, transport);
      r := Success(lines);
    }

    /** chat: one user turn. */
    method Chat(userInput: string, llm: Llm, decode: Decode, transport: Transport) returns (reply: string)
      modifies this
      ensures llmReady == old(llmReady) && agentId == old(agentId)
      ensures var asked := old(history) + [Message("user", userInput)];
              var t := ChatTurn(llmReady, mcp.connected, mcp.tools, asked, llm, decode, transport);
              history == asked + t.added && reply == t.reply
    {
      history := history + [Message("user", userInput)];
      ghost var asked := history;
      if !llmReady {
        reply := ErrorPrefix + "'NoneType' object has no attribute 'chat_completion'";
        return;
      }
      var response := llm(CompletionPayload(Model, history, mcp.tools));
      if !ProposesTools(response) {
        history := history + [Message("assistant", Str(response))];
        reply := Str(response);
        return;
      }
      var calls := Iterate(Lookup(response.fields, "tool_calls").GetOr(JNull));
      if calls.Failure? {
        reply := ErrorPrefix + ErrorText(calls.error);
        assert ToolTurn(asked, ProposedLines(response.fields, mcp.connected, decode, transport), llm).reply == reply;
        return;
      }
      var lines := InvokeProposed(calls.value, decode, transport);
      assert lines == ProposedLines(response.fields, mcp.connected, decode, transport);
      if lines.Failure? {
        reply := ErrorPrefix + ErrorText(lines.error);
        return;
      }
      var toolMessage := Message("assistant", ToolsPreamble + Text.Join(" ", lines.value));
      history := history + [toolMessage];
      var final := llm(CompletionPayload(Model, history + [Message("user", FollowUp)], []));
      assert history + [Message("user", FollowUp)] == asked + [toolMessage, Message("user", FollowUp)];
      history := history + [Message("assistant", Str(final))];
      reply := Str(final);
    }
  }

  /**
    A turn grows the history by 3 (user, tool summary, answer) when the LLM proposes
    tool calls and all of them run, by 2 (user, answer) when it answers directly, and
    by 1 (user) when an exception ends the turn; the tool summary starts with the
    fixed preamble and joins one line per proposed call, in proposal order.
  */
  lemma HistoryGrowth(llmReady: bool, connected: bool, tools: seq<Tool>, asked: seq<Message>,
                      llm: Llm, decode: Decode, transport: Transport)
    ensures var t := ChatTurn(llmReady, connected, tools, asked, llm, decode, transport);
            var response := llm(CompletionPayload(Model, asked, tools));
            && (|t.added| == 1 <==> llmReady && !ProposesTools(response))
            && (|t.added| == 2 <==>
                  llmReady && ProposesTools(response)
                  && ProposedLines(response.fields, connected, decode, transport).Success?)
            && (|t.added| == 2 ==>
                  var calls := Iterate(Lookup(response.fields, "tool_calls").GetOr(JNull)).value;
                  var ls := Summaries(connected, calls, decode, transport).value;
                  |ls| == |calls| && t.added[0] == Message("assistant", ToolsPreamble + Text.Join(" ", ls)))
  {
  }
}
