/**
  The HTTP server's JSON-RPC dispatcher (`handle_mcp_request`) and its session store.
  Four methods are served: initialize, notifications/initialized, tools/list and
  tools/call. Any other method, and any exception raised while handling, becomes a
  JSON-RPC error object with code -32603 "Internal error". The store maps each peer
  ("host:port") to a session with a request counter and the list of its tool calls.
  `connected_clients` and `client_sessions` get entries together, and nothing
  removes them. A peer without a session is still served, but not tracked.

  NextStore and Respond say, as functions, what one request does to the store and
  what it answers; McpHttpServer.HandleMcpRequest does it in place.
*/
module Dispatcher {
  import opened Wrappers
  import opened Json
  import opened Py
  import Registry
  import Gateway

  datatype ToolCallRecord = ToolCallRecord(toolName: Json, arguments: Json, timestamp: string)

  datatype Session = Session(connectedAt: string, requestsCount: int, toolsCalled: seq<ToolCallRecord>)

  /** connected_clients and client_sessions. */
  datatype Store = Store(clients: set<string>, sessions: map<string, Session>)

  /** The store invariant: the peer set is exactly the set of peers with a session. */
  predicate Consistent(s: Store) {
    s.clients == s.sessions.Keys
  }

  // The fields the dispatcher reads from a request dict: request_data.get(...).

  function MethodOf(request: Object): Json {
    Lookup(request, "method").GetOr(JNull)
  }

  function ParamsOf(request: Object): Json {
    Lookup(request, "params").GetOr(JObj([]))
  }

  function IdOf(request: Object): Json {
    Lookup(request, "id").GetOr(JNull)
  }

  // The responses.

  /** The fixed server descriptor of the initialize result, with the request id echoed. */
  function InitializeResult(id: Json): Json {
    JObj([
      ("jsonrpc", JStr("2.0")),
      ("id", id),
      ("result", JObj([
        ("protocolVersion", JStr("2024-11-05")),
        ("capabilities", JObj([("tools", JObj([("listChanged", JBool(false))]))])),
        ("serverInfo", JObj([("name", JStr("business-server-mcp")), ("version", JStr("1.0.0"))]))]))])
  }

  /** The answer to notifications/initialized: no id, no result, no error. */
  const InitializedAck: Json := JObj([("jsonrpc", JStr("2.0"))])

  function ToolsListResult(id: Json): Json {
    JObj([("jsonrpc", JStr("2.0")), ("id", id), ("result", JObj([("tools", JArr(Registry.Tools()))]))])
  }

  /** A single text content block, whatever the tool outcome. */
  function ToolCallResult(id: Json, text: string): Json {
    JObj([
      ("jsonrpc", JStr("2.0")),
      ("id", id),
      ("result", JObj([("content", JArr([JObj([("type", JStr("text")), ("text", JStr(text))])]))]))])
  }

  /** The JSON-RPC internal error, carrying str(e) of the exception. */
  function ErrorResponse(id: Json, data: string): Json {
    JObj([
      ("jsonrpc", JStr("2.0")),
      ("id", id),
      ("error", JObj([("code", JInt(-32603)), ("message", JStr("Internal error")), ("data", JStr(data))]))])
  }

  /** The str() of the 400 HTTPException raised for an unknown method: "<status>: <detail>". */
  function UnknownMethodError(rpcMethod: Json): string {
    "400: Unknown method: " + Str(rpcMethod)
  }

  /** params.get("clientInfo", {}), then its .get("name") and .get("version"): read for logging only, but they can raise. */
  function ReadClientInfo(params: Json): Result<(Json, Json), PyError> {
    var info :- Get(params, "clientInfo", JObj([]));
    var name :- Get(info, "name", JStr("unknown"));
    var version :- Get(info, "version", JStr("unknown"));
    Success((name, version))
  }

  function CountRequest(s: Store, clientId: string): (r: Store)
    requires clientId in s.sessions
  {
    var session := s.sessions[clientId];
    Store(s.clients, s.sessions[clientId := session.(requestsCount := session.requestsCount + 1)])
  }

  function RecordCall(s: Store, clientId: string, record: ToolCallRecord): (r: Store)
    requires clientId in s.sessions
  {
    var session := s.sessions[clientId];
    Store(s.clients, s.sessions[clientId := session.(toolsCalled := session.toolsCalled + [record])])
  }

  /** The invocation record of a tools/call whose params is a dict. */
  function RecordOf(params: Object, now: string): ToolCallRecord {
    ToolCallRecord(Lookup(params, "name").GetOr(JNull), Lookup(params, "arguments").GetOr(JObj([])), now)
  }

  /** The store after one request from `clientId`, received at time `now`. */
  function NextStore(s: Store, clientId: string, request: Object, now: string): Store {
    var rpcMethod := MethodOf(request);
    var params := ParamsOf(request);
    if rpcMethod == JStr("initialize") then
      var started :=
        if clientId !in s.clients
        then Store(s.clients + {clientId}, s.sessions[clientId := Session(now, 0, [])])
        else s;
      if clientId in started.sessions then CountRequest(started, clientId) else started
    else if rpcMethod == JStr("tools/list") then
      if clientId in s.sessions then CountRequest(s, clientId) else s
    else if rpcMethod == JStr("tools/call") then
      if params.JObj? && clientId in s.sessions
      then RecordCall(CountRequest(s, clientId), clientId, RecordOf(params.fields, now))
      else s
    else s
  }

  /** The response to one request, given the store it arrived at. */
  function Respond(s: Store, clientId: string, request: Object, now: string,
                   downstream: Gateway.Downstream, dumps: Gateway.Dumps): Json
  {
    var rpcMethod := MethodOf(request);
    var params := ParamsOf(request);
    var id := IdOf(request);
    if rpcMethod == JStr("initialize") then
      if clientId in s.clients && clientId !in s.sessions then
        ErrorResponse(id, ErrorText(KeyError(clientId)))
      else
        (match ReadClientInfo(params)
         case Failure(e) => ErrorResponse(id, ErrorText(e))
         case Success(_) => InitializeResult(id))
    else if rpcMethod == JStr("notifications/initialized") then
      InitializedAck
    else if rpcMethod == JStr("tools/list") then
      ToolsListResult(id)
    else if rpcMethod == JStr("tools/call") then
      match Get(params, "name", JNull)
      case Failure(e) => ErrorResponse(id, ErrorText(e))
      case Success(toolName) =>
        var arguments := Lookup(params.fields, "arguments").GetOr(JObj([]));
        ToolCallResult(id, Gateway.CallTool(toolName, arguments, downstream, dumps).text)
    else
      ErrorResponse(id, UnknownMethodError(rpcMethod))
  }

  /** The process-wide session store and the request handler that updates it. */
  class McpHttpServer {
    var connectedClients: set<string>
    var clientSessions: map<string, Session>

    ghost predicate Valid()
      reads this
    {
      Consistent(State())
    }

    function State(): Store
      reads this
    {
      Store(connectedClients, clientSessions)
    }

    constructor ()
      ensures Valid() && State() == Store({}, map[])
    {
      connectedClients := {};
      clientSessions := map[];
    }

    method HandleMcpRequest(request: Object, clientId: string, now: string,
                            downstream: Gateway.Downstream, dumps: Gateway.Dumps)
      returns (response: Json)
      modifies this
      ensures State() == NextStore(old(State()), clientId, request, now)
      ensures response == Respond(old(State()), clientId, request, now, downstream, dumps)
      ensures old(Valid()) ==> Valid()
    {
      ghost var before := State();
      ConsistentPreserved(before, clientId, request, now);
      var rpcMethod := MethodOf(request);
      var params := ParamsOf(request);
      var id := IdOf(request);
      if rpcMethod == JStr("initialize") {
        if clientId !in connectedClients {
          connectedClients := connectedClients + {clientId};
          clientSessions := clientSessions[clientId := Session(now, 0, [])];
        }
        if clientId !in clientSessions {
          return ErrorResponse(id, ErrorText(KeyError(clientId)));
        }
        var session := clientSessions[clientId];
        clientSessions := clientSessions[clientId := session.(requestsCount := session.requestsCount + 1)];
        var info := ReadClientInfo(params);
        if info.Failure? {
          return ErrorResponse(id, ErrorText(info.error));
        }
        return InitializeResult(id);
      } else if rpcMethod == JStr("notifications/initialized") {
        return InitializedAck;
      } else if rpcMethod == JStr("tools/list") {
        if clientId in clientSessions {
          var session := clientSessions[clientId];
          clientSessions := clientSessions[clientId := session.(requestsCount := session.requestsCount + 1)];
        }
        return ToolsListResult(id);
      } else if rpcMethod == JStr("tools/call") {
        var toolName := Get(params, "name", JNull);
        if toolName.Failure? {
          return ErrorResponse(id, ErrorText(toolName.error));
        }
        var arguments := Lookup(params.fields, "arguments").GetOr(JObj([]));
        if clientId in clientSessions {
          var session := clientSessions[clientId];
          clientSessions := clientSessions[clientId := session.(requestsCount := session.requestsCount + 1)];
          session := clientSessions[clientId];
          clientSessions := clientSessions[clientId := session.(toolsCalled := session.toolsCalled + [ToolCallRecord(toolName.value, arguments, now)])];
        }
        var result := Gateway.CallTool(toolName.value, arguments, downstream, dumps);
        return ToolCallResult(id, result.text);
      } else {
        return ErrorResponse(id, UnknownMethodError(rpcMethod));
      }
    }
  }

  // Properties of one request.

  /** Every request keeps the peer set equal to the session keys, and removes no session. */
  lemma ConsistentPreserved(s: Store, clientId: string, request: Object, now: string)
    ensures Consistent(s) ==> Consistent(NextStore(s, clientId, request, now))
    ensures s.sessions.Keys <= NextStore(s, clientId, request, now).sessions.Keys
    ensures s.clients <= NextStore(s, clientId, request, now).clients
  {
  }

  /** The first initialize from a peer opens its session and counts itself: count 1, no tool calls. */
  lemma FirstInitialize(s: Store, clientId: string, request: Object, now: string)
    requires Consistent(s)
    requires MethodOf(request) == JStr("initialize")
    requires clientId !in s.clients
    ensures NextStore(s, clientId, request, now)
            == Store(s.clients + {clientId}, s.sessions[clientId := Session(now, 1, [])])
  {
  }

  /** A repeated initialize keeps the session, adding 1 to its count only. */
  lemma RepeatInitialize(s: Store, clientId: string, request: Object, now: string)
    requires Consistent(s)
    requires MethodOf(request) == JStr("initialize")
    requires clientId in s.clients
    ensures var old_ := s.sessions[clientId];
            NextStore(s, clientId, request, now)
            == Store(s.clients, s.sessions[clientId := Session(old_.connectedAt, old_.requestsCount + 1, old_.toolsCalled)])
  {
  }

  /**
    initialize answers the fixed descriptor with the request id echoed, unless the
    params (or its clientInfo) is not a dict: then the .get raises and the answer is
    the internal error, although the session was already counted.
  */
  lemma InitializeResponse(s: Store, clientId: string, request: Object, now: string,
                           downstream: Gateway.Downstream, dumps: Gateway.Dumps)
    requires Consistent(s)
    requires MethodOf(request) == JStr("initialize")
    ensures var info := ReadClientInfo(ParamsOf(request));
            Respond(s, clientId, request, now, downstream, dumps)
            == if info.Success? then InitializeResult(IdOf(request))
               else ErrorResponse(IdOf(request), ErrorText(info.error))
    ensures ParamsOf(request) == JObj([]) ==>
              Respond(s, clientId, request, now, downstream, dumps) == InitializeResult(IdOf(request))
  {
  }

  /** notifications/initialized is answered with a bare {"jsonrpc": "2.0"} and changes nothing. */
  lemma InitializedNotification(s: Store, clientId: string, request: Object, now: string,
                                downstream: Gateway.Downstream, dumps: Gateway.Dumps)
    requires MethodOf(request) == JStr("notifications/initialized")
    ensures NextStore(s, clientId, request, now) == s
    ensures var r := Respond(s, clientId, request, now, downstream, dumps);
            r.JObj? && !HasKey(r.fields, "id") && !HasKey(r.fields, "result") && !HasKey(r.fields, "error")
            && Lookup(r.fields, "jsonrpc") == Some(JStr("2.0"))
  {
  }

  /**
    tools/list answers the whole catalog whatever the store, so a second call gives
    the same answer; it counts the request only for a peer with a session.
  */
  lemma ToolsList(s: Store, clientId: string, request: Object, now: string, later: string,
                  downstream: Gateway.Downstream, dumps: Gateway.Dumps)
    requires MethodOf(request) == JStr("tools/list")
    ensures Respond(s, clientId, request, now, downstream, dumps) == ToolsListResult(IdOf(request))
    ensures var s' := NextStore(s, clientId, request, now);
            Respond(s', clientId, request, later, downstream, dumps)
            == Respond(s, clientId, request, now, downstream, dumps)
    ensures NextStore(s, clientId, request, now)
            == if clientId in s.sessions then CountRequest(s, clientId) else s
  {
  }

  /**
    tools/call (params a dict) answers one text block holding the gateway's text. For
    a tracked peer it first adds 1 to the count and appends one record at the end of
    that peer's list, whatever the tool's outcome; no other session changes.
  */
  lemma ToolsCall(s: Store, clientId: string, request: Object, now: string,
                  downstream: Gateway.Downstream, dumps: Gateway.Dumps)
    requires MethodOf(request) == JStr("tools/call")
    requires ParamsOf(request).JObj?
    ensures var params := ParamsOf(request).fields;
            Respond(s, clientId, request, now, downstream, dumps)
            == ToolCallResult(IdOf(request),
                 Gateway.CallTool(Lookup(params, "name").GetOr(JNull),
                                  Lookup(params, "arguments").GetOr(JObj([])), downstream, dumps).text)
    ensures clientId !in s.sessions ==> NextStore(s, clientId, request, now) == s
    ensures clientId in s.sessions ==>
              var old_ := s.sessions[clientId];
              NextStore(s, clientId, request, now)
              == Store(s.clients, s.sessions[clientId := Session(old_.connectedAt, old_.requestsCount + 1,
                         old_.toolsCalled + [RecordOf(ParamsOf(request).fields, now)])])
  {
  }

  /**
    tools/call whose params is not a dict: params.get("name") raises before any session
    is touched, and the answer is the internal error carrying str(e) with the id echoed.
  */
  lemma ToolsCallParamsNotDict(s: Store, clientId: string, request: Object, now: string,
                               downstream: Gateway.Downstream, dumps: Gateway.Dumps)
    requires MethodOf(request) == JStr("tools/call")
    requires !ParamsOf(request).JObj?
    ensures Get(ParamsOf(request), "name", JNull).Failure? && Get(ParamsOf(request), "name", JNull).error.AttributeError?
    ensures NextStore(s, clientId, request, now) == s
    ensures Respond(s, clientId, request, now, downstream, dumps)
            == ErrorResponse(IdOf(request), ErrorText(Get(ParamsOf(request), "name", JNull).error))
  {
  }

  /** A method outside the four: the internal error with the id echoed, and no state change. */
  lemma UnknownMethod(s: Store, clientId: string, request: Object, now: string,
                      downstream: Gateway.Downstream, dumps: Gateway.Dumps)
    requires MethodOf(request) !in {JStr("initialize"), JStr("notifications/initialized"), JStr("tools/list"), JStr("tools/call")}
    ensures NextStore(s, clientId, request, now) == s
    ensures Respond(s, clientId, request, now, downstream, dumps)
            == ErrorResponse(IdOf(request), "400: Unknown method: " + Str(MethodOf(request)))
  {
  }

  // Properties of a sequence of requests.

  datatype Incoming = Incoming(clientId: string, request: Object, now: string)

  /** The store after handling `requests` one after the other. */
  function Run(s: Store, requests: seq<Incoming>): Store
    decreases |requests|
  {
    if |requests| == 0 then s
    else Run(NextStore(s, requests[0].clientId, requests[0].request, requests[0].now), requests[1..])
  }

  /** Whether a request adds 1 to the count of a peer that has a session. */
  predicate Counted(request: Object) {
    var rpcMethod := MethodOf(request);
    rpcMethod == JStr("initialize") || rpcMethod == JStr("tools/list")
    || (rpcMethod == JStr("tools/call") && ParamsOf(request).JObj?)
  }

  /** How many of the requests come from peer p and are counted. */
  function CountFor(p: string, requests: seq<Incoming>): nat
    decreases |requests|
  {
    if |requests| == 0 then 0
    else (if requests[0].clientId == p && Counted(requests[0].request) then 1 else 0)
         + CountFor(p, requests[1..])
  }

  /** The invocation records of p's own tools/call requests, in arrival order. */
  function RecordsFor(p: string, requests: seq<Incoming>): seq<ToolCallRecord>
    decreases |requests|
  {
    if |requests| == 0 then []
    else
      var r := requests[0];
      (if r.clientId == p && MethodOf(r.request) == JStr("tools/call") && ParamsOf(r.request).JObj?
       then [RecordOf(ParamsOf(r.request).fields, r.now)] else [])
      + RecordsFor(p, requests[1..])
  }

  /** One request and a tracked peer p: the session of p after it, method by method. */
  lemma TrackedStep(s: Store, clientId: string, request: Object, now: string, p: string)
    requires Consistent(s)
    requires p in s.sessions
    ensures var s' := NextStore(s, clientId, request, now);
            && p in s'.sessions
            && s'.sessions[p]
               == Session(s.sessions[p].connectedAt,
                          s.sessions[p].requestsCount + (if clientId == p && Counted(request) then 1 else 0),
                          s.sessions[p].toolsCalled
                          + (if clientId == p && MethodOf(request) == JStr("tools/call") && ParamsOf(request).JObj?
                             then [RecordOf(ParamsOf(request).fields, now)] else []))
  {
    var rpcMethod := MethodOf(request);
    if rpcMethod == JStr("initialize") {
      assert clientId in s.clients <==> clientId in s.sessions;
    } else if rpcMethod == JStr("tools/list") {
    } else if rpcMethod == JStr("tools/call") {
    } else {
    }
  }

  /**
    Across any sequence of requests, a tracked peer's session keeps its connection
    time, its count grows by exactly the number of its own counted requests, and its
    tool-call list is the old list followed by the records of its own tools/call
    requests: counts never decrease, and no other peer's calls show up in it.
  */
  lemma {:induction false} TrackedPeerHistory(s: Store, requests: seq<Incoming>, p: string)
    requires Consistent(s)
    requires p in s.sessions
    ensures p in Run(s, requests).sessions
    ensures Consistent(Run(s, requests))
    ensures Run(s, requests).sessions[p]
            == Session(s.sessions[p].connectedAt,
                       s.sessions[p].requestsCount + CountFor(p, requests),
                       s.sessions[p].toolsCalled + RecordsFor(p, requests))
    decreases |requests|
  {
    if |requests| > 0 {
      var r := requests[0];
      TrackedStep(s, r.clientId, r.request, r.now, p);
      ConsistentPreserved(s, r.clientId, r.request, r.now);
      TrackedPeerHistory(NextStore(s, r.clientId, r.request, r.now), requests[1..], p);
    }
  }
}
