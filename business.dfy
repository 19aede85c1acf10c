/**
  The business back end: an in-memory agent registry and a fixed task table.
  Registration stores {name, version} under the id it is given and answers
  {"agent_id": id}; status reports and task lookups answer 404 "Agent not found"
  for an id that was never registered; the adder answers number + 1.
  Request bodies reach these operations already validated as the declared types.
*/
module Business {
  import opened Wrappers
  import opened Json

  datatype Agent = Agent(name: string, version: string)

  /** An HTTPException: the status code and the detail the client sees. */
  datatype HttpError = HttpError(status: int, detail: string)

  const NotFound: HttpError := HttpError(404, "Agent not found")

  /** The task table, the same for every agent; no operation changes it. */
  const Tasks: Object := [
    ("task1", JObj([("description", JStr("Update inventory")), ("priority", JStr("high"))])),
    ("task2", JObj([("description", JStr("Sync logs")), ("priority", JStr("medium"))]))
  ]

  class BusinessServer {
    var agents: map<string, Agent>

    constructor ()
      ensures agents == map[]
    {
      agents := map[];
    }

    /** POST /register, with `agentId` the uuid4 the server draws. */
    method RegisterAgent(name: string, version: string, agentId: string) returns (response: Json)
      modifies this
      ensures agents == old(agents)[agentId := Agent(name, version)]
      ensures response.JObj? && Lookup(response.fields, "agent_id") == Some(JStr(agentId))
      ensures Keys(response.fields) == ["agent_id"]
      ensures agentId !in old(agents) ==>
                agents.Keys == old(agents).Keys + {agentId}
                && forall id :: id in old(agents) ==> agents[id] == old(agents)[id]
    {
      agents := agents[agentId := Agent(name, version)];
      response := JObj([("agent_id", JStr(agentId))]);
    }

    /** POST /report_status; the optional usage figures are accepted and not used. */
    function ReportStatus(agentId: string, status: string, cpuUsage: Option<Json>, memoryUsage: Option<Json>)
      : (r: Result<Json, HttpError>)
      reads this
      ensures r.Failure? <==> agentId !in agents
      ensures r.Failure? ==> r.error == NotFound
      ensures r.Success? ==> r.value.JObj? && Keys(r.value.fields) == ["message"]
                             && Lookup(r.value.fields, "message") == Some(JStr("Status received for agent " + agentId))
    {
      if agentId !in agents then Failure(NotFound)
      else Success(JObj([("message", JStr("Status received for agent " + agentId))]))
    }

    /** GET /tasks?agent_id=...: the whole task table for any registered agent. */
    function GetTasks(agentId: string): (r: Result<Json, HttpError>)
      reads this
      ensures r.Failure? <==> agentId !in agents
      ensures r.Failure? ==> r.error == NotFound
      ensures r.Success? ==> r.value.JObj? && Keys(r.value.fields) == ["tasks"]
                             && Lookup(r.value.fields, "tasks") == Some(JObj(Tasks))
    {
      if agentId !in agents then Failure(NotFound) else Success(JObj([("tasks", JObj(Tasks))]))
    }
  }

  /** POST /adder */
  function Adder(number: int): (r: Json)
    ensures r.JObj? && Keys(r.fields) == ["result"]
    ensures Lookup(r.fields, "result") == Some(JInt(number + 1))
  {
    JObj([("result", JInt(number + 1))])
  }

  /**
    Once an id is registered, a status report and a task lookup for it both succeed,
    and the registration of another id keeps it so.
  */
  method RegisterThenServe(server: BusinessServer, name: string, version: string, agentId: string,
                           otherName: string, otherVersion: string, otherId: string)
    returns (status: Result<Json, HttpError>, tasks: Result<Json, HttpError>)
    modifies server
    ensures server.agents.Keys == old(server.agents).Keys + {agentId, otherId}
    ensures status == Success(JObj([("message", JStr("Status received for agent " + agentId))]))
    ensures tasks == Success(JObj([("tasks", JObj(Tasks))]))
  {
    var _ := server.RegisterAgent(name, version, agentId);
    var _ := server.RegisterAgent(otherName, otherVersion, otherId);
    status := server.ReportStatus(agentId, "active", None, None);
    tasks := server.GetTasks(agentId);
  }
}
