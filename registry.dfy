/**
  The tool catalog the HTTP server advertises (`TOOLS`): five entries, each sent as a
  dict {"name", "description", "inputSchema"} whose schema is a JSON Schema object
  {"type": "object", "properties": {...}, "required": [...]}.
*/
module Registry {
  import opened Wrappers
  import opened Json

  datatype PropertySpec = PropertySpec(name: string, kind: string, description: string)

  datatype ToolSpec = ToolSpec(
    name: string,
    description: string,
    properties: seq<PropertySpec>,
    required: seq<string>)

  /** The catalog, in the order tools/list returns it. */
  const Catalog: seq<ToolSpec> := [
    ToolSpec("register_agent", "Register a new agent with the business server",
      [PropertySpec("name", "string", "Name of the agent to register"),
       PropertySpec("version", "string", "Version of the agent")],
      ["name", "version"]),
    ToolSpec("report_status", "Report agent status to the business server",
      [PropertySpec("agent_id", "string", "ID of the agent reporting status"),
       PropertySpec("status", "string", "Current status of the agent"),
       PropertySpec("cpu_usage", "number", "CPU usage percentage (optional)"),
       PropertySpec("memory_usage", "number", "Memory usage percentage (optional)")],
      ["agent_id", "status"]),
    ToolSpec("get_tasks", "Get tasks assigned to a specific agent",
      [PropertySpec("agent_id", "string", "ID of the agent to get tasks for")],
      ["agent_id"]),
    ToolSpec("add_number", "Add 1 to a given number using the business server",
      [PropertySpec("number", "integer", "The number to add 1 to")],
      ["number"]),
    ToolSpec("get_joke", "Get a random joke from the business server", [], [])
  ]

  function Strings(ss: seq<string>): (r: seq<Json>)
    ensures |r| == |ss| && forall i :: 0 <= i < |ss| ==> r[i] == JStr(ss[i])
  {
    if |ss| == 0 then [] else [JStr(ss[0])] + Strings(ss[1..])
  }

  function EncodeProperty(p: PropertySpec): (string, Json) {
    (p.name, JObj([("type", JStr(p.kind)), ("description", JStr(p.description))]))
  }

  function EncodeProperties(ps: seq<PropertySpec>): (r: Object)
    ensures Keys(r) == seq(|ps|, i requires 0 <= i < |ps| => ps[i].name)
    ensures |r| == |ps| && forall i :: 0 <= i < |ps| ==> r[i] == EncodeProperty(ps[i])
  {
    if |ps| == 0 then [] else [EncodeProperty(ps[0])] + EncodeProperties(ps[1..])
  }

  function EncodeSchema(t: ToolSpec): Json {
    JObj([
      ("type", JStr("object")),
      ("properties", JObj(EncodeProperties(t.properties))),
      ("required", JArr(Strings(t.required)))])
  }

  /** One TOOLS entry as it appears on the wire. */
  function Encode(t: ToolSpec): Json {
    JObj([("name", JStr(t.name)), ("description", JStr(t.description)), ("inputSchema", EncodeSchema(t))])
  }

  /** entry["name"] of a wire entry, None when absent. */
  function NameOf(entry: Json): Json {
    if entry.JObj? then Lookup(entry.fields, "name").GetOr(JNull) else JNull
  }

  /** A JSON Schema object whose "required" names are all keys of its "properties". */
  predicate SchemaWellFormed(schema: Json) {
    schema.JObj? &&
    match (Lookup(schema.fields, "properties"), Lookup(schema.fields, "required"))
    case (Some(JObj(properties)), Some(JArr(required))) =>
      forall k :: 0 <= k < |required| ==> required[k].JStr? && HasKey(properties, required[k].s)
    case _ => false
  }

  /** A wire entry with a string "name" and a well-formed "inputSchema". */
  predicate EntryWellFormed(entry: Json) {
    entry.JObj? && NameOf(entry).JStr? &&
    match Lookup(entry.fields, "inputSchema")
    case Some(schema) => SchemaWellFormed(schema)
    case None => false
  }

  /**
    TOOLS: the catalog as the JSON list tools/list puts under "tools": five entries,
    pairwise distinct names, and every schema's required names among its properties.
  */
  function Tools(): (r: seq<Json>)
    ensures |r| == |Catalog| == 5
    ensures forall i :: 0 <= i < |r| ==> r[i] == Encode(Catalog[i])
    ensures forall i :: 0 <= i < |r| ==> EntryWellFormed(r[i])
    ensures forall i, j :: 0 <= i < j < |r| ==> NameOf(r[i]) != NameOf(r[j])
  {
    CatalogWellFormed();
    EncodedCatalog();
    seq(|Catalog|, i requires 0 <= i < |Catalog| => Encode(Catalog[i]))
  }

  /** A schema whose required names all name properties encodes as a well-formed schema. */
  lemma EncodeSchemaWellFormed(t: ToolSpec)
    requires forall r :: r in t.required ==> exists p :: p in t.properties && p.name == r
    ensures SchemaWellFormed(EncodeSchema(t))
  {
    var schema := EncodeSchema(t).fields;
    LookupAt(schema, 1, "properties");
    LookupAt(schema, 2, "required");
    var properties := EncodeProperties(t.properties);
    var required := Strings(t.required);
    forall k | 0 <= k < |required| ensures required[k].JStr? && HasKey(properties, required[k].s) {
      assert t.required[k] in t.required;
      var p :| p in t.properties && p.name == t.required[k];
      var m :| 0 <= m < |t.properties| && t.properties[m] == p;
      assert Keys(properties)[m] == p.name;
    }
  }

  /** One entry's wire form reads back its name, and its schema is well formed. */
  lemma EncodeWellFormed(t: ToolSpec)
    requires forall r :: r in t.required ==> exists p :: p in t.properties && p.name == r
    ensures NameOf(Encode(t)) == JStr(t.name)
    ensures EntryWellFormed(Encode(t))
  {
    var fields := Encode(t).fields;
    LookupAt(fields, 0, "name");
    LookupAt(fields, 2, "inputSchema");
    EncodeSchemaWellFormed(t);
  }

  lemma EncodedCatalog()
    ensures forall i :: 0 <= i < |Catalog| ==>
              NameOf(Encode(Catalog[i])) == JStr(Catalog[i].name) && EntryWellFormed(Encode(Catalog[i]))
  {
    CatalogWellFormed();
    forall i | 0 <= i < |Catalog|
      ensures NameOf(Encode(Catalog[i])) == JStr(Catalog[i].name) && EntryWellFormed(Encode(Catalog[i]))
    {
      EncodeWellFormed(Catalog[i]);
    }
  }

  predicate IsToolName(name: string) {
    exists i :: 0 <= i < |Catalog| && Catalog[i].name == name
  }

  /** The "required" list of the named tool; empty for a name outside the catalog. */
  function RequiredOf(name: string): (r: seq<string>)
    ensures forall i :: 0 <= i < |Catalog| && Catalog[i].name == name ==> r == Catalog[i].required
  {
    if name == "register_agent" then Catalog[0].required
    else if name == "report_status" then Catalog[1].required
    else if name == "get_tasks" then Catalog[2].required
    else if name == "add_number" then Catalog[3].required
    else if name == "get_joke" then Catalog[4].required
    else []
  }

  /** Tool names are pairwise distinct, and every required name is a declared property. */
  lemma CatalogWellFormed()
    ensures |Catalog| == 5
    ensures forall i, j :: 0 <= i < j < |Catalog| ==> Catalog[i].name != Catalog[j].name
    ensures forall i, r :: 0 <= i < |Catalog| && r in Catalog[i].required ==>
              exists p :: p in Catalog[i].properties && p.name == r
  {
    forall i, r | 0 <= i < |Catalog| && r in Catalog[i].required
      ensures exists p :: p in Catalog[i].properties && p.name == r
    {
      assert Catalog[i].properties[0].name == Catalog[i].required[0];
      if |Catalog[i].required| == 2 {
        assert Catalog[i].properties[1].name == Catalog[i].required[1];
      }
    }
  }
}
