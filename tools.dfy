/** Tool advertisement, `handle_list_tools`. */
module ToolList {
  import opened Wrappers
  import opened ServerConfig

  /** The JSON values an input schema is made of; an object keeps its keys in order. */
  datatype Json =
    | JString(str: string)
    | JInt(num: int)
    | JArray(items: seq<Json>)
    | JObject(fields: seq<(string, Json)>)

  /** The value bound to `key` in an object (its first binding), if any. */
  function Field(fields: seq<(string, Json)>, key: string): Option<Json>
  {
    if |fields| == 0 then None
    else if fields[0].0 == key then Some(fields[0].1)
    else Field(fields[1..], key)
  }

  /** Follows a path of object keys from `j`. */
  function Path(j: Json, keys: seq<string>): Option<Json>
    decreases |keys|
  {
    if |keys| == 0 then Some(j)
    else match j
      case JObject(fields) =>
        (match Field(fields, keys[0])
         case None => None
         case Some(child) => Path(child, keys[1..]))
      case _ => None
  }

  datatype Tool = Tool(name: string, description: string, inputSchema: Json)

  /** The exec tool's input schema: a required string `input` and an integer `timeout` with a default. */
  function ExecSchema(timeoutDefault: int): Json
  {
    JObject([
      ("type", JString("object")),
      ("properties", JObject([
        ("input", JObject([
          ("type", JString("string")),
          ("description", JString("Command to execute in the process"))])),
        ("timeout", JObject([
          ("type", JString("integer")),
          ("description", JString("Timeout before termination (seconds, optional)")),
          ("default", JInt(timeoutDefault))]))])),
      ("required", JArray([JString("input")]))])
  }

  /** What a client reads from the exec schema. */
  lemma ExecSchemaFields(t: int)
    ensures Path(ExecSchema(t), ["required"]) == Some(JArray([JString("input")]))
    ensures Path(ExecSchema(t), ["properties", "input", "type"]) == Some(JString("string"))
    ensures Path(ExecSchema(t), ["properties", "timeout", "type"]) == Some(JString("integer"))
    ensures Path(ExecSchema(t), ["properties", "timeout", "default"]) == Some(JInt(t))
  {
    var top := ExecSchema(t).fields;
    var props := top[1].1;
    var input := props.fields[0].1;
    var timeout := props.fields[1].1;
    assert Field(top[2..], "required") == Some(JArray([JString("input")]));
    assert Field(top[1..], "required") == Field(top[2..], "required");
    assert Field(top, "required") == Some(JArray([JString("input")]));
    assert Field(top, "properties") == Some(props);
    assert Field(props.fields, "input") == Some(input);
    assert Field(props.fields, "timeout") == Some(timeout);
    assert Field(input.fields, "type") == Some(JString("string"));
    assert Field(timeout.fields, "type") == Some(JString("integer"));
    assert Field(timeout.fields[2..], "default") == Some(JInt(t));
    assert Field(timeout.fields[1..], "default") == Field(timeout.fields[2..], "default");
    assert Field(timeout.fields, "default") == Some(JInt(t));
    assert Path(JString("string"), []) == Some(JString("string"));
    assert Path(input, ["type"]) == Some(JString("string"));
    assert Path(timeout, ["type"]) == Some(JString("integer"));
    assert Path(timeout, ["default"]) == Some(JInt(t));
    assert ["properties", "input", "type"][1..] == ["input", "type"];
    assert ["input", "type"][1..] == ["type"];
    assert ["properties", "timeout", "type"][1..] == ["timeout", "type"];
    assert ["timeout", "type"][1..] == ["type"];
    assert ["properties", "timeout", "default"][1..] == ["timeout", "default"];
    assert ["timeout", "default"][1..] == ["default"];
  }

  /**
   * Lists the tools: none when the configured exec name is empty, otherwise the one
   * exec tool under that name, whose schema requires `input` and defaults `timeout`
   * to the configured timeout.
   */
  method ListTools(c: Config) returns (tools: seq<Tool>)
    ensures tools == [] <==> c.execName == ""
    ensures c.execName != "" ==>
      && |tools| == 1
      && tools[0].name == c.execName
      && tools[0].description == c.execDescription
      && Path(tools[0].inputSchema, ["required"]) == Some(JArray([JString("input")]))
      && Path(tools[0].inputSchema, ["properties", "input", "type"]) == Some(JString("string"))
      && Path(tools[0].inputSchema, ["properties", "timeout", "type"]) == Some(JString("integer"))
      && Path(tools[0].inputSchema, ["properties", "timeout", "default"]) == Some(JInt(c.execTimeout))
  {
    tools := [];
    if c.execName != "" {
      ExecSchemaFields(c.execTimeout);
      tools := tools + [Tool(c.execName, c.execDescription, ExecSchema(c.execTimeout))];
    }
  }
}
