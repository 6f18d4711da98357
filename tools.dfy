/** The static tool list served by `GET /tools/list` (server.js:8-28). */
module Tools {

  import opened Wrappers
  import opened Json

  /** One property of a tool's parameter schema. */
  datatype Property = Property(
    name: string,
    typ: string,
    description: Option<string>,
    allowed: Option<seq<string>>,   // `enum`
    default: Option<string>)

  /** A tool's `parameters` schema; the stubs give only `type`. */
  datatype Parameters = Parameters(typ: string, properties: Option<seq<Property>>, required: Option<seq<string>>)

  datatype ToolDescriptor = ToolDescriptor(
    name: string,
    description: string,
    parameters: Parameters,
    resultType: string)             // `result_schema.type`

  const LocationTool := "get_bus_location"

  const IdTypes: seq<string> := ["fleet", "dbid", "vin", "tag"]

  /** The three descriptors, in the order the listing gives them. */
  function Descriptors(): (ts: seq<ToolDescriptor>)
    ensures |ts| == 3
    ensures ts[0].name == "search" && ts[1].name == "fetch" && ts[2].name == LocationTool
    ensures forall i :: 0 <= i < 2 ==>
              ts[i].description == "stub" && ts[i].parameters == Parameters("object", None, None)
    ensures ts[2].parameters.required == Some(["bus_id"])
    ensures ts[2].parameters.properties.Some?
      && var props := ts[2].parameters.properties.value;
         |props| == 2 && props[0].name == "bus_id" && props[0].typ == "string"
         && props[0].allowed.None? && props[0].default.None?
         && props[1].name == "id_type" && props[1].typ == "string"
         && props[1].allowed == Some(IdTypes) && props[1].default == Some("fleet")
  {
    [ ToolDescriptor("search", "stub", Parameters("object", None, None), "array"),
      ToolDescriptor("fetch", "stub", Parameters("object", None, None), "string"),
      ToolDescriptor(LocationTool, "Return latest GPS fix for a bus",
        Parameters("object",
          Some([ Property("bus_id", "string", Some("Fleet number / dbid / vin / tag"), None, None),
                 Property("id_type", "string", None, Some(IdTypes), Some("fleet")) ]),
          Some(["bus_id"])),
        "object") ]
  }

  function Strings(ss: seq<string>): (r: seq<Json>)
    ensures IsStringArray(JArray(r), ss)
  {
    if |ss| == 0 then [] else [JString(ss[0])] + Strings(ss[1..])
  }

  function OptionalString(s: Option<string>): (r: Option<Json>)
    ensures r.Some? <==> s.Some?
    ensures r.Some? ==> r.value == JString(s.value)
  {
    if s.Some? then Some(JString(s.value)) else None
  }

  /** One entry of `properties`: `type`, then `description`, `enum` and `default` when given. */
  function PropertyJson(p: Property): (r: Json)
    ensures r.JObject?
    ensures r.fields.Keys == {"type"} + (if p.description.Some? then {"description"} else {})
              + (if p.allowed.Some? then {"enum"} else {}) + (if p.default.Some? then {"default"} else {})
    ensures r.fields["type"] == JString(p.typ)
    ensures p.description.Some? ==> r.fields["description"] == JString(p.description.value)
    ensures p.allowed.Some? ==> IsStringArray(r.fields["enum"], p.allowed.value)
    ensures p.default.Some? ==> r.fields["default"] == JString(p.default.value)
  {
    var withDescription := WithOptional(map["type" := JString(p.typ)], "description", OptionalString(p.description)).fields;
    var withEnum := WithOptional(withDescription, "enum",
                      if p.allowed.Some? then Some(JArray(Strings(p.allowed.value))) else None).fields;
    WithOptional(withEnum, "default", OptionalString(p.default))
  }

  /** `properties` as an object keyed by property name; a later property of the same name
      replaces an earlier one, as in an object literal. */
  function PropertiesJson(props: seq<Property>): (r: map<string, Json>)
    ensures r.Keys == set p | p in props :: p.name
    ensures forall i :: 0 <= i < |props| && (forall j :: i < j < |props| ==> props[j].name != props[i].name)
              ==> r[props[i].name] == PropertyJson(props[i])
  {
    if |props| == 0 then map[]
    else
      var init, last := props[..|props| - 1], props[|props| - 1];
      assert props == init + [last];
      assert (set p | p in props :: p.name) == (set p | p in init :: p.name) + {last.name};
      PropertiesJson(init)[last.name := PropertyJson(last)]
  }

  /** A `parameters` schema: `type`, then `properties` and `required` when given. */
  function ParametersJson(p: Parameters): (r: Json)
    ensures r.JObject?
    ensures r.fields.Keys == {"type"} + (if p.properties.Some? then {"properties"} else {})
              + (if p.required.Some? then {"required"} else {})
    ensures r.fields["type"] == JString(p.typ)
    ensures p.properties.Some? ==> r.fields["properties"] == JObject(PropertiesJson(p.properties.value))
    ensures p.required.Some? ==> IsStringArray(r.fields["required"], p.required.value)
  {
    var withProperties := WithOptional(map["type" := JString(p.typ)], "properties",
                            if p.properties.Some? then Some(JObject(PropertiesJson(p.properties.value))) else None).fields;
    WithOptional(withProperties, "required",
      if p.required.Some? then Some(JArray(Strings(p.required.value))) else None)
  }

  /** One descriptor as listed: `name`, `description`, `parameters` and `result_schema`. */
  function DescriptorJson(t: ToolDescriptor): (r: Json)
    ensures r.JObject? && r.fields.Keys == {"name", "description", "parameters", "result_schema"}
    ensures r.fields["name"] == JString(t.name)
    ensures r.fields["description"] == JString(t.description)
    ensures r.fields["parameters"] == ParametersJson(t.parameters)
    ensures r.fields["result_schema"] == JObject(map["type" := JString(t.resultType)])
  {
    JObject(map[
      "name" := JString(t.name),
      "description" := JString(t.description),
      "parameters" := ParametersJson(t.parameters),
      "result_schema" := JObject(map["type" := JString(t.resultType)])])
  }

  function DescriptorsJson(ts: seq<ToolDescriptor>): (r: seq<Json>)
    ensures |r| == |ts| && forall i :: 0 <= i < |ts| ==> r[i] == DescriptorJson(ts[i])
  {
    if |ts| == 0 then [] else [DescriptorJson(ts[0])] + DescriptorsJson(ts[1..])
  }

  /** `{ tools: [...] }`, one object per descriptor, in order. */
  function ToolsBody(ts: seq<ToolDescriptor>): (r: Json)
    ensures r.JObject? && r.fields.Keys == {"tools"} && r.fields["tools"].JArray?
    ensures |r.fields["tools"].items| == |ts|
    ensures forall i :: 0 <= i < |ts| ==> r.fields["tools"].items[i] == DescriptorJson(ts[i])
  {
    JObject(map["tools" := JArray(DescriptorsJson(ts))])
  }

  /** The body of the listing. */
  function ListBody(): (r: Json)
    ensures r.JObject? && r.fields.Keys == {"tools"} && r.fields["tools"].JArray?
    ensures |r.fields["tools"].items| == 3
    ensures forall i :: 0 <= i < 3 ==> r.fields["tools"].items[i] == DescriptorJson(Descriptors()[i])
  {
    ToolsBody(Descriptors())
  }

  /** A schema with two differently named properties renders both, each under its name. */
  lemma TwoPropertiesRendered(p: Parameters, a: Property, b: Property)
    requires p.properties == Some([a, b]) && a.name != b.name && p.required.Some?
    ensures var params := ParametersJson(p);
      && params.fields.Keys == {"type", "properties", "required"}
      && IsStringArray(params.fields["required"], p.required.value)
      && params.fields["properties"] == JObject(map[a.name := PropertyJson(a), b.name := PropertyJson(b)])
  {
    PairRendered(a, b);
  }

  lemma PairRendered(a: Property, b: Property)
    requires a.name != b.name
    ensures PropertiesJson([a, b]) == map[a.name := PropertyJson(a), b.name := PropertyJson(b)]
  {
    var props := PropertiesJson([a, b]);
    assert (set q | q in [a, b] :: q.name) == {a.name, b.name};
    assert props[a.name] == PropertyJson([a, b][0]);
    assert props[b.name] == PropertyJson([a, b][1]);
  }

  /** The rendered `parameters` of `get_bus_location`. */
  lemma LocationParametersRendered()
    ensures var params := ParametersJson(Descriptors()[2].parameters);
      && params.JObject? && params.fields.Keys == {"type", "properties", "required"}
      && IsStringArray(params.fields["required"], ["bus_id"])
      && params.fields["properties"].JObject?
      && var props := params.fields["properties"].fields;
      && props.Keys == {"bus_id", "id_type"}
      && HasField(props["bus_id"], "type", JString("string"))
      && HasField(props["id_type"], "type", JString("string"))
      && "enum" in props["id_type"].fields
      && IsStringArray(props["id_type"].fields["enum"], IdTypes)
      && HasField(props["id_type"], "default", JString("fleet"))
  {
    var params := Descriptors()[2].parameters;
    var location := params.properties.value;
    assert location[0].name != location[1].name;
    TwoPropertiesRendered(params, location[0], location[1]);
  }

  /** The listed `get_bus_location` schema: `bus_id` and `id_type` are string properties,
      `required` is `["bus_id"]`, and `id_type` is limited to fleet/dbid/vin/tag with
      default `fleet`. */
  lemma LocationToolListed()
    ensures var tool := ListBody().fields["tools"].items[2];
      && HasField(tool, "name", JString(LocationTool))
      && "parameters" in tool.fields
      && var params := tool.fields["parameters"];
      && params.JObject? && params.fields.Keys == {"type", "properties", "required"}
      && IsStringArray(params.fields["required"], ["bus_id"])
      && params.fields["properties"].JObject?
      && var props := params.fields["properties"].fields;
      && props.Keys == {"bus_id", "id_type"}
      && HasField(props["bus_id"], "type", JString("string"))
      && HasField(props["id_type"], "type", JString("string"))
      && "enum" in props["id_type"].fields
      && IsStringArray(props["id_type"].fields["enum"], IdTypes)
      && HasField(props["id_type"], "default", JString("fleet"))
  {
    var tool := ListBody().fields["tools"].items[2];
    assert tool.fields["parameters"] == ParametersJson(Descriptors()[2].parameters);
    LocationParametersRendered();
  }
}
