/** The MCP tool definition served to clients in `tools/list`. */
module Tools {
  import opened Wrappers
  import opened Json

  /** An icon. Its size list is held by value (null becomes empty). */
  datatype Icon = Icon(src: Option<string>, mimeType: Option<string>, sizes: seq<string>)

  function NewIcon(src: Option<string>, mimeType: Option<string>, sizes: Option<seq<string>>): (i: Icon)
    ensures i.src == src && i.mimeType == mimeType
    ensures sizes.None? ==> i.sizes == []
    ensures sizes.Some? ==> i.sizes == sizes.value
  {
    Icon(src, mimeType, if sizes.Some? then sizes.value else [])
  }

  /** `Icon.toJsonObject`: source and MIME type; the sizes branch writes nothing. */
  function IconJson(i: Icon): (v: Value)
    ensures v.VObject? && v.fields.Keys == {"src", "mimeType"}
    ensures v.fields["src"] == FromOptString(i.src) && v.fields["mimeType"] == FromOptString(i.mimeType)
  {
    VObject(map["src" := FromOptString(i.src), "mimeType" := FromOptString(i.mimeType)])
  }

  datatype OpenWorldHint = OpenWorld | Restricted | Unknown

  /** The enum constant's name, as `toString` gives it. */
  function OpenWorldHintName(h: OpenWorldHint): string {
    match h
    case OpenWorld => "OPEN_WORLD"
    case Restricted => "RESTRICTED"
    case Unknown => "UNKNOWN"
  }

  datatype ToolAnnotations = ToolAnnotations(
    readOnlyHint: bool, destructiveHint: bool, idempotentHint: bool,
    openWorldHint: Option<OpenWorldHint>, localOnlyHint: bool)

  /** `ToolAnnotations.toJsonObject`: the four boolean hints always, the
      open-world hint by name when set. */
  function AnnotationsJson(a: ToolAnnotations): (v: Value)
    ensures v.VObject?
    ensures v.fields.Keys == {"readOnlyHint", "destructiveHint", "idempotentHint", "localOnlyHint"} +
                             (if a.openWorldHint.Some? then {"openWorldHint"} else {})
    ensures v.fields["readOnlyHint"] == VBool(a.readOnlyHint) && v.fields["destructiveHint"] == VBool(a.destructiveHint)
    ensures v.fields["idempotentHint"] == VBool(a.idempotentHint) && v.fields["localOnlyHint"] == VBool(a.localOnlyHint)
    ensures a.openWorldHint.Some? ==> v.fields["openWorldHint"] == VString(OpenWorldHintName(a.openWorldHint.value))
  {
    var base := map["readOnlyHint" := VBool(a.readOnlyHint), "destructiveHint" := VBool(a.destructiveHint),
                    "idempotentHint" := VBool(a.idempotentHint), "localOnlyHint" := VBool(a.localOnlyHint)];
    VObject(if a.openWorldHint.Some? then base["openWorldHint" := VString(OpenWorldHintName(a.openWorldHint.value))] else base)
  }

  datatype McpTool = McpTool(
    name: Option<string>,
    title: Option<string>,
    description: Option<string>,
    icons: seq<Icon>,
    inputSchema: Option<map<string, Value>>,
    outputSchema: Option<map<string, Value>>,
    annotations: Option<ToolAnnotations>)

  /** The constructor: the icon list is copied, and a null one becomes empty. */
  function NewTool(name: Option<string>, title: Option<string>, description: Option<string>,
                   icons: Option<seq<Icon>>, inputSchema: Option<map<string, Value>>,
                   outputSchema: Option<map<string, Value>>, annotations: Option<ToolAnnotations>): (t: McpTool)
    ensures icons.None? ==> t.icons == []
    ensures icons.Some? ==> t.icons == icons.value
    ensures t.name == name && t.title == title && t.description == description
    ensures t.inputSchema == inputSchema && t.outputSchema == outputSchema && t.annotations == annotations
  {
    McpTool(name, title, description, if icons.Some? then icons.value else [], inputSchema, outputSchema, annotations)
  }

  predicate Present(s: Option<string>) {
    s.Some? && s.value != ""
  }

  /** The descriptive part of `toJsonObject`: `name` always, `title` and
      `description` only when non-empty. */
  function HeaderJson(t: McpTool): (p: Payload)
    ensures "name" in p && p["name"] == FromOptString(t.name)
    ensures "title" in p <==> Present(t.title)
    ensures "title" in p ==> p["title"] == VString(t.title.value)
    ensures "description" in p <==> Present(t.description)
    ensures "description" in p ==> p["description"] == VString(t.description.value)
    ensures p.Keys <= {"name", "title", "description"}
  {
    var p1 := map["name" := FromOptString(t.name)];
    var p2 := if Present(t.title) then p1["title" := VString(t.title.value)] else p1;
    if Present(t.description) then p2["description" := VString(t.description.value)] else p2
  }

  /** A schema as Gson re-reads its own output, when there is one. */
  function SchemaEntry(schema: Option<map<string, Value>>): (v: Option<Value>)
    ensures v.Some? <==> schema.Some?
    ensures v.Some? ==> v.value == ToJsonTree(VObject(schema.value))
  {
    if schema.Some? then Some(ToJsonTree(VObject(schema.value))) else None
  }

  /** `toJsonObject`: `name` always; `title` and `description` when non-empty;
      the schemas, as Gson re-reads its own output, and the annotations when set.
      The icons branch is empty, so icons never appear. */
  function ToolJson(t: McpTool): (p: Payload)
    ensures "name" in p && p["name"] == FromOptString(t.name)
    ensures "title" in p <==> Present(t.title)
    ensures "title" in p ==> p["title"] == VString(t.title.value)
    ensures "description" in p <==> Present(t.description)
    ensures "description" in p ==> p["description"] == VString(t.description.value)
    ensures "icons" !in p
    ensures "inputSchema" in p <==> t.inputSchema.Some?
    ensures "inputSchema" in p ==> p["inputSchema"] == ToJsonTree(VObject(t.inputSchema.value))
    ensures "outputSchema" in p <==> t.outputSchema.Some?
    ensures "outputSchema" in p ==> p["outputSchema"] == ToJsonTree(VObject(t.outputSchema.value))
    ensures "annotations" in p <==> t.annotations.Some?
    ensures "annotations" in p ==> p["annotations"] == AnnotationsJson(t.annotations.value)
    ensures p.Keys <= {"name", "title", "description", "inputSchema", "outputSchema", "annotations"}
  {
    var p3 := HeaderJson(t);
    var input, output := SchemaEntry(t.inputSchema), SchemaEntry(t.outputSchema);
    var p4 := if input.Some? then p3["inputSchema" := input.value] else p3;
    var p5 := if output.Some? then p4["outputSchema" := output.value] else p4;
    if t.annotations.Some? then p5["annotations" := AnnotationsJson(t.annotations.value)] else p5
  }

  /** Icons make no difference to the emitted definition. */
  lemma IconsInvisible(t: McpTool, icons: seq<Icon>)
    ensures ToolJson(t.(icons := icons)) == ToolJson(t)
  {
  }
}
