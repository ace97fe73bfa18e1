/** The adapter that presents registered capabilities as MCP tools (MCP
    specification revision 2025-11-25, "Server Features / Tools / Data Types"),
    and converts tool calls and capability results between the two worlds. */
module ToolDecorator {
  import opened Wrappers
  import opened Json
  import opened Capabilities
  import opened Tools
  import opened ToolResults

  const MaxToolNameLength := 128
  const DefaultDescription := "No description available"
  const IconMimeType := "image/svg+xml"

  /** `[A-Za-z0-9_.-]`. */
  predicate IsToolNameChar(c: char) {
    ('A' <= c <= 'Z') || ('a' <= c <= 'z') || ('0' <= c <= '9') || c == '_' || c == '.' || c == '-'
  }

  predicate AllToolNameChars(s: string) {
    forall i :: 0 <= i < |s| ==> IsToolNameChar(s[i])
  }

  /** The MCP naming rule: 1 to 128 characters, all from the set above. */
  predicate ValidToolName(s: string) {
    1 <= |s| <= MaxToolNameLength && AllToolNameChars(s)
  }

  /** `String.length()`: UTF-16 code units, two for a character outside the Basic
      Multilingual Plane. */
  function Utf16Length(s: string): (n: nat)
    ensures |s| <= n <= 2 * |s|
  {
    if s == [] then 0
    else Utf16Length(s[..|s| - 1]) + (if s[|s| - 1] as int >= 0x10000 then 2 else 1)
  }

  /** A name made of allowed characters has as many code units as characters. */
  lemma {:induction false} Utf16LengthOfToolChars(s: string)
    requires AllToolNameChars(s)
    ensures Utf16Length(s) == |s|
    decreases |s|
  {
    if s != [] {
      Utf16LengthOfToolChars(s[..|s| - 1]);
    }
  }

  /** The three refusals of `validateToolName`, in the order they are checked. */
  datatype NameError = NameMissing | NameLength | NameCharacters

  /** `validateToolName`. */
  function ValidateToolName(id: Option<string>): (r: Result<string, NameError>)
    ensures r.Success? <==> id.Some? && ValidToolName(id.value)
    ensures r.Success? ==> r.value == id.value
    ensures id.None? || id.value == "" <==> r == Failure(NameMissing)
  {
    if id.None? || id.value == "" then Failure(NameMissing)
    else if Utf16Length(id.value) > MaxToolNameLength then
      if AllToolNameChars(id.value) then Utf16LengthOfToolChars(id.value); Failure(NameLength)
      else Failure(NameLength)
    else if !AllToolNameChars(id.value) then Failure(NameCharacters)
    else Success(id.value)
  }

  /** `buildAnnotations`: hints from the capability type (a null type is neither
      CONTEXT nor ACTION). */
  function BuildAnnotations(t: Option<CapabilityType>): (a: ToolAnnotations)
    ensures a.readOnlyHint <==> t == Some(Context)
    ensures a.destructiveHint <==> t == Some(Action)
    ensures a.idempotentHint <==> t != Some(Action)
    ensures a.localOnlyHint && a.openWorldHint == Some(Unknown)
  {
    ToolAnnotations(t == Some(Context), t == Some(Action), t != Some(Action), Some(Unknown), true)
  }

  /** The read-only and destructive hints never hold together. */
  lemma AnnotationsConsistent(t: Option<CapabilityType>)
    ensures !(BuildAnnotations(t).readOnlyHint && BuildAnnotations(t).destructiveHint)
    ensures BuildAnnotations(t).destructiveHint ==> !BuildAnnotations(t).idempotentHint
  {
  }

  /** An inline SVG showing one emoji. */
  function SvgIcon(glyph: string): string {
    "data:image/svg+xml,<svg xmlns='http://www.w3.org/2000/svg' viewBox='0 0 24 24'><text y='20' font-size='20'>" + glyph + "</text></svg>"
  }

  /** The glyph per type: magnifier, lightning, bell. */
  function IconSource(t: CapabilityType): string {
    match t
    case Context => SvgIcon("\U{1F50D}")
    case Action => SvgIcon("\U{26A1}")
    case Event => SvgIcon("\U{1F514}")
  }

  /** Why `decorate` throws. */
  datatype DecorateError = NullDescriptor | NullManifest | InvalidName(reason: NameError) | NullType

  /** `buildIcons`: one 24x24 SVG icon; switching on a null type throws. */
  function BuildIcons(t: Option<CapabilityType>): (r: Result<seq<Icon>, DecorateError>)
    ensures r.Success? <==> t.Some?
    ensures r.Success? ==> |r.value| == 1 && r.value[0].mimeType == Some(IconMimeType) &&
                           r.value[0].src == Some(IconSource(t.value)) && r.value[0].sizes == ["24x24"]
  {
    if t.None? then Failure(NullType)
    else Success([NewIcon(Some(IconSource(t.value)), Some(IconMimeType), Some(["24x24"]))])
  }

  /** `decorate`: checked in the source's order: descriptor, manifest, name, type. */
  function Decorate(d: Option<CapabilityDescriptor>): (r: Result<McpTool, DecorateError>)
    ensures r.Success? <==>
              d.Some? && d.value.manifest.Some? && d.value.manifest.value.id.Some? &&
              ValidToolName(d.value.manifest.value.id.value) && d.value.capabilityType.Some?
    ensures d.None? <==> r == Failure(NullDescriptor)
  {
    if d.None? then Failure(NullDescriptor)
    else if d.value.manifest.None? then Failure(NullManifest)
    else
      var descriptor, manifest := d.value, d.value.manifest.value;
      var name := ValidateToolName(manifest.id);
      if name.Failure? then Failure(InvalidName(name.error))
      else
        var title := if Present(manifest.name) then manifest.name.value else name.value;
        var description := if Present(manifest.description) then manifest.description.value else DefaultDescription;
        var annotations := BuildAnnotations(descriptor.capabilityType);
        var icons := BuildIcons(descriptor.capabilityType);
        if icons.Failure? then Failure(icons.error)
        else Success(NewTool(Some(name.value), Some(title), Some(description), Some(icons.value),
                             descriptor.parameterSchema, descriptor.returnSchema, Some(annotations)))
  }

  /** What a decorated tool says: named by the manifest id, titled by the manifest
      name or else the id, described by the description or else the default, with
      one SVG icon, the descriptor's schemas and the annotations of its type. */
  lemma DecoratedToolShape(d: Option<CapabilityDescriptor>)
    requires Decorate(d).Success?
    ensures var m := d.value.manifest.value;
      var t := Decorate(d).value;
      t.name == m.id &&
      (Present(m.name) ==> t.title == m.name) && (!Present(m.name) ==> t.title == m.id) &&
      (Present(m.description) ==> t.description == m.description) &&
      (!Present(m.description) ==> t.description == Some(DefaultDescription)) &&
      |t.icons| == 1 && t.icons[0].mimeType == Some(IconMimeType) &&
      t.inputSchema == d.value.parameterSchema && t.outputSchema == d.value.returnSchema &&
      t.annotations == Some(BuildAnnotations(d.value.capabilityType))
  {
  }

  /** Every decorated tool is advertised with a non-empty title and description. */
  lemma DecoratedToolAdvertisesTitleAndDescription(d: Option<CapabilityDescriptor>)
    requires Decorate(d).Success?
    ensures var p := ToolJson(Decorate(d).value);
      "title" in p && "description" in p && "name" in p && p["name"].VString?
  {
    DecoratedToolShape(d);
    var m := d.value.manifest.value;
    assert m.id.value != "";
  }

  /** The tools `decorateAll` collects from `ds`: those that decorate, in order. */
  function Decorated(ds: seq<Option<CapabilityDescriptor>>): (tools: seq<McpTool>)
    ensures |tools| <= |ds|
  {
    if ds == [] then []
    else
      var last := Decorate(ds[|ds| - 1]);
      if last.Success? then Decorated(ds[..|ds| - 1]) + [last.value] else Decorated(ds[..|ds| - 1])
  }

  /** Every collected tool is the decoration of one of the inputs. */
  lemma {:induction false} DecoratedFromInputs(ds: seq<Option<CapabilityDescriptor>>, t: McpTool)
    requires t in Decorated(ds)
    ensures exists i :: 0 <= i < |ds| && Decorate(ds[i]) == Success(t)
    decreases |ds|
  {
    var prefix := ds[..|ds| - 1];
    if t in Decorated(prefix) {
      DecoratedFromInputs(prefix, t);
      var i :| 0 <= i < |prefix| && Decorate(prefix[i]) == Success(t);
      assert prefix[i] == ds[i];
    } else {
      assert Decorate(ds[|ds| - 1]) == Success(t);
    }
  }

  /** Decorating a list whose every element decorates yields one tool per input. */
  lemma {:induction false} DecoratedAllSucceed(ds: seq<Option<CapabilityDescriptor>>)
    requires forall i :: 0 <= i < |ds| ==> Decorate(ds[i]).Success?
    ensures |Decorated(ds)| == |ds|
    ensures forall i :: 0 <= i < |ds| ==> Decorated(ds)[i] == Decorate(ds[i]).value
    decreases |ds|
  {
    if ds != [] {
      var prefix := ds[..|ds| - 1];
      DecoratedAllSucceed(prefix);
      assert Decorated(ds) == Decorated(prefix) + [Decorate(ds[|ds| - 1]).value];
      forall i | 0 <= i < |ds| ensures Decorated(ds)[i] == Decorate(ds[i]).value {
        if i < |ds| - 1 {
          assert prefix[i] == ds[i];
        }
      }
    }
  }

  /** One more descriptor adds its tool when it decorates, and nothing otherwise. */
  lemma DecoratedStep(ds: seq<Option<CapabilityDescriptor>>, i: nat)
    requires i < |ds|
    ensures Decorate(ds[i]).Success? ==> Decorated(ds[..i + 1]) == Decorated(ds[..i]) + [Decorate(ds[i]).value]
    ensures Decorate(ds[i]).Failure? ==> Decorated(ds[..i + 1]) == Decorated(ds[..i])
  {
    var xs := ds[..i + 1];
    assert xs[..|xs| - 1] == ds[..i] && xs[|xs| - 1] == ds[i];
  }

  /** A present descriptor extends a null-free prefix. */
  lemma PresentStep(ds: seq<Option<CapabilityDescriptor>>, i: nat)
    requires i < |ds| && None !in ds[..i] && ds[i].Some?
    ensures None !in ds[..i + 1]
  {
    assert ds[..i + 1] == ds[..i] + [ds[i]];
  }

  /** `decorateAll`, with the failure of any one descriptor skipped. For a null
      descriptor this is what the surrounding code intends (see the as-written
      variant below). */
  method DecorateAll(ds: seq<Option<CapabilityDescriptor>>) returns (tools: seq<McpTool>)
    ensures tools == Decorated(ds)
  {
    tools := [];
    var i := 0;
    while i < |ds|
      invariant 0 <= i <= |ds|
      invariant tools == Decorated(ds[..i])
    {
      DecoratedStep(ds, i);
      var r := Decorate(ds[i]);
      if r.Success? {
        tools := tools + [r.value];
      }
      i := i + 1;
    }
    assert ds[..i] == ds;
  }

  /** `decorateAll` as written: the handler that logs a failure reads the failed
      descriptor's id, so a null descriptor raises a second exception inside the
      handler and the whole call fails. */
  method DecorateAllAsWritten(ds: seq<Option<CapabilityDescriptor>>) returns (r: Result<seq<McpTool>, DecorateError>)
    ensures r.Failure? <==> None in ds
    ensures r.Success? ==> r.value == Decorated(ds)
  {
    var tools := [];
    var i := 0;
    while i < |ds|
      invariant 0 <= i <= |ds|
      invariant None !in ds[..i]
      invariant tools == Decorated(ds[..i])
    {
      if ds[i].None? {
        assert ds[i] in ds;
        return Failure(NullDescriptor);
      }
      PresentStep(ds, i);
      DecoratedStep(ds, i);
      var d := Decorate(ds[i]);
      if d.Success? {
        tools := tools + [d.value];
      }
      i := i + 1;
    }
    assert ds[..i] == ds;
    r := Success(tools);
  }

  /** The discrepancy on the smallest input: a list holding one null descriptor
      aborts the as-written call, while skipping it yields no tools. */
  method NullDescriptorAborts() returns (asWritten: Result<seq<McpTool>, DecorateError>, intended: seq<McpTool>)
    ensures asWritten.Failure?
    ensures intended == []
  {
    var ds: seq<Option<CapabilityDescriptor>> := [None];
    asWritten := DecorateAllAsWritten(ds);
    intended := DecorateAll(ds);
    assert ds[..0] == [];
  }

  /** `convertToolCallToCapability`: every argument is handed to the capability,
      a JSON null as a null entry. Gson's reading of a JSON value as a Java object
      is the identity on the value model. */
  method ConvertToolCallToCapability(arguments: map<string, Value>) returns (params: map<string, Value>)
    ensures params == arguments
  {
    params := map[];
    var pending := arguments.Keys;
    while pending != {}
      invariant pending <= arguments.Keys
      invariant params.Keys == arguments.Keys - pending
      invariant forall k :: k in params ==> params[k] == arguments[k]
      decreases pending
    {
      var k :| k in pending;
      params := params[k := arguments[k]];
      pending := pending - {k};
    }
  }

  /** A capability result: a plain Java value, or a Gson `JsonObject` (whose
      entries may hold JSON null). */
  datatype CapabilityResult = Plain(value: Value) | GsonObject(fields: map<string, Value>)

  /** `convertCapabilityToToolResult`. `toJson` is Gson's text for a value and
      `toStr` its `toString`; the descriptor is not consulted. */
  function ConvertCapabilityToToolResult(result: CapabilityResult, toJson: Value -> string, toStr: Value -> string)
    : (r: McpToolResult)
    ensures !r.isError && |r.content| == 1 && r.content[0].TextContent?
    ensures result == Plain(VNull) ==> r == SuccessResult(Some("Success"))
    ensures result.Plain? && result.value.VString? ==> r == SuccessResult(Some(result.value.s))
    ensures result.Plain? && result.value.VObject? ==>
              r.structuredContent == Some(ToJsonTree(result.value)) &&
              r.content[0].text == Some(toJson(result.value))
    ensures result.GsonObject? ==>
              r.structuredContent == Some(VObject(result.fields)) &&
              r.content[0].text == Some(toJson(VObject(result.fields)))
    ensures result.Plain? && !result.value.VString? && !result.value.VObject? && result.value != VNull ==>
              r == SuccessResult(Some(toStr(result.value)))
    ensures r.structuredContent.Some? <==> result.GsonObject? || result.value.VObject?
  {
    match result
    case GsonObject(fields) => SuccessWithStructured(Some(toJson(VObject(fields))), Some(VObject(fields)))
    case Plain(v) =>
      if v.VString? then SuccessResult(Some(v.s))
      else if v.VObject? then SuccessWithStructured(Some(toJson(v)), Some(ToJsonTree(v)))
      else SuccessResult(Some(if v == VNull then "Success" else toStr(v)))
  }

  /** Structured content from a map carries no null-valued entry; from a Gson
      object it is passed through as is. */
  lemma StructuredMapIsNullFree(v: Value, toJson: Value -> string, toStr: Value -> string)
    requires v.VObject?
    ensures NullFreeObjects(ConvertCapabilityToToolResult(Plain(v), toJson, toStr).structuredContent.value)
  {
    ToJsonTreeNullFree(v);
  }
}
