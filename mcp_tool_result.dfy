/** The result of an MCP `tools/call`: a list of content items, an error flag and
    optional structured content. */
module ToolResults {
  import opened Wrappers
  import opened Json

  datatype ContentItem =
    | TextContent(text: Option<string>)
    | ImageContent(data: Option<string>, mimeType: Option<string>)
    | AudioContent(data: Option<string>, mimeType: Option<string>)
    | ResourceLinkContent(uri: Option<string>, name: Option<string>, description: Option<string>,
                          mimeType: Option<string>)

  /** The `type` tag each item kind writes. */
  function ItemType(c: ContentItem): string {
    match c
    case TextContent(_) => "text"
    case ImageContent(_, _) => "image"
    case AudioContent(_, _) => "audio"
    case ResourceLinkContent(_, _, _, _) => "resource_link"
  }

  /** `toJsonObject` of one item. Text, image and audio write every field (JSON
      null for null); a resource link leaves out a null description or MIME type. */
  function ItemJson(c: ContentItem): (v: Value)
    ensures v.VObject? && "type" in v.fields && v.fields["type"] == VString(ItemType(c))
    ensures c.TextContent? ==> v.fields.Keys == {"type", "text"} && v.fields["text"] == FromOptString(c.text)
    ensures c.ImageContent? || c.AudioContent? ==>
              v.fields.Keys == {"type", "data", "mimeType"} &&
              v.fields["data"] == FromOptString(c.data) && v.fields["mimeType"] == FromOptString(c.mimeType)
    ensures c.ResourceLinkContent? ==>
              v.fields.Keys == {"type", "uri", "name"} +
                               (if c.description.Some? then {"description"} else {}) +
                               (if c.mimeType.Some? then {"mimeType"} else {})
    ensures c.ResourceLinkContent? ==>
              v.fields["uri"] == FromOptString(c.uri) && v.fields["name"] == FromOptString(c.name) &&
              (c.description.Some? ==> v.fields["description"] == VString(c.description.value)) &&
              (c.mimeType.Some? ==> v.fields["mimeType"] == VString(c.mimeType.value))
  {
    var base := map["type" := VString(ItemType(c))];
    match c
    case TextContent(text) => VObject(base["text" := FromOptString(text)])
    case ImageContent(data, mimeType) => VObject(base["data" := FromOptString(data)]["mimeType" := FromOptString(mimeType)])
    case AudioContent(data, mimeType) => VObject(base["data" := FromOptString(data)]["mimeType" := FromOptString(mimeType)])
    case ResourceLinkContent(uri, name, description, mimeType) =>
      var linked := base["uri" := FromOptString(uri)]["name" := FromOptString(name)];
      var described := if description.Some? then linked["description" := VString(description.value)] else linked;
      VObject(if mimeType.Some? then described["mimeType" := VString(mimeType.value)] else described)
  }

  /** No content is lost in the payload: two items with the same JSON are the same item. */
  lemma ItemJsonInjective(a: ContentItem, b: ContentItem)
    requires ItemJson(a) == ItemJson(b)
    ensures a == b
  {
    var fa, fb := ItemJson(a).fields, ItemJson(b).fields;
    assert fa["type"] == fb["type"];
    if a.ResourceLinkContent? {
      assert a.description.Some? <==> "description" in fa;
      assert a.mimeType.Some? <==> "mimeType" in fa;
    }
  }

  /** The content list is held by value, so getters hand out copies. */
  datatype McpToolResult = McpToolResult(content: seq<ContentItem>, isError: bool, structuredContent: Option<Value>)

  /** The constructor: a null content list becomes an empty one. */
  function NewToolResult(content: Option<seq<ContentItem>>, isError: bool, structuredContent: Option<Value>)
    : (r: McpToolResult)
    ensures content.None? ==> r.content == []
    ensures content.Some? ==> r.content == content.value
    ensures r.isError == isError && r.structuredContent == structuredContent
  {
    McpToolResult(if content.Some? then content.value else [], isError, structuredContent)
  }

  /** `McpToolResult.success(text)`. */
  function SuccessResult(text: Option<string>): (r: McpToolResult)
    ensures r.content == [TextContent(text)] && !r.isError && r.structuredContent.None?
  {
    NewToolResult(Some([TextContent(text)]), false, None)
  }

  /** `McpToolResult.error(message)`. */
  function ErrorResult(message: Option<string>): (r: McpToolResult)
    ensures r.content == [TextContent(message)] && r.isError && r.structuredContent.None?
  {
    NewToolResult(Some([TextContent(message)]), true, None)
  }

  /** `McpToolResult.successWithStructured(text, structured)`. */
  function SuccessWithStructured(text: Option<string>, structured: Option<Value>): (r: McpToolResult)
    ensures r.content == [TextContent(text)] && !r.isError && r.structuredContent == structured
  {
    NewToolResult(Some([TextContent(text)]), false, structured)
  }

  /** `toJsonObject`: `content` (one object per item, in order) and `isError`
      always, `structuredContent` only when there is some. */
  function ResultJson(r: McpToolResult): (p: Payload)
    ensures p.Keys == {"content", "isError"} + (if r.structuredContent.Some? then {"structuredContent"} else {})
    ensures p["isError"] == VBool(r.isError)
    ensures p["content"].VArray? && |p["content"].items| == |r.content|
    ensures forall i :: 0 <= i < |r.content| ==> p["content"].items[i] == ItemJson(r.content[i])
    ensures r.structuredContent.Some? ==> p["structuredContent"] == r.structuredContent.value
  {
    var items := VArray(seq(|r.content|, i requires 0 <= i < |r.content| => ItemJson(r.content[i])));
    var base := map["content" := items, "isError" := VBool(r.isError)];
    if r.structuredContent.Some? then base["structuredContent" := r.structuredContent.value] else base
  }

  /** A success and an error with the same text differ in the payload only in `isError`. */
  lemma SuccessAndErrorDifferOnlyInFlag(text: Option<string>)
    ensures ResultJson(ErrorResult(text)) == ResultJson(SuccessResult(text))["isError" := VBool(true)]
  {
  }
}
