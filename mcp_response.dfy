/** The `response` message: the outcome of one capability invocation. */
module McpResponses {
  import opened Wrappers
  import opened Json
  import opened Capabilities

  const ResponseType := "response"

  /** Built by a builder whose state has the same fields; `data` is `VNull` for null. */
  datatype McpResponse = McpResponse(
    id: Option<string>,
    success: bool,
    errorCode: Option<ErrorCode>,
    errorMessage: Option<string>,
    data: Value,
    details: Option<map<string, Value>>)

  /** `McpResponse.builder()`: everything null, success true. */
  function NewBuilder(): (b: McpResponse)
    ensures b.success
    ensures b.id.None? && b.errorCode.None? && b.errorMessage.None? && b.data == VNull && b.details.None?
  {
    McpResponse(None, true, None, None, VNull, None)
  }

  /** `McpResponse.success(id, data)`. */
  function SuccessResponse(id: Option<string>, data: Value): (r: McpResponse)
    ensures r.success && r.id == id && r.data == data
  {
    NewBuilder().(id := id, success := true, data := data)
  }

  /** `McpResponse.error(id, code, message)`. */
  function ErrorResponse(id: Option<string>, code: Option<ErrorCode>, message: Option<string>): (r: McpResponse)
    ensures !r.success && r.id == id && r.errorCode == code && r.errorMessage == message && r.details.None?
  {
    NewBuilder().(id := id, success := false, errorCode := code, errorMessage := message)
  }

  /** `McpResponse.error(id, code, message, details)`. */
  function ErrorResponseWithDetails(id: Option<string>, code: Option<ErrorCode>, message: Option<string>,
                                    details: Option<map<string, Value>>): (r: McpResponse)
    ensures !r.success && r.id == id && r.errorCode == code && r.errorMessage == message && r.details == details
  {
    ErrorResponse(id, code, message).(details := details)
  }

  /** `getPayload`. A success carries only its data; an error carries only its
      code, message and scalar-valued details. */
  function ResponsePayload(r: McpResponse): (p: Payload)
    ensures "success" in p && p["success"] == VBool(r.success)
    ensures "data" in p <==> r.success && r.data != VNull
    ensures "data" in p ==> p["data"] == ToJsonTree(r.data)
    ensures "errorCode" in p <==> !r.success && r.errorCode.Some?
    ensures "errorCode" in p ==> p["errorCode"] == VString(ErrorCodeName(r.errorCode.value))
    ensures "errorMessage" in p <==> !r.success && r.errorMessage.Some?
    ensures "errorMessage" in p ==> p["errorMessage"] == VString(r.errorMessage.value)
    ensures "details" in p <==> !r.success && r.details.Some? && r.details.value != map[]
    ensures "details" in p ==> p["details"] == VObject(KeepScalars(r.details.value))
    ensures p.Keys <= {"success", "data", "errorCode", "errorMessage", "details"}
  {
    var base := map["success" := VBool(r.success)];
    if !r.success then
      var withCode := if r.errorCode.Some? then base["errorCode" := VString(ErrorCodeName(r.errorCode.value))] else base;
      var withMessage := if r.errorMessage.Some? then withCode["errorMessage" := VString(r.errorMessage.value)] else withCode;
      if r.details.Some? && r.details.value != map[] then withMessage["details" := VObject(KeepScalars(r.details.value))]
      else withMessage
    else if r.data != VNull then base["data" := ToJsonTree(r.data)]
    else base
  }

  /** A success payload is `success` plus, for non-null data, `data`: no error keys. */
  lemma SuccessPayloadKeys(id: Option<string>, data: Value)
    ensures ResponsePayload(SuccessResponse(id, data)).Keys ==
              {"success"} + (if data != VNull then {"data"} else {})
  {
  }

  /** An error payload never has `data`, even when the builder was given some. */
  lemma ErrorPayloadHasNoData(r: McpResponse)
    requires !r.success
    ensures "data" !in ResponsePayload(r)
  {
  }

  /** Details made only of values Gson cannot add as a property still produce a
      `details` key, holding an empty object. */
  lemma NonScalarDetailsGiveEmptyObject(id: Option<string>, key: string, nested: Value)
    requires !IsScalar(nested)
    ensures var p := ResponsePayload(ErrorResponseWithDetails(id, Some(InternalError), None, Some(map[key := nested])));
            "details" in p && p["details"] == VObject(map[])
  {
    assert map[key := nested] != map[] by { assert key in map[key := nested]; }
    assert KeepScalars(map[key := nested]) == map[];
  }
}
