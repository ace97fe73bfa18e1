/** The gateway-side `request` message: which capability to invoke, by whom,
    with which parameters. */
module McpRequests {
  import opened Wrappers
  import opened Json

  const RequestType := "request"

  datatype McpRequest = McpRequest(
    id: Option<string>,
    capabilityId: Option<string>,
    parameters: Option<map<string, Value>>,
    callerId: Option<string>)

  /** `getPayload`: the two ids always (JSON null when null); `parameters` for a
      non-empty map, holding only the String, Number and Boolean entries. */
  function RequestPayload(r: McpRequest): (p: Payload)
    ensures "capabilityId" in p && p["capabilityId"] == FromOptString(r.capabilityId)
    ensures "callerId" in p && p["callerId"] == FromOptString(r.callerId)
    ensures "parameters" in p <==> r.parameters.Some? && r.parameters.value != map[]
    ensures "parameters" in p ==> p["parameters"] == VObject(KeepScalars(r.parameters.value))
    ensures p.Keys <= {"capabilityId", "callerId", "parameters"}
  {
    var base := map["capabilityId" := FromOptString(r.capabilityId), "callerId" := FromOptString(r.callerId)];
    if r.parameters.Some? && r.parameters.value != map[] then
      base["parameters" := VObject(KeepScalars(r.parameters.value))]
    else base
  }

  /** Scalar-only parameters reach the payload unchanged. */
  lemma ScalarParametersSurvive(r: McpRequest)
    requires r.parameters.Some? && r.parameters.value != map[]
    requires forall k :: k in r.parameters.value ==> IsScalar(r.parameters.value[k])
    ensures RequestPayload(r)["parameters"] == VObject(r.parameters.value)
  {
  }

  /** A parameter of any other kind (a list, a nested map, null) is dropped
      silently, while its scalar neighbours are kept. */
  lemma NonScalarParameterDropped(r: McpRequest, key: string)
    requires r.parameters.Some? && key in r.parameters.value && !IsScalar(r.parameters.value[key])
    ensures key !in RequestPayload(r)["parameters"].fields
  {
  }

  /** `McpRequest.builder()`: a builder whose parameter map is updated in place. */
  class RequestBuilder {
    var id: Option<string>
    var capabilityId: Option<string>
    var parameters: map<string, Value>
    var callerId: Option<string>

    /** The parameter map starts empty, never null. */
    constructor ()
      ensures id.None? && capabilityId.None? && callerId.None?
      ensures parameters == map[]
    {
      id, capabilityId, callerId := None, None, None;
      parameters := map[];
    }

    method Id(value: Option<string>)
      modifies this`id
      ensures id == value
      ensures capabilityId == old(capabilityId) && callerId == old(callerId) && parameters == old(parameters)
    {
      id := value;
    }

    method CapabilityId(value: Option<string>)
      modifies this`capabilityId
      ensures capabilityId == value
      ensures id == old(id) && callerId == old(callerId) && parameters == old(parameters)
    {
      capabilityId := value;
    }

    method CallerId(value: Option<string>)
      modifies this`callerId
      ensures callerId == value
      ensures id == old(id) && capabilityId == old(capabilityId) && parameters == old(parameters)
    {
      callerId := value;
    }

    /** `parameter(k, v)`: a later value for the same key replaces the earlier one. */
    method Parameter(key: string, value: Value)
      modifies this`parameters
      ensures parameters == old(parameters)[key := value]
    {
      parameters := parameters[key := value];
    }

    /** `parameters(m)`: `putAll`, so the entries of `m` win over existing ones. */
    method Parameters(m: map<string, Value>)
      modifies this`parameters
      ensures parameters.Keys == old(parameters).Keys + m.Keys
      ensures forall k :: k in m ==> parameters[k] == m[k]
      ensures forall k :: k in old(parameters) && k !in m ==> parameters[k] == old(parameters)[k]
    {
      parameters := parameters + m;
    }

    /** The built request always has a (possibly empty) parameter map. */
    method Build() returns (r: McpRequest)
      ensures r.parameters.Some? && r.parameters.value == parameters
      ensures r.id == id && r.capabilityId == capabilityId && r.callerId == callerId
    {
      r := McpRequest(id, capabilityId, Some(parameters), callerId);
    }
  }

  /** A builder used as the gateway uses it: id, capability, two parameters,
      the second overwriting the first when their keys coincide. */
  method BuildWithTwoParameters(id: string, capability: string, k1: string, v1: Value, k2: string, v2: Value)
    returns (r: McpRequest)
    ensures r.parameters == Some(map[k1 := v1][k2 := v2])
    ensures k1 == k2 ==> r.parameters == Some(map[k2 := v2])
    ensures r.id == Some(id) && r.capabilityId == Some(capability)
  {
    var b := new RequestBuilder();
    b.Id(Some(id));
    b.CapabilityId(Some(capability));
    b.Parameter(k1, v1);
    b.Parameter(k2, v2);
    r := b.Build();
    if k1 == k2 {
      assert map[k1 := v1][k2 := v2] == map[k2 := v2];
    }
  }
}
