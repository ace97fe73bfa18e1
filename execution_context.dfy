/** The per-invocation record that the interceptors of one capability call share:
    fixed request, capability, caller and parameters, plus a metadata map and the
    skipped/result/response fields that are updated in place. */
module Execution {
  import opened Wrappers
  import opened Json
  import opened Capabilities
  import opened CallerInfos
  import opened McpRequests
  import opened McpResponses

  /** The `Class<T>` tokens a typed parameter lookup is asked for. */
  datatype TypeToken = StringClass | NumberClass | BooleanClass | ListClass | MapClass | ObjectClass

  /** `type.isInstance(value)`. */
  predicate IsInstance(v: Value, t: TypeToken) {
    match t
    case StringClass => v.VString?
    case NumberClass => v.VNumber?
    case BooleanClass => v.VBool?
    case ListClass => v.VArray?
    case MapClass => v.VObject?
    case ObjectClass => !v.VNull?
  }

  class ExecutionContext {
    const request: Option<McpRequest>
    const capability: Option<CapabilityDescriptor>
    const caller: Option<CallerInfo>
    const parameters: map<string, Value>
    var metadata: map<string, Value>
    var skipped: bool
    var result: Value
    var response: Option<McpResponse>

    /** Null parameters become an empty map; metadata starts empty, nothing is
        skipped and there is no result or response yet. */
    constructor (request: Option<McpRequest>, capability: Option<CapabilityDescriptor>,
                 caller: Option<CallerInfo>, parameters: Option<map<string, Value>>)
      ensures this.request == request && this.capability == capability && this.caller == caller
      ensures parameters.None? ==> this.parameters == map[]
      ensures parameters.Some? ==> this.parameters == parameters.value
      ensures metadata == map[] && !skipped && result == VNull && response.None?
    {
      this.request := request;
      this.capability := capability;
      this.caller := caller;
      this.parameters := if parameters.Some? then parameters.value else map[];
      metadata := map[];
      skipped := false;
      result := VNull;
      response := None;
    }

    /** `getParameter(name)`: `Map.get`, so null for an absent name. */
    function GetParameter(name: string): (v: Value)
      ensures name !in parameters ==> v == VNull
      ensures name in parameters ==> v == parameters[name]
    {
      Lookup(parameters, name)
    }

    /** `getParameter(name, type)`: the value only when it is non-null and an
        instance of the requested class. */
    function GetParameterAs(name: string, t: TypeToken): (v: Option<Value>)
      ensures v.Some? <==> name in parameters && !parameters[name].VNull? && IsInstance(parameters[name], t)
      ensures v.Some? ==> v.value == parameters[name]
    {
      var value := GetParameter(name);
      if value != VNull && IsInstance(value, t) then Some(value) else None
    }

    function GetMetadata(key: string): (v: Value)
      reads this
      ensures key !in metadata ==> v == VNull
      ensures key in metadata ==> v == metadata[key]
    {
      Lookup(metadata, key)
    }

    /** `setMetadata(k, v)`: afterwards `k` reads back `v` and every other key is as before. */
    method SetMetadata(key: string, value: Value)
      modifies this`metadata
      ensures metadata == old(metadata)[key := value]
      ensures GetMetadata(key) == value
      ensures forall k :: k != key ==> GetMetadata(k) == old(GetMetadata(k))
    {
      metadata := metadata[key := value];
    }

    method SetSkipped(value: bool)
      modifies this`skipped
      ensures skipped == value
      ensures metadata == old(metadata) && result == old(result) && response == old(response)
    {
      skipped := value;
    }

    method SetResult(value: Value)
      modifies this`result
      ensures result == value
      ensures metadata == old(metadata) && skipped == old(skipped) && response == old(response)
    {
      result := value;
    }

    method SetResponse(value: Option<McpResponse>)
      modifies this`response
      ensures response == value
      ensures metadata == old(metadata) && skipped == old(skipped) && result == old(result)
    {
      response := value;
    }

    function GetCapabilityId(): (id: Option<string>)
      ensures capability.None? ==> id.None?
      ensures capability.Some? ==> id == capability.value.id
    {
      if capability.Some? then capability.value.id else None
    }

    /** Low risk when there is no capability; the capability's own (possibly
        null) level otherwise. */
    function GetRiskLevel(): (level: Option<RiskLevel>)
      ensures capability.None? ==> level == Some(Low)
      ensures capability.Some? ==> level == capability.value.riskLevel
    {
      if capability.Some? then capability.value.riskLevel else Some(Low)
    }

    function GetCapabilityType(): (t: Option<CapabilityType>)
      ensures capability.None? ==> t.None?
      ensures capability.Some? ==> t == capability.value.capabilityType
    {
      if capability.Some? then capability.value.capabilityType else None
    }

    function GetRequestId(): (id: Option<string>)
      ensures request.None? ==> id.None?
      ensures request.Some? ==> id == request.value.id
    {
      if request.Some? then request.value.id else None
    }
  }

  /** A typed lookup never yields more than the untyped one: it agrees with it
      whenever it answers, and asking for `Object` answers exactly when the
      untyped lookup is non-null. */
  lemma TypedLookupRefinesUntyped(ctx: ExecutionContext, name: string, t: TypeToken)
    ensures ctx.GetParameterAs(name, t).Some? ==> ctx.GetParameterAs(name, t).value == ctx.GetParameter(name)
    ensures ctx.GetParameterAs(name, ObjectClass).Some? <==> ctx.GetParameter(name) != VNull
  {
  }

  /** A parameter can be read back as at most one of the concrete classes. */
  lemma TypedLookupExclusive(ctx: ExecutionContext, name: string, t: TypeToken, u: TypeToken)
    requires t != u && t != ObjectClass && u != ObjectClass
    ensures !(ctx.GetParameterAs(name, t).Some? && ctx.GetParameterAs(name, u).Some?)
  {
  }

  /** Interceptors annotating the context in turn: the second write to a key wins
      and a different key keeps its value. */
  method AnnotateTwice(ctx: ExecutionContext, k1: string, v1: Value, k2: string, v2: Value)
    modifies ctx
    ensures ctx.GetMetadata(k2) == v2
    ensures k1 != k2 ==> ctx.GetMetadata(k1) == v1
    ensures ctx.metadata == old(ctx.metadata)[k1 := v1][k2 := v2]
    ensures forall k :: k != k1 && k != k2 ==> ctx.GetMetadata(k) == old(ctx.GetMetadata(k))
    ensures ctx.skipped == old(ctx.skipped) && ctx.result == old(ctx.result) && ctx.response == old(ctx.response)
  {
    ctx.SetMetadata(k1, v1);
    ctx.SetMetadata(k2, v2);
  }
}
