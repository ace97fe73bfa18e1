/** The agent-side `auth_response` message. */
module AgentAuthResponses {
  import opened Wrappers
  import opened Json
  import opened Capabilities

  const AuthResponseType := "auth_response"

  datatype AgentAuthResponse = AgentAuthResponse(
    id: Option<string>,
    success: bool,
    reason: Option<string>,
    permissions: Option<set<string>>,
    capabilities: Option<seq<CapabilityManifest>>)

  /** `AuthResponse.builder()`: success true, everything else null. */
  function NewBuilder(): (b: AgentAuthResponse)
    ensures b.success && b.id.None? && b.reason.None? && b.permissions.None? && b.capabilities.None?
  {
    AgentAuthResponse(None, true, None, None, None)
  }

  /** The entries of `getPayload` other than `permissions`: success, reason and
      the capability trees, each present only when the builder was given it. */
  function OutcomePayload(r: AgentAuthResponse, manifestTree: CapabilityManifest -> Value): (p: Payload)
    ensures "success" in p && p["success"] == VBool(r.success)
    ensures "reason" in p <==> r.reason.Some?
    ensures "reason" in p ==> p["reason"] == VString(r.reason.value)
    ensures "capabilities" in p <==> r.capabilities.Some? && r.capabilities.value != []
    ensures "capabilities" in p ==>
              p["capabilities"].VArray? &&
              |p["capabilities"].items| == |r.capabilities.value| &&
              (forall i :: 0 <= i < |r.capabilities.value| ==>
                 p["capabilities"].items[i] == manifestTree(r.capabilities.value[i]))
    ensures p.Keys <= {"success", "reason", "capabilities"}
  {
    var p1 := map["success" := VBool(r.success)];
    var p2 := if r.reason.Some? then p1["reason" := VString(r.reason.value)] else p1;
    if r.capabilities.Some? && r.capabilities.value != [] then
      var caps := r.capabilities.value;
      p2["capabilities" := VArray(seq(|caps|, i requires 0 <= i < |caps| => manifestTree(caps[i])))]
    else p2
  }

  /** `getPayload`. `manifestTree` is Gson's reflective tree of one manifest. Unlike
      the gateway's `register_ack`, nothing here depends on `success`. */
  ghost function AgentAuthPayload(r: AgentAuthResponse, manifestTree: CapabilityManifest -> Value): (p: Payload)
    ensures "permissions" in p <==> r.permissions.Some? && r.permissions.value != {}
    ensures "permissions" in p ==>
              p["permissions"].VArray? &&
              |p["permissions"].items| == |r.permissions.value| &&
              (forall x :: x in r.permissions.value <==> VString(x) in p["permissions"].items) &&
              (forall i, j :: 0 <= i < j < |p["permissions"].items| ==> p["permissions"].items[i] != p["permissions"].items[j])
    ensures forall k :: k != "permissions" ==> (k in p <==> k in OutcomePayload(r, manifestTree))
    ensures forall k :: k != "permissions" && k in p ==> p[k] == OutcomePayload(r, manifestTree)[k]
    ensures p.Keys <= {"success", "reason", "permissions", "capabilities"}
  {
    var outcome := OutcomePayload(r, manifestTree);
    if r.permissions.Some? && r.permissions.value != {} then outcome["permissions" := StringArray(r.permissions.value)]
    else outcome
  }

  /** The key set of an outcome depends on the data present, never on `success`:
      flipping `success` changes only the `success` entry. */
  lemma SuccessFlagIndependent(r: AgentAuthResponse, manifestTree: CapabilityManifest -> Value)
    ensures AgentAuthPayload(r.(success := !r.success), manifestTree) ==
            AgentAuthPayload(r, manifestTree)["success" := VBool(!r.success)]
  {
    OutcomeFlagIndependent(r, manifestTree);
  }

  lemma OutcomeFlagIndependent(r: AgentAuthResponse, manifestTree: CapabilityManifest -> Value)
    ensures OutcomePayload(r.(success := !r.success), manifestTree) ==
            OutcomePayload(r, manifestTree)["success" := VBool(!r.success)]
  {
  }
}
