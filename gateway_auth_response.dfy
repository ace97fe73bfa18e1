/** The gateway-side `register_ack` message, answering a gateway's
    authentication request. */
module GatewayAuthResponses {
  import opened Wrappers
  import opened Json
  import opened Capabilities

  const RegisterAckType := "register_ack"

  datatype MinecraftServerInfo = MinecraftServerInfo(
    name: Option<string>, serverType: Option<string>, version: Option<string>, maxPlayers: int)

  datatype ServerInfo = ServerInfo(
    id: Option<string>, name: Option<string>, version: Option<string>, environment: Option<string>,
    minecraft: Option<MinecraftServerInfo>)

  /** Heartbeat and reconnection settings handed to the gateway. */
  datatype GatewayConfig = GatewayConfig(heartbeatInterval: int, reconnectDelay: int, maxRetries: int)

  datatype AuthResponse = AuthResponse(
    id: Option<string>,
    success: bool,
    gatewayId: Option<string>,
    sessionId: Option<string>,
    serverInfo: Option<ServerInfo>,
    reason: Option<string>,
    permissions: Option<set<string>>,
    capabilities: Option<seq<CapabilityManifest>>,
    config: Option<GatewayConfig>)

  /** `AuthResponse.builder()`: success true, everything else null. */
  function NewBuilder(): (b: AuthResponse)
    ensures b.success
    ensures b.id.None? && b.gatewayId.None? && b.sessionId.None? && b.serverInfo.None? && b.reason.None?
    ensures b.permissions.None? && b.capabilities.None? && b.config.None?
  {
    AuthResponse(None, true, None, None, None, None, None, None, None)
  }

  function MinecraftJson(m: MinecraftServerInfo): (v: Value)
    ensures v.VObject? && v.fields.Keys == {"name", "type", "version", "maxPlayers"}
    ensures v.fields["name"] == FromOptString(m.name) && v.fields["type"] == FromOptString(m.serverType)
    ensures v.fields["version"] == FromOptString(m.version) && v.fields["maxPlayers"] == FromInt(m.maxPlayers)
  {
    VObject(map["name" := FromOptString(m.name), "type" := FromOptString(m.serverType),
                "version" := FromOptString(m.version), "maxPlayers" := FromInt(m.maxPlayers)])
  }

  /** The four identity keys always, and `mcServerInfo` only when present. */
  function ServerInfoJson(s: ServerInfo): (v: Value)
    ensures v.VObject?
    ensures v.fields.Keys == {"id", "name", "version", "environment"} +
                             (if s.minecraft.Some? then {"mcServerInfo"} else {})
    ensures v.fields["id"] == FromOptString(s.id) && v.fields["name"] == FromOptString(s.name)
    ensures v.fields["version"] == FromOptString(s.version) && v.fields["environment"] == FromOptString(s.environment)
    ensures s.minecraft.Some? ==> v.fields["mcServerInfo"] == MinecraftJson(s.minecraft.value)
  {
    var base := map["id" := FromOptString(s.id), "name" := FromOptString(s.name),
                    "version" := FromOptString(s.version), "environment" := FromOptString(s.environment)];
    VObject(if s.minecraft.Some? then base["mcServerInfo" := MinecraftJson(s.minecraft.value)] else base)
  }

  function ConfigJson(c: GatewayConfig): (v: Value)
    ensures v.VObject? && v.fields.Keys == {"heartbeatInterval", "reconnectDelay", "maxRetries"}
    ensures v.fields["heartbeatInterval"] == FromInt(c.heartbeatInterval)
    ensures v.fields["reconnectDelay"] == FromInt(c.reconnectDelay) && v.fields["maxRetries"] == FromInt(c.maxRetries)
  {
    VObject(map["heartbeatInterval" := FromInt(c.heartbeatInterval),
                "reconnectDelay" := FromInt(c.reconnectDelay),
                "maxRetries" := FromInt(c.maxRetries)])
  }

  /** The server details survive serialisation: two descriptions with the same
      JSON are the same description. */
  lemma ServerInfoJsonInjective(a: ServerInfo, b: ServerInfo)
    requires ServerInfoJson(a) == ServerInfoJson(b)
    ensures a == b
  {
    if a.minecraft.Some? {
      var x, y := a.minecraft.value, b.minecraft.value;
      assert MinecraftJson(x) == MinecraftJson(y);
      assert x.maxPlayers as real == y.maxPlayers as real;
    }
  }

  /** The gateway settings survive serialisation. */
  lemma ConfigJsonInjective(a: GatewayConfig, b: GatewayConfig)
    requires ConfigJson(a) == ConfigJson(b)
    ensures a == b
  {
  }

  /** The keys `getPayload` writes before the permissions: the three identity keys,
      then either the success extras or the failure reason. */
  function OutcomePayload(r: AuthResponse, manifestTree: CapabilityManifest -> Value): (p: Payload)
    ensures "success" in p && p["success"] == VBool(r.success)
    ensures "gatewayId" in p && p["gatewayId"] == FromOptString(r.gatewayId)
    ensures "sessionId" in p && p["sessionId"] == FromOptString(r.sessionId)
    ensures "serverInfo" in p <==> r.success && r.serverInfo.Some?
    ensures "serverInfo" in p ==> p["serverInfo"] == ServerInfoJson(r.serverInfo.value)
    ensures "config" in p <==> r.success && r.config.Some?
    ensures "config" in p ==> p["config"] == ConfigJson(r.config.value)
    ensures "capabilities" in p <==> r.success && r.capabilities.Some? && r.capabilities.value != []
    ensures "capabilities" in p ==>
              p["capabilities"].VArray? &&
              |p["capabilities"].items| == |r.capabilities.value| &&
              (forall i :: 0 <= i < |r.capabilities.value| ==>
                 p["capabilities"].items[i] == manifestTree(r.capabilities.value[i]))
    ensures "reason" in p <==> !r.success && r.reason.Some?
    ensures "reason" in p ==> p["reason"] == VString(r.reason.value)
    ensures p.Keys <= {"success", "gatewayId", "sessionId", "serverInfo", "config", "capabilities", "reason"}
  {
    var base := map["success" := VBool(r.success), "gatewayId" := FromOptString(r.gatewayId),
                    "sessionId" := FromOptString(r.sessionId)];
    if r.success then SuccessExtras(base, r, manifestTree)
    else if r.reason.Some? then base["reason" := VString(r.reason.value)]
    else base
  }

  /** The keys a successful acknowledgement adds: server information, configuration
      and the capability trees, each only when the builder was given it. */
  function SuccessExtras(base: Payload, r: AuthResponse, manifestTree: CapabilityManifest -> Value): (p: Payload)
    ensures forall k :: k !in {"serverInfo", "config", "capabilities"} ==> (k in p <==> k in base) && (k in base ==> p[k] == base[k])
    ensures "serverInfo" in p <==> "serverInfo" in base || r.serverInfo.Some?
    ensures r.serverInfo.Some? ==> p["serverInfo"] == ServerInfoJson(r.serverInfo.value)
    ensures "config" in p <==> "config" in base || r.config.Some?
    ensures r.config.Some? ==> p["config"] == ConfigJson(r.config.value)
    ensures "capabilities" in p <==> "capabilities" in base || (r.capabilities.Some? && r.capabilities.value != [])
    ensures r.capabilities.Some? && r.capabilities.value != [] ==>
              p["capabilities"].VArray? &&
              |p["capabilities"].items| == |r.capabilities.value| &&
              (forall i :: 0 <= i < |r.capabilities.value| ==>
                 p["capabilities"].items[i] == manifestTree(r.capabilities.value[i]))
  {
    var withInfo := if r.serverInfo.Some? then base["serverInfo" := ServerInfoJson(r.serverInfo.value)] else base;
    var withConfig := if r.config.Some? then withInfo["config" := ConfigJson(r.config.value)] else withInfo;
    if r.capabilities.Some? && r.capabilities.value != [] then
      var caps := r.capabilities.value;
      withConfig["capabilities" := VArray(seq(|caps|, i requires 0 <= i < |caps| => manifestTree(caps[i])))]
    else withConfig
  }

  /** `getPayload`: the outcome keys, then `permissions` in either case when the
      set is non-null and non-empty. `manifestTree` is Gson's reflective tree of
      one manifest. */
  ghost function RegisterAckPayload(r: AuthResponse, manifestTree: CapabilityManifest -> Value): (p: Payload)
    ensures "permissions" in p <==> r.permissions.Some? && r.permissions.value != {}
    ensures "permissions" in p ==>
              p["permissions"].VArray? &&
              |p["permissions"].items| == |r.permissions.value| &&
              (forall x :: x in r.permissions.value <==> VString(x) in p["permissions"].items) &&
              (forall i, j :: 0 <= i < j < |p["permissions"].items| ==> p["permissions"].items[i] != p["permissions"].items[j])
    ensures forall k :: k != "permissions" ==> (k in p <==> k in OutcomePayload(r, manifestTree))
    ensures forall k :: k != "permissions" && k in p ==> p[k] == OutcomePayload(r, manifestTree)[k]
  {
    var outcome := OutcomePayload(r, manifestTree);
    if r.permissions.Some? && r.permissions.value != {} then outcome["permissions" := StringArray(r.permissions.value)]
    else outcome
  }

  /** A failed acknowledgement never leaks server information, configuration or
      the capability list, whatever the builder was given. */
  lemma FailureHidesServerDetails(r: AuthResponse, manifestTree: CapabilityManifest -> Value)
    requires !r.success
    ensures RegisterAckPayload(r, manifestTree).Keys <=
              {"success", "gatewayId", "sessionId", "reason", "permissions"}
  {
  }

  /** A successful acknowledgement never carries a reason, even if one was set. */
  lemma SuccessHasNoReason(r: AuthResponse, manifestTree: CapabilityManifest -> Value)
    requires r.success
    ensures "reason" !in RegisterAckPayload(r, manifestTree)
  {
  }
}
