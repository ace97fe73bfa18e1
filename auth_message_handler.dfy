/** The handler for `auth` messages: the transition of a session from
    unauthenticated to authenticated, or to closed with code 4003. */
module AuthMessageHandling {
  import opened Wrappers
  import opened Json
  import opened Capabilities
  import opened Auth
  import opened GatewayAuthResponses
  import opened Sessions

  const AuthMessageType := "auth"
  const AuthFailedCloseCode := 4003
  const AuthFailedCloseReason := "Authentication failed"

  /** What the acknowledgement reports about the server: plugin configuration,
      the Bukkit server, and the capability registry. `capabilityLookup` is `None`
      when the plugin or its registry is missing or the lookup throws. */
  datatype ServerEnvironment = ServerEnvironment(
    serverId: Option<string>, serverName: Option<string>, serverVersion: Option<string>,
    environment: Option<string>, minecraft: MinecraftServerInfo, config: GatewayConfig,
    capabilityLookup: Option<seq<CapabilityManifest>>)

  /** `getCapabilityManifest`: a failed lookup degrades to an empty list. */
  function CapabilityManifests(lookup: Option<seq<CapabilityManifest>>): (caps: seq<CapabilityManifest>)
    ensures lookup.None? ==> caps == []
    ensures lookup.Some? ==> caps == lookup.value
  {
    if lookup.Some? then lookup.value else []
  }

  function SuccessAck(sessionId: string, gatewayId: Option<string>, result: AuthResult,
                      env: ServerEnvironment, ackId: string): (a: AuthResponse)
    ensures a.success && a.id == Some(ackId) && a.gatewayId == gatewayId && a.sessionId == Some(sessionId)
    ensures a.permissions == result.permissions && a.config == Some(env.config)
    ensures a.capabilities == Some(CapabilityManifests(env.capabilityLookup))
    ensures a.serverInfo.Some? && a.serverInfo.value.minecraft == Some(env.minecraft) && a.reason.None?
  {
    GatewayAuthResponses.NewBuilder().(
      id := Some(ackId), success := true, gatewayId := gatewayId, sessionId := Some(sessionId),
      serverInfo := Some(ServerInfo(env.serverId, env.serverName, env.serverVersion, env.environment,
                                    Some(env.minecraft))),
      permissions := result.permissions,
      capabilities := Some(CapabilityManifests(env.capabilityLookup)),
      config := Some(env.config))
  }

  function FailureAck(gatewayId: Option<string>, result: AuthResult, ackId: string): (a: AuthResponse)
    ensures !a.success && a.id == Some(ackId) && a.gatewayId == gatewayId && a.reason == result.reason
    ensures a.sessionId.None? && a.serverInfo.None? && a.permissions.None? && a.capabilities.None? && a.config.None?
  {
    GatewayAuthResponses.NewBuilder().(id := Some(ackId), success := false, gatewayId := gatewayId, reason := result.reason)
  }

  /** `handle`, as a transition of the session. `configuredToken` is the secret the
      authentication handler was configured with; `ackId` the random id of the
      acknowledgement. */
  function HandleAuth(s: SessionState, msg: Incoming, configuredToken: Option<string>,
                      env: ServerEnvironment, ackId: string): (r: SessionState)
    ensures r.id == s.id
    ensures !msg.AuthRequest? || s.authenticated ==> r == s
    ensures s.transcript <= r.transcript
    ensures r.authenticated <==> s.authenticated || (msg.AuthRequest? && ValidateToken(configuredToken, msg.token))
  {
    if !msg.AuthRequest? || s.authenticated then s
    else
      var result := Authenticate(configuredToken, msg.gatewayId, msg.token);
      if result.success then
        s.(gatewayId := msg.gatewayId, permissions := result.permissions, authenticated := true,
           transcript := s.transcript + [SendAck(SuccessAck(s.id, msg.gatewayId, result, env, ackId))])
      else
        s.(transcript := s.transcript + [SendAck(FailureAck(msg.gatewayId, result, ackId)),
                                         Outbound.Close(AuthFailedCloseCode, AuthFailedCloseReason)])
  }

  /** A successful authentication records the gateway id and the wildcard grant,
      marks the session, and sends exactly one acknowledgement, which carries the
      session id, the grant, the capability list and the configuration. Nothing is closed. */
  lemma AuthSuccess(s: SessionState, msg: Incoming, configuredToken: Option<string>, env: ServerEnvironment, ackId: string)
    requires msg.AuthRequest? && !s.authenticated && ValidateToken(configuredToken, msg.token)
    ensures var r := HandleAuth(s, msg, configuredToken, env, ackId);
      r.authenticated && r.gatewayId == msg.gatewayId && r.permissions == Some({GatewayWildcard}) &&
      |r.transcript| == |s.transcript| + 1 &&
      r.transcript[|s.transcript|].SendAck? &&
      var a := r.transcript[|s.transcript|].ack;
      a.success && a.sessionId == Some(s.id) && a.permissions == Some({GatewayWildcard}) &&
      a.capabilities == Some(CapabilityManifests(env.capabilityLookup)) && a.config == Some(env.config)
  {
  }

  /** A failed authentication leaves the session unauthenticated and unchanged,
      sends one failure acknowledgement with the reason, and then closes with 4003. */
  lemma AuthFailure(s: SessionState, msg: Incoming, configuredToken: Option<string>, env: ServerEnvironment, ackId: string)
    requires msg.AuthRequest? && !s.authenticated && !ValidateToken(configuredToken, msg.token)
    ensures var r := HandleAuth(s, msg, configuredToken, env, ackId);
      r == s.(transcript := r.transcript) &&
      r.transcript == s.transcript + [SendAck(FailureAck(msg.gatewayId, AuthResult(false, Some(InvalidTokenReason), None), ackId)),
                                      Outbound.Close(4003, "Authentication failed")]
  {
  }

  /** The failure acknowledgement tells the gateway why, and nothing about the server. */
  lemma FailureAckPayload(gatewayId: Option<string>, ackId: string, manifestTree: CapabilityManifest -> Value)
    ensures var p := RegisterAckPayload(FailureAck(gatewayId, AuthResult(false, Some(InvalidTokenReason), None), ackId), manifestTree);
      "reason" in p && p["reason"] == VString("Invalid token") &&
      p.Keys == {"success", "gatewayId", "sessionId", "reason"}
  {
    var a := FailureAck(gatewayId, AuthResult(false, Some(InvalidTokenReason), None), ackId);
    var o := OutcomePayload(a, manifestTree);
    assert o.Keys == {"success", "gatewayId", "sessionId", "reason"};
  }

  /** An authenticated session ignores every further message this handler sees;
      in particular a second `auth` cannot change the granted identity. */
  lemma {:induction false} AuthenticatedIsFinal(s: SessionState, msgs: seq<Incoming>, configuredToken: Option<string>,
                             env: ServerEnvironment, ackIds: seq<string>)
    requires s.authenticated && |ackIds| == |msgs|
    ensures HandleAuthAll(s, msgs, configuredToken, env, ackIds) == s
    decreases |msgs|
  {
    if msgs != [] {
      AuthenticatedIsFinal(s, msgs[1..], configuredToken, env, ackIds[1..]);
    }
  }

  /** The session after this handler has processed `msgs` in order. */
  function HandleAuthAll(s: SessionState, msgs: seq<Incoming>, configuredToken: Option<string>,
                         env: ServerEnvironment, ackIds: seq<string>): (r: SessionState)
    requires |ackIds| == |msgs|
    ensures r.id == s.id && s.transcript <= r.transcript
    decreases |msgs|
  {
    if msgs == [] then s
    else HandleAuthAll(HandleAuth(s, msgs[0], configuredToken, env, ackIds[0]), msgs[1..], configuredToken, env, ackIds[1..])
  }

  /** After a successful authentication a second attempt, with any token, sends
      nothing and changes nothing. */
  lemma SecondAuthAddsNothing(s: SessionState, m1: Incoming, m2: Incoming, configuredToken: Option<string>,
                              env: ServerEnvironment, id1: string, id2: string)
    requires m1.AuthRequest? && !s.authenticated && ValidateToken(configuredToken, m1.token)
    ensures var r1 := HandleAuth(s, m1, configuredToken, env, id1);
      HandleAuth(r1, m2, configuredToken, env, id2) == r1
  {
  }

  /** The handler object: its authentication secret is fixed at construction. */
  class AuthMessageHandler {
    const configuredToken: Option<string>

    constructor (configuredToken: Option<string>)
      ensures this.configuredToken == configuredToken
    {
      this.configuredToken := configuredToken;
    }

    function MessageType(): (t: string)
      ensures t == AuthMessageType
    {
      "auth"
    }

    /** `handle(session, message)`, step by step on the session object. */
    method Handle(session: GatewaySession, msg: Incoming, env: ServerEnvironment, ackId: string)
      modifies session
      ensures session.State() == HandleAuth(old(session.State()), msg, configuredToken, env, ackId)
    {
      if !msg.AuthRequest? {
        return;
      }
      if session.authenticated {
        return;
      }
      var result := Authenticate(configuredToken, msg.gatewayId, msg.token);
      if result.success {
        session.SetGatewayId(msg.gatewayId);
        session.SetPermissions(result.permissions);
        session.MarkAuthenticated();
        session.Send(SendAck(SuccessAck(session.id, msg.gatewayId, result, env, ackId)));
      } else {
        session.Send(SendAck(FailureAck(msg.gatewayId, result, ackId)));
        session.Close(AuthFailedCloseCode, AuthFailedCloseReason);
      }
    }
  }
}
