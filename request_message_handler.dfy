/** The handler for `request` messages: only authenticated sessions may invoke
    capabilities, as a caller derived from the session. */
module RequestMessageHandling {
  import opened Wrappers
  import opened Capabilities
  import opened CallerInfos
  import opened McpRequests
  import opened McpResponses
  import opened Sessions
  import opened Execution
  import opened PermissionChecker
  import Auth

  const RequestMessageType := "request"
  const ExecutionFailurePrefix := "Failed to execute capability: "

  /** The execution engine, as seen by this handler: the response it completes
      with, or the message of the exception it completes with (possibly null). */
  type Engine = (McpRequest, CallerInfo) -> Result<McpResponse, Option<string>>

  /** Java string concatenation renders null as `null`. */
  function Render(s: Option<string>): (t: string)
    ensures s.Some? ==> t == s.value
    ensures s.None? ==> t == "null"
  {
    if s.Some? then s.value else "null"
  }

  /** The caller a gateway session acts as: its gateway id as id and name, its
      granted permissions, and no roles. */
  function CallerFor(s: SessionState): (c: CallerInfo)
    ensures c.id == s.gatewayId && c.name == s.gatewayId
    ensures c.permissions == s.permissions
    ensures c.roles == Some({})
  {
    CallerInfo(s.gatewayId, s.gatewayId, s.permissions, Some({}))
  }

  /** The response sent when execution completes exceptionally. */
  function ExecutionFailure(request: McpRequest, message: Option<string>): (r: McpResponse)
    ensures !r.success && r.id == request.id && r.errorCode == Some(InternalError)
    ensures r.errorMessage == Some(ExecutionFailurePrefix + Render(message))
  {
    ErrorResponse(request.id, Some(InternalError), Some(ExecutionFailurePrefix + Render(message)))
  }

  /** `handle`, as a transition of the session: ignored unless it is a request on
      an authenticated session; otherwise exactly one response is sent. */
  function HandleRequest(s: SessionState, msg: Incoming, engine: Engine): (r: SessionState)
    ensures r.id == s.id && r.authenticated == s.authenticated
    ensures r.gatewayId == s.gatewayId && r.permissions == s.permissions
    ensures !msg.Request? || !s.authenticated ==> r == s
    ensures msg.Request? && s.authenticated ==>
              |r.transcript| == |s.transcript| + 1 && r.transcript[..|s.transcript|] == s.transcript &&
              r.transcript[|s.transcript|].SendResponse?
  {
    if !msg.Request? || !s.authenticated then s
    else
      var outcome := engine(msg.request, CallerFor(s));
      var response := if outcome.Success? then outcome.value else ExecutionFailure(msg.request, outcome.error);
      s.(transcript := s.transcript + [SendResponse(response)])
  }

  /** The engine's own response is passed on unchanged; a failed execution is
      reported as INTERNAL_ERROR under the request's id. */
  lemma ResponseSent(s: SessionState, request: McpRequest, engine: Engine)
    requires s.authenticated
    ensures var r := HandleRequest(s, Request(request), engine);
      var sent := r.transcript[|s.transcript|].response;
      var outcome := engine(request, CallerFor(s));
      (outcome.Success? ==> sent == outcome.value) &&
      (outcome.Failure? ==> !sent.success && sent.id == request.id && sent.errorCode == Some(InternalError))
  {
  }

  /** A gateway caller holds no roles, so the permission interceptor refuses it
      every capability whose risk level asks for a role. */
  lemma GatewayCallerNeedsLowRisk(s: SessionState, request: Option<McpRequest>, c: CapabilityDescriptor,
                                  ctx: ExecutionContext)
    requires ctx.capability == Some(c) && ctx.caller == Some(CallerFor(s))
    requires c.riskLevel.Some? && c.riskLevel.value != Low
    ensures PreHandle(ctx).Failure?
  {
    var role := RequiredRoleFor(c.riskLevel.value);
    assert role.Some? && !CallerFor(s).HasRole(role.value);
  }

  /** The wildcard grant is matched literally: a gateway authenticated with it is
      refused a capability that declares any other permission. */
  lemma WildcardGrantIsLiteral(s: SessionState, c: CapabilityDescriptor, ctx: ExecutionContext, p: string)
    requires s.permissions == Some({Auth.GatewayWildcard})
    requires ctx.capability == Some(c) && ctx.caller == Some(CallerFor(s))
    requires p in c.permissions && p != Auth.GatewayWildcard
    ensures PreHandle(ctx).Failure?
  {
    PermissionBeforeRole(ctx, p);
  }

  class RequestMessageHandler {
    const engine: Engine

    constructor (engine: Engine)
      ensures this.engine == engine
    {
      this.engine := engine;
    }

    function MessageType(): (t: string)
      ensures t == RequestMessageType
    {
      "request"
    }

    /** `handle(session, message)` on the session object. */
    method Handle(session: GatewaySession, msg: Incoming)
      modifies session
      ensures session.State() == HandleRequest(old(session.State()), msg, engine)
    {
      if !msg.Request? {
        return;
      }
      if !session.authenticated {
        return;
      }
      var caller := CallerInfo(session.gatewayId, session.gatewayId, session.permissions, Some({}));
      var outcome := engine(msg.request, caller);
      if outcome.Success? {
        session.Send(SendResponse(outcome.value));
      } else {
        session.Send(SendResponse(ExecutionFailure(msg.request, outcome.error)));
      }
    }
  }
}
