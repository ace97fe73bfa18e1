/** The authorisation interceptor that runs before every capability: a declared
    permission list the caller must hold in full, then a role that the
    capability's risk level demands. */
module PermissionChecker {
  import opened Wrappers
  import opened Capabilities
  import opened CallerInfos
  import opened Execution

  /** Interceptors run in ascending order; this one runs early. */
  const Order := 100

  /** Why an invocation is refused; every denial carries `PERMISSION_DENIED`. */
  datatype Denial =
    | NoCapability
    | NoCaller
    | InsufficientPermissions(capabilityId: Option<string>)
    | InsufficientRole(capabilityId: Option<string>, role: string)

  function DenialCode(d: Denial): ErrorCode {
    PermissionDenied
  }

  /** `getRequiredRoleForRiskLevel`: no role for low risk. */
  function RequiredRoleFor(level: RiskLevel): (role: Option<string>)
    ensures role.None? <==> level == Low
    ensures level == Medium ==> role == Some("operator")
    ensures level == High ==> role == Some("admin")
    ensures level == Critical ==> role == Some("super_admin")
  {
    match level
    case Low => None
    case Medium => Some("operator")
    case High => Some("admin")
    case Critical => Some("super_admin")
  }

  /** Distinct risk levels that need a role need distinct roles, so holding one
      role never satisfies another level. */
  lemma RolesDistinct(a: RiskLevel, b: RiskLevel)
    requires a != b && a != Low && b != Low
    ensures RequiredRoleFor(a) != RequiredRoleFor(b)
  {
  }

  /** The permission set a descriptor demands (its list, as a set). */
  function RequiredPermissions(c: CapabilityDescriptor): (s: set<string>)
    ensures forall p :: p in s <==> p in c.permissions
  {
    set p | p in c.permissions
  }

  /** The role, if any, that the caller lacks for this capability's risk level. */
  predicate RoleSatisfied(c: CapabilityDescriptor, caller: CallerInfo) {
    c.riskLevel.None? || RequiredRoleFor(c.riskLevel.value).None? ||
    caller.HasRole(RequiredRoleFor(c.riskLevel.value).value)
  }

  /** `preHandle`: refuses (the Java code throws) or admits with `true`. */
  function PreHandle(ctx: ExecutionContext): (r: Result<bool, Denial>)
    ensures r.Success? ==> r.value
    ensures r.Success? <==>
              ctx.capability.Some? && ctx.caller.Some? &&
              (forall p :: p in ctx.capability.value.permissions ==> ctx.caller.value.HasPermission(p)) &&
              RoleSatisfied(ctx.capability.value, ctx.caller.value)
    ensures r == Failure(NoCapability) <==> ctx.capability.None?
    ensures r == Failure(NoCaller) <==> ctx.capability.Some? && ctx.caller.None?
    ensures r.Failure? && r.error.InsufficientRole? ==>
              ctx.capability.Some? && ctx.capability.value.riskLevel.Some? &&
              RequiredRoleFor(ctx.capability.value.riskLevel.value) == Some(r.error.role)
  {
    if ctx.capability.None? then Failure(NoCapability)
    else if ctx.caller.None? then Failure(NoCaller)
    else
      var capability, caller := ctx.capability.value, ctx.caller.value;
      var required := RequiredPermissions(capability);
      if required != {} && !caller.HasAllPermissions(Some(required)) then
        Failure(InsufficientPermissions(capability.id))
      else if capability.riskLevel.Some? && RequiredRoleFor(capability.riskLevel.value).Some?
              && !caller.HasRole(RequiredRoleFor(capability.riskLevel.value).value) then
        Failure(InsufficientRole(capability.id, RequiredRoleFor(capability.riskLevel.value).value))
      else Success(true)
  }

  /** The permission check runs first: a caller failing both checks is told
      about permissions, not about its role. */
  lemma PermissionBeforeRole(ctx: ExecutionContext, p: string)
    requires ctx.capability.Some? && ctx.caller.Some?
    requires p in ctx.capability.value.permissions && !ctx.caller.value.HasPermission(p)
    ensures PreHandle(ctx) == Failure(InsufficientPermissions(ctx.capability.value.id))
  {
    var required := RequiredPermissions(ctx.capability.value);
    assert p in required;
  }

  /** A low-risk capability with no declared permissions admits every caller,
      even one whose permission and role sets are null. */
  lemma LowRiskOpenCapability(ctx: ExecutionContext)
    requires ctx.capability.Some? && ctx.caller.Some?
    requires ctx.capability.value.permissions == []
    requires ctx.capability.value.riskLevel in {None, Some(Low)}
    ensures PreHandle(ctx) == Success(true)
  {
  }

  /** A capability declaring permissions refuses a caller whose permission set is null. */
  lemma NullPermissionsRefused(ctx: ExecutionContext)
    requires ctx.capability.Some? && ctx.caller.Some?
    requires ctx.capability.value.permissions != [] && ctx.caller.value.permissions.None?
    ensures PreHandle(ctx).Failure?
  {
    PermissionBeforeRole(ctx, ctx.capability.value.permissions[0]);
  }

  /** `postHandle`: nothing to do after execution. */
  method PostHandle(ctx: ExecutionContext, result: Json.Value)
    ensures unchanged(ctx)
  {
  }

  /** `onError`: nothing to do on failure. */
  method OnError(ctx: ExecutionContext)
    ensures unchanged(ctx)
  {
  }
}
