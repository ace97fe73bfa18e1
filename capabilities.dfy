/** The capability metadata the policy layer consults: a registry entry
    (`CapabilityDescriptor`), its manifest, and the SDK enumerations it uses. */
module Capabilities {
  import opened Wrappers
  import opened Json

  /** `CONTEXT` = read-only query, `ACTION` = mutating, `EVENT` = notification. */
  datatype CapabilityType = Context | Action | Event

  datatype RiskLevel = Low | Medium | High | Critical

  /** The SDK error codes that the modelled core raises. */
  datatype ErrorCode =
    | ParameterRequired
    | ParameterInvalid
    | SchemaValidationFailed
    | PermissionDenied
    | InternalError

  /** `ErrorCode.name()`, the text a response payload carries. */
  function ErrorCodeName(c: ErrorCode): string {
    match c
    case ParameterRequired => "PARAMETER_REQUIRED"
    case ParameterInvalid => "PARAMETER_INVALID"
    case SchemaValidationFailed => "SCHEMA_VALIDATION_FAILED"
    case PermissionDenied => "PERMISSION_DENIED"
    case InternalError => "INTERNAL_ERROR"
  }

  /** The declared, human-facing part of a capability. */
  datatype CapabilityManifest = CapabilityManifest(
    id: Option<string>,
    name: Option<string>,
    description: Option<string>)

  /** A registered capability. The handler, provider instance, version, tags and
      rollback/snapshot/cache flags play no part in the modelled decisions. */
  datatype CapabilityDescriptor = CapabilityDescriptor(
    id: Option<string>,
    capabilityType: Option<CapabilityType>,
    manifest: Option<CapabilityManifest>,
    parameterSchema: Option<map<string, Value>>,
    returnSchema: Option<map<string, Value>>,
    riskLevel: Option<RiskLevel>,
    permissions: seq<string>)
}
