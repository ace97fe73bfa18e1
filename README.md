# Minecraft Context Protocol Server — capability policy and gateway session model

This project models the decision logic of the Minecraft Context Protocol
server in Dafny. The server exposes in-game "capabilities" (context queries,
actions, event subscriptions) to AI agents. Agents reach them through a
WebSocket gateway or through the HTTP/SSE tool endpoint. The model covers:

- **Policy layer.**
  - Schema validation of invocation parameters and return values (`SchemaValidator`).
  - The permission and role interceptor (`PermissionChecker`).
  - The caller's permission queries (`CallerInfos`).
  - The per-invocation execution context (`Execution`).
- **Gateway session protocol.**
  - Token authentication (`Auth`).
  - The `auth` and `request` message handlers over a session (`AuthMessageHandling`, `RequestMessageHandling`, `Sessions`).
  - The message router (`Routing`).
  - The event emitter's subscription table (`EventEmitter`).
- **Wire payloads.** The builders and `getPayload` maps of the protocol messages:
  - `McpResponses`, `McpRequests`, `McpEvents`, `McpMessages`;
  - the gateway `register_ack` (`GatewayAuthResponses`);
  - the agent `auth_response` (`AgentAuthResponses`).
- **HTTP/SSE tool layer.**
  - Tool descriptors and their JSON (`Tools`) and tool results (`ToolResults`).
  - The decorator that turns capability descriptors into MCP tools, and tool calls back into capability invocations (`ToolDecorator`).

JSON-like values are `Json.Value`. A Java `null` is `VNull` or `None`. A thrown
exception becomes a `Failure` of a `Result`. A Gson serialise/parse round trip
is `Json.ToJsonTree`, which drops null-valued object entries. Where Java
iterates a `HashMap` or `HashSet`, the order is unspecified, so the model
chooses one and proves properties that hold for every order
(`SchemaValidator.CheckProperties`, `Json.SetToSeq`).

Collaborators the core calls but does not define become parameters:
- the capability execution engine (`RequestMessageHandling.Engine`);
- the configured gateway token;
- the plugin's capability registry lookup;
- random UUIDs (`ackId`, `newId`);
- Gson's text rendering (`toJson`, `toStr`);
- Gson's reflection of a capability manifest (`manifestTree`).

Objects the source mutates are classes:
- `Execution.ExecutionContext`;
- `EventEmitter.McpEventEmitter`;
- `Routing.MessageRouter`;
- `McpRequests.RequestBuilder`;
- `McpMessages.McpMessage`;
- `Sessions.GatewaySession`.

Each of their methods ensures its new state in terms of a specification function of the old state.

Source paths below are relative to the repository root. Two prefixes appear:
`core/src/main/java/cn/lunadeer/mc/modelContextProtocolAgent/` (the agent tree) and
`core/src/main/java/cn/lunadeer/mc/mcp/` (the gateway tree).

## Model

| member | source | states |
|---|---|---|
| Json.FromOptString | core/src/main/java/cn/lunadeer/mc/mcp/server/websocket_gateway/message/McpRequest.java:42-43 | A Java string field becomes a JSON string, or JSON null exactly when it is null |
| Json.KeepScalars | core/src/main/java/cn/lunadeer/mc/mcp/server/websocket_gateway/message/McpRequest.java:46-55 | The `addProperty` loop over a map keeps exactly the String/Number/Boolean entries, values unchanged; every other entry is silently dropped |
| Json.ToJsonTree | core/src/main/java/cn/lunadeer/mc/modelContextProtocolAgent/communication/message/McpResponse.java:79-84 | Writing a value with Gson and parsing it back gives null only for null, leaves scalars alone, keeps array length, and keeps exactly the non-null keys of an object |
| Json.NonNullKeys | core/src/main/java/cn/lunadeer/mc/modelContextProtocolAgent/communication/message/McpResponse.java:79-84 | The keys Gson keeps are a subset of the map's keys |
| Json.ToJsonTreeNullFree | core/src/main/java/cn/lunadeer/mc/modelContextProtocolAgent/communication/message/McpResponse.java:79-84 | After the Gson tree conversion no object, at any depth, holds a null-valued entry |
| Json.ToJsonTreeIdempotent | core/src/main/java/cn/lunadeer/mc/modelContextProtocolAgent/communication/message/McpResponse.java:79-84 | Converting an already converted tree changes nothing |
| Json.SetToSeq | core/src/main/java/cn/lunadeer/mc/mcp/server/websocket_gateway/message/AuthResponse.java:118-124 | Iterating a permission set visits every element exactly once, in some order |
| Json.StringArray | core/src/main/java/cn/lunadeer/mc/mcp/server/websocket_gateway/message/AuthResponse.java:118-124 | The JSON array built from a set has one string per element and holds exactly the set's elements |
| CallerInfos.CallerInfo.HasPermission | core/src/main/java/cn/lunadeer/mc/mcp/core/execution/CallerInfo.java:94-96 | A null permission set holds nothing; otherwise a permission is held iff it is in the set |
| CallerInfos.CallerInfo.HasRole | core/src/main/java/cn/lunadeer/mc/mcp/core/execution/CallerInfo.java:104-106 | A null role set holds nothing; otherwise a role is held iff it is in the set |
| CallerInfos.CallerInfo.HasAnyPermission | core/src/main/java/cn/lunadeer/mc/mcp/core/execution/CallerInfo.java:114-122 | A null or empty requirement is met; otherwise true iff the caller's non-null grant holds some required permission |
| CallerInfos.CallerInfo.HasAllPermissions | core/src/main/java/cn/lunadeer/mc/mcp/core/execution/CallerInfo.java:130-138 | A null or empty requirement is met; otherwise true iff the caller's non-null grant holds every required permission |
| CallerInfos.AllImpliesAny | core/src/main/java/cn/lunadeer/mc/mcp/core/execution/CallerInfo.java:114-138 | For a non-empty requirement, holding all required permissions implies holding one |
| CallerInfos.AllOfOneIsHasPermission | core/src/main/java/cn/lunadeer/mc/mcp/core/execution/CallerInfo.java:94-138 | For a single permission, the all- and any-queries agree with `hasPermission` |
| CallerInfos.HasAllMonotone | core/src/main/java/cn/lunadeer/mc/mcp/core/execution/CallerInfo.java:130-138 | Granting more permissions never loses an all-permissions check |
| CallerInfos.WildcardIsLiteral | core/src/main/java/cn/lunadeer/mc/mcp/core/execution/CallerInfo.java:94-96 | Permission matching is set membership: a grant of "mcp.*" does not cover "mcp.context.world.time" |
| Json.Lookup | core/src/main/java/cn/lunadeer/mc/modelContextProtocolAgent/core/schema/SchemaValidator.java:39-63 | `Map.get` yields the entry, or null for an absent key |
| SchemaValidator.CheckType | core/src/main/java/cn/lunadeer/mc/modelContextProtocolAgent/core/schema/SchemaValidator.java:173-235 | A value passes iff it is of the Java class its tag demands (any Number for "integer" and "number"; anything for an unknown tag); a failure names the parameter and one of the seven known tags |
| SchemaValidator.FractionValue | core/src/main/java/cn/lunadeer/mc/modelContextProtocolAgent/core/schema/SchemaValidator.java:243-255 | The digits after a decimal point denote a value in [0, 1): each digit is worth a tenth of the one before it |
| SchemaValidator.IndexOfDot | core/src/main/java/cn/lunadeer/mc/modelContextProtocolAgent/core/schema/SchemaValidator.java:243-255 | The position found is the first '.' in a bound string, or its length when there is none |
| SchemaValidator.ParseUnsigned | core/src/main/java/cn/lunadeer/mc/modelContextProtocolAgent/core/schema/SchemaValidator.java:243-255 | Text parses iff the parts before and after its first point are digit strings, not both empty; its value is the whole part plus the fraction, never negative |
| SchemaValidator.GetDouble | core/src/main/java/cn/lunadeer/mc/modelContextProtocolAgent/core/schema/SchemaValidator.java:243-255 | A Number bound is taken as is, a String bound is parsed as `Double.parseDouble` reads decimal text, and any other bound is ignored |
| SchemaValidator.TrimStart | core/src/main/java/cn/lunadeer/mc/modelContextProtocolAgent/core/schema/SchemaValidator.java:249 | After trimming the front, the text is empty or starts above U+0020 |
| SchemaValidator.TrimEnd | core/src/main/java/cn/lunadeer/mc/modelContextProtocolAgent/core/schema/SchemaValidator.java:249 | After trimming the back, the text is empty or ends above U+0020 |
| SchemaValidator.TrimUnblanked | core/src/main/java/cn/lunadeer/mc/modelContextProtocolAgent/core/schema/SchemaValidator.java:249 | Text with no blank at either end is its own trimmed form |
| SchemaValidator.TrimDropsTrailingBlank | core/src/main/java/cn/lunadeer/mc/modelContextProtocolAgent/core/schema/SchemaValidator.java:249 | A trailing blank does not change the trimmed text |
| SchemaValidator.ParseMagnitude | core/src/main/java/cn/lunadeer/mc/modelContextProtocolAgent/core/schema/SchemaValidator.java:249 | A trailing d/D/f/F is dropped and the rest read as unsigned decimal text; otherwise the whole text is; the number is never negative |
| SchemaValidator.ParseSigned | core/src/main/java/cn/lunadeer/mc/modelContextProtocolAgent/core/schema/SchemaValidator.java:249 | A leading minus negates the magnitude that follows, a leading plus keeps it, and no sign reads the magnitude |
| SchemaValidator.ParseDecimal | core/src/main/java/cn/lunadeer/mc/modelContextProtocolAgent/core/schema/SchemaValidator.java:247-252 | Blank or empty text never parses (`NumberFormatException`) |
| SchemaValidator.PaddingIgnored | core/src/main/java/cn/lunadeer/mc/modelContextProtocolAgent/core/schema/SchemaValidator.java:249 | A blank before or after the bound text does not change the number read |
| SchemaValidator.MagnitudeOfDigits | core/src/main/java/cn/lunadeer/mc/modelContextProtocolAgent/core/schema/SchemaValidator.java:249 | Plain digits of value n read as n |
| SchemaValidator.NegatedDigits | core/src/main/java/cn/lunadeer/mc/modelContextProtocolAgent/core/schema/SchemaValidator.java:249 | A minus before digits of value n reads as -n |
| SchemaValidator.SuffixedDigits | core/src/main/java/cn/lunadeer/mc/modelContextProtocolAgent/core/schema/SchemaValidator.java:249 | Digits of value n followed by a type suffix read as n, also as a bound |
| SchemaValidator.SuffixedBoundParses | core/src/main/java/cn/lunadeer/mc/modelContextProtocolAgent/core/schema/SchemaValidator.java:243-255 | For every n, the bound "n" followed by d, D, f or F is the number n |
| SchemaValidator.NatToDigits | core/src/main/java/cn/lunadeer/mc/modelContextProtocolAgent/core/schema/SchemaValidator.java:243-255 | A whole number's decimal text is a non-empty digit string |
| SchemaValidator.DigitsOfNat | core/src/main/java/cn/lunadeer/mc/modelContextProtocolAgent/core/schema/SchemaValidator.java:243-255 | Reading back the decimal text of a number gives the number |
| SchemaValidator.ParseDigits | core/src/main/java/cn/lunadeer/mc/modelContextProtocolAgent/core/schema/SchemaValidator.java:243-255 | A digit string of value n, with no point, parses to n |
| SchemaValidator.NoPointInDigits | core/src/main/java/cn/lunadeer/mc/modelContextProtocolAgent/core/schema/SchemaValidator.java:243-255 | A digit string contains no decimal point |
| SchemaValidator.StringBoundParses | core/src/main/java/cn/lunadeer/mc/modelContextProtocolAgent/core/schema/SchemaValidator.java:243-255 | A bound written as "n" or "-n" in a schema is the number n or -n |
| SchemaValidator.DigitsBoundParses | core/src/main/java/cn/lunadeer/mc/modelContextProtocolAgent/core/schema/SchemaValidator.java:243-255 | Any digit string of value n, alone or after a minus, is the bound n or -n |
| SchemaValidator.Pow10 | core/src/main/java/cn/lunadeer/mc/modelContextProtocolAgent/core/schema/SchemaValidator.java:243-255 | Ten to any power is at least one |
| SchemaValidator.DigitsFront | core/src/main/java/cn/lunadeer/mc/modelContextProtocolAgent/core/schema/SchemaValidator.java:243-255 | The leading digit of a digit string is worth ten to the count of the digits after it |
| SchemaValidator.FractionQuotient | core/src/main/java/cn/lunadeer/mc/modelContextProtocolAgent/core/schema/SchemaValidator.java:243-255 | The fraction read from digits of value b is b over ten to the number of digits |
| SchemaValidator.PointedUnsigned | core/src/main/java/cn/lunadeer/mc/modelContextProtocolAgent/core/schema/SchemaValidator.java:243-255 | Digits of value a, a point and digits y read as a plus the fraction of y |
| SchemaValidator.PointedDigits | core/src/main/java/cn/lunadeer/mc/modelContextProtocolAgent/core/schema/SchemaValidator.java:243-255 | The same text read as a bound gives the same number: nothing to trim, no sign, no suffix |
| SchemaValidator.DecimalBoundParses | core/src/main/java/cn/lunadeer/mc/modelContextProtocolAgent/core/schema/SchemaValidator.java:243-255 | For all digit strings x and y of values a and b, the bound "x.y" is a plus the fraction of y, and that fraction is b over ten to the count of y's digits |
| SchemaValidator.CheckValue | core/src/main/java/cn/lunadeer/mc/modelContextProtocolAgent/core/schema/SchemaValidator.java:120-164 | A value passes iff its null or string type tag accepts it, a number lies within every bound that parses (both inclusive), and a string's pattern entry is null or a string; an invalid-parameter failure names the parameter |
| SchemaValidator.CheckProperty | core/src/main/java/cn/lunadeer/mc/modelContextProtocolAgent/core/schema/SchemaValidator.java:53-63 | An absent parameter passes a well-formed property schema; an invalid-parameter failure names a present parameter; a property check never reports a missing one |
| SchemaValidator.CheckProperties | core/src/main/java/cn/lunadeer/mc/modelContextProtocolAgent/core/schema/SchemaValidator.java:53-63 | Whatever the iteration order, the properties pass iff each one passes, and a failure is the failure of some property |
| SchemaValidator.CheckRequired | core/src/main/java/cn/lunadeer/mc/modelContextProtocolAgent/core/schema/SchemaValidator.java:39-50 | The required list passes iff every entry names a present parameter; otherwise the first failing entry in list order is reported |
| SchemaValidator.ValidateParameters | core/src/main/java/cn/lunadeer/mc/modelContextProtocolAgent/core/schema/SchemaValidator.java:30-76 | A missing or empty schema accepts everything; otherwise the parameters pass iff every entry of a null or list `required` names a present parameter and every entry of a null or map `properties` passes; PARAMETER_REQUIRED names an absent parameter and PARAMETER_INVALID a present one |
| SchemaValidator.ValidateReturn | core/src/main/java/cn/lunadeer/mc/modelContextProtocolAgent/core/schema/SchemaValidator.java:86-111 | A missing or empty schema, a null type or a null value passes; otherwise the value passes iff it conforms to the string type tag; a failure is either a malformed schema or a type mismatch of "return value" |
| SchemaValidator.RequiredBeforeTypes | core/src/main/java/cn/lunadeer/mc/modelContextProtocolAgent/core/schema/SchemaValidator.java:39-63 | A missing required parameter is reported as PARAMETER_REQUIRED whatever the property schemas say |
| SchemaValidator.PatternNeverRejects | core/src/main/java/cn/lunadeer/mc/modelContextProtocolAgent/core/schema/SchemaValidator.java:148-163 | The pattern never affects the outcome: with any pattern or none the result is the same |
| SchemaValidator.BoundsInclusive | core/src/main/java/cn/lunadeer/mc/modelContextProtocolAgent/core/schema/SchemaValidator.java:127-145 | A value equal to the minimum or maximum passes; one below or above fails with that bound |
| SchemaValidator.UnparsableBoundIgnored | core/src/main/java/cn/lunadeer/mc/modelContextProtocolAgent/core/schema/SchemaValidator.java:243-255 | For every schema, minimum and maximum that do not parse make the check behave exactly as if neither bound were written |
| SchemaValidator.UnparsableBoundExample | core/src/main/java/cn/lunadeer/mc/modelContextProtocolAgent/core/schema/SchemaValidator.java:243-255 | The bounds "low" and `true` constrain no number |
| SchemaValidator.PaddedBoundApplies | core/src/main/java/cn/lunadeer/mc/modelContextProtocolAgent/core/schema/SchemaValidator.java:139-144 | A maximum written "5 " rejects 10 as above the maximum 5, because the bound text is trimmed |
| SchemaValidator.SuffixedBoundApplies | core/src/main/java/cn/lunadeer/mc/modelContextProtocolAgent/core/schema/SchemaValidator.java:139-144 | A maximum written "5d" rejects 10 as above the maximum 5, because the type suffix is accepted |
| SchemaValidator.LooseTypeTags | core/src/main/java/cn/lunadeer/mc/modelContextProtocolAgent/core/schema/SchemaValidator.java:173-235 | "integer" accepts 0.5 and an unknown type tag accepts any value |
| SchemaValidator.RequiredNonNegativeExample | core/src/main/java/cn/lunadeer/mc/modelContextProtocolAgent/core/schema/SchemaValidator.java:30-76 | For `x` required with minimum 0: -1 fails below the minimum, 5 passes, and an empty call reports `x` missing |
| Execution.ExecutionContext.constructor | core/src/main/java/cn/lunadeer/mc/modelContextProtocolAgent/core/execution/ExecutionContext.java:72-79 | A new context keeps its request, capability and caller, turns null parameters into an empty map, and starts with no metadata, not skipped, no result and no response |
| Execution.ExecutionContext.GetParameter | core/src/main/java/cn/lunadeer/mc/modelContextProtocolAgent/core/execution/ExecutionContext.java:132-134 | A parameter lookup gives the value, or null when absent |
| Execution.ExecutionContext.GetParameterAs | core/src/main/java/cn/lunadeer/mc/modelContextProtocolAgent/core/execution/ExecutionContext.java:145-151 | The typed lookup gives the value iff it is present, non-null and an instance of the class; otherwise null |
| Execution.ExecutionContext.GetMetadata | core/src/main/java/cn/lunadeer/mc/modelContextProtocolAgent/core/execution/ExecutionContext.java:178-180 | A metadata lookup gives the stored value, or null when absent |
| Execution.ExecutionContext.SetMetadata | core/src/main/java/cn/lunadeer/mc/modelContextProtocolAgent/core/execution/ExecutionContext.java:168-170 | After storing, the key reads back the value and every other key reads as before |
| Execution.ExecutionContext.SetSkipped | core/src/main/java/cn/lunadeer/mc/modelContextProtocolAgent/core/execution/ExecutionContext.java:196-198 | Sets the skipped flag and leaves metadata, result and response alone |
| Execution.ExecutionContext.SetResult | core/src/main/java/cn/lunadeer/mc/modelContextProtocolAgent/core/execution/ExecutionContext.java:214-216 | Sets the result and leaves metadata, skipped flag and response alone |
| Execution.ExecutionContext.SetResponse | core/src/main/java/cn/lunadeer/mc/modelContextProtocolAgent/core/execution/ExecutionContext.java:232-234 | Sets the response and leaves metadata, skipped flag and result alone |
| Execution.ExecutionContext.GetCapabilityId | core/src/main/java/cn/lunadeer/mc/modelContextProtocolAgent/core/execution/ExecutionContext.java:104-106 | The capability's id, or null without a capability |
| Execution.ExecutionContext.GetRiskLevel | core/src/main/java/cn/lunadeer/mc/modelContextProtocolAgent/core/execution/ExecutionContext.java:241-243 | The capability's risk level; LOW when there is no capability |
| Execution.ExecutionContext.GetCapabilityType | core/src/main/java/cn/lunadeer/mc/modelContextProtocolAgent/core/execution/ExecutionContext.java:250-252 | The capability's type, or null without a capability |
| Execution.ExecutionContext.GetRequestId | core/src/main/java/cn/lunadeer/mc/modelContextProtocolAgent/core/execution/ExecutionContext.java:259-261 | The request's id, or null without a request |
| Execution.TypedLookupRefinesUntyped | core/src/main/java/cn/lunadeer/mc/modelContextProtocolAgent/core/execution/ExecutionContext.java:132-151 | A typed lookup that succeeds agrees with the untyped one; typed as Object it succeeds iff the parameter is non-null |
| Execution.TypedLookupExclusive | core/src/main/java/cn/lunadeer/mc/modelContextProtocolAgent/core/execution/ExecutionContext.java:145-151 | No parameter is an instance of two distinct value classes other than Object |
| Execution.AnnotateTwice | core/src/main/java/cn/lunadeer/mc/modelContextProtocolAgent/core/execution/ExecutionContext.java:168-180 | Two metadata writes: the metadata becomes the old map with both keys updated in order, so the later key reads back its value, the earlier one too when the keys differ, every other key keeps its value, and the skipped flag, result and response are unchanged |
| PermissionChecker.RequiredRoleFor | core/src/main/java/cn/lunadeer/mc/modelContextProtocolAgent/core/permission/PermissionChecker.java:112-125 | LOW needs no role; MEDIUM needs "operator", HIGH "admin", CRITICAL "super_admin" |
| PermissionChecker.RolesDistinct | core/src/main/java/cn/lunadeer/mc/modelContextProtocolAgent/core/permission/PermissionChecker.java:112-125 | Different non-LOW risk levels need different roles |
| PermissionChecker.RequiredPermissions | core/src/main/java/cn/lunadeer/mc/modelContextProtocolAgent/core/permission/PermissionChecker.java:55-58 | The required set holds exactly the capability's declared permissions |
| PermissionChecker.PreHandle | core/src/main/java/cn/lunadeer/mc/modelContextProtocolAgent/core/permission/PermissionChecker.java:37-89 | Execution continues iff a capability and a caller exist, the caller holds every declared permission, and holds the role the risk level needs; a missing capability or caller is refused with its own error; a role refusal names the mapped role |
| PermissionChecker.PermissionBeforeRole | core/src/main/java/cn/lunadeer/mc/modelContextProtocolAgent/core/permission/PermissionChecker.java:55-85 | A missing permission is reported as PERMISSION_DENIED before any role check |
| PermissionChecker.LowRiskOpenCapability | core/src/main/java/cn/lunadeer/mc/modelContextProtocolAgent/core/permission/PermissionChecker.java:55-88 | A LOW or unlabelled capability without declared permissions admits any caller |
| PermissionChecker.NullPermissionsRefused | core/src/main/java/cn/lunadeer/mc/modelContextProtocolAgent/core/permission/PermissionChecker.java:55-68 | A caller with no permission set is refused any capability that declares a permission |
| PermissionChecker.PostHandle | core/src/main/java/cn/lunadeer/mc/modelContextProtocolAgent/core/permission/PermissionChecker.java:91-94 | The post-execution hook leaves the context untouched |
| PermissionChecker.OnError | core/src/main/java/cn/lunadeer/mc/modelContextProtocolAgent/core/permission/PermissionChecker.java:96-99 | The error hook leaves the context untouched |
| Auth.NewBuilder | core/src/main/java/cn/lunadeer/mc/modelContextProtocolAgent/communication/auth/AuthResult.java:65 | A fresh builder describes a success with no reason and no permissions |
| Auth.SuccessResult | core/src/main/java/cn/lunadeer/mc/modelContextProtocolAgent/communication/auth/AuthResult.java:44-49 | A success carries the given permissions and no reason |
| Auth.FailureResult | core/src/main/java/cn/lunadeer/mc/modelContextProtocolAgent/communication/auth/AuthResult.java:57-62 | A failure carries the given reason and no permissions |
| Auth.GatewayPermissions | core/src/main/java/cn/lunadeer/mc/modelContextProtocolAgent/communication/auth/AuthHandler.java:72-78 | Every gateway is granted exactly {"mcp.*"} |
| Auth.ValidateToken | core/src/main/java/cn/lunadeer/mc/modelContextProtocolAgent/communication/auth/AuthHandler.java:53-62 | An unset or blank configured token accepts every token; otherwise exactly the equal token is accepted, and a null token never is |
| Auth.Authenticate | core/src/main/java/cn/lunadeer/mc/modelContextProtocolAgent/communication/auth/AuthHandler.java:25-45 | Succeeds iff the token validates, then granting {"mcp.*"}; otherwise fails with "Invalid token" and no permissions |
| Auth.UnsetSecretAcceptsAll | core/src/main/java/cn/lunadeer/mc/modelContextProtocolAgent/communication/auth/AuthHandler.java:53-63 | With no configured secret, or a blank one, every token, including null, is accepted |
| Auth.SecretMatchedExactly | core/src/main/java/cn/lunadeer/mc/modelContextProtocolAgent/communication/auth/AuthHandler.java:53-63 | With a non-blank secret, authentication succeeds iff the token equals it exactly |
| Auth.GatewayIdIrrelevant | core/src/main/java/cn/lunadeer/mc/modelContextProtocolAgent/communication/auth/AuthHandler.java:25-45 | The gateway id claimed has no influence on the outcome |
| Auth.BlankSecretBoundary | core/src/main/java/cn/lunadeer/mc/modelContextProtocolAgent/communication/auth/AuthHandler.java:53-63 | A secret of ASCII whitespace counts as unset; a no-break space (U+00A0) is not blank and must be matched |
| McpMessages.McpMessage.constructor | core/src/main/java/cn/lunadeer/mc/modelContextProtocolAgent/communication/message/McpMessage.java:18-21 | A new message has its id and type, and no session, gateway or correlation id |
| McpMessages.McpMessage.SetSessionId | core/src/main/java/cn/lunadeer/mc/modelContextProtocolAgent/communication/message/McpMessage.java:35-37 | Sets the session id; the gateway and correlation ids are unchanged |
| McpMessages.McpMessage.SetGatewayId | core/src/main/java/cn/lunadeer/mc/modelContextProtocolAgent/communication/message/McpMessage.java:43-45 | Sets the gateway id; the session and correlation ids are unchanged |
| McpMessages.McpMessage.SetCorrelationId | core/src/main/java/cn/lunadeer/mc/modelContextProtocolAgent/communication/message/McpMessage.java:51-53 | Sets the correlation id; the session and gateway ids are unchanged |
| McpResponses.NewBuilder | core/src/main/java/cn/lunadeer/mc/modelContextProtocolAgent/communication/message/McpResponse.java:119 | A builder's response defaults to success with nothing else set |
| McpResponses.SuccessResponse | core/src/main/java/cn/lunadeer/mc/modelContextProtocolAgent/communication/message/McpResponse.java:93-98 | A success response carries its id and data |
| McpResponses.ErrorResponse | core/src/main/java/cn/lunadeer/mc/modelContextProtocolAgent/communication/message/McpResponse.java:100-106 | An error response carries its id, code and message, and no details |
| McpResponses.ErrorResponseWithDetails | core/src/main/java/cn/lunadeer/mc/modelContextProtocolAgent/communication/message/McpResponse.java:108-115 | An error response with details carries all four |
| McpResponses.ResponsePayload | core/src/main/java/cn/lunadeer/mc/modelContextProtocolAgent/communication/message/McpResponse.java:55-87 | `success` is always present; `data` iff a success with non-null data (Gson-normalised); `errorCode`, `errorMessage` and non-empty `details` only on an error, details reduced to their scalar entries; no other key |
| McpResponses.SuccessPayloadKeys | core/src/main/java/cn/lunadeer/mc/modelContextProtocolAgent/communication/message/McpResponse.java:55-87 | A success payload holds `success`, plus `data` exactly when data is non-null |
| McpResponses.ErrorPayloadHasNoData | core/src/main/java/cn/lunadeer/mc/modelContextProtocolAgent/communication/message/McpResponse.java:57-84 | An error payload never carries data |
| McpResponses.NonScalarDetailsGiveEmptyObject | core/src/main/java/cn/lunadeer/mc/modelContextProtocolAgent/communication/message/McpResponse.java:66-78 | A details entry that is not a string, number or boolean vanishes, leaving an empty details object |
| McpRequests.RequestPayload | core/src/main/java/cn/lunadeer/mc/mcp/server/websocket_gateway/message/McpRequest.java:40-58 | The payload always has `capabilityId` and `callerId`; `parameters` only when non-null and non-empty, holding just the scalar entries |
| McpRequests.ScalarParametersSurvive | core/src/main/java/cn/lunadeer/mc/mcp/server/websocket_gateway/message/McpRequest.java:46-55 | Parameters that are all scalars reach the payload unchanged |
| McpRequests.NonScalarParameterDropped | core/src/main/java/cn/lunadeer/mc/mcp/server/websocket_gateway/message/McpRequest.java:46-55 | A nested or null parameter is left out of the payload |
| McpRequests.RequestBuilder.constructor | core/src/main/java/cn/lunadeer/mc/mcp/server/websocket_gateway/message/McpRequest.java:67 | A builder starts with no ids and an empty parameter map |
| McpRequests.RequestBuilder.Id | core/src/main/java/cn/lunadeer/mc/mcp/server/websocket_gateway/message/McpRequest.java:70-73 | Sets the request id and leaves the other builder fields unchanged |
| McpRequests.RequestBuilder.CapabilityId | core/src/main/java/cn/lunadeer/mc/mcp/server/websocket_gateway/message/McpRequest.java:75-78 | Sets the capability id and leaves the other builder fields unchanged |
| McpRequests.RequestBuilder.CallerId | core/src/main/java/cn/lunadeer/mc/mcp/server/websocket_gateway/message/McpRequest.java:90-93 | Sets the caller id and leaves the other builder fields unchanged |
| McpRequests.RequestBuilder.Parameter | core/src/main/java/cn/lunadeer/mc/mcp/server/websocket_gateway/message/McpRequest.java:80-83 | Adds or overwrites one parameter |
| McpRequests.RequestBuilder.Parameters | core/src/main/java/cn/lunadeer/mc/mcp/server/websocket_gateway/message/McpRequest.java:85-88 | `putAll`: the keys are the union, the new map wins on shared keys, other entries stay |
| McpRequests.RequestBuilder.Build | core/src/main/java/cn/lunadeer/mc/mcp/server/websocket_gateway/message/McpRequest.java:95-97 | The built request carries the builder's ids and its parameter map |
| McpRequests.BuildWithTwoParameters | core/src/main/java/cn/lunadeer/mc/mcp/server/websocket_gateway/message/McpRequest.java:67-97 | Building with two parameters yields both, or only the later one when the keys coincide |
| McpEvents.EventPayload | core/src/main/java/cn/lunadeer/mc/mcp/server/websocket_gateway/message/McpEvent.java:29-38 | `eventId` is always present; `eventData` iff non-null, Gson-normalised; no other key |
| McpEvents.EventDataIsNormalised | core/src/main/java/cn/lunadeer/mc/mcp/server/websocket_gateway/message/McpEvent.java:29-38 | Event data in the payload holds no null entry and is stable under a second conversion |
| AgentAuthResponses.NewBuilder | core/src/main/java/cn/lunadeer/mc/modelContextProtocolAgent/communication/message/AuthResponse.java:80 | A builder's auth response defaults to success with nothing else set |
| AgentAuthResponses.OutcomePayload | core/src/main/java/cn/lunadeer/mc/modelContextProtocolAgent/communication/message/AuthResponse.java:50-72 | `success` always; `reason` iff set; `capabilities` iff non-empty, one tree per manifest in order; no other key |
| AgentAuthResponses.AgentAuthPayload | core/src/main/java/cn/lunadeer/mc/modelContextProtocolAgent/communication/message/AuthResponse.java:50-72 | Adds `permissions` iff a non-empty set, as an array of exactly its elements, as many as the set holds, none repeated; every other key as in the outcome part |
| AgentAuthResponses.SuccessFlagIndependent | core/src/main/java/cn/lunadeer/mc/modelContextProtocolAgent/communication/message/AuthResponse.java:50-72 | Flipping the success flag changes only the `success` entry: reason, permissions and capabilities are sent either way |
| AgentAuthResponses.OutcomeFlagIndependent | core/src/main/java/cn/lunadeer/mc/modelContextProtocolAgent/communication/message/AuthResponse.java:50-72 | Flipping the success flag changes only the `success` entry of the outcome part |
| GatewayAuthResponses.NewBuilder | core/src/main/java/cn/lunadeer/mc/mcp/server/websocket_gateway/message/AuthResponse.java:135 | A builder's register_ack defaults to success with nothing else set |
| GatewayAuthResponses.MinecraftJson | core/src/main/java/cn/lunadeer/mc/mcp/server/websocket_gateway/message/AuthResponse.java:85-92 | The Minecraft server object has exactly name, type, version and maxPlayers, holding the server's name, type and version (JSON null when unset) and its player limit |
| GatewayAuthResponses.ServerInfoJson | core/src/main/java/cn/lunadeer/mc/mcp/server/websocket_gateway/message/AuthResponse.java:78-94 | The server info object holds the id, name, version and environment (JSON null when unset), plus `mcServerInfo`, the Minecraft object, exactly when Minecraft details are present |
| GatewayAuthResponses.ConfigJson | core/src/main/java/cn/lunadeer/mc/mcp/server/websocket_gateway/message/AuthResponse.java:96-102 | The config object has exactly heartbeatInterval, reconnectDelay and maxRetries, holding the three configured integers |
| GatewayAuthResponses.ServerInfoJsonInjective | core/src/main/java/cn/lunadeer/mc/mcp/server/websocket_gateway/message/AuthResponse.java:78-94 | Two server descriptions with the same JSON are equal: no detail is lost |
| GatewayAuthResponses.ConfigJsonInjective | core/src/main/java/cn/lunadeer/mc/mcp/server/websocket_gateway/message/AuthResponse.java:96-102 | Two gateway configurations with the same JSON are equal |
| GatewayAuthResponses.OutcomePayload | core/src/main/java/cn/lunadeer/mc/mcp/server/websocket_gateway/message/AuthResponse.java:71-116 | success, gatewayId and sessionId always; serverInfo, config and non-empty capabilities only on success; reason only on failure; no other key |
| GatewayAuthResponses.SuccessExtras | core/src/main/java/cn/lunadeer/mc/mcp/server/websocket_gateway/message/AuthResponse.java:77-111 | A success adds `serverInfo` and `config` as their trees iff given, and `capabilities` iff non-empty, one tree per manifest; every other key is kept |
| GatewayAuthResponses.RegisterAckPayload | core/src/main/java/cn/lunadeer/mc/mcp/server/websocket_gateway/message/AuthResponse.java:71-127 | Adds `permissions` iff a non-empty set, in either outcome, as an array of exactly its elements, as many as the set holds, none repeated; every other key as in the outcome part |
| GatewayAuthResponses.FailureHidesServerDetails | core/src/main/java/cn/lunadeer/mc/mcp/server/websocket_gateway/message/AuthResponse.java:77-124 | A failed register_ack reveals no server info, config or capabilities |
| GatewayAuthResponses.SuccessHasNoReason | core/src/main/java/cn/lunadeer/mc/mcp/server/websocket_gateway/message/AuthResponse.java:112-116 | A successful register_ack carries no reason |
| Sessions.GatewaySession.constructor | core/src/main/java/cn/lunadeer/mc/mcp/server/websocket_gateway/handler/AuthMessageHandler.java:48 | A new session is unauthenticated, with no gateway id, no permissions and nothing sent |
| Sessions.GatewaySession.SetGatewayId | core/src/main/java/cn/lunadeer/mc/mcp/server/websocket_gateway/handler/AuthMessageHandler.java:55 | Records the gateway id and nothing else |
| Sessions.GatewaySession.SetPermissions | core/src/main/java/cn/lunadeer/mc/mcp/server/websocket_gateway/handler/AuthMessageHandler.java:56 | Records the granted permissions and nothing else |
| Sessions.GatewaySession.MarkAuthenticated | core/src/main/java/cn/lunadeer/mc/mcp/server/websocket_gateway/handler/AuthMessageHandler.java:57 | Marks the session authenticated and nothing else |
| Sessions.GatewaySession.Send | core/src/main/java/cn/lunadeer/mc/mcp/server/websocket_gateway/handler/AuthMessageHandler.java:86-87 | Appends one outbound frame to what the session has sent |
| Sessions.GatewaySession.Close | core/src/main/java/cn/lunadeer/mc/mcp/server/websocket_gateway/handler/AuthMessageHandler.java:101 | Appends the close frame with its code and reason |
| AuthMessageHandling.CapabilityManifests | core/src/main/java/cn/lunadeer/mc/mcp/server/websocket_gateway/handler/AuthMessageHandler.java:114-124 | The registry's capability list, or an empty list when the plugin or registry is unavailable or throws |
| AuthMessageHandling.SuccessAck | core/src/main/java/cn/lunadeer/mc/mcp/server/websocket_gateway/handler/AuthMessageHandler.java:60-84 | The success register_ack carries the session id, gateway id, granted permissions, server info with Minecraft details, the capability list and the config, and no reason |
| AuthMessageHandling.FailureAck | core/src/main/java/cn/lunadeer/mc/mcp/server/websocket_gateway/handler/AuthMessageHandler.java:90-95 | The failure register_ack carries the gateway id and reason, and nothing about the session or server |
| AuthMessageHandling.HandleAuth | core/src/main/java/cn/lunadeer/mc/mcp/server/websocket_gateway/handler/AuthMessageHandler.java:40-103 | A non-auth message, or any message to an authenticated session, changes nothing; only ever appends to what was sent; the session ends authenticated iff it was, or the token validates |
| AuthMessageHandling.AuthSuccess | core/src/main/java/cn/lunadeer/mc/mcp/server/websocket_gateway/handler/AuthMessageHandler.java:53-87 | A valid token records the gateway id and the "mcp.*" grant, authenticates, and sends exactly one success ack with session id, grant, capabilities and config |
| AuthMessageHandling.AuthFailure | core/src/main/java/cn/lunadeer/mc/mcp/server/websocket_gateway/handler/AuthMessageHandler.java:88-102 | An invalid token changes no session field and sends the failure ack then a close with 4003 "Authentication failed" |
| AuthMessageHandling.FailureAckPayload | core/src/main/java/cn/lunadeer/mc/mcp/server/websocket_gateway/handler/AuthMessageHandler.java:88-98 | The failure ack payload holds exactly success, gatewayId, sessionId and reason "Invalid token" |
| AuthMessageHandling.HandleAuthAll | core/src/main/java/cn/lunadeer/mc/mcp/server/websocket_gateway/handler/AuthMessageHandler.java:40-103 | Handling a sequence of messages keeps the session id and only appends to what was sent |
| AuthMessageHandling.AuthenticatedIsFinal | core/src/main/java/cn/lunadeer/mc/mcp/server/websocket_gateway/handler/AuthMessageHandler.java:48-51 | Once authenticated, no sequence of further messages changes the session |
| AuthMessageHandling.SecondAuthAddsNothing | core/src/main/java/cn/lunadeer/mc/mcp/server/websocket_gateway/handler/AuthMessageHandler.java:48-57 | After a successful authentication, a second auth with any token sends nothing and changes nothing |
| AuthMessageHandling.AuthMessageHandler.constructor | core/src/main/java/cn/lunadeer/mc/mcp/server/websocket_gateway/handler/AuthMessageHandler.java:33-37 | The handler keeps the configured secret its authentication uses |
| AuthMessageHandling.AuthMessageHandler.MessageType | core/src/main/java/cn/lunadeer/mc/mcp/server/websocket_gateway/handler/AuthMessageHandler.java:106-108 | The handler serves "auth" |
| AuthMessageHandling.AuthMessageHandler.Handle | core/src/main/java/cn/lunadeer/mc/mcp/server/websocket_gateway/handler/AuthMessageHandler.java:40-103 | The session's new state is the auth transition of its old state |
| RequestMessageHandling.Render | core/src/main/java/cn/lunadeer/mc/mcp/server/websocket_gateway/handler/RequestMessageHandler.java:54-67 | String concatenation renders a null exception message as "null" |
| RequestMessageHandling.CallerFor | core/src/main/java/cn/lunadeer/mc/mcp/server/websocket_gateway/handler/RequestMessageHandler.java:46-51 | A gateway caller is named by the gateway id, has the session's permissions and an empty role set |
| RequestMessageHandling.ExecutionFailure | core/src/main/java/cn/lunadeer/mc/mcp/server/websocket_gateway/handler/RequestMessageHandler.java:57-66 | A failed execution answers the request's id with INTERNAL_ERROR and "Failed to execute capability: " plus the message |
| RequestMessageHandling.HandleRequest | core/src/main/java/cn/lunadeer/mc/mcp/server/websocket_gateway/handler/RequestMessageHandler.java:32-68 | A non-request message, or any request on an unauthenticated session, changes nothing; otherwise exactly one response is appended and the session's identity and grant are unchanged |
| RequestMessageHandling.ResponseSent | core/src/main/java/cn/lunadeer/mc/mcp/server/websocket_gateway/handler/RequestMessageHandler.java:54-67 | The engine's response is passed on unchanged; a failed execution is reported as INTERNAL_ERROR under the request's id |
| RequestMessageHandling.GatewayCallerNeedsLowRisk | core/src/main/java/cn/lunadeer/mc/mcp/server/websocket_gateway/handler/RequestMessageHandler.java:46-51 | Since a gateway caller holds no roles, the permission check refuses it every capability above LOW risk |
| RequestMessageHandling.WildcardGrantIsLiteral | core/src/main/java/cn/lunadeer/mc/mcp/server/websocket_gateway/handler/RequestMessageHandler.java:46-51 | A gateway holding the "mcp.*" grant is refused any capability that declares a concrete permission |
| RequestMessageHandling.RequestMessageHandler.constructor | core/src/main/java/cn/lunadeer/mc/mcp/server/websocket_gateway/handler/RequestMessageHandler.java:26-29 | The handler keeps the execution engine it dispatches to |
| RequestMessageHandling.RequestMessageHandler.MessageType | core/src/main/java/cn/lunadeer/mc/mcp/server/websocket_gateway/handler/RequestMessageHandler.java:71-73 | The handler serves "request" |
| RequestMessageHandling.RequestMessageHandler.Handle | core/src/main/java/cn/lunadeer/mc/mcp/server/websocket_gateway/handler/RequestMessageHandler.java:32-68 | The session's new state is the request transition of its old state |
| Routing.MessageRouter.constructor | core/src/main/java/cn/lunadeer/mc/modelContextProtocolAgent/communication/MessageRouter.java:32 | A new router has no handlers |
| Routing.MessageRouter.RegisterHandler | core/src/main/java/cn/lunadeer/mc/modelContextProtocolAgent/communication/MessageRouter.java:39-42 | Registering maps the handler's message type to it, replacing any earlier handler; the count grows only for a new type |
| Routing.MessageRouter.Route | core/src/main/java/cn/lunadeer/mc/modelContextProtocolAgent/communication/MessageRouter.java:51-66 | A message is unhandled iff no handler serves its type; otherwise it goes to that type's handler, and a handler's exception is caught and reported |
| Routing.MessageRouter.HandlerCount | core/src/main/java/cn/lunadeer/mc/modelContextProtocolAgent/communication/MessageRouter.java:74-76 | The count is the number of registered message types |
| Routing.MessageRouter.ClearHandlers | core/src/main/java/cn/lunadeer/mc/modelContextProtocolAgent/communication/MessageRouter.java:82-84 | Clearing leaves no handler |
| Routing.ReRegisterReplaces | core/src/main/java/cn/lunadeer/mc/modelContextProtocolAgent/communication/MessageRouter.java:39-42 | Registering two handlers for one type keeps the second and counts the type once |
| EventEmitter.Filter | core/src/main/java/cn/lunadeer/mc/modelContextProtocolAgent/api/McpEventEmitterImpl.java:79-90 | Removing by a predicate keeps exactly the subscriptions it accepts and never grows the list |
| EventEmitter.FilterAppend | core/src/main/java/cn/lunadeer/mc/modelContextProtocolAgent/api/McpEventEmitterImpl.java:79-90 | Filtering distributes over concatenation, so order is preserved |
| EventEmitter.FilterAllKept | core/src/main/java/cn/lunadeer/mc/modelContextProtocolAgent/api/McpEventEmitterImpl.java:79-90 | A filter that accepts every element changes nothing |
| EventEmitter.RemoveIf | core/src/main/java/cn/lunadeer/mc/modelContextProtocolAgent/api/McpEventEmitterImpl.java:79-90 | The in-order `removeIf` loop yields the filtered list |
| EventEmitter.McpEventEmitter.constructor | core/src/main/java/cn/lunadeer/mc/modelContextProtocolAgent/api/McpEventEmitterImpl.java:24 | A new emitter has no subscriptions |
| EventEmitter.McpEventEmitter.SubscriptionCount | core/src/main/java/cn/lunadeer/mc/modelContextProtocolAgent/api/McpEventEmitterImpl.java:98-101 | The count is the number of listeners of the event, 0 for an unknown event |
| EventEmitter.McpEventEmitter.Subscribe | core/src/main/java/cn/lunadeer/mc/modelContextProtocolAgent/api/McpEventEmitterImpl.java:63-76 | Appends a subscription with the new id, filter and subscriber to that event's listeners; its count grows by one and every other event is unchanged |
| EventEmitter.McpEventEmitter.Emit | core/src/main/java/cn/lunadeer/mc/modelContextProtocolAgent/api/McpEventEmitterImpl.java:27-41 | Every listener of the event is notified in order, even after another listener fails, and the failures are exactly the failing listeners |
| EventEmitter.McpEventEmitter.EmitFiltered | core/src/main/java/cn/lunadeer/mc/modelContextProtocolAgent/api/McpEventEmitterImpl.java:44-60 | Exactly the listeners whose filter accepts the event are notified, in order |
| EventEmitter.McpEventEmitter.RemoveEverywhere | core/src/main/java/cn/lunadeer/mc/modelContextProtocolAgent/api/McpEventEmitterImpl.java:79-90 | Each event's listener list is filtered; the set of events is unchanged |
| EventEmitter.McpEventEmitter.Unsubscribe | core/src/main/java/cn/lunadeer/mc/modelContextProtocolAgent/api/McpEventEmitterImpl.java:79-83 | The subscription with the id is removed from every event's listeners; all others stay in order |
| EventEmitter.McpEventEmitter.UnsubscribeAll | core/src/main/java/cn/lunadeer/mc/modelContextProtocolAgent/api/McpEventEmitterImpl.java:86-90 | All of the subscriber's subscriptions are removed from every event; all others stay in order |
| EventEmitter.McpEventEmitter.ClearAll | core/src/main/java/cn/lunadeer/mc/modelContextProtocolAgent/api/McpEventEmitterImpl.java:106-108 | Clearing leaves every event with no listeners |
| EventEmitter.SubscribeThenUnsubscribe | core/src/main/java/cn/lunadeer/mc/modelContextProtocolAgent/api/McpEventEmitterImpl.java:63-83 | Subscribing with a fresh id and then unsubscribing that id restores the event's listeners |
| Tools.NewIcon | core/src/main/java/cn/lunadeer/mc/modelContextProtocolAgent/http_sse/tool/McpTool.java:164-168 | An icon keeps its source and MIME type; null sizes become an empty list |
| Tools.IconJson | core/src/main/java/cn/lunadeer/mc/modelContextProtocolAgent/http_sse/tool/McpTool.java:182-193 | An icon object has exactly `src` and `mimeType`; sizes are never written |
| Tools.AnnotationsJson | core/src/main/java/cn/lunadeer/mc/modelContextProtocolAgent/http_sse/tool/McpTool.java:240-258 | The four boolean hints are always written; `openWorldHint` only when set, by its name |
| Tools.NewTool | core/src/main/java/cn/lunadeer/mc/modelContextProtocolAgent/http_sse/tool/McpTool.java:71-87 | A tool keeps its fields; null icons become an empty list |
| Tools.HeaderJson | core/src/main/java/cn/lunadeer/mc/modelContextProtocolAgent/http_sse/tool/McpTool.java:120-130 | The descriptive part of a tool definition: `name` always, `title` and `description` only when non-empty and then holding that text, and nothing else |
| Tools.SchemaEntry | core/src/main/java/cn/lunadeer/mc/modelContextProtocolAgent/http_sse/tool/McpTool.java:137-147 | A schema is emitted, as Gson re-reads its own output, exactly when the tool has one |
| Tools.ToolJson | core/src/main/java/cn/lunadeer/mc/modelContextProtocolAgent/http_sse/tool/McpTool.java:120-154 | `name` always; `title` and `description` only when non-empty and then holding that text; schemas as Gson re-reads them and annotations only when set; icons never; no other key |
| Tools.IconsInvisible | core/src/main/java/cn/lunadeer/mc/modelContextProtocolAgent/http_sse/tool/McpTool.java:101-154 | A tool's icons have no effect on its JSON |
| ToolResults.ItemJson | core/src/main/java/cn/lunadeer/mc/mcp/http_sse/tool/McpToolResult.java:140-256 | Every content item carries its type tag and exactly the fields of its kind, holding the item's text, data, MIME type, URI, name and description (JSON null for a null text, data, MIME type, URI or name) |
| ToolResults.ItemJsonInjective | core/src/main/java/cn/lunadeer/mc/mcp/http_sse/tool/McpToolResult.java:140-256 | Two content items with the same JSON are the same item: serialisation loses nothing |
| ToolResults.NewToolResult | core/src/main/java/cn/lunadeer/mc/mcp/http_sse/tool/McpToolResult.java:40-44 | A result keeps its flag and structured content; null content becomes an empty list |
| ToolResults.SuccessResult | core/src/main/java/cn/lunadeer/mc/mcp/http_sse/tool/McpToolResult.java:83-87 | A success is one text item, not an error, with no structured content |
| ToolResults.ErrorResult | core/src/main/java/cn/lunadeer/mc/mcp/http_sse/tool/McpToolResult.java:92-96 | An error is one text item flagged as an error |
| ToolResults.SuccessWithStructured | core/src/main/java/cn/lunadeer/mc/mcp/http_sse/tool/McpToolResult.java:101-105 | A structured success is one text item plus the structured content |
| ToolResults.ResultJson | core/src/main/java/cn/lunadeer/mc/mcp/http_sse/tool/McpToolResult.java:61-78 | `content` (one object per item, in order) and `isError` always; `structuredContent` exactly when set |
| ToolResults.SuccessAndErrorDifferOnlyInFlag | core/src/main/java/cn/lunadeer/mc/mcp/http_sse/tool/McpToolResult.java:83-96 | The error and success results for the same text differ only in `isError` |
| ToolDecorator.Utf16Length | core/src/main/java/cn/lunadeer/mc/modelContextProtocolAgent/http_sse/tool/ToolDecorator.java:104-119 | `String.length()` counts UTF-16 units: between one and two per code point |
| ToolDecorator.Utf16LengthOfToolChars | core/src/main/java/cn/lunadeer/mc/modelContextProtocolAgent/http_sse/tool/ToolDecorator.java:104-119 | For the allowed ASCII name characters, the Java length is the number of characters |
| ToolDecorator.ValidateToolName | core/src/main/java/cn/lunadeer/mc/modelContextProtocolAgent/http_sse/tool/ToolDecorator.java:104-119 | A name is accepted, unchanged, iff it is non-null, 1 to 128 characters long and only letters, digits, `_`, `-` and `.`; null or empty is reported as missing |
| ToolDecorator.BuildAnnotations | core/src/main/java/cn/lunadeer/mc/modelContextProtocolAgent/http_sse/tool/ToolDecorator.java:124-141 | Read-only iff a context capability, destructive iff an action, idempotent iff not an action; always local-only with an unknown open-world hint |
| ToolDecorator.AnnotationsConsistent | core/src/main/java/cn/lunadeer/mc/modelContextProtocolAgent/http_sse/tool/ToolDecorator.java:124-141 | No tool is both read-only and destructive, and a destructive tool is never idempotent |
| ToolDecorator.BuildIcons | core/src/main/java/cn/lunadeer/mc/modelContextProtocolAgent/http_sse/tool/ToolDecorator.java:146-171 | A capability with a type gets exactly one SVG icon; a null type fails |
| ToolDecorator.Decorate | core/src/main/java/cn/lunadeer/mc/modelContextProtocolAgent/http_sse/tool/ToolDecorator.java:37-74 | Decoration succeeds iff descriptor, manifest, a valid id and a type are all present; a null descriptor is reported as such and only it |
| ToolDecorator.DecoratedToolShape | core/src/main/java/cn/lunadeer/mc/modelContextProtocolAgent/http_sse/tool/ToolDecorator.java:37-74 | The tool is named by the manifest id, titled by the name or else the id, described by the description or else the default, with one SVG icon, the descriptor's schemas and the annotations of its type |
| ToolDecorator.DecoratedToolAdvertisesTitleAndDescription | core/src/main/java/cn/lunadeer/mc/modelContextProtocolAgent/http_sse/tool/ToolDecorator.java:37-74 | A decorated tool's JSON always has a string name, a title and a description |
| ToolDecorator.Decorated | core/src/main/java/cn/lunadeer/mc/modelContextProtocolAgent/http_sse/tool/ToolDecorator.java:82-92 | The decorated list is never longer than the input |
| ToolDecorator.DecoratedStep | core/src/main/java/cn/lunadeer/mc/modelContextProtocolAgent/http_sse/tool/ToolDecorator.java:84-90 | One more descriptor appends its tool when it decorates and adds nothing otherwise |
| ToolDecorator.PresentStep | core/src/main/java/cn/lunadeer/mc/modelContextProtocolAgent/http_sse/tool/ToolDecorator.java:84-90 | A non-null descriptor keeps the visited prefix free of nulls |
| ToolDecorator.DecoratedFromInputs | core/src/main/java/cn/lunadeer/mc/modelContextProtocolAgent/http_sse/tool/ToolDecorator.java:82-92 | Every listed tool is the decoration of some input descriptor |
| ToolDecorator.DecoratedAllSucceed | core/src/main/java/cn/lunadeer/mc/modelContextProtocolAgent/http_sse/tool/ToolDecorator.java:82-92 | When every descriptor decorates, the list holds every tool in input order |
| ToolDecorator.DecorateAll | core/src/main/java/cn/lunadeer/mc/modelContextProtocolAgent/http_sse/tool/ToolDecorator.java:82-92 | The intended loop: each failing descriptor is skipped and the rest are decorated in order |
| ToolDecorator.DecorateAllAsWritten | core/src/main/java/cn/lunadeer/mc/modelContextProtocolAgent/http_sse/tool/ToolDecorator.java:82-92 | The loop as written fails as a whole iff some descriptor is null, and otherwise gives the intended list |
| ToolDecorator.NullDescriptorAborts | core/src/main/java/cn/lunadeer/mc/modelContextProtocolAgent/http_sse/tool/ToolDecorator.java:87-89 | For a list holding one null descriptor the loop as written fails, while the intended behaviour lists no tools |
| ToolDecorator.ConvertToolCallToCapability | core/src/main/java/cn/lunadeer/mc/modelContextProtocolAgent/http_sse/tool/ToolDecorator.java:179-194 | The copied parameter map equals the tool-call arguments |
| ToolDecorator.ConvertCapabilityToToolResult | core/src/main/java/cn/lunadeer/mc/modelContextProtocolAgent/http_sse/tool/ToolDecorator.java:202-223 | Always one text item, never an error; null gives "Success", a string itself, any other plain value its `toString`; a map gives its Gson text and its Gson tree as structured content, a Gson object its Gson text and itself; nothing else has structured content |
| ToolDecorator.StructuredMapIsNullFree | core/src/main/java/cn/lunadeer/mc/modelContextProtocolAgent/http_sse/tool/ToolDecorator.java:202-223 | Structured content made from a map has no null entry at any depth |

## Left out

- Concurrency: the `CompletableFuture` chains and `ConcurrentHashMap`/`CopyOnWriteArrayList` tables are modelled as sequential steps; interleavings are not modelled.
- Floating point: numbers are exact reals, so NaN, infinities and rounding in bound comparisons are not modelled.
- SchemaValidator.GetDouble: string bounds are parsed as `Double.parseDouble` reads decimal text (surrounding characters up to U+0020 trimmed, an optional sign, digits with one optional point, an optional d/D/f/F suffix); exponents, hexadecimal and "NaN"/"Infinity" are treated as unparsable.
- Logging, `UUID.randomUUID()`, `Bukkit.getServer()` and the `Configuration` values are not modelled; they enter as parameters (`ackId`, `newId`, `ServerEnvironment`).
- Java iteration order of `HashMap`/`HashSet` is unspecified, so it is a choice in the model; payload key order is not modelled because payloads are maps.
- The text encoding done by the message codec, and Gson's reflection of capability manifests, are parameters (`manifestTree`, `toJson`, `toStr`); a Gson `JsonObject` and a `Map` are both `VObject`.
- `SchemaValidator.CheckValue`: the `Integer` and `Double` type tokens are not told apart, so "integer" accepts any number, as Java's `instanceof Number` check does.
- `PermissionChecker.RequiredPermissions`: a capability descriptor with a null permission list, which would throw, is not modelled; permissions are always a list.
- `EventEmitter.McpEventEmitter.UnsubscribeAll`: the exception a null subscriber id would raise when compared is not modelled.
- `Execution.ExecutionContext.GetParameterAs`: every number is one `VNumber`, so the `Integer`, `Long` and `Double` class tokens are not told apart and there is only the `Number` token; Java's null answer for `Integer.class` on a parameter that Gson parsed as a `Double` is not modelled.
- `McpRequests.RequestBuilder.Build`: the built request shares the builder's parameter map in Java; the model copies it, so later builder changes do not show through.
- Exceptions thrown by encoding or sending inside the handlers' callbacks are not modelled.
- `RequestMessageHandling.ExecutionFailure`: the message of a wrapping `CompletionException` is the engine's message as given; Java's wrapping text is not reconstructed.
- `SchemaValidator.CheckRequired`: required entries that are numbers, arrays or objects render through `toString` in Java; their rendering is not modelled and they are treated as satisfied.
- GatewaySession.java, SessionManager.java and AuthRequest.java of the gateway tree are not part of this model: the session is the `Sessions.GatewaySession` state the handlers read and write, and `markAuthenticated` sets its authenticated flag.
- The gateway tree's McpResponse.java and AuthHandler.java, and the agent tree's McpToolResult.java, are not part of this model; the other tree's versions are modelled and used in their place (`ToolDecorator.ConvertCapabilityToToolResult` builds the gateway tree's `ToolResults`).
- `PermissionChecker.Order` is the interceptor's constant order 100 (`getOrder`); it is a constant, so it has no contract.
- A null descriptor list passed to `decorateAll` is not modelled; the list is always a sequence.

## Findings

| source | as written | input that shows it | evidently intended | confidence | as-written member | corrected member |
|---|---|---|---|---|---|---|
| core/src/main/java/cn/lunadeer/mc/modelContextProtocolAgent/http_sse/tool/ToolDecorator.java:82-92 | The catch block that is meant to skip a bad descriptor calls `descriptor.getId()`. For a null descriptor this throws again, so `decorateAll` fails as a whole | a descriptor list holding one null entry | a descriptor that fails to decorate, null included, is skipped and the rest are listed | not executed | ToolDecorator.DecorateAllAsWritten | ToolDecorator.DecorateAll |
