/** Shared-secret authentication of a gateway connection. The configured secret
    is a parameter (it comes from the plugin configuration). */
module Auth {
  import opened Wrappers

  /** `Character.isWhitespace`: Unicode space, line and paragraph separators except
      the three non-breaking spaces, plus the ASCII controls HT, LF, VT, FF, CR
      and the four information separators. */
  predicate IsJavaWhitespace(c: char) {
    var n := c as int;
    (0x09 <= n <= 0x0D) || (0x1C <= n <= 0x20) || n == 0x1680 ||
    (0x2000 <= n <= 0x2006) || (0x2008 <= n <= 0x200A) ||
    n == 0x2028 || n == 0x2029 || n == 0x205F || n == 0x3000
  }

  /** `String.isBlank`: empty or only whitespace. */
  predicate IsBlank(s: string) {
    forall i :: 0 <= i < |s| ==> IsJavaWhitespace(s[i])
  }

  /** The only permission ever granted: a wildcard that is matched literally. */
  const GatewayWildcard := "mcp.*"
  const InvalidTokenReason := "Invalid token"

  /** An authentication outcome, built by a builder with exactly these fields. */
  datatype AuthResult = AuthResult(success: bool, reason: Option<string>, permissions: Option<set<string>>)

  /** `AuthResult.builder()`: success true, no reason, no permissions. */
  function NewBuilder(): (b: AuthResult)
    ensures b.success && b.reason.None? && b.permissions.None?
  {
    AuthResult(true, None, None)
  }

  /** `AuthResult.success(p)`. */
  function SuccessResult(permissions: Option<set<string>>): (r: AuthResult)
    ensures r.success && r.permissions == permissions && r.reason.None?
  {
    NewBuilder().(success := true, permissions := permissions)
  }

  /** `AuthResult.failure(reason)`. */
  function FailureResult(reason: Option<string>): (r: AuthResult)
    ensures !r.success && r.reason == reason && r.permissions.None?
  {
    NewBuilder().(success := false, reason := reason)
  }

  /** `validateToken`: an unset or blank secret lets every token in (development
      mode); otherwise the presented token must equal it exactly. */
  predicate ValidateToken(configured: Option<string>, token: Option<string>): (ok: bool)
    ensures configured.None? ==> ok
    ensures configured.Some? && IsBlank(configured.value) ==> ok
    ensures configured.Some? && !IsBlank(configured.value) ==> (ok <==> token == configured)
  {
    configured.None? || IsBlank(configured.value) || token == configured
  }

  /** `getGatewayPermissions`: the same grant for every gateway. */
  function GatewayPermissions(gatewayId: Option<string>): (p: set<string>)
    ensures p == {GatewayWildcard}
  {
    {GatewayWildcard}
  }

  /** `authenticate`. The gateway-id whitelist branch only logs. */
  function Authenticate(configured: Option<string>, gatewayId: Option<string>, token: Option<string>): (r: AuthResult)
    ensures r.success <==> ValidateToken(configured, token)
    ensures r.success ==> r.permissions == Some({GatewayWildcard}) && r.reason.None?
    ensures !r.success ==> r.reason == Some(InvalidTokenReason) && r.permissions.None?
  {
    if !ValidateToken(configured, token) then FailureResult(Some(InvalidTokenReason))
    else SuccessResult(Some(GatewayPermissions(gatewayId)))
  }

  /** With no usable secret configured every presented token, even a null one, is accepted. */
  lemma UnsetSecretAcceptsAll(configured: Option<string>, gatewayId: Option<string>, token: Option<string>)
    requires configured.None? || IsBlank(configured.value)
    ensures Authenticate(configured, gatewayId, token).success
  {
  }

  /** With a secret configured, authentication succeeds exactly for that secret. */
  lemma SecretMatchedExactly(secret: string, gatewayId: Option<string>, token: Option<string>)
    requires !IsBlank(secret)
    ensures Authenticate(Some(secret), gatewayId, token).success <==> token == Some(secret)
  {
  }

  /** The gateway id never influences the outcome. */
  lemma GatewayIdIrrelevant(configured: Option<string>, g1: Option<string>, g2: Option<string>, token: Option<string>)
    ensures Authenticate(configured, g1, token) == Authenticate(configured, g2, token)
  {
  }

  /** A secret of spaces, tabs and line breaks counts as unset, but one made of a
      non-breaking space (U+00A0) does not: it must then be presented exactly. */
  lemma BlankSecretBoundary(gatewayId: Option<string>, token: Option<string>)
    ensures Authenticate(Some(" \t\r\n"), gatewayId, token).success
    ensures Authenticate(Some([0xA0 as char]), gatewayId, token).success <==> token == Some([0xA0 as char])
  {
    assert !IsBlank([0xA0 as char]) by { assert !IsJavaWhitespace(([0xA0 as char])[0]); }
  }
}
