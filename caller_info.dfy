/** The identity of one invocation's caller, and the set predicates the
    authorisation check asks of it. Both sets may be `null` in Java. */
module CallerInfos {
  import opened Wrappers

  datatype CallerInfo = CallerInfo(
    id: Option<string>,
    name: Option<string>,
    permissions: Option<set<string>>,
    roles: Option<set<string>>)
  {
    /** Literal membership; a null permission set holds nothing. */
    predicate HasPermission(permission: string): (held: bool)
      ensures permissions.None? ==> !held
      ensures permissions.Some? ==> (held <==> permission in permissions.value)
    {
      permissions.Some? && permission in permissions.value
    }

    /** Literal membership; a null role set holds nothing. */
    predicate HasRole(role: string): (held: bool)
      ensures roles.None? ==> !held
      ensures roles.Some? ==> (held <==> role in roles.value)
    {
      roles.Some? && role in roles.value
    }

    /** `anyMatch` over the requirement: a null or empty requirement is met by
        everyone, otherwise one required permission must be held. */
    function HasAnyPermission(required: Option<set<string>>): (r: bool)
      ensures required.None? || required.value == {} ==> r
      ensures required.Some? && required.value != {} ==>
                (r <==> permissions.Some? && required.value * permissions.value != {})
    {
      if required.None? || required.value == {} then true
      else if permissions.None? then false
      else
        var found := exists p :: p in required.value && p in permissions.value;
        assert found <==> required.value * permissions.value != {} by {
          if found {
            var p :| p in required.value && p in permissions.value;
            assert p in required.value * permissions.value;
          }
        }
        found
    }

    /** `allMatch` over the requirement: a null or empty requirement is met by
        everyone, even a caller whose own set is null; otherwise the requirement
        must be a subset of the caller's permissions. */
    function HasAllPermissions(required: Option<set<string>>): (r: bool)
      ensures required.None? || required.value == {} ==> r
      ensures required.Some? && required.value != {} ==>
                (r <==> permissions.Some? && required.value <= permissions.value)
    {
      if required.None? || required.value == {} then true
      else if permissions.None? then false
      else forall p :: p in required.value ==> p in permissions.value
    }
  }

  /** For a non-empty requirement, holding all of it means holding some of it. */
  lemma AllImpliesAny(c: CallerInfo, required: set<string>)
    requires required != {}
    requires c.HasAllPermissions(Some(required))
    ensures c.HasAnyPermission(Some(required))
  {
    var p :| p in required;
    assert p in required * c.permissions.value;
  }

  /** A requirement of one permission is exactly `hasPermission`. */
  lemma AllOfOneIsHasPermission(c: CallerInfo, permission: string)
    ensures c.HasAllPermissions(Some({permission})) == c.HasPermission(permission)
    ensures c.HasAnyPermission(Some({permission})) == c.HasPermission(permission)
  {
    if c.HasPermission(permission) {
      assert permission in {permission} * c.permissions.value;
    }
  }

  /** Granting a caller more permissions never loses a requirement it met. */
  lemma HasAllMonotone(c: CallerInfo, more: set<string>, required: Option<set<string>>)
    requires c.permissions.Some? && c.permissions.value <= more
    requires c.HasAllPermissions(required)
    ensures c.(permissions := Some(more)).HasAllPermissions(required)
  {
  }

  /** Matching is literal: a wildcard-looking grant covers only itself. */
  lemma WildcardIsLiteral()
    ensures !CallerInfo(None, None, Some({"mcp.*"}), None).HasPermission("mcp.context.world.time")
    ensures !CallerInfo(None, None, Some({"mcp.*"}), None).HasAllPermissions(Some({"mcp.context.world.time"}))
  {
  }
}
