/**
 * Role and permission records, and the checks over a user's roles: the
 * admin override and wildcard grants of HasPermission, and the
 * case-insensitive role-name checks.
 */
module Permissions {
  import opened Wrappers
  import opened Text

  datatype Permission = Permission(name: string, resource: string, action: string)

  datatype Role = Role(name: string, permissions: seq<Permission>)

  /** The part of a user record the checks read: its roles with their permissions. A nil user is None in the callers. */
  datatype Account = Account(id: string, roles: seq<Role>)

  const Wildcard: string := "*"

  /** The four grant tests of the inner loop: exact, both wildcards, wildcard action, wildcard resource. */
  predicate Grants(p: Permission, resource: string, action: string) {
    (p.resource == resource && p.action == action)
    || (p.resource == Wildcard && p.action == Wildcard)
    || (p.resource == resource && p.action == Wildcard)
    || (p.resource == Wildcard && p.action == action)
  }

  /** The four tests amount to: the resource matches or is "*", and the action matches or is "*". */
  lemma GrantsMeaning(p: Permission, resource: string, action: string)
    ensures Grants(p, resource, action) <==>
      (p.resource == resource || p.resource == Wildcard) && (p.action == action || p.action == Wildcard)
  {
  }

  predicate IsAdminRole(r: Role) {
    ToLower(r.name) == "admin"
  }

  /** The first loop: is there a role whose lower-cased name is "admin"? */
  function AnyAdmin(roles: seq<Role>): bool
    decreases |roles|
  {
    if |roles| == 0 then false else IsAdminRole(roles[0]) || AnyAdmin(roles[1..])
  }

  function AnyGrant(perms: seq<Permission>, resource: string, action: string): bool
    decreases |perms|
  {
    if |perms| == 0 then false else Grants(perms[0], resource, action) || AnyGrant(perms[1..], resource, action)
  }

  /** The second, nested loop over every role's permissions. */
  function AnyRoleGrants(roles: seq<Role>, resource: string, action: string): bool
    decreases |roles|
  {
    if |roles| == 0 then false
    else AnyGrant(roles[0].permissions, resource, action) || AnyRoleGrants(roles[1..], resource, action)
  }

  /** HasPermission. */
  function HasPermission(user: Option<Account>, resource: string, action: string): bool {
    user.Some? && |user.value.roles| > 0
    && (AnyAdmin(user.value.roles) || AnyRoleGrants(user.value.roles, resource, action))
  }

  lemma {:induction false} AnyAdminMeaning(roles: seq<Role>)
    ensures AnyAdmin(roles) <==> exists i :: 0 <= i < |roles| && IsAdminRole(roles[i])
    decreases |roles|
  {
    if |roles| > 0 {
      AnyAdminMeaning(roles[1..]);
      assert forall i :: 1 <= i < |roles| ==> roles[i] == roles[1..][i - 1];
      if AnyAdmin(roles[1..]) {
        var i :| 0 <= i < |roles[1..]| && IsAdminRole(roles[1..][i]);
        assert IsAdminRole(roles[i + 1]);
      }
    }
  }

  lemma {:induction false} AnyGrantMeaning(perms: seq<Permission>, resource: string, action: string)
    ensures AnyGrant(perms, resource, action) <==> exists j :: 0 <= j < |perms| && Grants(perms[j], resource, action)
    decreases |perms|
  {
    if |perms| > 0 {
      AnyGrantMeaning(perms[1..], resource, action);
      assert forall j :: 1 <= j < |perms| ==> perms[j] == perms[1..][j - 1];
      if AnyGrant(perms[1..], resource, action) {
        var j :| 0 <= j < |perms[1..]| && Grants(perms[1..][j], resource, action);
        assert Grants(perms[j + 1], resource, action);
      }
    }
  }

  /** Some role holds a permission granting the pair. */
  predicate SomeRoleGrants(roles: seq<Role>, resource: string, action: string) {
    exists i, j :: 0 <= i < |roles| && 0 <= j < |roles[i].permissions| && Grants(roles[i].permissions[j], resource, action)
  }

  lemma {:induction false} AnyRoleGrantsMeaning(roles: seq<Role>, resource: string, action: string)
    ensures AnyRoleGrants(roles, resource, action) <==> SomeRoleGrants(roles, resource, action)
    decreases |roles|
  {
    if |roles| > 0 {
      AnyRoleGrantsMeaning(roles[1..], resource, action);
      AnyGrantMeaning(roles[0].permissions, resource, action);
      assert forall i :: 1 <= i < |roles| ==> roles[i] == roles[1..][i - 1];
      if SomeRoleGrants(roles[1..], resource, action) {
        var i, j :| 0 <= i < |roles[1..]| && 0 <= j < |roles[1..][i].permissions|
                  && Grants(roles[1..][i].permissions[j], resource, action);
        assert Grants(roles[i + 1].permissions[j], resource, action);
      }
      if SomeRoleGrants(roles, resource, action) {
        var i, j :| 0 <= i < |roles| && 0 <= j < |roles[i].permissions| && Grants(roles[i].permissions[j], resource, action);
        if i > 0 {
          assert Grants(roles[1..][i - 1].permissions[j], resource, action);
        }
      }
    }
  }

  /**
   * HasPermission holds exactly when there is a user with roles and either
   * one role is named "admin" in any letter case, or some role's permission
   * matches the resource (or "*") and the action (or "*").
   */
  lemma HasPermissionMeaning(user: Option<Account>, resource: string, action: string)
    ensures HasPermission(user, resource, action) <==>
      user.Some? && |user.value.roles| > 0 &&
      ((exists i :: 0 <= i < |user.value.roles| && IsAdminRole(user.value.roles[i]))
       || SomeRoleGrants(user.value.roles, resource, action))
  {
    if user.Some? {
      AnyAdminMeaning(user.value.roles);
      AnyRoleGrantsMeaning(user.value.roles, resource, action);
    }
  }

  /** An admin role, whatever its letter case, grants every resource and action. */
  lemma AdminHasEveryPermission(u: Account, i: nat, resource: string, action: string)
    requires i < |u.roles| && IsAdminRole(u.roles[i])
    ensures HasPermission(Some(u), resource, action)
  {
    HasPermissionMeaning(Some(u), resource, action);
  }

  /** No user, or a user without roles, has no permission. */
  lemma NoRolesNoPermission(user: Option<Account>, resource: string, action: string)
    requires user.None? || user.value.roles == []
    ensures !HasPermission(user, resource, action)
  {
  }

  function AnyRoleNamed(roles: seq<Role>, lowered: string): bool
    decreases |roles|
  {
    if |roles| == 0 then false else ToLower(roles[0].name) == lowered || AnyRoleNamed(roles[1..], lowered)
  }

  /** HasRole: a name comparison after lower-casing both sides. */
  function HasRole(user: Option<Account>, roleName: string): bool {
    user.Some? && |user.value.roles| > 0 && AnyRoleNamed(user.value.roles, ToLower(roleName))
  }

  lemma {:induction false} AnyRoleNamedMeaning(roles: seq<Role>, lowered: string)
    ensures AnyRoleNamed(roles, lowered) <==> exists i :: 0 <= i < |roles| && ToLower(roles[i].name) == lowered
    decreases |roles|
  {
    if |roles| > 0 {
      AnyRoleNamedMeaning(roles[1..], lowered);
      assert forall i :: 1 <= i < |roles| ==> roles[i] == roles[1..][i - 1];
      if AnyRoleNamed(roles[1..], lowered) {
        var i :| 0 <= i < |roles[1..]| && ToLower(roles[1..][i].name) == lowered;
        assert ToLower(roles[i + 1].name) == lowered;
      }
    }
  }

  /** HasRole holds iff some role's name equals the asked name up to letter case. */
  lemma HasRoleMeaning(user: Option<Account>, roleName: string)
    ensures HasRole(user, roleName) <==>
      user.Some? && exists i :: 0 <= i < |user.value.roles| && ToLower(user.value.roles[i].name) == ToLower(roleName)
  {
    if user.Some? {
      AnyRoleNamedMeaning(user.value.roles, ToLower(roleName));
    }
  }

  /** Letter case of the asked name does not matter. */
  lemma HasRoleIgnoresCase(user: Option<Account>, roleName: string)
    ensures HasRole(user, roleName) == HasRole(user, ToLower(roleName))
    ensures HasRole(user, roleName) == HasRole(user, ToUpper(roleName))
  {
    ToLowerIdempotent(roleName);
    assert ToLower(ToUpper(roleName)) == ToLower(roleName) by {
      assert forall i :: 0 <= i < |roleName| ==> LowerChar(UpperChar(roleName[i])) == LowerChar(roleName[i]);
    }
  }

  function AnyHasRole(user: Option<Account>, names: seq<string>): bool
    decreases |names|
  {
    if |names| == 0 then false else HasRole(user, names[0]) || AnyHasRole(user, names[1..])
  }

  /** HasAnyRole. */
  function HasAnyRole(user: Option<Account>, names: seq<string>): bool {
    user.Some? && |user.value.roles| > 0 && |names| > 0 && AnyHasRole(user, names)
  }

  lemma {:induction false} AnyHasRoleMeaning(user: Option<Account>, names: seq<string>)
    ensures AnyHasRole(user, names) <==> exists j :: 0 <= j < |names| && HasRole(user, names[j])
    decreases |names|
  {
    if |names| > 0 {
      AnyHasRoleMeaning(user, names[1..]);
      assert forall j :: 1 <= j < |names| ==> names[j] == names[1..][j - 1];
      if AnyHasRole(user, names[1..]) {
        var j :| 0 <= j < |names[1..]| && HasRole(user, names[1..][j]);
        assert HasRole(user, names[j + 1]);
      }
    }
  }

  /** HasAnyRole is false for no names, and otherwise holds iff some name passes HasRole. */
  lemma HasAnyRoleMeaning(user: Option<Account>, names: seq<string>)
    ensures HasAnyRole(user, names) <==> exists j :: 0 <= j < |names| && HasRole(user, names[j])
  {
    AnyHasRoleMeaning(user, names);
  }
}
