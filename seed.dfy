/**
 * Seeding of the default permissions and roles. The permission and role
 * tables are fields of a class; seeding creates each default permission
 * whose name is not taken, then each default role that does not exist yet,
 * giving a newly created role the permissions its query selects at that
 * moment. A role that already exists is left as it is.
 */
module Seeding {
  import opened Wrappers
  import opened Text
  import opened Permissions

  const EventPermissions: seq<Permission> := [
    Permission("create:event", "events", "create"),
    Permission("read:event", "events", "read"),
    Permission("update:event", "events", "update"),
    Permission("delete:event", "events", "delete")
  ]

  const UserPermissions: seq<Permission> := [
    Permission("create:user", "users", "create"),
    Permission("read:user", "users", "read"),
    Permission("update:user", "users", "update"),
    Permission("delete:user", "users", "delete")
  ]

  const OrganizerPermissions: seq<Permission> := [Permission("manage:staff", "staff", "manage")]

  /** The permissions the seeding loop walks, in order. */
  const DefaultPermissions: seq<Permission> := EventPermissions + UserPermissions + OrganizerPermissions

  predicate NameTaken(perms: seq<Permission>, name: string) {
    exists i :: 0 <= i < |perms| && perms[i].name == name
  }

  predicate RoleExists(roles: seq<Role>, name: string) {
    exists i :: 0 <= i < |roles| && roles[i].name == name
  }

  /** One step of the permission loop: create the permission unless its name is taken. */
  function AddIfMissing(perms: seq<Permission>, p: Permission): seq<Permission> {
    if NameTaken(perms, p.name) then perms else perms + [p]
  }

  /** The permission table after the loop has walked `ds`. */
  function CreateMissing(perms: seq<Permission>, ds: seq<Permission>): seq<Permission>
    decreases |ds|
  {
    if |ds| == 0 then perms else AddIfMissing(CreateMissing(perms, ds[..|ds| - 1]), ds[|ds| - 1])
  }

  /** A role step: create the role with `granted` unless a role of that name exists. */
  function WithRole(roles: seq<Role>, name: string, granted: seq<Permission>): seq<Role> {
    if RoleExists(roles, name) then roles else roles + [Role(name, granted)]
  }

  /** The rows a `Find` with a condition returns, in table order. */
  function Select(perms: seq<Permission>, cond: Permission -> bool): (r: seq<Permission>)
    decreases |perms|
  {
    if |perms| == 0 then [] else (if cond(perms[0]) then [perms[0]] else []) + Select(perms[1..], cond)
  }

  predicate OrganizerQuery(p: Permission) { p.resource == "events" || p.resource == "staff" }
  predicate StaffQuery(p: Permission) { p.name == "read:event" || p.name == "read:user" }
  predicate ManagerQuery(p: Permission) {
    p.name == "read:event" || p.name == "read:user" || p.name == "update:event"
    || p.name == "create:event" || p.name == "manage:staff"
  }
  predicate UserQuery(p: Permission) { p.name == "read:event" }

  /** The roles after the five role steps, over the final permission table `perms`. */
  function SeededRoles(perms: seq<Permission>, roles: seq<Role>): seq<Role> {
    var r1 := WithRole(roles, "admin", perms);
    var r2 := WithRole(r1, "organizer", Select(perms, OrganizerQuery));
    var r3 := WithRole(r2, "staff", Select(perms, StaffQuery));
    var r4 := WithRole(r3, "manager", Select(perms, ManagerQuery));
    WithRole(r4, "user", Select(perms, UserQuery))
  }

  class RoleTables {
    var permissions: seq<Permission>
    var roles: seq<Role>

    constructor (perms: seq<Permission>, rs: seq<Role>)
      ensures permissions == perms && roles == rs
    {
      permissions := perms;
      roles := rs;
    }

    /** The check-then-create-then-assign step for one role. */
    method EnsureRole(name: string, cond: Permission -> bool, all: bool)
      modifies this
      ensures permissions == old(permissions)
      ensures roles == WithRole(old(roles), name, if all then permissions else Select(permissions, cond))
    {
      if !RoleExists(roles, name) {
        var granted := if all then permissions else Select(permissions, cond);
        roles := roles + [Role(name, granted)];
      }
    }

    /** SeedRoles: the permission loop, then the admin, organizer, staff, manager and user roles. */
    method SeedRoles()
      modifies this
      ensures permissions == CreateMissing(old(permissions), DefaultPermissions)
      ensures roles == SeededRoles(permissions, old(roles))
    {
      var i := 0;
      while i < |DefaultPermissions|
        invariant 0 <= i <= |DefaultPermissions|
        invariant permissions == CreateMissing(old(permissions), DefaultPermissions[..i])
        invariant roles == old(roles)
      {
        assert DefaultPermissions[..i + 1][..i] == DefaultPermissions[..i];
        var p := DefaultPermissions[i];
        if !NameTaken(permissions, p.name) {
          permissions := permissions + [p];
        }
        i := i + 1;
      }
      assert DefaultPermissions[..i] == DefaultPermissions;
      EnsureRole("admin", OrganizerQuery, true);
      EnsureRole("organizer", OrganizerQuery, false);
      EnsureRole("staff", StaffQuery, false);
      EnsureRole("manager", ManagerQuery, false);
      EnsureRole("user", UserQuery, false);
    }
  }

  /** A permission name, once taken, stays taken through the loop. */
  lemma {:induction false} CreateMissingKeeps(perms: seq<Permission>, ds: seq<Permission>)
    ensures |CreateMissing(perms, ds)| >= |perms|
    ensures CreateMissing(perms, ds)[..|perms|] == perms
    decreases |ds|
  {
    if |ds| > 0 {
      CreateMissingKeeps(perms, ds[..|ds| - 1]);
    }
  }

  /** After the loop every default name is taken. */
  lemma {:induction false} CreateMissingCovers(perms: seq<Permission>, ds: seq<Permission>)
    ensures forall k :: 0 <= k < |ds| ==> NameTaken(CreateMissing(perms, ds), ds[k].name)
    decreases |ds|
  {
    if |ds| > 0 {
      var pre := ds[..|ds| - 1];
      CreateMissingCovers(perms, pre);
      var t := CreateMissing(perms, pre);
      var t' := AddIfMissing(t, ds[|ds| - 1]);
      assert t'[..|t|] == t;
      forall k | 0 <= k < |ds|
        ensures NameTaken(t', ds[k].name)
      {
        if k < |ds| - 1 {
          assert ds[k] == pre[k];
          var i :| 0 <= i < |t| && t[i].name == ds[k].name;
          assert t'[i] == t[i];
        } else if !NameTaken(t, ds[k].name) {
          assert t'[|t|] == ds[k];
        }
      }
    }
  }

  /** The loop adds no row when every name it walks is already taken. */
  lemma {:induction false} CreateMissingNoop(perms: seq<Permission>, ds: seq<Permission>)
    requires forall k :: 0 <= k < |ds| ==> NameTaken(perms, ds[k].name)
    ensures CreateMissing(perms, ds) == perms
    decreases |ds|
  {
    if |ds| > 0 {
      CreateMissingNoop(perms, ds[..|ds| - 1]);
      assert NameTaken(perms, ds[|ds| - 1].name);
    }
  }

  /** The loop appends every walked permission when none of their names is taken and they are pairwise distinct. */
  lemma {:induction false} CreateMissingFresh(perms: seq<Permission>, ds: seq<Permission>)
    requires forall k :: 0 <= k < |ds| ==> !NameTaken(perms, ds[k].name)
    requires forall k, l :: 0 <= k < l < |ds| ==> ds[k].name != ds[l].name
    ensures CreateMissing(perms, ds) == perms + ds
    decreases |ds|
  {
    if |ds| > 0 {
      var pre := ds[..|ds| - 1];
      CreateMissingFresh(perms, pre);
      var last := ds[|ds| - 1];
      assert perms + pre + [last] == perms + ds;
    }
  }

  /** A role step leaves a role of that name in place, and later steps keep it. */
  lemma WithRoleExists(roles: seq<Role>, name: string, granted: seq<Permission>, other: string)
    ensures RoleExists(WithRole(roles, name, granted), name)
    ensures RoleExists(roles, other) ==> RoleExists(WithRole(roles, name, granted), other)
  {
    var r := WithRole(roles, name, granted);
    if !RoleExists(roles, name) {
      assert r[|roles|].name == name;
    }
    if RoleExists(roles, other) {
      var i :| 0 <= i < |roles| && roles[i].name == other;
      assert r[i] == roles[i];
    }
  }

  /** Every default role exists after seeding. */
  lemma SeededRolesExist(perms: seq<Permission>, roles: seq<Role>)
    ensures var r := SeededRoles(perms, roles);
      RoleExists(r, "admin") && RoleExists(r, "organizer") && RoleExists(r, "staff")
      && RoleExists(r, "manager") && RoleExists(r, "user")
  {
    var r1 := WithRole(roles, "admin", perms);
    var r2 := WithRole(r1, "organizer", Select(perms, OrganizerQuery));
    var r3 := WithRole(r2, "staff", Select(perms, StaffQuery));
    var r4 := WithRole(r3, "manager", Select(perms, ManagerQuery));
    WithRoleExists(roles, "admin", perms, "admin");
    WithRoleExists(r1, "organizer", Select(perms, OrganizerQuery), "admin");
    WithRoleExists(r2, "staff", Select(perms, StaffQuery), "admin");
    WithRoleExists(r2, "staff", Select(perms, StaffQuery), "organizer");
    WithRoleExists(r3, "manager", Select(perms, ManagerQuery), "admin");
    WithRoleExists(r3, "manager", Select(perms, ManagerQuery), "organizer");
    WithRoleExists(r3, "manager", Select(perms, ManagerQuery), "staff");
    WithRoleExists(r4, "user", Select(perms, UserQuery), "admin");
    WithRoleExists(r4, "user", Select(perms, UserQuery), "organizer");
    WithRoleExists(r4, "user", Select(perms, UserQuery), "staff");
    WithRoleExists(r4, "user", Select(perms, UserQuery), "manager");
  }

  /**
   * Seeding twice leaves the tables as seeding once does, whatever they
   * held before: the second run finds every name taken and every role present.
   */
  lemma SeedingIsIdempotent(perms: seq<Permission>, roles: seq<Role>)
    ensures var p1 := CreateMissing(perms, DefaultPermissions);
      var r1 := SeededRoles(p1, roles);
      CreateMissing(p1, DefaultPermissions) == p1 && SeededRoles(p1, r1) == r1
  {
    var p1 := CreateMissing(perms, DefaultPermissions);
    CreateMissingCovers(perms, DefaultPermissions);
    CreateMissingNoop(p1, DefaultPermissions);
    SeededRolesExist(p1, roles);
  }

  /** The nine default permissions have distinct names. */
  lemma DefaultNamesDistinct()
    ensures |DefaultPermissions| == 9
    ensures forall k, l :: 0 <= k < l < |DefaultPermissions| ==> DefaultPermissions[k].name != DefaultPermissions[l].name
  {
  }

  /** On an empty database seeding creates the nine defaults in loop order. */
  lemma FreshPermissions()
    ensures CreateMissing([], DefaultPermissions) == DefaultPermissions
  {
    DefaultNamesDistinct();
    CreateMissingFresh([], DefaultPermissions);
  }

  const OrganizerSeeded: seq<Permission> := EventPermissions + OrganizerPermissions
  const StaffSeeded: seq<Permission> := [Permission("read:event", "events", "read"), Permission("read:user", "users", "read")]
  const ManagerSeeded: seq<Permission> := [
    Permission("create:event", "events", "create"),
    Permission("read:event", "events", "read"),
    Permission("update:event", "events", "update"),
    Permission("read:user", "users", "read"),
    Permission("manage:staff", "staff", "manage")
  ]
  const UserSeeded: seq<Permission> := [Permission("read:event", "events", "read")]

  lemma {:induction false} SelectConcat(a: seq<Permission>, b: seq<Permission>, cond: Permission -> bool)
    ensures Select(a + b, cond) == Select(a, cond) + Select(b, cond)
    decreases |a|
  {
    if |a| == 0 {
      assert a + b == b;
    } else {
      var h := if cond(a[0]) then [a[0]] else [];
      assert (a + b)[0] == a[0];
      assert (a + b)[1..] == a[1..] + b;
      SelectConcat(a[1..], b, cond);
      assert Select(a + b, cond) == h + Select(a[1..] + b, cond);
      assert h + (Select(a[1..], cond) + Select(b, cond)) == (h + Select(a[1..], cond)) + Select(b, cond);
    }
  }

  /** A query over the nine defaults is the query over each of the three groups, in order. */
  lemma SelectDefaults(cond: Permission -> bool)
    ensures Select(DefaultPermissions, cond)
      == Select(EventPermissions, cond) + Select(UserPermissions, cond) + Select(OrganizerPermissions, cond)
  {
    SelectConcat(EventPermissions, UserPermissions, cond);
    SelectConcat(EventPermissions + UserPermissions, OrganizerPermissions, cond);
  }

  lemma OrganizerSelection()
    ensures Select(DefaultPermissions, OrganizerQuery) == OrganizerSeeded
  {
    SelectDefaults(OrganizerQuery);
    assert Select(UserPermissions, OrganizerQuery) == [];
  }

  lemma StaffSelection()
    ensures Select(DefaultPermissions, StaffQuery) == StaffSeeded
  {
    SelectDefaults(StaffQuery);
    assert Select(EventPermissions, StaffQuery) == [Permission("read:event", "events", "read")];
  }

  lemma ManagerSelection()
    ensures Select(DefaultPermissions, ManagerQuery) == ManagerSeeded
  {
    SelectDefaults(ManagerQuery);
  }

  lemma UserSelection()
    ensures Select(DefaultPermissions, UserQuery) == UserSeeded
  {
    SelectDefaults(UserQuery);
  }

  /** The role queries over the nine defaults. */
  lemma DefaultSelections()
    ensures Select(DefaultPermissions, OrganizerQuery) == OrganizerSeeded
    ensures Select(DefaultPermissions, StaffQuery) == StaffSeeded
    ensures Select(DefaultPermissions, ManagerQuery) == ManagerSeeded
    ensures Select(DefaultPermissions, UserQuery) == UserSeeded
  {
    OrganizerSelection();
    StaffSelection();
    ManagerSelection();
    UserSelection();
  }

  /** The role table an empty database ends with, role by role. */
  lemma FreshRoles()
    ensures SeededRoles(CreateMissing([], DefaultPermissions), []) == [
      Role("admin", DefaultPermissions),
      Role("organizer", OrganizerSeeded),
      Role("staff", StaffSeeded),
      Role("manager", ManagerSeeded),
      Role("user", UserSeeded)
    ]
  {
    FreshPermissions();
    DefaultSelections();
    var perms := DefaultPermissions;
    var r1 := WithRole([], "admin", perms);
    assert r1 == [Role("admin", perms)];
    var r2 := WithRole(r1, "organizer", OrganizerSeeded);
    assert !RoleExists(r1, "organizer");
    var r3 := WithRole(r2, "staff", StaffSeeded);
    assert !RoleExists(r2, "staff");
    var r4 := WithRole(r3, "manager", ManagerSeeded);
    assert !RoleExists(r3, "manager");
    assert !RoleExists(r4, "user");
  }

  /** A user whose roles are all the freshly seeded staff or user roles may not create, update or delete events. */
  lemma StaffAndUserCannotChangeEvents(u: Account, action: string)
    requires forall i :: 0 <= i < |u.roles| ==> u.roles[i] == Role("staff", StaffSeeded) || u.roles[i] == Role("user", UserSeeded)
    requires action == "create" || action == "update" || action == "delete"
    ensures !HasPermission(Some(u), "events", action)
  {
    HasPermissionMeaning(Some(u), "events", action);
    forall i | 0 <= i < |u.roles|
      ensures !IsAdminRole(u.roles[i])
    {
      if u.roles[i].name == "staff" {
        assert ToLower(u.roles[i].name)[0] == 's';
      }
    }
    forall i, j | 0 <= i < |u.roles| && 0 <= j < |u.roles[i].permissions|
      ensures !Grants(u.roles[i].permissions[j], "events", action)
    {
      assert u.roles[i].permissions[j].action == "read";
    }
  }
}
