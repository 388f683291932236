/**
 * The user record of the backend and its capability checks.
 * A user belongs to at most one organization, carries two structural flags
 * (organization admin, superuser) and holds a set of roles (Django groups);
 * its effective permissions are the union of the permission tags of the groups it holds.
 */
module UserModels {
  import opened Common

  const ADMIN_GROUP: string := "Administrátori"
  const DRIVER_GROUP: string := "Vodiči"
  const ACCOUNTANT_GROUP: string := "Účtovníci"
  /** Label reported as the primary role of a user without any group. */
  const NO_ROLE_LABEL: string := "Používateľ"

  /** A role: a group name and the permission tags ("app_label.codename") it grants. */
  datatype Group = Group(name: string, perms: set<string>)

  /** The group table, in primary-key order (the order in which groups were created). */
  type Registry = seq<Group>

  predicate DistinctNames(reg: Registry) {
    forall i, j :: 0 <= i < j < |reg| ==> reg[i].name != reg[j].name
  }

  function GroupNames(reg: Registry): set<string> {
    set g | g in reg :: g.name
  }

  /** The password is kept as an opaque secret; `check_password` is equality with it. */
  datatype User = User(
    id: nat,
    username: string,
    email: string,
    password: string,
    firstName: string,
    lastName: string,
    phone: string,
    position: string,
    organization: Option<nat>,
    isOrganizationAdmin: bool,
    isSuperuser: bool,
    isActive: bool,
    roles: set<string>,
    dateJoined: int,
    lastLogin: Option<int>)

  /** `can_manage_organization`: the structural admin gate, independent of roles. */
  predicate CanManageOrganization(u: User) {
    u.isOrganizationAdmin || u.isSuperuser
  }

  /** Union of the permission tags of every registered group the user holds. */
  function EffectivePermissions(u: User, reg: Registry): set<string> {
    set g, t | g in reg && g.name in u.roles && t in g.perms :: t
  }

  /**
   * `has_perm(tag)`: an active superuser holds every tag; otherwise the model backend
   * grants nothing to an inactive user and, to an active one, the tags of its groups.
   */
  predicate HasPerm(u: User, reg: Registry, tag: string) {
    u.isActive && (u.isSuperuser || tag in EffectivePermissions(u, reg))
  }

  /**
   * `has_organization_permission(codename)`: checks the tag `user.<codename>`, so it holds
   * exactly for an active user who is a superuser or holds a group granting that tag.
   */
  predicate HasOrganizationPermission(u: User, reg: Registry, codename: string)
    ensures HasOrganizationPermission(u, reg, codename) <==>
      (u.isActive && (u.isSuperuser ||
        exists i :: 0 <= i < |reg| && reg[i].name in u.roles && "user." + codename in reg[i].perms))
  {
    HasPermIff(u, reg, "user." + codename);
    HasPerm(u, reg, "user." + codename)
  }

  predicate IsAdmin(u: User) { ADMIN_GROUP in u.roles }
  predicate IsDriver(u: User) { DRIVER_GROUP in u.roles }
  predicate IsAccountant(u: User) { ACCOUNTANT_GROUP in u.roles }

  predicate CanManageTrips(u: User, reg: Registry) {
    HasOrganizationPermission(u, reg, "edit_all_trips") || HasOrganizationPermission(u, reg, "delete_trips")
  }

  predicate CanViewFinancials(u: User, reg: Registry) {
    HasOrganizationPermission(u, reg, "view_financial_data") || HasOrganizationPermission(u, reg, "manage_accounting")
  }

  /** `can_drive_vehicles`: members of the drivers group may drive whatever their tags. */
  predicate CanDriveVehicles(u: User, reg: Registry)
    ensures IsDriver(u) ==> CanDriveVehicles(u, reg)
  {
    HasOrganizationPermission(u, reg, "drive_vehicles") || IsDriver(u)
  }

  /** `can_access_admin_features`: whoever may manage the organization reaches them. */
  predicate CanAccessAdminFeatures(u: User, reg: Registry)
    ensures CanManageOrganization(u) ==> CanAccessAdminFeatures(u, reg)
  {
    HasOrganizationPermission(u, reg, "access_admin_panel") || u.isOrganizationAdmin || u.isSuperuser
  }

  /**
   * `get_primary_role`: the name of the first group (by primary key) the user holds,
   * or the fixed label when it holds none.
   */
  function PrimaryRole(u: User, reg: Registry): (r: string)
    ensures r == NO_ROLE_LABEL <== forall i :: 0 <= i < |reg| ==> reg[i].name !in u.roles
    ensures (exists i :: 0 <= i < |reg| && reg[i].name in u.roles) ==>
      exists i :: 0 <= i < |reg| && reg[i].name == r && r in u.roles &&
        forall j :: 0 <= j < i ==> reg[j].name !in u.roles
  {
    if reg == [] then NO_ROLE_LABEL
    else if reg[0].name in u.roles then reg[0].name
    else
      var r := PrimaryRole(u, reg[1..]);
      assert forall j :: 1 <= j < |reg| ==> reg[j] == reg[1..][j - 1];
      r
  }

  predicate RoleRegistered(reg: Registry, name: string) {
    exists g :: g in reg && g.name == name
  }

  /** The user after `groups.add` of a registered group. */
  function WithRole(u: User, name: string): User {
    u.(roles := u.roles + {name})
  }

  /** The user after `groups.remove` of a registered group. */
  function WithoutRole(u: User, name: string): User {
    u.(roles := u.roles - {name})
  }

  /**
   * The group checks follow role assignment: adding a group makes its check hold and
   * removing it makes the check fail, while adding or removing any other group leaves
   * the check as it was.
   */
  lemma {:induction false} RoleChecksFollowAssignment(u: User, name: string)
    ensures IsAdmin(WithRole(u, ADMIN_GROUP)) && !IsAdmin(WithoutRole(u, ADMIN_GROUP))
    ensures IsDriver(WithRole(u, DRIVER_GROUP)) && !IsDriver(WithoutRole(u, DRIVER_GROUP))
    ensures IsAccountant(WithRole(u, ACCOUNTANT_GROUP)) && !IsAccountant(WithoutRole(u, ACCOUNTANT_GROUP))
    ensures name != ADMIN_GROUP ==> IsAdmin(WithRole(u, name)) == IsAdmin(u) && IsAdmin(WithoutRole(u, name)) == IsAdmin(u)
    ensures name != DRIVER_GROUP ==> IsDriver(WithRole(u, name)) == IsDriver(u) && IsDriver(WithoutRole(u, name)) == IsDriver(u)
    ensures name != ACCOUNTANT_GROUP ==>
      IsAccountant(WithRole(u, name)) == IsAccountant(u) && IsAccountant(WithoutRole(u, name)) == IsAccountant(u)
  {
  }

  /** The structural flags grant the organization-management gate whatever the roles. */
  lemma ManageOrganizationIsFlagGated(u: User, roles': set<string>)
    ensures CanManageOrganization(u) <==> (u.isOrganizationAdmin || u.isSuperuser)
    ensures CanManageOrganization(u) == CanManageOrganization(u.(roles := roles'))
  {
  }

  /** Organization admins and superusers reach the admin features for every registry and role set. */
  lemma AdminFeaturesForAdmins(u: User, reg: Registry)
    requires u.isOrganizationAdmin || u.isSuperuser
    ensures CanAccessAdminFeatures(u, reg)
    ensures CanManageOrganization(u) ==> CanAccessAdminFeatures(u, reg)
  {
  }

  /** A tag is held exactly by an active user who is a superuser or holds a group granting it. */
  lemma {:induction false} HasPermIff(u: User, reg: Registry, tag: string)
    ensures HasPerm(u, reg, tag) <==>
      (u.isActive && (u.isSuperuser ||
        exists i :: 0 <= i < |reg| && reg[i].name in u.roles && tag in reg[i].perms))
  {
    if tag in EffectivePermissions(u, reg) {
      var g :| g in reg && g.name in u.roles && tag in g.perms;
      var i :| 0 <= i < |reg| && reg[i] == g;
      assert reg[i].name in u.roles && tag in reg[i].perms;
    }
    if exists i :: 0 <= i < |reg| && reg[i].name in u.roles && tag in reg[i].perms {
      var i :| 0 <= i < |reg| && reg[i].name in u.roles && tag in reg[i].perms;
      assert reg[i] in reg;
    }
  }

  /** Managing trips: an active superuser, or an active user with either of the two trip permissions. */
  lemma TripCapability(u: User, reg: Registry)
    ensures CanManageTrips(u, reg) <==>
      (u.isActive && (u.isSuperuser ||
        "user.edit_all_trips" in EffectivePermissions(u, reg) || "user.delete_trips" in EffectivePermissions(u, reg)))
  {
    assert "user." + "edit_all_trips" == "user.edit_all_trips";
    assert "user." + "delete_trips" == "user.delete_trips";
  }

  /** Viewing financials: an active superuser, or an active user with either of the two accounting permissions. */
  lemma FinancialCapability(u: User, reg: Registry)
    ensures CanViewFinancials(u, reg) <==>
      (u.isActive && (u.isSuperuser ||
        "user.view_financial_data" in EffectivePermissions(u, reg) || "user.manage_accounting" in EffectivePermissions(u, reg)))
  {
    assert "user." + "view_financial_data" == "user.view_financial_data";
    assert "user." + "manage_accounting" == "user.manage_accounting";
  }

  /** Driving: membership of the drivers group, or the driving permission as `has_perm` grants it. */
  lemma DrivingCapability(u: User, reg: Registry)
    ensures CanDriveVehicles(u, reg) <==>
      (u.isActive && (u.isSuperuser || "user.drive_vehicles" in EffectivePermissions(u, reg))) || DRIVER_GROUP in u.roles
  {
    assert "user." + "drive_vehicles" == "user.drive_vehicles";
  }

  /**
   * After removing a role, a tag is held exactly by an active user who is a superuser or
   * holds one of the remaining groups granting it.
   */
  lemma {:induction false} WithoutRoleIff(u: User, reg: Registry, n: string, x: string)
    ensures HasPerm(WithoutRole(u, n), reg, x) <==>
      (u.isActive && (u.isSuperuser ||
        exists j :: 0 <= j < |reg| && reg[j].name in u.roles - {n} && x in reg[j].perms))
  {
    HasPermIff(WithoutRole(u, n), reg, x);
  }

  /**
   * Permission union: with two distinct groups A (granting x) and B (granting y) held,
   * an active user holds both x and y; once A is removed, y is still held and x only by
   * a superuser or if another held group also grants it.
   */
  lemma {:induction false} RemovingRoleKeepsOthers(u: User, reg: Registry, a: nat, b: nat, x: string, y: string)
    requires DistinctNames(reg)
    requires a < |reg| && b < |reg| && a != b
    requires reg[a].name in u.roles && reg[b].name in u.roles
    requires x in reg[a].perms && y in reg[b].perms
    ensures HasPerm(u, reg, x) == u.isActive && HasPerm(u, reg, y) == u.isActive
    ensures HasPerm(WithoutRole(u, reg[a].name), reg, y) == u.isActive
    ensures reg[a].name !in WithoutRole(u, reg[a].name).roles
    ensures HasPerm(WithoutRole(u, reg[a].name), reg, x) <==>
      (u.isActive && (u.isSuperuser ||
        exists j :: 0 <= j < |reg| && j != a && reg[j].name in u.roles && x in reg[j].perms))
  {
    assert reg[a] in reg && reg[b] in reg;
    assert reg[b].name != reg[a].name;
    var w := WithoutRole(u, reg[a].name);
    assert reg[b].name in w.roles;
    WithoutRoleIff(u, reg, reg[a].name, x);
    assert forall j :: 0 <= j < |reg| ==> (reg[j].name == reg[a].name <==> j == a);
  }

  /**
   * Holding a group adds that group's tags; with distinct group names it adds nothing
   * else and removes nothing.
   */
  lemma {:induction false} WithRolePermissions(u: User, reg: Registry, i: nat)
    requires i < |reg|
    ensures EffectivePermissions(WithRole(u, reg[i].name), reg) >= EffectivePermissions(u, reg) + reg[i].perms
    ensures DistinctNames(reg) ==>
      EffectivePermissions(WithRole(u, reg[i].name), reg) == EffectivePermissions(u, reg) + reg[i].perms
  {
    var w := WithRole(u, reg[i].name);
    forall t | t in EffectivePermissions(u, reg) + reg[i].perms
      ensures t in EffectivePermissions(w, reg)
    {
      if t in reg[i].perms {
        assert reg[i] in reg && reg[i].name in w.roles;
      } else {
        var g :| g in reg && g.name in u.roles && t in g.perms;
        assert g.name in w.roles;
      }
    }
    if DistinctNames(reg) {
      forall t | t in EffectivePermissions(w, reg)
        ensures t in EffectivePermissions(u, reg) + reg[i].perms
      {
        var g :| g in reg && g.name in w.roles && t in g.perms;
        if g.name == reg[i].name {
          var j :| 0 <= j < |reg| && reg[j] == g;
          assert j == i;
        } else {
          assert g.name in u.roles;
        }
      }
    }
  }
}
