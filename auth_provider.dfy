/**
 * The authentication context's role check, which the sidebar uses to decide which
 * entries to show. Loading the user and logging in or out are not modelled.
 */
module AuthProvider {
  import opened Common

  /** The logged-in user as the current-user endpoint describes them, reduced to what a role check could read. */
  datatype AuthUser = AuthUser(id: int, email: string, isOrganizationAdmin: bool, groups: seq<string>)

  /** `roles: string | string[]`. */
  datatype Roles = OneRole(role: string) | RoleList(roles: seq<string>)

  /** `Array.isArray(roles) ? roles : [roles]`. */
  function AsList(roles: Roles): (r: seq<string>)
    ensures roles.OneRole? ==> r == [roles.role]
    ensures roles.RoleList? ==> r == roles.roles
  {
    match roles
    case OneRole(role) => [role]
    case RoleList(rs) => rs
  }

  /**
   * `hasRole`: false without a user; with one, true exactly when the requested roles
   * include "admin". The user's own groups and flags are not consulted.
   */
  function HasRole(user: Option<AuthUser>, roles: Roles): (r: bool)
    ensures user.None? ==> !r
    ensures user.Some? ==> (r <==> "admin" in AsList(roles))
  {
    if user.None? then false
    else "admin" in AsList(roles)
  }

  /** A single role is checked as a one-element list, and the answer is the same for every logged-in user. */
  lemma HasRoleIgnoresUser(u: AuthUser, v: AuthUser, role: string, roles: seq<string>)
    ensures HasRole(Some(u), OneRole(role)) == HasRole(Some(u), RoleList([role]))
    ensures HasRole(Some(u), RoleList(roles)) == HasRole(Some(v), RoleList(roles))
  {
  }
}
