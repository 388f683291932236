/**
 * The persistent state the backend handlers read and write: the user table, the
 * organization table and the group (role) table. Its consistency combines what the
 * database schema enforces (keys, the organization reference, held groups, unique
 * user e-mails and usernames, unique group names) with one rule only the organization
 * serializer maintains: a non-empty organization e-mail belongs to one organization.
 */
module Database {
  import opened Common
  import opened UserModels
  import opened OrganizationModels

  /** Non-empty organization emails are unique. */
  predicate OrgEmailsUnique(orgs: map<nat, Organization>) {
    forall a, b :: a in orgs && b in orgs && a != b && orgs[a].email.Some? && orgs[a].email.value != "" ==>
      orgs[a].email != orgs[b].email
  }

  /** No two users share an email or a username. */
  predicate UsersUnique(users: map<nat, User>) {
    forall a, b :: a in users && b in users && a != b ==>
      users[a].email != users[b].email && users[a].username != users[b].username
  }

  /**
   * Primary keys match their rows and stay below the id counters, every user's
   * organization exists (the foreign key), every held role is a registered group,
   * group names are unique, and so are user emails and usernames; the non-empty
   * organization emails are unique too, which the organization serializer maintains.
   */
  ghost predicate Consistent(users: map<nat, User>, orgs: map<nat, Organization>, groups: Registry,
                             nextUserId: nat, nextOrgId: nat)
  {
    (forall id :: id in users ==> users[id].id == id && id < nextUserId) &&
    (forall id :: id in orgs ==> orgs[id].id == id && id < nextOrgId) &&
    (forall id :: id in users && users[id].organization.Some? ==> users[id].organization.value in orgs) &&
    (forall id :: id in users ==> users[id].roles <= GroupNames(groups)) &&
    DistinctNames(groups) && UsersUnique(users) && OrgEmailsUnique(orgs)
  }

  /** Storing a user keeps the tables consistent when its key, foreign key, roles and identity fit. */
  lemma PutUser(users: map<nat, User>, orgs: map<nat, Organization>, groups: Registry, nu: nat, no: nat, u: User)
    requires Consistent(users, orgs, groups, nu, no)
    requires u.id < nu
    requires u.organization.Some? ==> u.organization.value in orgs
    requires u.roles <= GroupNames(groups)
    requires forall id :: id in users && id != u.id ==> users[id].email != u.email && users[id].username != u.username
    ensures Consistent(users[u.id := u], orgs, groups, nu, no)
  {
  }

  /** Rewriting a user without touching its key, email, username or organization keeps consistency. */
  lemma TouchUser(users: map<nat, User>, orgs: map<nat, Organization>, groups: Registry, nu: nat, no: nat, u: User)
    requires Consistent(users, orgs, groups, nu, no)
    requires u.id in users && u.roles <= GroupNames(groups)
    requires u.email == users[u.id].email && u.username == users[u.id].username
    requires u.organization == users[u.id].organization
    ensures Consistent(users[u.id := u], orgs, groups, nu, no)
  {
    PutUser(users, orgs, groups, nu, no, u);
  }

  /** A new user under the next key, clashing with nobody, keeps consistency once the counter moves on. */
  lemma AddUser(users: map<nat, User>, orgs: map<nat, Organization>, groups: Registry, nu: nat, no: nat, u: User)
    requires Consistent(users, orgs, groups, nu, no)
    requires u.id == nu
    requires u.organization.Some? ==> u.organization.value in orgs
    requires u.roles <= GroupNames(groups)
    requires forall id :: id in users ==> users[id].email != u.email && users[id].username != u.username
    ensures Consistent(users[nu := u], orgs, groups, nu + 1, no)
  {
  }

  /** Deleting users keeps consistency. */
  lemma DropUsers(users: map<nat, User>, orgs: map<nat, Organization>, groups: Registry, nu: nat, no: nat, kept: map<nat, User>)
    requires Consistent(users, orgs, groups, nu, no)
    requires forall id :: id in kept ==> id in users && kept[id] == users[id]
    ensures Consistent(kept, orgs, groups, nu, no)
  {
  }

  /** Storing an organization under its key keeps consistency when the emails stay unique. */
  lemma PutOrg(users: map<nat, User>, orgs: map<nat, Organization>, groups: Registry, nu: nat, no: nat, o: Organization)
    requires Consistent(users, orgs, groups, nu, no)
    requires o.id < no && OrgEmailsUnique(orgs[o.id := o])
    ensures Consistent(users, orgs[o.id := o], groups, nu, no)
  {
  }

  /** A new organization under the next key keeps consistency once the counter moves on. */
  lemma AddOrg(users: map<nat, User>, orgs: map<nat, Organization>, groups: Registry, nu: nat, no: nat, o: Organization)
    requires Consistent(users, orgs, groups, nu, no)
    requires o.id == no && OrgEmailsUnique(orgs[no := o])
    ensures Consistent(users, orgs[no := o], groups, nu, no + 1)
  {
  }

  /** Deleting an organization nobody belongs to keeps consistency. */
  lemma DropOrg(users: map<nat, User>, orgs: map<nat, Organization>, groups: Registry, nu: nat, no: nat, oid: nat)
    requires Consistent(users, orgs, groups, nu, no)
    requires forall id :: id in users ==> users[id].organization != Some(oid)
    ensures Consistent(users, orgs - {oid}, groups, nu, no)
  {
  }

  /** Adding or rewriting groups keeps consistency when no name is lost and names stay unique. */
  lemma GrowGroups(users: map<nat, User>, orgs: map<nat, Organization>, groups: Registry, nu: nat, no: nat, grown: Registry)
    requires Consistent(users, orgs, groups, nu, no)
    requires GroupNames(groups) <= GroupNames(grown) && DistinctNames(grown)
    ensures Consistent(users, orgs, grown, nu, no)
  {
  }

  class Db {
    var users: map<nat, User>
    var orgs: map<nat, Organization>
    /** Groups in primary-key order. */
    var groups: Registry
    var nextUserId: nat
    var nextOrgId: nat

    ghost predicate Valid()
      reads this
    {
      Consistent(users, orgs, groups, nextUserId, nextOrgId)
    }

    constructor (reg: Registry)
      requires DistinctNames(reg)
      ensures Valid()
      ensures users == map[] && orgs == map[] && groups == reg
    {
      users := map[];
      orgs := map[];
      groups := reg;
      nextUserId := 1;
      nextOrgId := 1;
    }

    /**
     * `assign_role`: adds the named group to the user's groups when such a group exists.
     * Returns whether it exists; an unknown name changes nothing.
     */
    method AssignRole(uid: nat, name: string) returns (ok: bool)
      requires Valid() && uid in users
      modifies this
      ensures Valid()
      ensures ok <==> RoleRegistered(groups, name)
      ensures ok ==> users == old(users)[uid := WithRole(old(users)[uid], name)] && name in users[uid].roles
      ensures !ok ==> users == old(users)
      ensures orgs == old(orgs) && groups == old(groups)
      ensures nextUserId == old(nextUserId) && nextOrgId == old(nextOrgId)
    {
      ok := exists g :: g in groups && g.name == name;
      if ok {
        var g :| g in groups && g.name == name;
        assert name in GroupNames(groups);
        TouchUser(users, orgs, groups, nextUserId, nextOrgId, WithRole(users[uid], name));
        users := users[uid := WithRole(users[uid], name)];
      }
    }

    /**
     * `remove_role`: removes the named group from the user's groups when such a group
     * exists, whether or not the user held it. Returns whether it exists.
     */
    method RemoveRole(uid: nat, name: string) returns (ok: bool)
      requires Valid() && uid in users
      modifies this
      ensures Valid()
      ensures ok <==> RoleRegistered(groups, name)
      ensures ok ==> users == old(users)[uid := WithoutRole(old(users)[uid], name)] && name !in users[uid].roles
      ensures !ok ==> users == old(users)
      ensures orgs == old(orgs) && groups == old(groups)
      ensures nextUserId == old(nextUserId) && nextOrgId == old(nextOrgId)
    {
      ok := exists g :: g in groups && g.name == name;
      if ok {
        TouchUser(users, orgs, groups, nextUserId, nextOrgId, WithoutRole(users[uid], name));
        users := users[uid := WithoutRole(users[uid], name)];
      }
    }
  }

  /** Assigning a role twice leaves the same state as assigning it once. */
  lemma AssignRoleIdempotent(u: User, name: string)
    ensures WithRole(WithRole(u, name), name) == WithRole(u, name)
    ensures name in WithRole(u, name).roles
    ensures WithRole(u, name).roles - {name} == u.roles - {name}
  {
  }

  /** Removing a role twice leaves the same state as removing it once; other roles stay. */
  lemma RemoveRoleIdempotent(u: User, name: string)
    ensures WithoutRole(WithoutRole(u, name), name) == WithoutRole(u, name)
    ensures name !in WithoutRole(u, name).roles
    ensures WithoutRole(u, name).roles == u.roles - {name}
    ensures name !in u.roles ==> WithoutRole(u, name) == u
  {
  }
}
