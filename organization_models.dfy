/**
 * The organization (tenant) record: the entity every user, vehicle and trip hangs off.
 * An organization is either a client (pays for the service) or a partner (provides it).
 */
module OrganizationModels {
  import opened Common
  import opened UserModels

  /** The two choices of `organization_type`. */
  datatype OrgType = Client | Partner

  /** The stored code of a type choice. */
  function TypeCode(t: OrgType): string {
    match t
    case Client => "client"
    case Partner => "partner"
  }

  /** Choice validation: a submitted code is accepted only when it is one of the two codes. */
  function ParseType(code: string): (r: Option<OrgType>)
    ensures r.Some? <==> code == "client" || code == "partner"
    ensures r.Some? ==> TypeCode(r.value) == code
  {
    if code == "client" then Some(Client)
    else if code == "partner" then Some(Partner)
    else None
  }

  lemma TypeCodeRoundTrip(t: OrgType)
    ensures ParseType(TypeCode(t)) == Some(t)
  {
  }

  /** Nullable columns are `Option`s; `address` is required and never null. */
  datatype Organization = Organization(
    id: nat,
    name: Option<string>,
    orgType: OrgType,
    ico: Option<string>,
    dic: Option<string>,
    address: string,
    email: Option<string>,
    phone: Option<string>,
    isActive: bool,
    createdAt: int,
    updatedAt: int)

  const DEFAULT_TYPE: OrgType := Client
  const DEFAULT_IS_ACTIVE: bool := true

  predicate IsClient(o: Organization) { TypeCode(o.orgType) == "client" }
  predicate IsPartner(o: Organization) { TypeCode(o.orgType) == "partner" }

  /** With only two choices an organization is exactly one of client and partner. */
  lemma ClientXorPartner(o: Organization)
    ensures IsClient(o) <==> o.orgType == Client
    ensures IsPartner(o) <==> o.orgType == Partner
    ensures IsClient(o) != IsPartner(o)
  {
  }

  /**
   * A freshly inserted row: every column the caller does not supply takes its model
   * default (type client, active, nullable columns null), and both timestamps are `now`.
   */
  function NewOrganization(id: nat, name: Option<string>, address: string, now: int): (o: Organization)
    ensures o.id == id && o.name == name && o.address == address
    ensures IsClient(o) && !IsPartner(o) && o.isActive
    ensures o.ico.None? && o.dic.None? && o.email.None? && o.phone.None?
    ensures o.createdAt == now && o.updatedAt == now
  {
    Organization(id, name, DEFAULT_TYPE, None, None, address, None, None, DEFAULT_IS_ACTIVE, now, now)
  }

  /** The ids of the organization's members whose account is active. */
  function ActiveUserIds(users: map<nat, User>, orgId: nat): (r: set<nat>)
    ensures forall id :: id in r <==> id in users && users[id].organization == Some(orgId) && users[id].isActive
    ensures r <= users.Keys
  {
    set id | id in users && users[id].organization == Some(orgId) && users[id].isActive
  }

  /** `get_active_users_count`: how many active members the organization has. */
  function ActiveUsersCount(users: map<nat, User>, orgId: nat): nat {
    |ActiveUserIds(users, orgId)|
  }

  /** The active-member count never exceeds the number of users. */
  lemma {:induction false} ActiveUsersCountBound(users: map<nat, User>, orgId: nat)
    ensures ActiveUsersCount(users, orgId) <= |users|
  {
    assert ActiveUserIds(users, orgId) <= users.Keys;
    SubsetCard(ActiveUserIds(users, orgId), users.Keys);
  }

  /** Deactivating one active member lowers the count by exactly one. */
  lemma {:induction false} DeactivateLowersCount(users: map<nat, User>, orgId: nat, id: nat)
    requires id in users && users[id].organization == Some(orgId) && users[id].isActive
    ensures ActiveUsersCount(users[id := users[id].(isActive := false)], orgId) == ActiveUsersCount(users, orgId) - 1
  {
    var after := users[id := users[id].(isActive := false)];
    assert ActiveUserIds(after, orgId) == ActiveUserIds(users, orgId) - {id};
  }

  /** A user outside the organization has no influence on its count. */
  lemma {:induction false} OutsiderDoesNotCount(users: map<nat, User>, orgId: nat, u: User)
    requires u.organization != Some(orgId)
    ensures ActiveUsersCount(users[u.id := u], orgId) == ActiveUsersCount(users - {u.id}, orgId)
  {
    assert ActiveUserIds(users[u.id := u], orgId) == ActiveUserIds(users - {u.id}, orgId);
  }

  lemma {:induction false} SubsetCard<T>(a: set<T>, b: set<T>)
    requires a <= b
    ensures |a| <= |b|
  {
    if a != {} {
      var x :| x in a;
      SubsetCard(a - {x}, b - {x});
    }
  }

  /** `get_vehicles_count`: a placeholder that currently reports no vehicles. */
  function VehiclesCount(o: Organization): (n: nat)
    ensures n == 0
  {
    0
  }

  /** `get_trips_count`: a placeholder that currently reports no trips. */
  function TripsCount(o: Organization): (n: nat)
    ensures n == 0
  {
    0
  }
}
