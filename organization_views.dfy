/**
 * The organization REST handlers. The requester is an authenticated user identified by
 * its primary key; "its organization" is the organization that user belongs to.
 */
module OrganizationViews {
  import opened Common
  import opened UserModels
  import opened OrganizationModels
  import opened Database
  import opened OrganizationSerializers

  /** `OrganizationDetailView.get`: 400 without an organization, otherwise the requester's own organization. */
  function GetOrganization(orgs: map<nat, Organization>, requester: User): (r: Reply<Organization>)
    requires requester.organization.Some? ==> requester.organization.value in orgs
    ensures r.status == OK || r.status == BAD_REQUEST
    ensures r.status == BAD_REQUEST <==> requester.organization.None?
    ensures r.status == OK ==> r.body == Some(orgs[requester.organization.value])
  {
    match requester.organization
    case None => Reply(BAD_REQUEST, None)
    case Some(oid) => Reply(OK, Some(orgs[oid]))
  }

  /** Saving an accepted edit of organization `oid` keeps the non-empty emails unique. */
  lemma {:induction false} OrgEditKeepsEmailsUnique(orgs: map<nat, Organization>, oid: nat, o: Organization, d: OrgData)
    requires oid in orgs && OrgEmailsUnique(orgs)
    requires OrgEmailOk(orgs, Some(oid), d.email)
    requires o.email == if d.email.Some? then d.email else orgs[oid].email
    ensures OrgEmailsUnique(orgs[oid := o])
  {
    var after := orgs[oid := o];
    forall a, b | a in after && b in after && a != b && after[a].email.Some? && after[a].email.value != ""
      ensures after[a].email != after[b].email
    {
      if (a == oid || b == oid) && d.email.Some? && d.email.value != "" {
        var other := if a == oid then b else a;
        assert !EmailHeldBy(orgs, Some(oid), d.email.value);
        assert orgs[other].email != d.email;
      }
    }
  }

  /** Adding a new organization whose email the create-time check accepted keeps the emails unique. */
  lemma {:induction false} OrgCreateKeepsEmailsUnique(orgs: map<nat, Organization>, o: Organization, d: OrgData)
    requires o.id !in orgs && OrgEmailsUnique(orgs)
    requires OrgEmailOk(orgs, None, d.email)
    requires o.email == d.email
    ensures OrgEmailsUnique(orgs[o.id := o])
  {
    var after := orgs[o.id := o];
    forall a, b | a in after && b in after && a != b && after[a].email.Some? && after[a].email.value != ""
      ensures after[a].email != after[b].email
    {
      if (a == o.id || b == o.id) && d.email.Some? && d.email.value != "" {
        var other := if a == o.id then b else a;
        assert !EmailHeldBy(orgs, None, d.email.value);
        assert orgs[other].email != d.email;
      }
    }
  }

  /**
   * `OrganizationDetailView.put` (`partial` false) and `patch` (`partial` true): 403
   * unless the requester can manage the organization, checked before the 400 for a
   * requester without one, then 400 on invalid input; otherwise 200 and the supplied
   * fields are saved with a fresh update time.
   */
  method UpdateOrganization(db: Db, requesterId: nat, d: OrgData, rejected: set<string>, partial: bool, now: int)
    returns (status: int)
    requires db.Valid() && requesterId in db.users
    modifies db
    ensures db.Valid()
    ensures var req := old(db.users[requesterId]);
      (status == FORBIDDEN <==> !CanManageOrganization(req)) &&
      (status == OK <==> (CanManageOrganization(req) && req.organization.Some? &&
        OrgErrors(old(db.orgs), req.organization, Stripped(d), rejected, partial) == {})) &&
      (status == OK || status == FORBIDDEN || status == BAD_REQUEST)
    ensures status == OK ==> var oid := old(db.users[requesterId]).organization.value;
      db.orgs == old(db.orgs)[oid := ApplyOrgData(old(db.orgs[oid]), Stripped(d)).(updatedAt := now)]
    ensures status != OK ==> db.orgs == old(db.orgs)
    ensures db.users == old(db.users) && db.groups == old(db.groups)
    ensures db.nextUserId == old(db.nextUserId) && db.nextOrgId == old(db.nextOrgId)
  {
    var req := db.users[requesterId];
    if !CanManageOrganization(req) {
      return FORBIDDEN;
    }
    if req.organization.None? {
      return BAD_REQUEST;
    }
    var oid := req.organization.value;
    var v := Stripped(d);
    var errs := OrgErrors(db.orgs, Some(oid), v, rejected, partial);
    if errs != {} {
      return BAD_REQUEST;
    }
    var o := ApplyOrgData(db.orgs[oid], v).(updatedAt := now);
    OrgEditKeepsEmailsUnique(db.orgs, oid, o, v);
    PutOrg(db.users, db.orgs, db.groups, db.nextUserId, db.nextOrgId, o);
    db.orgs := db.orgs[oid := o];
    status := OK;
  }

  /** The users left after deleting every member of organization `oid`. */
  function WithoutMembers(users: map<nat, User>, oid: nat): (r: map<nat, User>)
    ensures forall id :: id in r <==> id in users && users[id].organization != Some(oid)
    ensures forall id :: id in r ==> r[id] == users[id]
  {
    map id | id in users && users[id].organization != Some(oid) :: users[id]
  }

  /**
   * `OrganizationDetailView.delete`: superusers only (403), then 400 without an
   * organization; otherwise, in one transaction, all of the organization's users and then
   * the organization itself are deleted (204). Nothing else changes.
   */
  method DeleteOrganization(db: Db, requesterId: nat) returns (status: int)
    requires db.Valid() && requesterId in db.users
    modifies db
    ensures db.Valid()
    ensures var req := old(db.users[requesterId]);
      (status == FORBIDDEN <==> !req.isSuperuser) &&
      (status == BAD_REQUEST <==> (req.isSuperuser && req.organization.None?)) &&
      (status == NO_CONTENT <==> (req.isSuperuser && req.organization.Some?))
    ensures status == NO_CONTENT ==> var oid := old(db.users[requesterId]).organization.value;
      db.orgs == old(db.orgs) - {oid} && db.users == WithoutMembers(old(db.users), oid) &&
      requesterId !in db.users
    ensures status != NO_CONTENT ==> db.orgs == old(db.orgs) && db.users == old(db.users)
    ensures db.groups == old(db.groups)
    ensures db.nextUserId == old(db.nextUserId) && db.nextOrgId == old(db.nextOrgId)
  {
    var req := db.users[requesterId];
    if !req.isSuperuser {
      return FORBIDDEN;
    }
    if req.organization.None? {
      return BAD_REQUEST;
    }
    var oid := req.organization.value;
    DropUsers(db.users, db.orgs, db.groups, db.nextUserId, db.nextOrgId, WithoutMembers(db.users, oid));
    DropOrg(WithoutMembers(db.users, oid), db.orgs, db.groups, db.nextUserId, db.nextOrgId, oid);
    db.users := WithoutMembers(db.users, oid);
    db.orgs := db.orgs - {oid};
    status := NO_CONTENT;
  }

  /** Newest first: creation times never increase along the list. */
  predicate NewestFirst(s: seq<Organization>) {
    forall i, j :: 0 <= i < j < |s| ==> s[i].createdAt >= s[j].createdAt
  }

  /** Inserts `o` before the first element that is not newer than it. */
  function InsertNewest(o: Organization, s: seq<Organization>): (r: seq<Organization>)
    ensures |r| == |s| + 1
    ensures forall x :: x in r <==> x in s || x == o
  {
    if s == [] then [o]
    else if o.createdAt >= s[0].createdAt then [o] + s
    else [s[0]] + InsertNewest(o, s[1..])
  }

  /** Insertion keeps a newest-first list newest first. */
  lemma {:induction false} InsertNewestSorted(o: Organization, s: seq<Organization>)
    requires NewestFirst(s)
    ensures NewestFirst(InsertNewest(o, s))
  {
    if s == [] {
    } else if o.createdAt >= s[0].createdAt {
      var r := InsertNewest(o, s);
      assert r == [o] + s;
      forall i, j | 0 <= i < j < |r|
        ensures r[i].createdAt >= r[j].createdAt
      {
        if i == 0 {
          assert r[j] == s[j - 1];
          assert s[0].createdAt >= s[j - 1].createdAt;
        } else {
          assert r[i] == s[i - 1] && r[j] == s[j - 1];
        }
      }
    } else {
      var rest := InsertNewest(o, s[1..]);
      assert NewestFirst(s[1..]) by {
        forall i, j | 0 <= i < j < |s[1..]|
          ensures s[1..][i].createdAt >= s[1..][j].createdAt
        {
          assert s[1..][i] == s[i + 1] && s[1..][j] == s[j + 1];
        }
      }
      InsertNewestSorted(o, s[1..]);
      var r := InsertNewest(o, s);
      assert r == [s[0]] + rest;
      forall i, j | 0 <= i < j < |r|
        ensures r[i].createdAt >= r[j].createdAt
      {
        if i == 0 {
          assert r[j] == rest[j - 1];
          assert rest[j - 1] in rest;
          if rest[j - 1] != o {
            var k :| 0 <= k < |s[1..]| && s[1..][k] == rest[j - 1];
            assert s[k + 1] == rest[j - 1];
          }
        } else {
          assert r[i] == rest[i - 1] && r[j] == rest[j - 1];
        }
      }
    }
  }

  /**
   * `OrganizationListView.get`: superusers only (403); otherwise every organization
   * exactly once, newest first.
   */
  method ListOrganizations(db: Db, requesterId: nat) returns (status: int, list: seq<Organization>)
    requires requesterId in db.users
    requires forall id :: id in db.orgs ==> db.orgs[id].id == id
    ensures status == FORBIDDEN <==> !db.users[requesterId].isSuperuser
    ensures status == FORBIDDEN || status == OK
    ensures status == FORBIDDEN ==> list == []
    ensures status == OK ==> (NewestFirst(list) && |list| == |db.orgs| &&
      (forall o :: o in list <==> o.id in db.orgs && db.orgs[o.id] == o))
  {
    if !db.users[requesterId].isSuperuser {
      return FORBIDDEN, [];
    }
    var orgs := db.orgs;
    var rest := orgs.Keys;
    list := [];
    ghost var done: set<nat> := {};
    while rest != {}
      invariant rest + done == orgs.Keys && rest * done == {}
      invariant Listed(orgs, list, done)
      decreases |rest|
    {
      var k :| k in rest;
      ListOne(orgs, list, rest, done, k);
      list := InsertNewest(orgs[k], list);
      rest := rest - {k};
      done := done + {k};
    }
    assert done == orgs.Keys;
    status := OK;
  }

  /** `list` holds, newest first, exactly the organizations of `orgs` under the keys `done`, once each. */
  predicate Listed(orgs: map<nat, Organization>, list: seq<Organization>, done: set<nat>) {
    NewestFirst(list) && |list| == |done| &&
    (forall x :: x in list ==> x.id in done && x.id in orgs && orgs[x.id] == x) &&
    (forall id :: id in done ==> id in orgs && orgs[id] in list)
  }

  /** Inserting one more organization extends the listing by its key. */
  lemma ListOne(orgs: map<nat, Organization>, list: seq<Organization>, rest: set<nat>, done: set<nat>, k: nat)
    requires forall id :: id in orgs ==> orgs[id].id == id
    requires rest + done == orgs.Keys && rest * done == {} && k in rest
    requires Listed(orgs, list, done)
    ensures (rest - {k}) + (done + {k}) == orgs.Keys && (rest - {k}) * (done + {k}) == {}
    ensures Listed(orgs, InsertNewest(orgs[k], list), done + {k})
  {
    InsertNewestSorted(orgs[k], list);
  }

  /**
   * `OrganizationListView.post`: superusers only (403), 400 on invalid input; otherwise 201
   * and one new organization with the model defaults for every field not supplied.
   */
  method CreateOrganization(db: Db, requesterId: nat, d: OrgData, rejected: set<string>, now: int)
    returns (status: int, created: Option<nat>)
    requires db.Valid() && requesterId in db.users
    modifies db
    ensures db.Valid()
    ensures status == FORBIDDEN <==> !old(db.users[requesterId]).isSuperuser
    ensures status == CREATED <==> (old(db.users[requesterId]).isSuperuser && OrgErrors(old(db.orgs), None, Stripped(d), rejected, false) == {})
    ensures status == FORBIDDEN || status == CREATED || status == BAD_REQUEST
    ensures status == CREATED ==> (created == Some(old(db.nextOrgId)) &&
      db.orgs == old(db.orgs)[old(db.nextOrgId) := CreatedOrganization(old(db.nextOrgId), Stripped(d), now)])
    ensures status != CREATED ==> created.None? && db.orgs == old(db.orgs) && db.nextOrgId == old(db.nextOrgId)
    ensures db.users == old(db.users) && db.groups == old(db.groups) && db.nextUserId == old(db.nextUserId)
  {
    if !db.users[requesterId].isSuperuser {
      return FORBIDDEN, None;
    }
    var v := Stripped(d);
    var errs := OrgErrors(db.orgs, None, v, rejected, false);
    if errs != {} {
      return BAD_REQUEST, None;
    }
    var o := CreatedOrganization(db.nextOrgId, v, now);
    OrgCreateKeepsEmailsUnique(db.orgs, o, v);
    AddOrg(db.users, db.orgs, db.groups, db.nextUserId, db.nextOrgId, o);
    db.orgs := db.orgs[db.nextOrgId := o];
    created := Some(db.nextOrgId);
    db.nextOrgId := db.nextOrgId + 1;
    status := CREATED;
  }

  /** `organization_users`: 400 without an organization, otherwise its active members only. */
  function OrganizationUsers(users: map<nat, User>, requester: User): (r: Reply<set<nat>>)
    ensures r.status == OK || r.status == BAD_REQUEST
    ensures r.status == BAD_REQUEST <==> requester.organization.None?
    ensures r.status == OK ==> r.body.Some? && forall id :: id in r.body.value <==>
      (id in users && users[id].organization == requester.organization && users[id].isActive)
    ensures r.status == OK ==> |r.body.value| == ActiveUsersCount(users, requester.organization.value)
  {
    match requester.organization
    case None => Reply(BAD_REQUEST, None)
    case Some(oid) => Reply(OK, Some(ActiveUserIds(users, oid)))
  }

  /** The organization after a status toggle: the active flag flipped and the update time set. */
  function Toggled(o: Organization, now: int): (r: Organization)
    ensures r.isActive == !o.isActive
    ensures r == o.(isActive := r.isActive, updatedAt := now)
  {
    o.(isActive := !o.isActive, updatedAt := now)
  }

  /** Two toggles restore the original active flag and every other field but the update time. */
  lemma ToggleTwice(o: Organization, t1: int, t2: int)
    ensures Toggled(Toggled(o, t1), t2) == o.(updatedAt := t2)
    ensures Toggled(Toggled(o, t1), t2).isActive == o.isActive
  {
  }

  /**
   * `toggle_organization_status`: 403 unless the requester can manage the organization,
   * then 400 without one; otherwise 200 and the organization's active flag is flipped.
   */
  method ToggleOrganizationStatus(db: Db, requesterId: nat, now: int) returns (status: int)
    requires db.Valid() && requesterId in db.users
    modifies db
    ensures db.Valid()
    ensures var req := old(db.users[requesterId]);
      (status == FORBIDDEN <==> !CanManageOrganization(req)) &&
      (status == BAD_REQUEST <==> (CanManageOrganization(req) && req.organization.None?)) &&
      (status == OK <==> (CanManageOrganization(req) && req.organization.Some?))
    ensures status == OK ==> var oid := old(db.users[requesterId]).organization.value;
      db.orgs == old(db.orgs)[oid := Toggled(old(db.orgs[oid]), now)]
    ensures status != OK ==> db.orgs == old(db.orgs)
    ensures db.users == old(db.users) && db.groups == old(db.groups)
    ensures db.nextUserId == old(db.nextUserId) && db.nextOrgId == old(db.nextOrgId)
  {
    var req := db.users[requesterId];
    if !CanManageOrganization(req) {
      return FORBIDDEN;
    }
    if req.organization.None? {
      return BAD_REQUEST;
    }
    var oid := req.organization.value;
    PutOrg(db.users, db.orgs, db.groups, db.nextUserId, db.nextOrgId, Toggled(db.orgs[oid], now));
    db.orgs := db.orgs[oid := Toggled(db.orgs[oid], now)];
    status := OK;
  }
}
