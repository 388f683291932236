/**
 * The user REST handlers. Each handler runs its guards in a fixed order (capability,
 * organization membership, lookup scoped to the requester's organization, input
 * validation) and changes the database only when every guard passes. The requester is
 * an authenticated user, identified by its primary key.
 */
module UserViews {
  import opened Common
  import opened UserModels
  import opened Database
  import opened UserSerializers

  /**
   * `CustomTokenObtainPairView.post`: the token endpoint itself is not part of this model,
   * its status comes in as `parentStatus`. After a 200 with a non-empty posted email, the
   * user holding that email has its last login set to `now`; no such user is ignored.
   * The status is passed through unchanged.
   */
  method Login(db: Db, parentStatus: int, postedEmail: Option<string>, now: int) returns (status: int)
    requires db.Valid()
    modifies db
    ensures db.Valid()
    ensures status == parentStatus
    ensures db.orgs == old(db.orgs) && db.groups == old(db.groups)
    ensures db.nextUserId == old(db.nextUserId) && db.nextOrgId == old(db.nextOrgId)
    ensures (parentStatus == OK && postedEmail.Some? && postedEmail.value != "" &&
             exists id :: id in old(db.users) && old(db.users)[id].email == postedEmail.value) ==>
      exists id :: id in old(db.users) && old(db.users)[id].email == postedEmail.value &&
        db.users == old(db.users)[id := old(db.users)[id].(lastLogin := Some(now))]
    ensures !(parentStatus == OK && postedEmail.Some? && postedEmail.value != "" &&
              exists id :: id in old(db.users) && old(db.users)[id].email == postedEmail.value) ==>
      db.users == old(db.users)
  {
    status := parentStatus;
    if parentStatus == OK {
      match postedEmail {
        case Some(email) =>
          if email != "" && exists id :: id in db.users && db.users[id].email == email {
            var id :| id in db.users && db.users[id].email == email;
            TouchUser(db.users, db.orgs, db.groups, db.nextUserId, db.nextOrgId, db.users[id].(lastLogin := Some(now)));
            db.users := db.users[id := db.users[id].(lastLogin := Some(now))];
          }
        case None =>
      }
    }
  }

  /** `UserListView.get`: 400 without an organization, otherwise exactly the requester's colleagues. */
  function ListUsers(users: map<nat, User>, requester: User): (r: Reply<set<nat>>)
    ensures r.status == BAD_REQUEST <==> requester.organization.None?
    ensures r.status == BAD_REQUEST || r.status == OK
    ensures r.status == OK ==> (r.body.Some? &&
      forall id :: id in r.body.value <==> id in users && users[id].organization == requester.organization)
  {
    if requester.organization.None? then Reply(BAD_REQUEST, None)
    else Reply(OK, Some(set id | id in users && users[id].organization == requester.organization))
  }

  /** `UserListView.post`'s new account: the registration record, moved into the organization, not an admin. */
  function MemberRecord(id: nat, data: Data, org: nat, now: int): (u: User)
    requires forall f :: f in REGISTRATION_REQUIRED ==> f in data
    ensures u.id == id && u.organization == Some(org) && !u.isOrganizationAdmin
    ensures u.email == NormalizeEmail(Strip(data["email"]))
    ensures u.username == Strip(data["username"]) && u.password == Strip(data["password"])
    ensures u.roles == {} && !u.isSuperuser && u.isActive && u.lastLogin.None?
  {
    RegistrationRecord(id, data, now).(organization := Some(org)).(isOrganizationAdmin := false)
  }

  /**
   * `UserListView.post`: 403 unless the requester can manage the organization, then 400
   * without an organization, then 400 on invalid input; then 500 when the normalised
   * email is already stored (the unique index refuses the row and the transaction rolls
   * back); otherwise 201 and one new user in the requester's organization who is not an
   * organization admin.
   */
  method CreateUser(db: Db, requesterId: nat, data: Data, rejected: set<string>, now: int) returns (status: int, created: Option<nat>)
    requires db.Valid() && requesterId in db.users
    modifies db
    ensures db.Valid()
    ensures var req := old(db.users[requesterId]);
      (status == FORBIDDEN <==> !CanManageOrganization(req)) &&
      (status == BAD_REQUEST <==> (CanManageOrganization(req) &&
        (req.organization.None? || RegistrationErrors(old(db.users), data, rejected) != {}))) &&
      (status == INTERNAL_SERVER_ERROR <==> (CanManageOrganization(req) && req.organization.Some? &&
        RegistrationErrors(old(db.users), data, rejected) == {} && StoredEmailClash(old(db.users), data))) &&
      (status == CREATED <==> (CanManageOrganization(req) && req.organization.Some? &&
        RegistrationErrors(old(db.users), data, rejected) == {} && !StoredEmailClash(old(db.users), data)))
    ensures status != CREATED ==> created.None? && db.users == old(db.users) && db.nextUserId == old(db.nextUserId)
    ensures status == CREATED ==> (RegistrationAcceptable(old(db.users), data, rejected) &&
      created == Some(old(db.nextUserId)) && old(db.nextUserId) !in old(db.users) &&
      db.users == old(db.users)[old(db.nextUserId) :=
        MemberRecord(old(db.nextUserId), data, old(db.users[requesterId]).organization.value, now)])
    ensures db.orgs == old(db.orgs) && db.groups == old(db.groups) && db.nextOrgId == old(db.nextOrgId)
  {
    var req := db.users[requesterId];
    created := None;
    if !CanManageOrganization(req) {
      return FORBIDDEN, None;
    }
    if req.organization.None? {
      return BAD_REQUEST, None;
    }
    var errs := RegistrationErrors(db.users, data, rejected);
    if errs != {} {
      return BAD_REQUEST, None;
    }
    if StoredEmailClash(db.users, data) {
      return INTERNAL_SERVER_ERROR, None;
    }
    var validated := RegistrationValidated(data);
    var user := Create(validated, db.nextUserId, now);
    user := user.(organization := req.organization);
    user := user.(isOrganizationAdmin := false);
    assert user == MemberRecord(db.nextUserId, data, req.organization.value, now);
    NewUserKeepsUnique(db.users, user, data, rejected);
    created := Some(db.nextUserId);
    SaveNewUser(db, user);
    status := CREATED;
  }

  /** `serializer.save()` of a new user: the row goes under the next user key. */
  method SaveNewUser(db: Db, user: User)
    requires db.Valid()
    requires user.id == db.nextUserId && user.roles == {}
    requires user.organization.Some? ==> user.organization.value in db.orgs
    requires forall id :: id in db.users ==> db.users[id].email != user.email && db.users[id].username != user.username
    modifies db
    ensures db.Valid()
    ensures db.users == old(db.users)[old(db.nextUserId) := user] && db.nextUserId == old(db.nextUserId) + 1
    ensures db.orgs == old(db.orgs) && db.groups == old(db.groups) && db.nextOrgId == old(db.nextOrgId)
  {
    AddUser(db.users, db.orgs, db.groups, db.nextUserId, db.nextOrgId, user);
    db.users := db.users[db.nextUserId := user];
    db.nextUserId := db.nextUserId + 1;
  }

  /**
   * A user built from accepted registration data whose normalised email is not stored yet
   * clashes with no existing email or username.
   */
  lemma NewUserKeepsUnique(users: map<nat, User>, u: User, data: Data, rejected: set<string>)
    requires RegistrationAcceptable(users, data, rejected) && !StoredEmailClash(users, data)
    requires u.email == NormalizeEmail(Strip(data["email"])) && u.username == Strip(data["username"])
    ensures forall id :: id in users ==> users[id].email != u.email && users[id].username != u.username
  {
    forall id | id in users
      ensures users[id].email != u.email && users[id].username != u.username
    {
      assert !UsernameTaken(users, Strip(data["username"]));
    }
  }

  /**
   * `UserDetailView.get_user_object`: the user with that id whose organization equals the
   * requester's; a requester without an organization therefore sees only users without one.
   */
  function GetUserObject(users: map<nat, User>, requesterOrg: Option<nat>, userId: nat): (r: Option<User>)
    ensures r.Some? <==> userId in users && users[userId].organization == requesterOrg
    ensures r.Some? ==> r.value == users[userId] && r.value.organization == requesterOrg
  {
    if userId in users && users[userId].organization == requesterOrg then Some(users[userId]) else None
  }

  /** `UserDetailView.get`: 404 unless the scoped lookup finds the user. */
  function GetUser(users: map<nat, User>, requester: User, userId: nat): (r: Reply<User>)
    ensures r.status == OK || r.status == NOT_FOUND
    ensures r.status == OK <==> userId in users && users[userId].organization == requester.organization
    ensures r.status == OK ==> r.body == Some(users[userId])
  {
    match GetUserObject(users, requester.organization, userId)
    case None => Reply(NOT_FOUND, None)
    case Some(u) => Reply(OK, Some(u))
  }

  /** A user of another organization is indistinguishable from a missing id. */
  lemma {:induction false} OtherTenantLooksMissing(users: map<nat, User>, requester: User, userId: nat)
    requires userId in users && users[userId].organization != requester.organization
    ensures GetUser(users, requester, userId) == GetUser(users - {userId}, requester, userId)
    ensures GetUser(users, requester, userId).status == NOT_FOUND
  {
    assert GetUserObject(users, requester.organization, userId).None?;
    assert GetUserObject(users - {userId}, requester.organization, userId).None?;
  }

  /**
   * `UserDetailView.put` (`partial` false) and `patch` (`partial` true): 403 before any
   * lookup, then 404 outside the organization, then 400 on invalid input; otherwise 200
   * and only the writable profile fields of the target change.
   */
  method UpdateUser(db: Db, requesterId: nat, userId: nat, data: Data, rejected: set<string>, partial: bool)
    returns (status: int)
    requires db.Valid() && requesterId in db.users
    modifies db
    ensures db.Valid()
    ensures var req := old(db.users[requesterId]);
      (status == FORBIDDEN <==> !CanManageOrganization(req)) &&
      (status == NOT_FOUND <==> (CanManageOrganization(req) &&
        GetUserObject(old(db.users), req.organization, userId).None?)) &&
      (status == OK <==> (CanManageOrganization(req) &&
        GetUserObject(old(db.users), req.organization, userId).Some? &&
        ProfileErrors(old(db.users), userId, data, rejected, partial) == {}))
    ensures status == FORBIDDEN || status == NOT_FOUND || status == BAD_REQUEST || status == OK
    ensures status == OK ==> db.users == old(db.users)[userId := ApplyProfile(old(db.users[userId]), data)]
    ensures status != OK ==> db.users == old(db.users)
    ensures db.orgs == old(db.orgs) && db.groups == old(db.groups)
    ensures db.nextUserId == old(db.nextUserId) && db.nextOrgId == old(db.nextOrgId)
  {
    var req := db.users[requesterId];
    if !CanManageOrganization(req) {
      return FORBIDDEN;
    }
    var target := GetUserObject(db.users, req.organization, userId);
    if target.None? {
      return NOT_FOUND;
    }
    var errs := ProfileErrors(db.users, userId, data, rejected, partial);
    if errs != {} {
      return BAD_REQUEST;
    }
    var u := ApplyProfile(db.users[userId], data);
    ProfileEditKeepsEmailsUnique(db.users, userId, data, rejected, partial);
    forall id | id in db.users && id != userId
      ensures db.users[id].email != u.email && db.users[id].username != u.username
    {
      assert db.users[userId := u][id] == db.users[id];
    }
    PutUser(db.users, db.orgs, db.groups, db.nextUserId, db.nextOrgId, u);
    db.users := db.users[userId := u];
    status := OK;
  }

  /**
   * `UserMeView.put` (`partial` false) and `patch` (`partial` true): the requester edits
   * their own profile with no permission check; 400 on invalid input, otherwise 200 and
   * only the requester's writable profile fields change.
   */
  method UpdateMe(db: Db, requesterId: nat, data: Data, rejected: set<string>, partial: bool)
    returns (status: int)
    requires db.Valid() && requesterId in db.users
    modifies db
    ensures db.Valid()
    ensures status == OK || status == BAD_REQUEST
    ensures status == OK <==> ProfileErrors(old(db.users), requesterId, data, rejected, partial) == {}
    ensures status == OK ==> db.users == old(db.users)[requesterId := ApplyProfile(old(db.users[requesterId]), data)]
    ensures status != OK ==> db.users == old(db.users)
    ensures db.orgs == old(db.orgs) && db.groups == old(db.groups)
    ensures db.nextUserId == old(db.nextUserId) && db.nextOrgId == old(db.nextOrgId)
  {
    var errs := ProfileErrors(db.users, requesterId, data, rejected, partial);
    if errs != {} {
      return BAD_REQUEST;
    }
    var u := ApplyProfile(db.users[requesterId], data);
    ProfileEditKeepsEmailsUnique(db.users, requesterId, data, rejected, partial);
    forall id | id in db.users && id != requesterId
      ensures db.users[id].email != u.email && db.users[id].username != u.username
    {
      assert db.users[requesterId := u][id] == db.users[id];
    }
    PutUser(db.users, db.orgs, db.groups, db.nextUserId, db.nextOrgId, u);
    db.users := db.users[requesterId := u];
    status := OK;
  }

  /**
   * `UserDetailView.delete`: 403, then 404 outside the organization, then 400 when the
   * target is the requester (nothing changes); otherwise 204 and exactly that user is gone.
   */
  method DeleteUser(db: Db, requesterId: nat, userId: nat) returns (status: int)
    requires db.Valid() && requesterId in db.users
    modifies db
    ensures db.Valid()
    ensures var req := old(db.users[requesterId]);
      (status == FORBIDDEN <==> !CanManageOrganization(req)) &&
      (status == NOT_FOUND <==> (CanManageOrganization(req) &&
        GetUserObject(old(db.users), req.organization, userId).None?)) &&
      (status == BAD_REQUEST <==> (CanManageOrganization(req) &&
        GetUserObject(old(db.users), req.organization, userId).Some? && userId == requesterId)) &&
      (status == NO_CONTENT <==> (CanManageOrganization(req) &&
        GetUserObject(old(db.users), req.organization, userId).Some? && userId != requesterId))
    ensures status == NO_CONTENT ==> db.users == old(db.users) - {userId} && userId in old(db.users)
    ensures status != NO_CONTENT ==> db.users == old(db.users)
    ensures requesterId in db.users
    ensures db.orgs == old(db.orgs) && db.groups == old(db.groups)
    ensures db.nextUserId == old(db.nextUserId) && db.nextOrgId == old(db.nextOrgId)
  {
    var req := db.users[requesterId];
    if !CanManageOrganization(req) {
      return FORBIDDEN;
    }
    var target := GetUserObject(db.users, req.organization, userId);
    if target.None? {
      return NOT_FOUND;
    }
    if target.value.id == requesterId {
      return BAD_REQUEST;
    }
    DropUsers(db.users, db.orgs, db.groups, db.nextUserId, db.nextOrgId, db.users - {userId});
    db.users := db.users - {userId};
    status := NO_CONTENT;
  }

  /**
   * `ChangePasswordView.post`: 400 on invalid input, 400 when the stripped old password
   * does not match (nothing changes), otherwise 200 and the stripped new password is stored.
   */
  method ChangePassword(db: Db, requesterId: nat, data: Data, rejected: set<string>) returns (status: int)
    requires db.Valid() && requesterId in db.users
    modifies db
    ensures db.Valid()
    ensures status == OK || status == BAD_REQUEST
    ensures status == OK <==> (ChangePasswordErrors(data, rejected) == {} &&
      Strip(data["old_password"]) == old(db.users[requesterId]).password)
    ensures status == OK ==>
      db.users == old(db.users)[requesterId := old(db.users[requesterId]).(password := Strip(data["new_password"]))]
    ensures status != OK ==> db.users == old(db.users)
    ensures db.orgs == old(db.orgs) && db.groups == old(db.groups)
    ensures db.nextUserId == old(db.nextUserId) && db.nextOrgId == old(db.nextOrgId)
  {
    var errs := ChangePasswordErrors(data, rejected);
    if errs != {} {
      return BAD_REQUEST;
    }
    var validated := Parsed(data);
    var user := db.users[requesterId];
    if validated["old_password"] != user.password {
      return BAD_REQUEST;
    }
    TouchUser(db.users, db.orgs, db.groups, db.nextUserId, db.nextOrgId, user.(password := validated["new_password"]));
    db.users := db.users[requesterId := user.(password := validated["new_password"])];
    status := OK;
  }

  /** `RegisterView.post`'s organization: the supplied name and address or their fallbacks, of type client. */
  function RegisteredOrganization(id: nat, username: string, orgData: Data, now: int): (o: OrganizationModels.Organization)
    ensures OrganizationModels.IsClient(o) && o.isActive && o.id == id
    ensures o.name == Some(if "name" in orgData then orgData["name"] else "Organizácia používateľa " + username)
    ensures o.address == if "address" in orgData then orgData["address"] else "Nezadané"
  {
    OrganizationModels.NewOrganization(id,
      Some(ValueOr(orgData, "name", "Organizácia používateľa " + username)),
      ValueOr(orgData, "address", "Nezadané"), now)
  }

  /**
   * `RegisterView.post`: 400 on invalid input; 500 when the normalised email is already
   * stored (the transaction rolls back, nothing changes); otherwise 201, one new client
   * organization and one new user who belongs to it and is its admin.
   */
  method Register(db: Db, data: Data, rejected: set<string>, orgData: Data, now: int)
    returns (status: int, created: Option<nat>)
    requires db.Valid()
    modifies db
    ensures db.Valid()
    ensures status == CREATED || status == BAD_REQUEST || status == INTERNAL_SERVER_ERROR
    ensures status == BAD_REQUEST <==> RegistrationErrors(old(db.users), data, rejected) != {}
    ensures status == CREATED <==>
      (RegistrationErrors(old(db.users), data, rejected) == {} && !StoredEmailClash(old(db.users), data))
    ensures status != CREATED ==> (created.None? && db.users == old(db.users) && db.orgs == old(db.orgs) &&
      db.nextUserId == old(db.nextUserId) && db.nextOrgId == old(db.nextOrgId))
    ensures status == CREATED ==> (RegistrationAcceptable(old(db.users), data, rejected) &&
      created == Some(old(db.nextUserId)) &&
      db.orgs == old(db.orgs)[old(db.nextOrgId) := RegisteredOrganization(old(db.nextOrgId), Strip(data["username"]), orgData, now)] &&
      db.users == old(db.users)[old(db.nextUserId) :=
        MemberRecord(old(db.nextUserId), data, old(db.nextOrgId), now).(isOrganizationAdmin := true)])
    ensures db.groups == old(db.groups)
  {
    var errs := RegistrationErrors(db.users, data, rejected);
    if errs != {} {
      return BAD_REQUEST, None;
    }
    if StoredEmailClash(db.users, data) {
      return INTERNAL_SERVER_ERROR, None;
    }
    var validated := RegistrationValidated(data);
    var user := Create(validated, db.nextUserId, now);
    var org := RegisteredOrganization(db.nextOrgId, user.username, orgData, now);
    user := user.(organization := Some(db.nextOrgId));
    user := user.(isOrganizationAdmin := true);
    assert user == MemberRecord(db.nextUserId, data, db.nextOrgId, now).(isOrganizationAdmin := true);
    NewUserKeepsUnique(db.users, user, data, rejected);
    created := Some(db.nextUserId);
    SaveRegistration(db, org, user);
    status := CREATED;
  }

  /**
   * The saves of a registration, made in one transaction: the new user under the next user
   * key and the new organization under the next organization key, the user ending up as
   * that organization's admin and pointing at it.
   */
  method SaveRegistration(db: Db, org: OrganizationModels.Organization, user: User)
    requires db.Valid()
    requires org.id == db.nextOrgId && org.email.None?
    requires user.id == db.nextUserId && user.organization == Some(db.nextOrgId) && user.roles == {}
    requires forall id :: id in db.users ==> db.users[id].email != user.email && db.users[id].username != user.username
    modifies db
    ensures db.Valid()
    ensures db.orgs == old(db.orgs)[old(db.nextOrgId) := org]
    ensures db.users == old(db.users)[old(db.nextUserId) := user]
    ensures db.nextUserId == old(db.nextUserId) + 1 && db.nextOrgId == old(db.nextOrgId) + 1
    ensures db.groups == old(db.groups)
  {
    AddOrg(db.users, db.orgs, db.groups, db.nextUserId, db.nextOrgId, org);
    db.orgs := db.orgs[db.nextOrgId := org];
    db.nextOrgId := db.nextOrgId + 1;
    SaveNewUser(db, user);
  }
}
