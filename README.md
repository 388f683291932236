# KnihaJazd core, modelled in Dafny

KnihaJazd is a multi-tenant electronic logbook for company vehicles. This project models
two parts of it and proves properties about them.

The first part is the Django backend's authorization and organization management:
- users belong to one organization and hold roles (Django groups) that grant permission tags;
- the capability checks combine those tags with the organization-admin and superuser flags;
- the REST handlers decide 400/403/404 and then create, update or delete users and organizations, scoped to the requester's organization;
- the serializers validate registrations, profile edits, password changes and organizations;
- the `setup_groups_permissions` command rebuilds the four roles from a fixed configuration.

The second part is the Next.js frontend's logic:
- the in-memory mock store that stands in for the server, with its trips, the driver–user link, holidays, odometer readings and the onboarding state machine;
- the trip and odometer API wrappers on top of it;
- the licence-plate formatter and the blog queries;
- the route configuration and trip dialog rules;
- the onboarding mission guide;
- the three sign-up and login form validators;
- the `hasRole` check.

Modules follow the source files one to one:

| module | source |
|---|---|
| `UserModels` | `backend/user/models.py` (the `can_*`, `is_*` and `get_primary_role` checks) |
| `Database` | the ORM tables as one class `Db`, with `assign_role` and `remove_role` from `backend/user/models.py` |
| `UserSerializers`, `UserViews` | `backend/user/serializers.py`, `backend/user/views.py` |
| `OrganizationModels`, `OrganizationSerializers`, `OrganizationViews` | `backend/organization/` |
| `SetupGroups` | `backend/user/management/commands/setup_groups_permissions.py` |
| `MockApi`, `TripsApi`, `OdometerApi` | `frontend/lib/mock-api.ts`, `frontend/lib/api/trips.ts`, `frontend/lib/api/odometer.ts` |
| `LicensePlateInput`, `BlogData`, `TripRouteConfig`, `TripFormDialog` | the components and library files of the same names |
| `OnboardingProvider`, `ClientRegistrationForm`, `PartnerRegistrationForm`, `LoginForm`, `AuthProvider` | the components and providers of the same names |
| `Common` | shared helpers: option, filters, JavaScript `slice`, decimal rendering, HTTP status codes, and the white-space stripping of DRF text fields |

How the source's state is represented:
- The database is a class whose `users`, `orgs` and `groups` fields the handlers reassign. `Db.Valid()` states its consistency:
  - keys match ids;
  - every user's organization exists;
  - held roles are registered;
  - group names are distinct;
  - non-empty organization e-mails are unique;
  - user e-mails and usernames are unique.
- The mock store is a class whose arrays are `seq` fields. Its methods are specified by functions on those sequences, and the properties are proved about the functions.
- React component state is a class per component: `TripForm`, `Provider`, `ClientForm`, `PartnerForm` and `Login`.
- The pure helpers are functions with lemmas.

Inputs the model treats as parameters:
- the clock (`now`);
- library validators that cannot be seen (a `rejected` set of field names);
- the parent JWT response status;
- date parsing in the mock store.

## Model

| member | source | states |
|---|---|---|
| Common.Strip | backend/user/serializers.py:97-98 | a text field's value loses its surrounding white space (Python's `str.isspace` set); the result is no longer and neither starts nor ends with white space |
| Common.StripBlank | backend/user/serializers.py:97-98 | a value strips to the empty string iff it is all white space, so such a value counts as blank |
| Common.StripIdempotent | backend/user/serializers.py:97-98 | stripping twice equals stripping once |
| Common.StripPadding | backend/user/serializers.py:97-98 | one white-space character added at either end does not change the stripped value |
| UserModels.PrimaryRole | backend/user/models.py:143-146 | the first registered group the user holds, in primary-key order; "Používateľ" when the user holds none |
| UserModels.ManageOrganizationIsFlagGated | backend/user/models.py:106-109 | managing the organization holds iff the user is an organization admin or a superuser, whatever roles they hold |
| UserModels.AdminFeaturesForAdmins | backend/user/models.py:168-172 | every organization admin and every superuser reaches the admin features, whatever their permissions |
| UserModels.HasPermIff | backend/user/models.py:152-154 | a permission tag is held iff the user is active and either a superuser or holds a role granting it |
| UserModels.TripCapability | backend/user/models.py:156-158 | trips can be managed iff the user is active and either a superuser or holds `edit_all_trips` or `delete_trips` |
| UserModels.FinancialCapability | backend/user/models.py:160-162 | financials are visible iff the user is active and either a superuser or holds `view_financial_data` or `manage_accounting` |
| UserModels.DrivingCapability | backend/user/models.py:164-166 | vehicles may be driven iff the user is in the drivers' group, or is active and either a superuser or holds `drive_vehicles` |
| UserModels.CanManageOrganization | backend/user/models.py:106-109 | the structural gate: the organization-admin flag or the superuser flag; its independence from roles is ManageOrganizationIsFlagGated |
| UserModels.IsAdmin | backend/user/models.py:130-132 | holding the group "Administrátori" |
| UserModels.IsDriver | backend/user/models.py:134-136 | holding the group "Vodiči" |
| UserModels.IsAccountant | backend/user/models.py:138-140 | holding the group "Účtovníci" |
| UserModels.RoleChecksFollowAssignment | backend/user/models.py:130-140 | adding the administrators', drivers' or accountants' group makes its check hold and removing it makes the check fail; adding or removing any other group leaves each check as it was |
| UserModels.HasOrganizationPermission | backend/user/models.py:152-154 | holds iff the user is active and either a superuser or holds a group granting the tag `user.` + codename |
| UserModels.CanManageTrips | backend/user/models.py:156-158 | either trip tag; characterised by TripCapability |
| UserModels.CanViewFinancials | backend/user/models.py:160-162 | either accounting tag; characterised by FinancialCapability |
| UserModels.CanDriveVehicles | backend/user/models.py:164-166 | every member of the drivers group may drive, whatever its tags; characterised by DrivingCapability |
| UserModels.CanAccessAdminFeatures | backend/user/models.py:168-172 | whoever may manage the organization reaches the admin features |
| UserModels.RemovingRoleKeepsOthers | backend/user/models.py:183-190 | with two distinct held roles granting x and y, both tags are held exactly when the user is active; after the first role is removed, y is still held exactly when active, and x iff the user is active and a superuser or another held role grants it |
| UserModels.WithoutRoleIff | backend/user/models.py:183-190 | after a role is removed, a tag is held iff the user is active and either a superuser or holds one of the remaining roles granting it |
| UserModels.WithRolePermissions | backend/user/models.py:174-181 | assigning a role adds every tag it grants; with distinct group names the permissions become exactly the old ones plus that role's |
| Database.Db.constructor | backend/user/models.py:13-40 | no users and no organizations, the given role registry, and a consistent state |
| Database.Db.AssignRole | backend/user/models.py:174-181 | succeeds iff the role is registered; afterwards the role is held and nothing else changes; an unregistered name changes nothing |
| Database.Db.RemoveRole | backend/user/models.py:183-190 | succeeds iff the role is registered, even when it was not held; afterwards it is not held and nothing else changes |
| Database.AssignRoleIdempotent | backend/user/models.py:174-181 | assigning the same role twice gives the state of assigning it once |
| Database.RemoveRoleIdempotent | backend/user/models.py:183-190 | removing the same role twice gives the state of removing it once |
| UserViews.Login | backend/user/views.py:54-71 | `last_login` is set only when the token response is 200 and an e-mail was posted and belongs to a user; no other user changes and the status passes through |
| UserViews.ListUsers | backend/user/views.py:174-187 | 400 without an organization; otherwise exactly the users of the requester's organization |
| UserViews.MemberRecord | backend/user/views.py:203-209 | the created member belongs to the requester's organization and is not its admin; it stores the stripped username and password and the normalised e-mail |
| UserViews.CreateUser | backend/user/views.py:189-214 | 403 without the manage capability, checked before the 400 for no organization, then 400 on invalid data, then 500 with no change when the normalised e-mail is already stored; otherwise 201 and exactly one new member |
| UserViews.SaveNewUser | backend/user/views.py:205-209 | the new member is stored under the next key and the database stays consistent |
| UserViews.NewUserKeepsUnique | backend/user/serializers.py:115-125 | a user accepted by the registration checks, whose normalised e-mail is not stored yet, keeps e-mails and usernames unique |
| UserViews.GetUserObject | backend/user/views.py:227-236 | finds a user only when it is in the requester's organization |
| UserViews.GetUser | backend/user/views.py:238-248 | 200 with the user for a member of the requester's organization, 404 otherwise |
| UserViews.OtherTenantLooksMissing | backend/user/views.py:227-248 | a user of another organization gets the same 404 as an id that does not exist |
| UserViews.UpdateUser | backend/user/views.py:250-290 | 403 before any lookup, then 404 outside the organization, then 400 on invalid data; otherwise only the target's profile fields change |
| UserViews.UpdateMe | backend/user/views.py:128-162 | the requester edits their own profile with no permission check: 400 with no change on invalid data, otherwise 200 and only the requester's writable profile fields change |
| UserViews.DeleteUser | backend/user/views.py:292-315 | 403, then 404, then 400 when deleting oneself with no change; otherwise 204 and exactly the target is removed |
| UserViews.ChangePassword | backend/user/views.py:324-346 | a wrong old password (after stripping) or invalid data gives 400 and keeps the password; otherwise only the requester's password changes, to the stripped new one |
| UserViews.RegisteredOrganization | backend/user/views.py:395-400 | the new organization is a client with the default name "Organizácia používateľa <username>" and address "Nezadané" unless given |
| UserViews.Register | backend/user/views.py:386-411 | invalid data gives 400 and no change; valid data whose normalised e-mail is already stored gives 500 and no change; otherwise 201, one new client organization and one new user who is its admin |
| UserViews.SaveRegistration | backend/user/views.py:390-405 | the new user and organization are stored under the next keys and the database stays consistent |
| UserSerializers.RegistrationErrors | backend/user/serializers.py:97-125 | registration is rejected iff some check fails on the stripped values: a blank required field, passwords that differ, an e-mail or username already used by any user, or a field check |
| UserSerializers.Parsed | backend/user/serializers.py:97-98 | every supplied field is kept, stripped of surrounding white space |
| UserSerializers.ParsedIdempotent | backend/user/serializers.py:97-98 | parsing parsed data changes nothing |
| UserSerializers.RegistrationFieldChecks | backend/user/serializers.py:97-125 | the per-field checks on the parsed data pass iff the required fields are non-blank after stripping, none is refused, and the stripped e-mail and username are unused |
| UserSerializers.PaddedConfirmationAccepted | backend/user/serializers.py:97-113 | a confirmation that differs from the password only by trailing white space gives the same verdict as an exact one |
| UserSerializers.RegistrationValidated | backend/user/serializers.py:97-105 | the validated data is the input restricted to the registration fields, each value stripped of surrounding white space |
| UserSerializers.NormalizeEmail | backend/user/serializers.py:134 | the stored e-mail is the input unchanged or as long as its stripped form |
| UserSerializers.NormalizeEmailShape | backend/user/serializers.py:134 | without '@' the e-mail is stored unchanged; otherwise the stripped local part up to the last '@' is kept and the domain is lower-cased |
| UserSerializers.NormalizeEmailIdempotent | backend/user/serializers.py:134 | normalising a normalised e-mail changes nothing |
| UserSerializers.DomainCaseSlipsThrough | backend/user/serializers.py:115-119 | an e-mail with a capital in its domain passes the uniqueness check against the lower-cased stored copy, yet its normalised form is already stored |
| UserSerializers.PopPasswords | backend/user/serializers.py:129-133 | the password is taken out, and the remaining arguments hold neither password field |
| UserSerializers.CreateUserRecord | backend/user/serializers.py:134 | the created user carries the given username and password and the normalised e-mail, with the given profile fields and defaults for every other field |
| UserSerializers.RegistrationRecord | backend/user/serializers.py:127-135 | the user a valid registration creates: the stripped username and password, the normalised e-mail, and the defaults |
| UserSerializers.Create | backend/user/serializers.py:127-135 | creation drops `password_confirm` and passes the password separately |
| UserSerializers.ProfileEmailOk | backend/user/serializers.py:83-88 | without an instance any e-mail passes; on an edit it passes iff no other user holds it |
| UserSerializers.ProfileEmailOwnAccepted | backend/user/serializers.py:83-88 | the edited user's own e-mail is always accepted |
| UserSerializers.ProfileEmailOtherRejected | backend/user/serializers.py:83-88 | an e-mail held by another user is rejected |
| UserSerializers.ProfileErrors | backend/user/serializers.py:44-88 | an edit has no errors iff a full update supplies an e-mail, a supplied e-mail is non-blank after stripping and held by no other user, and no supplied field is refused; a stripped e-mail held by another user is an error |
| UserSerializers.ApplyProfile | backend/user/serializers.py:66-69 | only the writable profile fields change, each to its supplied value stripped of surrounding white space; the read-only fields stay |
| UserSerializers.ApplyProfileLaws | backend/user/serializers.py:66-69 | an edit without writable fields changes nothing, and applying an edit twice equals applying it once |
| UserSerializers.ProfileEditKeepsEmailsUnique | backend/user/serializers.py:83-88 | an accepted profile edit keeps user e-mails unique |
| UserSerializers.ChangePasswordErrors | backend/user/serializers.py:138-154 | a password change is accepted iff every field is given, non-blank after stripping and not refused by the validators, and the two new passwords are equal after stripping |
| OrganizationModels.ParseType | backend/organization/models.py:20-23 | a code is accepted iff it is "client" or "partner", and the accepted type renders back to that code |
| OrganizationModels.TypeCodeRoundTrip | backend/organization/models.py:20-23 | every type survives a render and parse round trip |
| OrganizationModels.ClientXorPartner | backend/organization/models.py:105-113 | an organization is a client iff its type is client, a partner iff it is partner, and never both |
| OrganizationModels.NewOrganization | backend/organization/models.py:34-40 | a new organization is an active client unless it is given other values |
| OrganizationModels.ActiveUserIds | backend/organization/models.py:115-117 | exactly the organization's active users |
| OrganizationModels.ActiveUsersCount | backend/organization/models.py:115-117 | the number of the organization's active users; characterised by ActiveUsersCountBound, DeactivateLowersCount and OutsiderDoesNotCount |
| OrganizationModels.ActiveUsersCountBound | backend/organization/models.py:115-117 | the active-user count never exceeds the number of users |
| OrganizationModels.DeactivateLowersCount | backend/organization/models.py:115-117 | deactivating an active member lowers the count by one |
| OrganizationModels.OutsiderDoesNotCount | backend/organization/models.py:115-117 | storing or removing a user outside the organization leaves its active count unchanged |
| OrganizationModels.VehiclesCount | backend/organization/models.py:119-125 | always 0 |
| OrganizationModels.TripsCount | backend/organization/models.py:127-133 | always 0 |
| OrganizationSerializers.IcoOk | backend/organization/serializers.py:32-36 | an IČO is accepted iff it is empty or at least 6 characters long |
| OrganizationSerializers.OrgEmailOk | backend/organization/serializers.py:38-47 | an empty e-mail is always accepted; otherwise it is accepted iff no other organization holds it |
| OrganizationSerializers.OwnEmailAccepted | backend/organization/serializers.py:40-43 | on update, the organization's own e-mail is accepted whenever no other organization shares it, and the empty e-mail always |
| OrganizationSerializers.EditIgnoresOwnRow | backend/organization/serializers.py:38-47 | on update, the answer does not depend on the organization's own stored e-mail |
| OrganizationSerializers.TakenEmailRejected | backend/organization/serializers.py:40-46 | an e-mail held by another organization is rejected on update, and one held by any organization on create |
| OrganizationSerializers.Stripped | backend/organization/serializers.py:12-30 | every text field is stripped of surrounding white space; the type code and the active flag are kept as given |
| OrganizationSerializers.StrippedIdempotent | backend/organization/serializers.py:12-30 | stripping stripped data changes nothing |
| OrganizationSerializers.OrgErrors | backend/organization/serializers.py:12-47 | data has no errors iff the type parses, the IČO and e-mail checks pass, the address is non-empty whenever required or given, and no supplied field is refused; an invalid type, IČO or e-mail is an error |
| OrganizationSerializers.ApplyOrgData | backend/organization/views.py:83-84 | saving changes exactly the supplied writable fields and the update time |
| OrganizationSerializers.CreatedOrganization | backend/organization/views.py:168-170 | a created organization takes the supplied fields and the model defaults for the rest |
| OrganizationViews.GetOrganization | backend/organization/views.py:34-61 | 400 without an organization, otherwise 200 with the requester's own organization |
| OrganizationViews.OrgEditKeepsEmailsUnique | backend/organization/serializers.py:38-47 | an accepted edit keeps organization e-mails unique |
| OrganizationViews.OrgCreateKeepsEmailsUnique | backend/organization/serializers.py:38-47 | an accepted creation keeps organization e-mails unique |
| OrganizationViews.UpdateOrganization | backend/organization/views.py:63-113 | 403 unless the requester can manage, checked before the 400 for no organization, then 400 on invalid data; otherwise only that organization changes, to the stripped supplied fields |
| OrganizationViews.WithoutMembers | backend/organization/views.py:130-134 | exactly the users outside the organization remain, unchanged |
| OrganizationViews.DeleteOrganization | backend/organization/views.py:115-136 | superusers only (403), 400 without an organization; otherwise 204, and the members and then the organization are gone with nothing else changed |
| OrganizationViews.InsertNewest | backend/organization/models.py:100 | insertion adds exactly the new organization |
| OrganizationViews.InsertNewestSorted | backend/organization/models.py:100 | insertion keeps a newest-first list newest first |
| OrganizationViews.ListOrganizations | backend/organization/views.py:148-158 | superusers only (403); otherwise every organization exactly once, newest first |
| OrganizationViews.ListOne | backend/organization/views.py:156 | each loop step extends the listing by one organization |
| OrganizationViews.CreateOrganization | backend/organization/views.py:160-174 | superusers only (403), 400 on invalid data; otherwise 201 and one new organization |
| OrganizationViews.OrganizationUsers | backend/organization/views.py:246-265 | 400 without an organization; otherwise exactly its active members |
| OrganizationViews.Toggled | backend/organization/views.py:289-291 | the active flag is flipped and nothing but the update time changes |
| OrganizationViews.ToggleTwice | backend/organization/views.py:289-291 | two toggles restore the original active flag |
| OrganizationViews.ToggleOrganizationStatus | backend/organization/views.py:270-297 | 403 without the manage capability, then 400 without an organization; otherwise only that organization's flag flips |
| SetupGroups.ConfigShape | backend/user/management/commands/setup_groups_permissions.py:39-141 | exactly four roles with distinct names, holding 23, 6, 11 and 4 permission tags |
| SetupGroups.SplitTag | backend/user/management/commands/setup_groups_permissions.py:177 | a tag with a '.' splits at its first '.' into an app label without '.' and a codename; a tag without one is rejected |
| SetupGroups.SplitJoin | backend/user/management/commands/setup_groups_permissions.py:177 | app label, '.' and codename join back to the tag |
| SetupGroups.FillFacts | backend/user/management/commands/setup_groups_permissions.py:173-198 | exactly the listed tags that resolve are granted; every other tag gives one warning, unknown or badly formed, and the loop goes on; count plus warnings equals the number of tags |
| SetupGroups.FillGroup | backend/user/management/commands/setup_groups_permissions.py:173-198 | the tag loop computes the fill its specification gives: the granted tags, the count and the warnings |
| SetupGroups.GroupIndex | backend/user/management/commands/setup_groups_permissions.py:160 | the position of the named role in the registry, if it is present |
| SetupGroups.Named | backend/user/management/commands/setup_groups_permissions.py:147 | exactly the registry roles whose names are configured |
| SetupGroups.WithoutNamed | backend/user/management/commands/setup_groups_permissions.py:153 | deleting keeps exactly the roles outside the configuration, in order |
| SetupGroups.WithoutNamedConcat | backend/user/management/commands/setup_groups_permissions.py:153 | deleting from a concatenation deletes from each part |
| SetupGroups.WithoutAbsent | backend/user/management/commands/setup_groups_permissions.py:153 | deleting names that are not present changes nothing |
| SetupGroups.WithoutRoles | backend/user/management/commands/setup_groups_permissions.py:153 | deleting groups removes those roles from every user and nothing else |
| SetupGroups.Missing | backend/user/management/commands/setup_groups_permissions.py:158-166 | the configured roles not yet in the registry |
| SetupGroups.ConfigGroups | backend/user/management/commands/setup_groups_permissions.py:158-198 | one role per configuration entry, in order, granted exactly its resolving tags |
| SetupGroups.Tally | backend/user/management/commands/setup_groups_permissions.py:198 | the reported count of each processed role |
| SetupGroups.Step | backend/user/management/commands/setup_groups_permissions.py:158-198 | one iteration of the role loop; characterised by StepSkips and StepAppends |
| SetupGroups.Steps | backend/user/management/commands/setup_groups_permissions.py:158-207 | the role loop over a configuration; characterised by RunShape, Idempotent and ForceIdempotent |
| SetupGroups.RunShape | backend/user/management/commands/setup_groups_permissions.py:158-207 | a run appends exactly the missing configured roles, each with its resolving tags, and reports only those |
| SetupGroups.StepSkips | backend/user/management/commands/setup_groups_permissions.py:160-166 | without force, an existing role is skipped and left unchanged |
| SetupGroups.StepAppends | backend/user/management/commands/setup_groups_permissions.py:168-198 | a missing role is created and filled with its resolving tags |
| SetupGroups.ForceRebuildsAll | backend/user/management/commands/setup_groups_permissions.py:146-183 | with force, roles outside the configuration stay and every configured role is rebuilt with exactly its resolving tags |
| SetupGroups.SkipKeepsExisting | backend/user/management/commands/setup_groups_permissions.py:160-166 | without force, existing roles keep their permissions |
| SetupGroups.AllConfiguredPresent | backend/user/management/commands/setup_groups_permissions.py:158-207 | after a run every configured role is registered |
| SetupGroups.Idempotent | backend/user/management/commands/setup_groups_permissions.py:146-198 | a run without force after any run leaves the registry unchanged |
| SetupGroups.ForceIdempotent | backend/user/management/commands/setup_groups_permissions.py:146-198 | a second forced run gives the same registry as the first |
| SetupGroups.DeleteGroups | backend/user/management/commands/setup_groups_permissions.py:146-153 | the configured groups are deleted and the users lose those roles |
| SetupGroups.WithoutNamedDistinct | backend/user/management/commands/setup_groups_permissions.py:146-153 | deleting keeps the registry's names distinct |
| SetupGroups.ProcessRoles | backend/user/management/commands/setup_groups_permissions.py:158-207 | the loop over the configured roles ends in the state the run specification gives |
| SetupGroups.ProcessRole | backend/user/management/commands/setup_groups_permissions.py:159-198 | one role is skipped, created or rebuilt as its step specifies |
| SetupGroups.SaveGroup | backend/user/management/commands/setup_groups_permissions.py:160-182 | the role is stored, replacing an existing role of the same name or appended |
| SetupGroups.ReplaceKeepsNames | backend/user/management/commands/setup_groups_permissions.py:160-182 | replacing a role keeps the registry's names |
| SetupGroups.Handle | backend/user/management/commands/setup_groups_permissions.py:31-223 | listing permissions changes nothing; otherwise one run, which removes the configured roles from users under force and leaves organizations alone |
| MockApi.NewTrip | frontend/lib/mock-api.ts:238-258 | the new trip is unlocked, its id is one more than the trip count, and source and type default to manual and business |
| MockApi.Merge | frontend/lib/mock-api.ts:270 | a supplied lock flag or VAT report id overrides the stored one, an absent one keeps it, the id stays unless supplied, and an empty patch changes nothing |
| MockApi.TripUpdate | frontend/lib/mock-api.ts:260-271 | an update fails for a missing id, or for a locked trip unless it unlocks; otherwise it merges the data into that trip |
| MockApi.TripIndex | frontend/lib/mock-api.ts:262 | the position of the first trip with the id, if any |
| MockApi.UpdateKeepsOthers | frontend/lib/mock-api.ts:260-271 | an update changes only the trip it targets |
| MockApi.NarrowedMembers | frontend/lib/mock-api.ts:196-225 | each filter keeps exactly the trips that satisfy it, in order |
| MockApi.ListedUpToMembers | frontend/lib/mock-api.ts:181-229 | the listing keeps exactly the trips that satisfy every supplied filter |
| MockApi.ListedTripsMembers | frontend/lib/mock-api.ts:181-229 | the listed trips are exactly those that satisfy every supplied filter |
| MockApi.ListedTrips | frontend/lib/mock-api.ts:181-229 | the trips `getAll` returns; characterised by ListedTripsMembers and ListedTripsConcat |
| MockApi.ListedUpToConcat | frontend/lib/mock-api.ts:181-229 | filtering works trip by trip, so the listing keeps the store order |
| MockApi.ListedTripsConcat | frontend/lib/mock-api.ts:181-229 | listing a concatenation lists each part |
| MockApi.NoFiltersListAll | frontend/lib/mock-api.ts:181-229 | without filters every trip is listed |
| MockApi.NoFiltersUpTo | frontend/lib/mock-api.ts:181-229 | omitted filters, including an undefined `locked`, impose no constraint |
| MockApi.Relinked | frontend/lib/mock-api.ts:683-691 | linking sets that driver's user and role and changes no other driver |
| MockApi.LinkedOnCreate | frontend/lib/mock-api.ts:683-690 | a new driver user with a given driver id links that driver; characterised by CreateThenDeleteUnlinks and CreateThenDeleteRestores |
| MockApi.UnlinkedOnDelete | frontend/lib/mock-api.ts:713-719 | a user with a given driver id unlinks that driver; characterised by the same lemmas |
| MockApi.RelinkLastWins | frontend/lib/mock-api.ts:683-691 | linking the same driver twice keeps the second link |
| MockApi.CreateThenDeleteUnlinks | frontend/lib/mock-api.ts:674-723 | deleting a user clears the driver link that creating it set |
| MockApi.CreateThenDeleteRestores | frontend/lib/mock-api.ts:674-723 | creating and then deleting a user leaves the user list as it was |
| MockApi.DateLeTotal | frontend/lib/mock-api.ts:929 | date strings compare as a total order |
| MockApi.InsertByDate | frontend/lib/mock-api.ts:929 | insertion keeps the list sorted and adds exactly the new holiday |
| MockApi.SortByDate | frontend/lib/mock-api.ts:929 | sorting gives a sorted permutation |
| MockApi.HolidaysNarrowedMembers | frontend/lib/mock-api.ts:917-927 | each holiday filter keeps exactly the holidays that satisfy it |
| MockApi.ListedHolidaysMeaning | frontend/lib/mock-api.ts:913-930 | listed holidays are exactly those matching year prefix, type and country, sorted ascending by date |
| MockApi.ListedHolidays | frontend/lib/mock-api.ts:913-930 | the holidays `getAll` returns; characterised by ListedHolidaysMeaning |
| MockApi.Latest | frontend/lib/mock-api.ts:1205-1211 | a reading of the vehicle with the greatest date, or none when it has none |
| MockApi.StepIndex | frontend/lib/mock-api.ts:1242-1253 | each step's position in the fixed order |
| MockApi.NextStep | frontend/lib/mock-api.ts:1254-1255 | the next step in that order, or completed after advanced features |
| MockApi.WalkCompletes | frontend/lib/mock-api.ts:1242-1255 | walking the steps in order reaches completed |
| MockApi.AfterStep | frontend/lib/mock-api.ts:1236-1261 | the step is recorded at most once, the status becomes in progress and the current step the next one |
| MockApi.StepRecordedOnce | frontend/lib/mock-api.ts:1239-1241 | a step never appears twice in the completed steps |
| MockApi.StepIdempotent | frontend/lib/mock-api.ts:1236-1261 | recording the same step twice gives the state of recording it once |
| MockApi.MissionsFor | frontend/lib/mock-api.ts:1292-1390 | exactly six missions, with the fixed ids in order; their statuses are stated by MissionsLaws |
| MockApi.MissionsLaws | frontend/lib/mock-api.ts:1295-1381 | each status both ways: the vehicle, trip and defaults missions are completed iff recorded or their step (vehicle_setup, first_trip, driver_setup) is done, else available; the partners and VAT report missions are completed iff recorded, else available; auto-generation is completed iff recorded, available iff not recorded and advanced_features is done, locked otherwise; nothing is in progress; only the first mission has steps |
| MockApi.WithMission | frontend/lib/mock-api.ts:1392-1399 | the mission is added to the completed ones only when absent |
| MockApi.CompletedMissionLaws | frontend/lib/mock-api.ts:1392-1406 | completing a known mission returns it with status completed; an unknown id returns nothing |
| MockApi.MockStore.constructor | frontend/lib/mock-api.ts:1-9 | the store holds the given seed arrays and no onboarding states |
| MockApi.MockStore.ResetState | frontend/lib/mock-api.ts:1280-1290 | the user's state becomes the default one and nothing else in the store changes |
| MockApi.MockStore.ToggleTips | frontend/lib/mock-api.ts:1441-1446 | only the tips switch of the user's (possibly new) state changes |
| MockApi.FreshMissions | frontend/lib/mock-api.ts:1292-1390 | in a fresh state `try_autogenerate` is locked and the other five missions are available |
| MockApi.MockStore.ListTrips | frontend/lib/mock-api.ts:181-229 | returns the filtered trips and changes nothing |
| MockApi.MockStore.GetTrip | frontend/lib/mock-api.ts:231-236 | the first trip with the id, or none |
| MockApi.MockStore.CreateTrip | frontend/lib/mock-api.ts:238-258 | appends exactly the new trip |
| MockApi.MockStore.UpdateTrip | frontend/lib/mock-api.ts:260-271 | fails without change for a missing or locked trip; otherwise replaces only that trip with the merge |
| MockApi.MockStore.DeleteTrip | frontend/lib/mock-api.ts:273-279 | removes the first trip with the id; a missing id changes nothing |
| MockApi.MockStore.DeleteVehicle | frontend/lib/mock-api.ts:131-137 | removes the first vehicle with the id; a missing id changes nothing |
| MockApi.MockStore.DeleteDriver | frontend/lib/mock-api.ts:170-176 | removes the first driver with the id; a missing id changes nothing |
| MockApi.MockStore.DeleteHoliday | frontend/lib/mock-api.ts:964-970 | removes the first holiday with the id; a missing id changes nothing |
| MockApi.MockStore.DeleteReading | frontend/lib/mock-api.ts:1197-1203 | removes the first reading with the id; a missing id changes nothing |
| MockApi.MockStore.CreateUser | frontend/lib/mock-api.ts:674-694 | appends the user and, for a driver with a driver id, links that driver |
| MockApi.MockStore.DeleteUser | frontend/lib/mock-api.ts:706-723 | a missing user fails; otherwise removes it and clears its driver link |
| MockApi.MockStore.ListHolidays | frontend/lib/mock-api.ts:913-930 | returns the filtered, date-sorted holidays and changes nothing |
| MockApi.MockStore.AllReadings | frontend/lib/mock-api.ts:1165-1168 | all readings, or those of the given vehicle |
| MockApi.MockStore.LatestReading | frontend/lib/mock-api.ts:1205-1211 | the vehicle's latest reading |
| MockApi.MockStore.GetState | frontend/lib/mock-api.ts:1216-1234 | the user's state, created fresh when absent |
| MockApi.MockStore.UpdateStep | frontend/lib/mock-api.ts:1236-1261 | stores the state after the step for that user only |
| MockApi.MockStore.GetMissions | frontend/lib/mock-api.ts:1292-1390 | the missions of the user's state |
| MockApi.MockStore.CompleteMission | frontend/lib/mock-api.ts:1392-1406 | records the mission in that user's state only |
| TripsApi.Forwarded | frontend/lib/api/trips.ts:14-32 | exactly the seven filter fields are passed on |
| TripsApi.GetTrips | frontend/lib/api/trips.ts:14-32 | the store's listing under the forwarded filters, in store order: every trip without a query, otherwise exactly the trips that match it |
| TripsApi.LockTrip | frontend/lib/api/trips.ts:46-48 | locking is an update setting `locked` to true |
| TripsApi.UnlockTrip | frontend/lib/api/trips.ts:50-52 | unlocking is an update setting `locked` to false |
| TripsApi.UpdateKeepsIndex | frontend/lib/mock-api.ts:260-271 | an update keeps every trip's position |
| TripsApi.LockLocks | frontend/lib/api/trips.ts:46-48 | locking an unlocked trip leaves it locked |
| TripsApi.LockTwiceFails | frontend/lib/api/trips.ts:46-48 | locking an already locked trip fails |
| TripsApi.UnlockSucceeds | frontend/lib/api/trips.ts:50-52 | unlocking an existing trip always succeeds |
| TripsApi.LockThenUnlock | frontend/lib/api/trips.ts:46-52 | locking and then unlocking a trip leaves the list as before, with that trip unlocked |
| TripsApi.DuplicateCopies | frontend/lib/api/trips.ts:58-72 | the copy keeps the trip's data, without its id, as manual and unlocked |
| TripsApi.DuplicateTrip | frontend/lib/api/trips.ts:58-72 | a missing trip fails; otherwise one copy is appended and the original is unchanged |
| TripsApi.BulkConcat | frontend/lib/api/trips.ts:74-90 | a bulk run over concatenated ids is the run over the first part, then the second |
| TripsApi.Bulk | frontend/lib/api/trips.ts:74-99 | a bulk run: one update per id in order, stopping at the first that throws; characterised by BulkConcat, BulkMarks and BulkKeepsMark |
| TripsApi.UpdateEach | frontend/lib/api/trips.ts:74-99 | ids are processed in order and the run stops at the first failure, keeping earlier changes |
| TripsApi.BulkLockTrips | frontend/lib/api/trips.ts:74-78 | bulk locking is that loop over lock updates |
| TripsApi.BulkUnlockTrips | frontend/lib/api/trips.ts:80-84 | bulk unlocking is that loop over unlock updates |
| TripsApi.BulkAddToVatReport | frontend/lib/api/trips.ts:92-99 | each listed trip is locked and given the report id, in order |
| TripsApi.UpdateMarks | frontend/lib/api/trips.ts:74-99 | a successful update sets the requested fields |
| TripsApi.UpdateKeepsMark | frontend/lib/api/trips.ts:74-99 | an update of another trip keeps an earlier mark |
| TripsApi.BulkKeepsMark | frontend/lib/api/trips.ts:74-99 | a bulk run keeps marks set earlier |
| TripsApi.BulkMarks | frontend/lib/api/trips.ts:74-99 | a completed bulk run marks every listed trip |
| TripsApi.BulkLockLocksAll | frontend/lib/api/trips.ts:74-78 | a completed bulk lock leaves every listed trip locked |
| TripsApi.BulkUnlockUnlocksAll | frontend/lib/api/trips.ts:80-84 | a completed bulk unlock leaves every listed trip unlocked |
| TripsApi.VatReportMarksAll | frontend/lib/api/trips.ts:92-99 | a completed VAT run leaves every listed trip locked with the report id |
| TripsApi.BulkUnlockStopsOnlyWhenMissing | frontend/lib/api/trips.ts:80-84 | bulk unlock fails only at an id that does not exist |
| TripsApi.LockSameTwiceStops | frontend/lib/api/trips.ts:74-78 | bulk locking the same id twice stops at the second |
| TripsApi.DeleteAllKeepsOthers | frontend/lib/api/trips.ts:86-90 | bulk delete removes at most one trip per id, adds nothing, and keeps every trip whose id is not listed |
| TripsApi.DeleteAll | frontend/lib/api/trips.ts:86-90 | the deletions of a bulk delete, one per id in order; characterised by DeleteAllKeepsOthers |
| TripsApi.BulkDeleteTrips | frontend/lib/api/trips.ts:86-90 | the trips become the result of deleting each id in order |
| OdometerApi.GetOdometerReadings | frontend/lib/api/odometer.ts:4-6 | without a vehicle id, all readings of the store |
| OdometerApi.GetLatestOdometerReading | frontend/lib/api/odometer.ts:24-26 | a reading of the vehicle with the greatest date, or none when it has none |
| OdometerApi.GetOdometerReadingsInRange | frontend/lib/api/odometer.ts:32-45 | the vehicle's readings dated from `from` to `to`, both ends included |
| OdometerApi.ReadingsInRange | frontend/lib/api/odometer.ts:32-45 | the readings the range query returns; characterised by RangeIsOneFilter, RangeMembers and RangeConcat |
| OdometerApi.RangeIsOneFilter | frontend/lib/api/odometer.ts:37-44 | the two filters in a row are one filter on vehicle and range |
| OdometerApi.RangeMembers | frontend/lib/api/odometer.ts:32-45 | a reading is in the result iff it is the vehicle's and dated within the range |
| OdometerApi.RangeWithinStore | frontend/lib/api/odometer.ts:37-44 | the result holds no reading more often than the store does |
| OdometerApi.RangeConcat | frontend/lib/api/odometer.ts:37-44 | over a store in two parts the result is the first part's matches followed by the second's, so the store's order is kept |
| LicensePlateInput.UpperChar | frontend/components/license-plate-input.tsx:19 | one to three characters; a–z become A–Z, A–Z and digits stay, and the full upper-case mappings that yield A–Z (ß, ſ, ı, the Latin ligatures and six letters that gain a combining mark) are written out |
| LicensePlateInput.Upper | frontend/components/license-plate-input.tsx:19 | the upper-cased text is at least as long as the input and at most three times as long |
| LicensePlateInput.UpperConcat | frontend/components/license-plate-input.tsx:19 | upper-casing works character by character |
| LicensePlateInput.Cleaned | frontend/components/license-plate-input.tsx:19 | the result holds only A–Z and 0–9 and is at most three times as long as the input |
| LicensePlateInput.FormatValue | frontend/components/license-plate-input.tsx:18-21 | the result holds only A–Z and 0–9, has at most 8 characters and is a prefix of the cleaned input |
| LicensePlateInput.CleanedConcat | frontend/components/license-plate-input.tsx:19 | cleaning works character by character, so kept characters keep their relative order |
| LicensePlateInput.CleanedOne | frontend/components/license-plate-input.tsx:19 | one character leaves the plate characters of its capitals: a–z its capital, A–Z and digits themselves, "ß" gives "SS" and "ﬃ" gives "FFI" |
| LicensePlateInput.CleanedFixed | frontend/components/license-plate-input.tsx:19 | cleaning a cleaned value changes nothing |
| LicensePlateInput.FormatIdempotent | frontend/components/license-plate-input.tsx:18-21 | formatting a formatted value returns it unchanged |
| LicensePlateInput.GetParts | frontend/components/license-plate-input.tsx:26-31 | the three parts are at most 2, 4 and 2 characters long |
| LicensePlateInput.PartsJoin | frontend/components/license-plate-input.tsx:26-31 | for at most 8 characters, the parts join back to the input |
| LicensePlateInput.DisplayedPartsJoin | frontend/components/license-plate-input.tsx:18-31 | the parts of any formatted value join back to it |
| BlogData.FeaturedPosts | frontend/lib/blog-data.ts:250-252 | exactly the featured posts, none added or repeated |
| BlogData.FeaturedInOrder | frontend/lib/blog-data.ts:250-252 | filtering works post by post, so the featured posts keep their original order |
| BlogData.PostBySlug | frontend/lib/blog-data.ts:254-256 | the first post with the slug, or none |
| BlogData.PostsByCategory | frontend/lib/blog-data.ts:258-261 | "Všetky" gives all posts; any other category exactly its posts, with order and multiplicity stated by CategoryInOrder |
| BlogData.CategoryInOrder | frontend/lib/blog-data.ts:258-261 | for a named category, the result over a concatenation is the results over the parts in order, and a single post is kept once iff it has that category, which fixes order and multiplicity |
| BlogData.Categories | frontend/lib/blog-data.ts:264 | each post's category, in post order |
| BlogData.Distinct | frontend/lib/blog-data.ts:265 | the same elements without duplicates |
| BlogData.DistinctOrder | frontend/lib/blog-data.ts:263-266 | duplicates removed in first-occurrence order |
| BlogData.AllCategories | frontend/lib/blog-data.ts:263-266 | "Všetky" first, then each post category exactly once |
| BlogData.CategoriesOrdered | frontend/lib/blog-data.ts:263-266 | categories appear in order of first occurrence |
| BlogData.RelatedPosts | frontend/lib/blog-data.ts:268-287 | an unknown slug gives nothing; otherwise at most `limit` posts, never the current one |
| BlogData.RelatedPostsMeaning | frontend/lib/blog-data.ts:268-287 | for a known slug and a non-negative limit, exactly the first `limit` of the category's other posts followed by the other categories' posts, each in list order; a negative limit only slices the category's posts |
| BlogData.SameCategoryFirst | frontend/lib/blog-data.ts:272-286 | same-category posts come before other-category posts |
| BlogData.EnoughSameCategory | frontend/lib/blog-data.ts:272-286 | with enough same-category posts, only those are returned |
| TripRouteConfig.AddWaypoint | frontend/features/trips/components/trip-route-config.tsx:33-47 | no selection or an unknown place changes nothing; otherwise one fixed waypoint is appended with order equal to the old length and the selection is cleared |
| TripRouteConfig.AddedWaypointNamesPlace | frontend/features/trips/components/trip-route-config.tsx:35-41 | the added waypoint carries the selected place's name |
| TripRouteConfig.RemoveWaypoint | frontend/features/trips/components/trip-route-config.tsx:49-51 | exactly the waypoints without the id remain |
| TripRouteConfig.RemoveKeepsOrder | frontend/features/trips/components/trip-route-config.tsx:49-51 | the remaining waypoints keep their order |
| TripRouteConfig.RemoveAbsent | frontend/features/trips/components/trip-route-config.tsx:49-51 | removing an absent id changes nothing |
| TripRouteConfig.ToggleWaypointFixed | frontend/features/trips/components/trip-route-config.tsx:53-55 | only matching waypoints flip their fixed flag; length and order stay |
| TripRouteConfig.ToggleTwice | frontend/features/trips/components/trip-route-config.tsx:53-55 | toggling twice restores the list |
| TripRouteConfig.EditExactTime | frontend/features/trips/components/trip-route-config.tsx:92-97 | setting the exact return time clears the break |
| TripRouteConfig.EditBreak | frontend/features/trips/components/trip-route-config.tsx:111-117 | setting the break clears the exact return time |
| TripFormDialog.ActiveVehicles | frontend/features/trips/components/trip-form-dialog.tsx:38 | exactly the vehicles not marked inactive; an undefined flag counts as active |
| TripFormDialog.AvailableVehicles | frontend/features/trips/components/trip-form-dialog.tsx:42-45 | a driver restricted to the default vehicle is offered only that active vehicle; otherwise all active vehicles |
| TripFormDialog.ActiveOffered | frontend/features/trips/components/trip-form-dialog.tsx:38-45 | unless the chosen driver is `only_default` with a default vehicle id, a vehicle is offered iff it is in the list and active |
| TripFormDialog.OfferedAreActive | frontend/features/trips/components/trip-form-dialog.tsx:38-45 | whoever the chosen driver is, every offered vehicle is an active one from the list |
| TripFormDialog.AfterDriverChange | frontend/features/trips/components/trip-form-dialog.tsx:47-57 | the driver is always set; the vehicle is filled with the driver's default only when none was chosen |
| TripFormDialog.DefaultPurpose | frontend/features/trips/components/trip-form-dialog.tsx:63-70 | the place's default purpose when its index points to a non-empty purpose |
| TripFormDialog.AfterLocationChange | frontend/features/trips/components/trip-form-dialog.tsx:59-74 | the description is filled only when the setting is on, a default purpose exists and the description is empty |
| TripFormDialog.TripForm.constructor | frontend/features/trips/components/trip-form-dialog.tsx:22-36 | the form starts at its initial values |
| TripFormDialog.TripForm.Offered | frontend/features/trips/components/trip-form-dialog.tsx:38-45 | returns the vehicles offered for the chosen driver |
| TripFormDialog.TripForm.HandleDriverChange | frontend/features/trips/components/trip-form-dialog.tsx:47-57 | the form data becomes the driver-change result |
| TripFormDialog.TripForm.HandleLocationChange | frontend/features/trips/components/trip-form-dialog.tsx:59-74 | the form data becomes the location-change result |
| TripFormDialog.TripForm.HandleSubmit | frontend/features/trips/components/trip-form-dialog.tsx:76-98 | sends the data as a manual, unlocked trip and resets the form |
| OnboardingProvider.Started | frontend/features/onboarding/components/onboarding-provider.tsx:73-75 | the started copy is in progress at step 0 |
| OnboardingProvider.CanStart | frontend/features/onboarding/components/onboarding-provider.tsx:66-72 | the mission exists, is not locked and has steps; Provider.StartMission uses it as its guard |
| OnboardingProvider.Advanced | frontend/features/onboarding/components/onboarding-provider.tsx:81-89 | before the last step the index grows by one; after it there is no active mission |
| OnboardingProvider.WalkThrough | frontend/features/onboarding/components/onboarding-provider.tsx:78-117 | a started mission with n steps is at step k after k completions and finished after exactly n |
| OnboardingProvider.MarkCompleted | frontend/features/onboarding/components/onboarding-provider.tsx:112 | only the finished mission is marked completed |
| OnboardingProvider.ReloadShowsCompleted | frontend/features/onboarding/components/onboarding-provider.tsx:112-115 | the reloaded list shows the recorded mission as completed |
| OnboardingProvider.Provider.constructor | frontend/features/onboarding/components/onboarding-provider.tsx:31-35 | no state, no missions, loading, and no active mission |
| OnboardingProvider.Provider.LoadOnboardingState | frontend/features/onboarding/components/onboarding-provider.tsx:44-54 | for a logged-in user, the state comes from the store and loading ends |
| OnboardingProvider.Provider.LoadMissions | frontend/features/onboarding/components/onboarding-provider.tsx:56-64 | for a logged-in user, the missions come from the store |
| OnboardingProvider.Provider.StartMission | frontend/features/onboarding/components/onboarding-provider.tsx:66-76 | an unknown, locked or stepless mission changes nothing; otherwise the started copy is active at its first step |
| OnboardingProvider.Provider.CompleteMissionStep | frontend/features/onboarding/components/onboarding-provider.tsx:78-117 | nothing without an active mission; advances before the last step; after it clears the guide and the mission shows completed |
| OnboardingProvider.Provider.CancelMission | frontend/features/onboarding/components/onboarding-provider.tsx:119-123 | the active mission and the current step are cleared |
| OnboardingProvider.Provider.StartOnboarding | frontend/features/onboarding/components/onboarding-provider.tsx:125-129 | an existing state returns to the welcome step, in progress |
| OnboardingProvider.Provider.CompleteStep | frontend/features/onboarding/components/onboarding-provider.tsx:131-140 | the store records the step, and the state and missions are reloaded |
| OnboardingProvider.Provider.SkipOnboarding | frontend/features/onboarding/components/onboarding-provider.tsx:142-146 | an existing state becomes skipped; without one nothing happens |
| OnboardingProvider.Provider.ResetOnboarding | frontend/features/onboarding/components/onboarding-provider.tsx:148-158 | for a logged-in user the store holds the default state and the missions are those of a fresh state; the local state is the one read before the reset moved to the welcome step, in progress, or the default one when there was none |
| OnboardingProvider.Provider.ToggleTips | frontend/features/onboarding/components/onboarding-provider.tsx:164-172 | for a logged-in user only the tips switch changes, in the store and in the local state alike |
| ClientRegistrationForm.AtIndex | frontend/features/register/forms/components/client-registration-form.tsx:31 | the position of the first '@', or -1 when there is none |
| ClientRegistrationForm.WordJoin | frontend/features/register/forms/components/client-registration-form.tsx:31 | two runs of `[^\s@]` joined by such a character form one run |
| ClientRegistrationForm.WordSlice | frontend/features/register/forms/components/client-registration-form.tsx:31 | every non-empty slice of a run of `[^\s@]` is one |
| ClientRegistrationForm.PatternPassesCheck | frontend/features/register/forms/components/client-registration-form.tsx:31 | every text the regular expression matches passes the character check |
| ClientRegistrationForm.CheckMatchesPattern | frontend/features/register/forms/components/client-registration-form.tsx:31 | every text passing the character check is matched by the regular expression |
| ClientRegistrationForm.EmailPatternIff | frontend/features/register/forms/components/client-registration-form.tsx:31 | an e-mail matches iff it has a non-empty local part without spaces or '@', one '@', and a domain containing a '.' with text on both sides |
| ClientRegistrationForm.EmailError | frontend/features/register/forms/components/client-registration-form.tsx:29-33 | an empty e-mail is required; a non-matching one has the format error; otherwise none |
| ClientRegistrationForm.PasswordError | frontend/features/register/forms/components/client-registration-form.tsx:36-40 | an empty password is required; one shorter than 8 UTF-16 code units has the length error; otherwise none |
| ClientRegistrationForm.Utf16Length | frontend/features/register/forms/components/client-registration-form.tsx:38 | JavaScript's string length: one or two per character, one for every character of the Basic Multilingual Plane and two for every character beyond it |
| ClientRegistrationForm.ConfirmError | frontend/features/register/forms/components/client-registration-form.tsx:43-47 | an empty confirmation is required; one that differs has the mismatch error; otherwise none |
| ClientRegistrationForm.Put | frontend/features/register/forms/components/client-registration-form.tsx:25-47 | an error is stored under its field only when there is one |
| ClientRegistrationForm.ClearedError | frontend/features/register/forms/components/client-registration-form.tsx:72-74 | only the edited field's error is emptied |
| ClientRegistrationForm.WithField | frontend/features/register/forms/components/client-registration-form.tsx:70 | only the edited field takes the value |
| ClientRegistrationForm.FormErrors | frontend/features/register/forms/components/client-registration-form.tsx:25-51 | each field has an error exactly when its check gives one |
| ClientRegistrationForm.EmptyIffNoKeys | frontend/features/register/forms/components/client-registration-form.tsx:50 | an error map is empty iff no field has an error |
| ClientRegistrationForm.ValidIff | frontend/features/register/forms/components/client-registration-form.tsx:25-51 | valid iff the e-mail matches, the password has at least 8 UTF-16 code units and the confirmation equals it |
| ClientRegistrationForm.ClientForm.constructor | frontend/features/register/forms/components/client-registration-form.tsx:16-23 | empty fields, no errors, not submitting |
| ClientRegistrationForm.ClientForm.ValidateForm | frontend/features/register/forms/components/client-registration-form.tsx:25-51 | the stored errors are the form's errors and valid means none |
| ClientRegistrationForm.ClientForm.HandleSubmit | frontend/features/register/forms/components/client-registration-form.tsx:53-67 | an invalid form only shows its errors; a valid one ends not submitting and successful |
| ClientRegistrationForm.ClientForm.HandleChange | frontend/features/register/forms/components/client-registration-form.tsx:69-75 | the field takes the value and only its error is cleared |
| PartnerRegistrationForm.WithPartnerField | frontend/features/register/forms/components/partner-registration-form.tsx:70-71 | only the edited field takes the value |
| PartnerRegistrationForm.PartnerErrors | frontend/features/register/forms/components/partner-registration-form.tsx:26-52 | the client checks on e-mail, password and confirmation; the organization name never has an error |
| PartnerRegistrationForm.SameRulesAsClient | frontend/features/register/forms/components/partner-registration-form.tsx:26-52 | the partner form is valid iff the client form with the same values is, whatever the organization name |
| PartnerRegistrationForm.PartnerForm.constructor | frontend/features/register/forms/components/partner-registration-form.tsx:16-24 | empty fields, no errors, not submitting |
| PartnerRegistrationForm.PartnerForm.ValidateForm | frontend/features/register/forms/components/partner-registration-form.tsx:26-52 | the stored errors are the form's errors and valid means none |
| PartnerRegistrationForm.PartnerForm.HandleSubmit | frontend/features/register/forms/components/partner-registration-form.tsx:54-68 | an invalid form only shows its errors; a valid one ends successful |
| PartnerRegistrationForm.PartnerForm.HandleChange | frontend/features/register/forms/components/partner-registration-form.tsx:70-76 | the field takes the value and only its error is cleared |
| LoginForm.WithLoginField | frontend/features/login/forms/components/login-form.tsx:60 | only the edited field takes the value |
| LoginForm.LoginPasswordError | frontend/features/login/forms/components/login-form.tsx:33-35 | only an empty password has an error; there is no length rule |
| LoginForm.LoginErrors | frontend/features/login/forms/components/login-form.tsx:22-39 | the e-mail error as in the sign-up forms, and the password error |
| LoginForm.LoginValidIff | frontend/features/login/forms/components/login-form.tsx:22-39 | valid iff the e-mail matches and some password is given |
| LoginForm.Login.constructor | frontend/features/login/forms/components/login-form.tsx:15-20 | empty fields, no errors, not submitting |
| LoginForm.Login.ValidateForm | frontend/features/login/forms/components/login-form.tsx:22-39 | the stored errors are the form's errors and valid means none |
| LoginForm.Login.HandleSubmit | frontend/features/login/forms/components/login-form.tsx:41-57 | an invalid form only shows its errors; a valid one ends not submitting |
| LoginForm.Login.HandleChange | frontend/features/login/forms/components/login-form.tsx:59-65 | the field takes the value and only its error is cleared |
| AuthProvider.HasRole | frontend/providers/auth-provider.tsx:49-53 | false without a user; with one, true iff the requested roles include "admin" |
| AuthProvider.HasRoleIgnoresUser | frontend/providers/auth-provider.tsx:49-53 | a single role answers like its one-element list, and the answer is the same for every logged-in user |

## Left out

- Django and DRF plumbing is not modelled: ORM queries as such, URL routing, the admin classes, app configuration and the response bodies beyond their status codes and the data they carry. A transaction is modelled as one method that either fully happens or does not.
- UserModels.HasPerm: permissions given to a user directly (Django's `user_permissions`) are not modelled. The user model of the core has no such field and nothing in the core assigns them, so `has_perm` reads only the active and superuser flags and the held groups.
- UserSerializers.NormalizeEmail: only A–Z in the domain are lower-cased; the lower-casing of other letters by Python's `str.lower` is not modelled.
- UserSerializers.CreateUserRecord: the NFKC normalisation of the username by `create_user` is not modelled; the username is stored as stripped.
- UserViews.Register: the 500 from a failed save is modelled only for a normalised e-mail that is already stored; other database failures are not modelled.
- Password hashing is opaque: a password is stored and compared as given, and `check_password` is equality.
- The library validators that cannot be seen (DRF field checks, Django's e-mail syntax and `validate_password` policy) are the parameter `rejected`, the set of fields they reject.
- JWT issuance and refresh are not modelled; the status of the parent token response is a parameter of `UserViews.Login`.
- `timezone.now()` and the JavaScript clock are the parameter `now`. Date strings in the mock store are compared character by character (see the `MockApi.DateLe` line below); `Date` parsing is a parameter.
- `UserMeView.get` (backend/user/views.py:111-114), `user_stats` (backend/user/views.py:448) and `organization_stats` (backend/organization/views.py:210-241) are not modelled. They only report fields and the counts already modelled in `OrganizationModels`; the profile edits of `UserMeView` are `UserViews.UpdateMe`.
- `SetupGroups.Handle`: the printed report and the re-raising of other exceptions as `CommandError` are not modelled. The warnings are the returned messages, and the permission catalog is a parameter.
- The dashboard services, the CLI fixtures (`create_test_users`, `createsuperuser`) and interactive input are not modelled. They hold hard-coded numbers or I/O and no logic.
- Mock store: random trip generation, OCR, CSV and API import, and ids taken from `Date.now()` are not modelled; of the other CRUD objects only the shared delete pattern is modelled.
- `getTripsSummary` in frontend/lib/api/trips.ts is not modelled. It sums floating-point distances and reads fields trips do not have.
- `updateOdometerReading` (frontend/lib/api/odometer.ts:28-30) is not modelled. It calls a store update that does not exist.
- LicensePlateInput.UpperChar: a character whose upper-case form holds no letter A–Z is kept as it is rather than replaced by its capital, which lies outside A–Z; the filter that follows removes both, so `Cleaned` and `FormatValue` agree with the source. The mappings that yield A–Z are those of the Unicode special-casing data; one that a later Unicode version adds is not covered.
- MockApi.DateLe: `localeCompare` is taken as code-point order of the characters. Locale collation is not modelled; the two agree on the store's YYYY-MM-DD dates of digits and hyphens, but not in general (collation puts "a" before "B", code-point order the reverse).
- MockApi.SortByDate: states a sorted permutation, not the stability of `Array.prototype.sort`, so the order of holidays on the same date is left open.
- TripFormDialog.TripForm.HandleSubmit: the distance stays text in the payload; its `parseFloat` is not modelled.
- MockApi.MockStore.ListTrips: the date filters compare dates through the `parse` parameter; an invalid `Date`, for which every comparison is false, is not modelled.
- TripRouteConfig.EditBreak: `parseInt` is the parameter `parseInt`; a `NaN` result is not modelled.
- Toasts, console logging and the simulated request delays of the forms and providers are not modelled. `isSubmitting` goes to true and back to false around the request.
- OnboardingProvider.Provider.ResetOnboarding: the store's state object is handed out and later mutated in place by the store; the model copies values, so that sharing is not modelled.
- In the auth provider, `login`, `logout` and the initial user load are not modelled. They are cookie, fetch and redirect I/O.
- In the route configuration, the return-trip switch and the tolerance field are not modelled. They are plain field setters; the exclusivity of exact time and break is modelled.
- UI rendering, the sidebar, calendar and filter components, and the remaining one-line API wrappers are not modelled.
