/**
 * Input validation and saving for organizations. Submitted data carries one optional
 * entry per writable field (`None`: not supplied). The text fields are DRF `CharField`s,
 * which strip surrounding white space first (`Stripped`); the type is a `ChoiceField`,
 * which does not. The checks and the saves below read the stripped data. As for users,
 * `rejected` names the fields whose supplied value a library validator (length limit,
 * email syntax) refuses.
 */
module OrganizationSerializers {
  import opened Common
  import opened OrganizationModels

  datatype OrgData = OrgData(
    name: Option<string>,
    orgType: Option<string>,
    ico: Option<string>,
    dic: Option<string>,
    address: Option<string>,
    email: Option<string>,
    phone: Option<string>,
    isActive: Option<bool>)

  /** A supplied text without its surrounding white space. */
  function StripOpt(o: Option<string>): (r: Option<string>)
    ensures r.Some? <==> o.Some?
    ensures o.Some? ==> r.value == Strip(o.value)
  {
    match o
    case None => None
    case Some(v) => Some(Strip(v))
  }

  /** What the serializer fields make of the submitted data: every text stripped, the type and the flag as given. */
  function Stripped(d: OrgData): (r: OrgData)
    ensures r.orgType == d.orgType && r.isActive == d.isActive
    ensures r.name == StripOpt(d.name) && r.ico == StripOpt(d.ico) && r.dic == StripOpt(d.dic)
    ensures r.address == StripOpt(d.address) && r.email == StripOpt(d.email) && r.phone == StripOpt(d.phone)
  {
    d.(name := StripOpt(d.name), ico := StripOpt(d.ico), dic := StripOpt(d.dic),
       address := StripOpt(d.address), email := StripOpt(d.email), phone := StripOpt(d.phone))
  }

  /** Stripping stripped data changes nothing. */
  lemma {:induction false} StrippedIdempotent(d: OrgData)
    ensures Stripped(Stripped(d)) == Stripped(d)
  {
    if d.name.Some? { StripIdempotent(d.name.value); }
    if d.ico.Some? { StripIdempotent(d.ico.value); }
    if d.dic.Some? { StripIdempotent(d.dic.value); }
    if d.address.Some? { StripIdempotent(d.address.value); }
    if d.email.Some? { StripIdempotent(d.email.value); }
    if d.phone.Some? { StripIdempotent(d.phone.value); }
  }

  /** `validate_ico`: an empty or missing value passes; a non-empty one needs at least 6 characters. */
  function IcoOk(value: Option<string>): (ok: bool)
    ensures value.None? || value.value == "" ==> ok
    ensures value.Some? && value.value != "" ==> (ok <==> |value.value| >= 6)
  {
    !(value.Some? && value.value != "" && |value.value| < 6)
  }

  /** Whether some organization other than `except` has this email. */
  predicate EmailHeldBy(orgs: map<nat, Organization>, except: Option<nat>, email: string) {
    exists id :: id in orgs && Some(id) != except && orgs[id].email == Some(email)
  }

  /**
   * `validate_email`: an empty value passes unchecked; when editing organization `pk` the
   * value may not belong to another organization; when creating, to no organization.
   */
  function OrgEmailOk(orgs: map<nat, Organization>, instance: Option<nat>, value: Option<string>): (ok: bool)
    ensures value.None? || value.value == "" ==> ok
    ensures value.Some? && value.value != "" ==> (ok <==> !EmailHeldBy(orgs, instance, value.value))
  {
    match value
    case None => true
    case Some(v) =>
      if v == "" then true
      else match instance
        case Some(pk) => !exists id :: id in orgs && id != pk && orgs[id].email == Some(v)
        case None => !exists id :: id in orgs && orgs[id].email == Some(v)
  }

  /**
   * When editing, the organization's own email is accepted, in a table where no two
   * organizations share a non-empty email (blank emails may repeat).
   */
  lemma {:induction false} OwnEmailAccepted(orgs: map<nat, Organization>, pk: nat)
    requires pk in orgs && orgs[pk].email.Some?
    requires forall a, b :: a in orgs && b in orgs && a != b && orgs[a].email.Some? && orgs[a].email.value != "" ==>
      orgs[a].email != orgs[b].email
    ensures OrgEmailOk(orgs, Some(pk), orgs[pk].email)
  {
    if orgs[pk].email.value != "" {
      forall id | id in orgs && id != pk
        ensures orgs[id].email != orgs[pk].email
      {
      }
    }
  }

  /** Editing organization `pk` checks its email as creating one would in a table without `pk`. */
  lemma {:induction false} EditIgnoresOwnRow(orgs: map<nat, Organization>, pk: nat, value: Option<string>)
    ensures OrgEmailOk(orgs, Some(pk), value) == OrgEmailOk(orgs - {pk}, None, value)
  {
    if value.Some? && value.value != "" {
      var v := value.value;
      if EmailHeldBy(orgs, Some(pk), v) {
        var id :| id in orgs && Some(id) != Some(pk) && orgs[id].email == Some(v);
        assert id in orgs - {pk};
        assert EmailHeldBy(orgs - {pk}, None, v);
      }
      if EmailHeldBy(orgs - {pk}, None, v) {
        var id :| id in orgs - {pk} && orgs[id].email == Some(v);
        assert EmailHeldBy(orgs, Some(pk), v);
      }
    }
  }

  /** An email held by another organization is refused, on edit and on create alike. */
  lemma {:induction false} TakenEmailRejected(orgs: map<nat, Organization>, instance: Option<nat>, other: nat)
    requires other in orgs && Some(other) != instance
    requires orgs[other].email.Some? && orgs[other].email.value != ""
    ensures !OrgEmailOk(orgs, instance, orgs[other].email)
  {
    assert EmailHeldBy(orgs, instance, orgs[other].email.value);
  }

  predicate TextFails(value: Option<string>, allowBlank: bool, f: string, rejected: set<string>) {
    value.Some? && ((value.value == "" && !allowBlank) || f in rejected)
  }

  /**
   * When organization data is accepted: a supplied type is one of the two choices, the
   * address is supplied when required (`partial` false) and not blank when supplied, the
   * IČO and email pass their checks, and no supplied field is refused by a library validator.
   */
  predicate OrgAcceptable(orgs: map<nat, Organization>, instance: Option<nat>, d: OrgData, rejected: set<string>, partial: bool) {
    (d.orgType.Some? ==> ParseType(d.orgType.value).Some? && "organization_type" !in rejected) &&
    (!partial ==> d.address.Some?) && (d.address.Some? ==> d.address.value != "" && "address" !in rejected) &&
    IcoOk(d.ico) && (d.ico.Some? ==> "ico" !in rejected) &&
    OrgEmailOk(orgs, instance, d.email) && (d.email.Some? ==> "email" !in rejected) &&
    (d.name.Some? ==> "name" !in rejected) && (d.dic.Some? ==> "dic" !in rejected) &&
    (d.phone.Some? ==> "phone" !in rejected)
  }

  /**
   * Field errors of an organization edit (`instance` is the edited organization) or
   * creation (`instance` None), on stripped data. `address` is the only required field
   * and the only one that may not be blank; a type must be one of the two choices.
   */
  function OrgErrors(orgs: map<nat, Organization>, instance: Option<nat>, d: OrgData, rejected: set<string>, partial: bool): (errs: set<string>)
    ensures errs == {} <==> OrgAcceptable(orgs, instance, d, rejected, partial)
    ensures d.orgType.Some? && ParseType(d.orgType.value).None? ==> "organization_type" in errs
    ensures d.ico.Some? && !IcoOk(d.ico) ==> "ico" in errs
    ensures d.email.Some? && !OrgEmailOk(orgs, instance, d.email) ==> "email" in errs
    ensures errs == {} ==> (!partial ==> d.address.Some?) && (d.address.Some? ==> d.address.value != "")
    ensures errs == {} ==> (d.orgType.Some? ==> ParseType(d.orgType.value).Some?)
    ensures errs == {} ==> IcoOk(d.ico) && OrgEmailOk(orgs, instance, d.email)
  {
    var typeFails := d.orgType.Some? && (ParseType(d.orgType.value).None? || "organization_type" in rejected);
    var addressFails := (d.address.None? && !partial) || TextFails(d.address, false, "address", rejected);
    var icoFails := TextFails(d.ico, true, "ico", rejected) || !IcoOk(d.ico);
    var emailFails := TextFails(d.email, true, "email", rejected) || !OrgEmailOk(orgs, instance, d.email);
    var nameFails := TextFails(d.name, true, "name", rejected);
    var dicFails := TextFails(d.dic, true, "dic", rejected);
    var phoneFails := TextFails(d.phone, true, "phone", rejected);
    assert OrgAcceptable(orgs, instance, d, rejected, partial) <==>
      !(typeFails || addressFails || icoFails || emailFails || nameFails || dicFails || phoneFails);
    (if typeFails then {"organization_type"} else {}) +
    (if addressFails then {"address"} else {}) +
    (if icoFails then {"ico"} else {}) +
    (if emailFails then {"email"} else {}) +
    (if nameFails then {"name"} else {}) +
    (if dicFails then {"dic"} else {}) +
    (if phoneFails then {"phone"} else {})
  }

  /**
   * `serializer.save()` on an existing organization: the supplied fields take the submitted
   * values; id and timestamps, and every field not supplied, stay as they were.
   */
  function ApplyOrgData(o: Organization, d: OrgData): (r: Organization)
    ensures r.id == o.id && r.createdAt == o.createdAt && r.updatedAt == o.updatedAt
    ensures d.name.Some? ==> r.name == d.name
    ensures d.ico.Some? ==> r.ico == d.ico
    ensures d.dic.Some? ==> r.dic == d.dic
    ensures d.email.Some? ==> r.email == d.email
    ensures d.phone.Some? ==> r.phone == d.phone
    ensures d.address.Some? ==> r.address == d.address.value
    ensures d.isActive.Some? ==> r.isActive == d.isActive.value
    ensures d.orgType.Some? && ParseType(d.orgType.value).Some? ==> r.orgType == ParseType(d.orgType.value).value
    ensures d == OrgData(None, None, None, None, None, None, None, None) ==> r == o
  {
    o.(name := if d.name.Some? then d.name else o.name,
       orgType := if d.orgType.Some? && ParseType(d.orgType.value).Some? then ParseType(d.orgType.value).value else o.orgType,
       ico := if d.ico.Some? then d.ico else o.ico,
       dic := if d.dic.Some? then d.dic else o.dic,
       address := d.address.GetOr(o.address),
       email := if d.email.Some? then d.email else o.email,
       phone := if d.phone.Some? then d.phone else o.phone,
       isActive := d.isActive.GetOr(o.isActive))
  }

  /** `serializer.save()` without an instance: a new row with the model defaults, then the supplied fields. */
  function CreatedOrganization(id: nat, d: OrgData, now: int): (o: Organization)
    ensures o.id == id && o.createdAt == now && o.updatedAt == now
    ensures d.orgType.None? ==> IsClient(o)
    ensures d.isActive.None? ==> o.isActive
    ensures d.address.Some? ==> o.address == d.address.value
  {
    ApplyOrgData(NewOrganization(id, None, d.address.GetOr(""), now), d)
  }
}
