/**
 * Input validation for users: self-registration, profile edits and password changes.
 *
 * Submitted data is a dictionary from field name to text. Every field is a DRF
 * `CharField` (an `EmailField` is one too), which strips surrounding white space before
 * any check, so a value of white space only is blank. Field-level checks run first
 * and collect one error per bad field; the cross-field `validate` step runs only when
 * no field failed. The checks done by library validators that are not part of this
 * model (email and username syntax, length limits, the password-strength policy) are
 * summarised by `rejected`: the set of fields whose supplied value those validators refuse.
 */
module UserSerializers {
  import opened Common
  import opened UserModels

  type Data = map<string, string>

  const REGISTRATION_FIELDS: set<string> :=
    {"username", "email", "password", "password_confirm", "first_name", "last_name", "position", "phone"}
  /** Registration fields that must be supplied and may not be blank. */
  const REGISTRATION_REQUIRED: set<string> := {"username", "email", "password", "password_confirm"}
  /** The writable fields of a profile; all other profile fields are read-only. */
  const PROFILE_FIELDS: set<string> := {"email", "first_name", "last_name", "position", "phone"}
  const CHANGE_PASSWORD_FIELDS: set<string> := {"old_password", "new_password", "new_password_confirm"}

  predicate EmailTaken(users: map<nat, User>, email: string) {
    exists id :: id in users && users[id].email == email
  }

  predicate UsernameTaken(users: map<nat, User>, username: string) {
    exists id :: id in users && users[id].username == username
  }

  predicate EmailTakenByOther(users: map<nat, User>, self: nat, email: string) {
    exists id :: id in users && id != self && users[id].email == email
  }

  /**
   * The submitted texts as the serializer fields see them: every value stripped of its
   * surrounding white space (`trim_whitespace` is on by default).
   */
  function Parsed(data: Data): (d: Data)
    ensures d.Keys == data.Keys
    ensures forall f :: f in d ==> d[f] == Strip(data[f])
  {
    map f | f in data :: Strip(data[f])
  }

  /** Parsing parsed data changes nothing. */
  lemma {:induction false} ParsedIdempotent(data: Data)
    ensures Parsed(Parsed(data)) == Parsed(data)
  {
    forall f | f in data
      ensures Parsed(Parsed(data))[f] == Parsed(data)[f]
    {
      StripIdempotent(data[f]);
    }
  }

  /**
   * How a text field is checked (on the parsed value): missing is an error only for a required field, an empty
   * text only where blanks are not allowed, then the library validators, then `extra`
   * (the serializer's own `validate_<field>` outcome).
   */
  predicate CharFieldFails(data: Data, f: string, required: bool, allowBlank: bool, rejected: set<string>, extra: bool) {
    if f !in data then required
    else if data[f] == "" && !allowBlank then true
    else if f in rejected then true
    else !extra
  }

  /** `UserRegistrationSerializer.validate_email` and `validate_username`: no user may hold the value yet. */
  predicate RegistrationFieldOk(users: map<nat, User>, data: Data, f: string)
    requires f in data
  {
    if f == "email" then !EmailTaken(users, data[f])
    else if f == "username" then !UsernameTaken(users, data[f])
    else true
  }

  predicate RegistrationFieldFails(users: map<nat, User>, data: Data, rejected: set<string>, f: string) {
    var required := f in REGISTRATION_REQUIRED;
    CharFieldFails(data, f, required, !required, rejected, f in data && RegistrationFieldOk(users, data, f))
  }

  /**
   * The field-level part of accepting a registration, read on the stripped values: every
   * required field supplied and not blank, no supplied field refused by a library
   * validator, email and username still free.
   */
  predicate RegistrationFieldsAcceptable(users: map<nat, User>, data: Data, rejected: set<string>) {
    (forall f :: f in REGISTRATION_REQUIRED ==> f in data && Strip(data[f]) != "") &&
    (forall f :: f in REGISTRATION_FIELDS && f in data ==> f !in rejected) &&
    !EmailTaken(users, Strip(data["email"])) && !UsernameTaken(users, Strip(data["username"]))
  }

  /** The declarative acceptance condition of a registration: the fields pass and the two passwords are equal. */
  predicate RegistrationAcceptable(users: map<nat, User>, data: Data, rejected: set<string>) {
    RegistrationFieldsAcceptable(users, data, rejected) &&
    Strip(data["password"]) == Strip(data["password_confirm"])
  }

  /** No field check fails exactly when the field-level acceptance condition holds. */
  lemma {:induction false} RegistrationFieldChecks(users: map<nat, User>, data: Data, rejected: set<string>)
    ensures (forall f :: f in REGISTRATION_FIELDS ==> !RegistrationFieldFails(users, Parsed(data), rejected, f)) <==>
      RegistrationFieldsAcceptable(users, data, rejected)
  {
    var d := Parsed(data);
    if forall f :: f in REGISTRATION_FIELDS ==> !RegistrationFieldFails(users, d, rejected, f) {
      RegistrationFieldsPass(users, data, rejected);
    } else if RegistrationFieldsAcceptable(users, data, rejected) {
      forall f | f in REGISTRATION_FIELDS ensures !RegistrationFieldFails(users, d, rejected, f) {
        if f in data {
          assert d[f] == Strip(data[f]);
          if f == "email" || f == "username" {
            assert RegistrationFieldOk(users, d, f);
          }
        }
      }
    }
  }

  lemma {:induction false} RegistrationFieldsPass(users: map<nat, User>, data: Data, rejected: set<string>)
    requires forall f :: f in REGISTRATION_FIELDS ==> !RegistrationFieldFails(users, Parsed(data), rejected, f)
    ensures RegistrationFieldsAcceptable(users, data, rejected)
  {
    var d := Parsed(data);
    forall f | f in REGISTRATION_FIELDS
      ensures f in data ==> f !in rejected && d[f] == Strip(data[f])
      ensures f in REGISTRATION_REQUIRED ==> f in data && Strip(data[f]) != ""
    {
      assert !RegistrationFieldFails(users, d, rejected, f);
    }
    assert !RegistrationFieldFails(users, d, rejected, "email");
    assert !RegistrationFieldFails(users, d, rejected, "username");
  }

  /**
   * The error keys a registration produces: the failing fields, or, when none fails,
   * `password_confirm` if the passwords differ.
   */
  function RegistrationErrors(users: map<nat, User>, data: Data, rejected: set<string>): (errs: set<string>)
    ensures errs <= REGISTRATION_FIELDS
    ensures errs == {} <==> RegistrationAcceptable(users, data, rejected)
    ensures forall f :: f in REGISTRATION_REQUIRED && f in data && Strip(data[f]) == "" ==> f in errs
    ensures "email" in data && EmailTaken(users, Strip(data["email"])) ==> "email" in errs
    ensures "username" in data && UsernameTaken(users, Strip(data["username"])) ==> "username" in errs
    ensures ("password" in data && "password_confirm" in data &&
      Strip(data["password"]) != Strip(data["password_confirm"])) ==> errs != {}
  {
    var d := Parsed(data);
    var fieldErrs := set f | f in REGISTRATION_FIELDS && RegistrationFieldFails(users, d, rejected, f);
    RegistrationFieldChecks(users, data, rejected);
    if fieldErrs != {} then fieldErrs
    else
      assert forall f :: f in REGISTRATION_FIELDS ==> f !in fieldErrs;
      if d["password"] != d["password_confirm"] then {"password_confirm"} else {}
  }

  /**
   * A confirmation that differs from the password only by white space around it is
   * accepted: both are stripped before they are compared.
   */
  lemma {:induction false} PaddedConfirmationAccepted(users: map<nat, User>, data: Data, rejected: set<string>, c: char)
    requires IsSpace(c) && "password" in data
    ensures var padded := data["password_confirm" := data["password"] + [c]];
      RegistrationErrors(users, padded, rejected) == RegistrationErrors(users, data["password_confirm" := data["password"]], rejected)
  {
    StripPadding(data["password"], c);
    var padded := data["password_confirm" := data["password"] + [c]];
    var plain := data["password_confirm" := data["password"]];
    assert Parsed(padded) == Parsed(plain);
  }

  /** What the serializer keeps of the submitted data: its declared fields only, stripped. */
  function RegistrationValidated(data: Data): (v: Data)
    ensures forall f :: f in v <==> f in data && f in REGISTRATION_FIELDS
    ensures forall f :: f in v ==> v[f] == Strip(data[f])
  {
    map f | f in data && f in REGISTRATION_FIELDS :: Strip(data[f])
  }

  /** Python's `str.lower()` on one character, for the ASCII capitals. */
  function LowerChar(c: char): (r: char)
    ensures 'A' <= c <= 'Z' ==> 'a' <= r <= 'z'
    ensures !('A' <= c <= 'Z') ==> r == c
  {
    if 'A' <= c <= 'Z' then (c as int + 32) as char else c
  }

  /** `str.lower()` restricted to the ASCII capitals. */
  function AsciiLower(s: string): (r: string)
    ensures |r| == |s|
    ensures forall i :: 0 <= i < |s| ==> r[i] == LowerChar(s[i])
  {
    if s == [] then [] else [LowerChar(s[0])] + AsciiLower(s[1..])
  }

  /** `str.rfind(c)`: the last index holding `c`, or -1. */
  function LastIndexOf(s: string, c: char): (k: int)
    ensures -1 <= k < |s|
    ensures k >= 0 ==> s[k] == c && forall j :: k < j < |s| ==> s[j] != c
    ensures k == -1 <==> c !in s
  {
    if s == [] then -1
    else if s[|s| - 1] == c then |s| - 1
    else
      assert forall x :: x in s ==> x == s[|s| - 1] || x in s[..|s| - 1];
      LastIndexOf(s[..|s| - 1], c)
  }

  /**
   * `BaseUserManager.normalize_email`: the stripped address with the part after its last
   * `@` lower-cased; an address without `@` is returned as given.
   */
  function NormalizeEmail(email: string): (r: string)
    ensures |r| == |email| || |r| == |Strip(email)|
  {
    var s := Strip(email);
    var k := LastIndexOf(s, '@');
    if k < 0 then email
    else s[..k] + "@" + AsciiLower(s[k + 1..])
  }

  /**
   * What normalising keeps: an address without `@` is untouched; otherwise the result
   * has the stripped address's length and its characters up to the last `@`, and every
   * character after it lower-cased.
   */
  lemma {:induction false} NormalizeEmailShape(email: string)
    ensures '@' !in Strip(email) ==> NormalizeEmail(email) == email
    ensures '@' in Strip(email) ==> var r, s, k := NormalizeEmail(email), Strip(email), LastIndexOf(Strip(email), '@');
      |r| == |s| && r[..k + 1] == s[..k + 1] && forall i :: k < i < |r| ==> r[i] == LowerChar(s[i])
  {
    var s := Strip(email);
    var k := LastIndexOf(s, '@');
    if k >= 0 {
      SpliceShape(s, k);
    }
  }

  /** Keeping an address up to its `@` and lower-casing the rest keeps its length and its local part. */
  lemma SpliceShape(s: string, k: nat)
    requires k < |s| && s[k] == '@'
    ensures var r := s[..k] + "@" + AsciiLower(s[k + 1..]);
      |r| == |s| && r[..k + 1] == s[..k + 1] && forall i :: k < i < |r| ==> r[i] == LowerChar(s[i])
  {
    var low := AsciiLower(s[k + 1..]);
    var r := s[..k] + "@" + low;
    assert r[..k + 1] == s[..k + 1];
    forall i | k < i < |r| ensures r[i] == LowerChar(s[i]) {
      assert r[i] == low[i - k - 1] && s[k + 1..][i - k - 1] == s[i];
    }
  }

  /** Normalising a normalised address changes nothing. */
  lemma {:induction false} NormalizeEmailIdempotent(email: string)
    ensures NormalizeEmail(NormalizeEmail(email)) == NormalizeEmail(email)
  {
    NormalizeEmailShape(email);
    var s := Strip(email);
    if '@' in s {
      NormalizedStripped(s, LastIndexOf(s, '@'), NormalizeEmail(email));
      NormalizeFixed(NormalizeEmail(email), LastIndexOf(s, '@'));
    }
  }

  /** A stripped address whose domain is already lower case is its own normal form. */
  lemma NormalizeFixed(r: string, k: nat)
    requires Strip(r) == r
    requires k < |r| && r[k] == '@' && forall j :: k < j < |r| ==> r[j] != '@'
    requires forall i :: k < i < |r| ==> r[i] == LowerChar(r[i])
    ensures NormalizeEmail(r) == r
  {
    LastIndexOfAt(r, '@', k);
    assert '@' in r;
    NormalizeEmailShape(r);
    var r' := NormalizeEmail(r);
    forall i | 0 <= i < |r| ensures r'[i] == r[i] {
      if i <= k {
        assert r'[..k + 1][i] == r[..k + 1][i];
      }
    }
  }

  /** A normalised address is already stripped, and its domain holds no further `@`. */
  lemma NormalizedStripped(s: string, k: nat, r: string)
    requires s == [] || (!IsSpace(s[0]) && !IsSpace(s[|s| - 1]))
    requires k < |s| && s[k] == '@' && forall j :: k < j < |s| ==> s[j] != '@'
    requires |r| == |s| && r[..k + 1] == s[..k + 1] && forall i :: k < i < |r| ==> r[i] == LowerChar(s[i])
    ensures Strip(r) == r
    ensures r[k] == '@' && forall j :: k < j < |r| ==> r[j] != '@'
    ensures forall i :: k < i < |r| ==> r[i] == LowerChar(r[i])
  {
    assert r[k] == r[..k + 1][k];
    if k > 0 {
      assert r[0] == r[..k + 1][0];
    }
    StripFixed(r);
  }

  /** The last index of `c` is the position after which `c` no longer occurs. */
  lemma {:induction false} LastIndexOfAt(s: string, c: char, k: nat)
    requires k < |s| && s[k] == c && forall j :: k < j < |s| ==> s[j] != c
    ensures LastIndexOf(s, c) == k
    decreases |s|
  {
    if k < |s| - 1 {
      LastIndexOfAt(s[..|s| - 1], c, k);
    }
  }

  /**
   * Validation looks for the stripped address as submitted, but the account stores the
   * normalised one: a capitalised domain passes validation next to an existing lower-case
   * address and then collides with it.
   */
  predicate StoredEmailClash(users: map<nat, User>, data: Data) {
    "email" in data && EmailTaken(users, NormalizeEmail(Strip(data["email"])))
  }

  /**
   * An account holding the normal form of a submitted address whose domain has a capital
   * letter is not found by the validator's lookup, yet the new account collides with it.
   */
  lemma {:induction false} DomainCaseSlipsThrough(users: map<nat, User>, data: Data, id: nat, i: nat)
    requires "email" in data && id in users
    requires var e := Strip(data["email"]);
      0 <= LastIndexOf(e, '@') < i < |e| && 'A' <= e[i] <= 'Z'
    requires users[id].email == NormalizeEmail(Strip(data["email"]))
    ensures users[id].email != Strip(data["email"])
    ensures StoredEmailClash(users, data)
  {
    var e := Strip(data["email"]);
    StripIdempotent(data["email"]);
    NormalizeEmailShape(e);
    var n := NormalizeEmail(e);
    assert n[i] == LowerChar(e[i]) && n[i] != e[i];
  }

  /**
   * `UserRegistrationSerializer.create`, first half: takes the confirmation and then the
   * password out of the validated data; what is left is passed on as keyword arguments.
   */
  method PopPasswords(validated: Data) returns (password: string, kwargs: Data)
    requires "password" in validated && "password_confirm" in validated
    ensures password == validated["password"]
    ensures kwargs.Keys == validated.Keys - {"password", "password_confirm"}
    ensures forall f :: f in kwargs ==> kwargs[f] == validated[f]
  {
    kwargs := validated;
    kwargs := kwargs - {"password_confirm"};
    password := kwargs["password"];
    kwargs := kwargs - {"password"};
  }

  /**
   * `create_user(password=..., **kwargs)`: a new account with the given password, the
   * normalised email, the supplied username and other profile fields (empty when absent),
   * the model defaults (active, organization admin, no organization, no groups) and no
   * recorded login.
   */
  function CreateUserRecord(id: nat, password: string, kwargs: Data, now: int): (u: User)
    requires "username" in kwargs && "email" in kwargs
    ensures u.id == id && u.password == password
    ensures u.username == kwargs["username"] && u.email == NormalizeEmail(kwargs["email"])
    ensures forall f :: f in PROFILE_FIELDS - {"email"} && f in kwargs ==> ProfileField(u, f) == kwargs[f]
    ensures forall f :: f in PROFILE_FIELDS && f !in kwargs ==> ProfileField(u, f) == ""
    ensures u.organization.None? && u.isOrganizationAdmin && !u.isSuperuser && u.isActive
    ensures u.roles == {} && u.dateJoined == now && u.lastLogin.None?
  {
    User(id, kwargs["username"], NormalizeEmail(kwargs["email"]), password,
      ValueOr(kwargs, "first_name", ""), ValueOr(kwargs, "last_name", ""), ValueOr(kwargs, "phone", ""), ValueOr(kwargs, "position", ""),
      None, true, false, true, {}, now, None)
  }

  /** The account a successful registration creates: no trace of the confirmation, the password kept apart. */
  method Create(validated: Data, id: nat, now: int) returns (u: User)
    requires "password" in validated && "password_confirm" in validated
    requires "username" in validated && "email" in validated
    ensures u == CreateUserRecord(id, validated["password"], validated - {"password", "password_confirm"}, now)
  {
    var password, kwargs := PopPasswords(validated);
    assert kwargs == validated - {"password", "password_confirm"};
    u := CreateUserRecord(id, password, kwargs, now);
  }

  /**
   * The account a valid registration creates: the stripped username and password, the
   * normalised email, and the model defaults (an organization admin without organization,
   * active, no groups, no recorded login).
   */
  function RegistrationRecord(id: nat, data: Data, now: int): (u: User)
    requires forall f :: f in REGISTRATION_REQUIRED ==> f in data
    ensures u.id == id && u.dateJoined == now
    ensures u.email == NormalizeEmail(Strip(data["email"]))
    ensures u.username == Strip(data["username"]) && u.password == Strip(data["password"])
    ensures u.organization.None? && u.isOrganizationAdmin && !u.isSuperuser && u.isActive
    ensures u.roles == {} && u.lastLogin.None?
  {
    var v := RegistrationValidated(data);
    CreateUserRecord(id, v["password"], v - {"password", "password_confirm"}, now)
  }

  /** Reads one writable profile field of a user. */
  function ProfileField(u: User, f: string): string {
    if f == "email" then u.email
    else if f == "first_name" then u.firstName
    else if f == "last_name" then u.lastName
    else if f == "position" then u.position
    else if f == "phone" then u.phone
    else ""
  }

  /**
   * `UserProfileSerializer.validate_email`: without an instance anything passes; when
   * editing, the value may be the edited user's own email but no other user's.
   */
  function ProfileEmailOk(users: map<nat, User>, instance: Option<nat>, email: string): (ok: bool)
    ensures instance.Some? ==> (ok <==> !EmailTakenByOther(users, instance.value, email))
    ensures instance.None? ==> ok
  {
    match instance
    case None => true
    case Some(pk) => !exists id :: id in users && id != pk && users[id].email == email
  }

  lemma ProfileEmailOwnAccepted(users: map<nat, User>, pk: nat)
    requires pk in users
    requires forall a, b :: a in users && b in users && a != b ==> users[a].email != users[b].email
    ensures ProfileEmailOk(users, Some(pk), users[pk].email)
  {
  }

  lemma {:induction false} ProfileEmailOtherRejected(users: map<nat, User>, pk: nat, other: nat)
    requires other in users && other != pk
    ensures !ProfileEmailOk(users, Some(pk), users[other].email)
  {
    assert EmailTakenByOther(users, pk, users[other].email);
  }

  /**
   * When a profile edit of user `pk` is accepted, read on the stripped values: the email,
   * when supplied or required (`partial` false), is not blank and belongs to no other user,
   * and no supplied writable field is refused by a library validator.
   */
  predicate ProfileAcceptable(users: map<nat, User>, pk: nat, data: Data, rejected: set<string>, partial: bool) {
    (!partial ==> "email" in data) &&
    ("email" in data ==> Strip(data["email"]) != "" && !EmailTakenByOther(users, pk, Strip(data["email"]))) &&
    (forall f :: f in PROFILE_FIELDS && f in data ==> f !in rejected)
  }

  /**
   * Field errors of a profile edit of user `pk`. Only the writable fields are read; on a
   * full update (`partial` false) the email must be supplied.
   */
  function ProfileErrors(users: map<nat, User>, pk: nat, data: Data, rejected: set<string>, partial: bool): (errs: set<string>)
    ensures errs <= PROFILE_FIELDS
    ensures errs == {} <==> ProfileAcceptable(users, pk, data, rejected, partial)
    ensures "email" in data && EmailTakenByOther(users, pk, Strip(data["email"])) ==> "email" in errs
  {
    var d := Parsed(data);
    var emailFails := CharFieldFails(d, "email", !partial, false, rejected,
      "email" in d && ProfileEmailOk(users, Some(pk), d["email"]));
    var others := set f | f in PROFILE_FIELDS - {"email"} && CharFieldFails(d, f, false, true, rejected, true);
    assert others == {} <==> forall f :: f in PROFILE_FIELDS - {"email"} && f in data ==> f !in rejected by {
      if others == {} {
        forall f | f in PROFILE_FIELDS - {"email"} && f in data ensures f !in rejected {
          assert f !in others;
        }
      }
    }
    (if emailFails then {"email"} else {}) + others
  }

  /**
   * Saving a valid profile edit: each supplied writable field takes the stripped submitted
   * value, every other field of the user (id, username, join date, last login, active
   * flag, admin flag, organization, groups, password) stays as it was.
   */
  function ApplyProfile(u: User, data: Data): (r: User)
    ensures r == u.(email := r.email, firstName := r.firstName, lastName := r.lastName, position := r.position, phone := r.phone)
    ensures forall f :: f in PROFILE_FIELDS && f in data ==> ProfileField(r, f) == Strip(data[f])
    ensures forall f :: f in PROFILE_FIELDS && f !in data ==> ProfileField(r, f) == ProfileField(u, f)
  {
    u.(email := StrippedOr(data, "email", u.email), firstName := StrippedOr(data, "first_name", u.firstName),
       lastName := StrippedOr(data, "last_name", u.lastName), position := StrippedOr(data, "position", u.position),
       phone := StrippedOr(data, "phone", u.phone))
  }

  /** The stripped value of a supplied field, `default` for a missing one. */
  function StrippedOr(data: Data, f: string, default: string): string {
    if f in data then Strip(data[f]) else default
  }

  /** `dict.get(key, default)`. */
  function ValueOr(data: Data, f: string, default: string): string {
    if f in data then data[f] else default
  }

  /** An edit without any writable field changes nothing, and applying an edit twice is applying it once. */
  lemma {:induction false} ApplyProfileLaws(u: User, data: Data)
    ensures (forall f :: f in PROFILE_FIELDS ==> f !in data) ==> ApplyProfile(u, data) == u
    ensures ApplyProfile(ApplyProfile(u, data), data) == ApplyProfile(u, data)
  {
    if forall f :: f in PROFILE_FIELDS ==> f !in data {
      assert "email" !in data && "first_name" !in data && "last_name" !in data && "position" !in data && "phone" !in data;
    }
  }

  /**
   * An accepted profile edit keeps emails unique: the email-uniqueness constraint of the
   * user table still holds after saving it.
   */
  lemma {:induction false} ProfileEditKeepsEmailsUnique(users: map<nat, User>, pk: nat, data: Data, rejected: set<string>, partial: bool)
    requires pk in users
    requires forall a, b :: a in users && b in users && a != b ==> users[a].email != users[b].email
    requires ProfileErrors(users, pk, data, rejected, partial) == {}
    ensures var after := users[pk := ApplyProfile(users[pk], data)];
      forall a, b :: a in after && b in after && a != b ==> after[a].email != after[b].email
  {
    var after := users[pk := ApplyProfile(users[pk], data)];
    forall a, b | a in after && b in after && a != b
      ensures after[a].email != after[b].email
    {
      if a == pk || b == pk {
        var other := if a == pk then b else a;
        if "email" in data {
          assert !EmailTakenByOther(users, pk, Strip(data["email"]));
          assert users[other].email != Strip(data["email"]);
        }
      }
    }
  }

  /** Field errors of a password change (on the stripped values), then the confirmation check. */
  function ChangePasswordErrors(data: Data, rejected: set<string>): (errs: set<string>)
    ensures errs <= CHANGE_PASSWORD_FIELDS
    ensures errs == {} <==>
      (forall f :: f in CHANGE_PASSWORD_FIELDS ==> f in data && Strip(data[f]) != "" && f !in rejected) &&
      Strip(data["new_password"]) == Strip(data["new_password_confirm"])
    ensures ("new_password" in data && "new_password_confirm" in data &&
      Strip(data["new_password"]) != Strip(data["new_password_confirm"])) ==> errs != {}
  {
    var d := Parsed(data);
    var fieldErrs := set f | f in CHANGE_PASSWORD_FIELDS && CharFieldFails(d, f, true, false, rejected, true);
    if fieldErrs != {} then fieldErrs
    else
      assert forall f :: f in CHANGE_PASSWORD_FIELDS ==> f !in fieldErrs;
      assert forall f :: f in CHANGE_PASSWORD_FIELDS ==> !CharFieldFails(d, f, true, false, rejected, true);
      if d["new_password"] != d["new_password_confirm"] then {"new_password_confirm"} else {}
  }
}
