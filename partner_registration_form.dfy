/**
 * The partner sign-up form: the client form's three checked fields plus an
 * organization name that is collected but never checked.
 */
module PartnerRegistrationForm {
  import opened Common
  import opened ClientRegistrationForm

  datatype PartnerField = PartnerEmail | PartnerPassword | PartnerConfirmPassword | OrganizationName

  datatype PartnerData = PartnerData(email: string, password: string, confirmPassword: string, organizationName: string)

  const EMPTY_PARTNER := PartnerData("", "", "", "")

  function PartnerValue(f: PartnerData, field: PartnerField): string {
    match field
    case PartnerEmail => f.email
    case PartnerPassword => f.password
    case PartnerConfirmPassword => f.confirmPassword
    case OrganizationName => f.organizationName
  }

  /** `setFormData((prev) => ({...prev, [field]: value}))`. */
  function WithPartnerField(f: PartnerData, field: PartnerField, value: string): (r: PartnerData)
    ensures PartnerValue(r, field) == value
    ensures forall g :: g != field ==> PartnerValue(r, g) == PartnerValue(f, g)
  {
    match field
    case PartnerEmail => f.(email := value)
    case PartnerPassword => f.(password := value)
    case PartnerConfirmPassword => f.(confirmPassword := value)
    case OrganizationName => f.(organizationName := value)
  }

  /** The errors `validateForm` stores: the client form's three checks; the organization name never has one. */
  function PartnerErrors(f: PartnerData): (r: map<PartnerField, string>)
    ensures OrganizationName !in r
    ensures PartnerEmail in r <==> EmailError(f.email).Some?
    ensures PartnerPassword in r <==> PasswordError(f.password).Some?
    ensures PartnerConfirmPassword in r <==> ConfirmError(f.password, f.confirmPassword).Some?
    ensures PartnerEmail in r ==> r[PartnerEmail] == EmailError(f.email).value
    ensures PartnerPassword in r ==> r[PartnerPassword] == PasswordError(f.password).value
    ensures PartnerConfirmPassword in r ==> r[PartnerConfirmPassword] == ConfirmError(f.password, f.confirmPassword).value
  {
    var e := Put(map[], PartnerEmail, EmailError(f.email));
    var p := Put(e, PartnerPassword, PasswordError(f.password));
    Put(p, PartnerConfirmPassword, ConfirmError(f.password, f.confirmPassword))
  }

  /**
   * The partner form judges its three shared fields exactly as the client form does, so
   * it is valid exactly when the client form with the same values would be, whatever
   * the organization name.
   */
  lemma SameRulesAsClient(f: PartnerData)
    ensures PartnerErrors(f) == map[] <==> FormErrors(FormData(f.email, f.password, f.confirmPassword)) == map[]
    ensures PartnerErrors(f) == map[] <==>
      f.email != "" && MatchesEmail(f.email) && Utf16Length(f.password) >= MIN_PASSWORD_LENGTH && f.confirmPassword == f.password
  {
    var r := PartnerErrors(f);
    ValidIff(FormData(f.email, f.password, f.confirmPassword));
    if PartnerEmail !in r && PartnerPassword !in r && PartnerConfirmPassword !in r {
      forall k | k in r ensures false {
        match k
        case PartnerEmail =>
        case PartnerPassword =>
        case PartnerConfirmPassword =>
        case OrganizationName =>
      }
      assert r.Keys == {};
    }
  }

  class PartnerForm {
    var formData: PartnerData
    var errors: map<PartnerField, string>
    var isSubmitting: bool
    var isSuccess: bool

    constructor ()
      ensures formData == EMPTY_PARTNER && errors == map[] && !isSubmitting && !isSuccess
    {
      formData := EMPTY_PARTNER;
      errors := map[];
      isSubmitting := false;
      isSuccess := false;
    }

    /** `validateForm`: builds the errors field by field, stores them, and reports whether there are none. */
    method ValidateForm() returns (valid: bool)
      modifies this`errors
      ensures errors == PartnerErrors(formData)
      ensures valid <==> errors == map[]
    {
      var newErrors: map<PartnerField, string> := map[];
      if formData.email == "" {
        newErrors := newErrors[PartnerEmail := EMAIL_REQUIRED];
      } else if !MatchesEmail(formData.email) {
        newErrors := newErrors[PartnerEmail := EMAIL_FORMAT];
      }
      if formData.password == "" {
        newErrors := newErrors[PartnerPassword := PASSWORD_REQUIRED];
      } else if Utf16Length(formData.password) < MIN_PASSWORD_LENGTH {
        newErrors := newErrors[PartnerPassword := PASSWORD_LENGTH];
      }
      if formData.confirmPassword == "" {
        newErrors := newErrors[PartnerConfirmPassword := CONFIRM_REQUIRED];
      } else if formData.password != formData.confirmPassword {
        newErrors := newErrors[PartnerConfirmPassword := CONFIRM_MISMATCH];
      }
      errors := newErrors;
      valid := |newErrors| == 0;
    }

    /** `handleSubmit`: an invalid form only shows its errors; a valid one ends in the success state. */
    method HandleSubmit()
      modifies this`errors, this`isSubmitting, this`isSuccess
      ensures errors == PartnerErrors(formData)
      ensures errors != map[] ==> isSubmitting == old(isSubmitting) && isSuccess == old(isSuccess)
      ensures errors == map[] ==> !isSubmitting && isSuccess
    {
      var valid := ValidateForm();
      if !valid {
        return;
      }
      isSubmitting := true;
      isSubmitting := false;
      isSuccess := true;
    }

    /** `handleChange`: the field takes the value, and only that field's error is cleared. */
    method HandleChange(field: PartnerField, value: string)
      modifies this`formData, this`errors
      ensures formData == WithPartnerField(old(formData), field, value)
      ensures errors == ClearedError(old(errors), field)
    {
      formData := WithPartnerField(formData, field, value);
      if field in errors && errors[field] != "" {
        errors := errors[field := ""];
      }
    }
  }
}
