/**
 * The login form: an e-mail checked like the sign-up forms' and a password that is
 * only required, before the (simulated) login request.
 */
module LoginForm {
  import opened Common
  import opened ClientRegistrationForm

  datatype LoginField = LoginEmail | LoginPassword

  datatype LoginData = LoginData(email: string, password: string)

  const EMPTY_LOGIN := LoginData("", "")

  function LoginValue(f: LoginData, field: LoginField): string {
    match field
    case LoginEmail => f.email
    case LoginPassword => f.password
  }

  /** `setFormData((prev) => ({...prev, [field]: value}))`. */
  function WithLoginField(f: LoginData, field: LoginField, value: string): (r: LoginData)
    ensures LoginValue(r, field) == value
    ensures forall g :: g != field ==> LoginValue(r, g) == LoginValue(f, g)
  {
    match field
    case LoginEmail => f.(email := value)
    case LoginPassword => f.(password := value)
  }

  /** The login password's error: required, with no length rule. */
  function LoginPasswordError(password: string): (e: Option<string>)
    ensures e.None? <==> password != ""
    ensures e.Some? ==> e.value == PASSWORD_REQUIRED
  {
    if password == "" then Some(PASSWORD_REQUIRED) else None
  }

  /** The errors `validateForm` stores. */
  function LoginErrors(f: LoginData): (r: map<LoginField, string>)
    ensures LoginEmail in r <==> EmailError(f.email).Some?
    ensures LoginPassword in r <==> f.password == ""
    ensures LoginEmail in r ==> r[LoginEmail] == EmailError(f.email).value
    ensures LoginPassword in r ==> r[LoginPassword] == PASSWORD_REQUIRED
  {
    Put(Put(map[], LoginEmail, EmailError(f.email)), LoginPassword, LoginPasswordError(f.password))
  }

  /** Valid exactly when the e-mail matches and some password is given, however short. */
  lemma LoginValidIff(f: LoginData)
    ensures LoginErrors(f) == map[] <==> f.email != "" && MatchesEmail(f.email) && f.password != ""
  {
    var r := LoginErrors(f);
    if LoginEmail !in r && LoginPassword !in r {
      forall k | k in r ensures false {
        match k
        case LoginEmail =>
        case LoginPassword =>
      }
      assert r.Keys == {};
    }
  }

  class Login {
    var formData: LoginData
    var errors: map<LoginField, string>
    var isSubmitting: bool

    constructor ()
      ensures formData == EMPTY_LOGIN && errors == map[] && !isSubmitting
    {
      formData := EMPTY_LOGIN;
      errors := map[];
      isSubmitting := false;
    }

    /** `validateForm`: builds the errors field by field, stores them, and reports whether there are none. */
    method ValidateForm() returns (valid: bool)
      modifies this`errors
      ensures errors == LoginErrors(formData)
      ensures valid <==> errors == map[]
    {
      var newErrors: map<LoginField, string> := map[];
      if formData.email == "" {
        newErrors := newErrors[LoginEmail := EMAIL_REQUIRED];
      } else if !MatchesEmail(formData.email) {
        newErrors := newErrors[LoginEmail := EMAIL_FORMAT];
      }
      if formData.password == "" {
        newErrors := newErrors[LoginPassword := PASSWORD_REQUIRED];
      }
      errors := newErrors;
      valid := |newErrors| == 0;
    }

    /**
     * `handleSubmit`: an invalid form only shows its errors; a valid one goes through the
     * simulated request and is idle again afterwards. The request logs the e-mail and
     * logs nobody in.
     */
    method HandleSubmit()
      modifies this`errors, this`isSubmitting
      ensures errors == LoginErrors(formData)
      ensures errors != map[] ==> isSubmitting == old(isSubmitting)
      ensures errors == map[] ==> !isSubmitting
    {
      var valid := ValidateForm();
      if !valid {
        return;
      }
      isSubmitting := true;
      isSubmitting := false;
    }

    /** `handleChange`: the field takes the value, and only that field's error is cleared. */
    method HandleChange(field: LoginField, value: string)
      modifies this`formData, this`errors
      ensures formData == WithLoginField(old(formData), field, value)
      ensures errors == ClearedError(old(errors), field)
    {
      formData := WithLoginField(formData, field, value);
      if field in errors && errors[field] != "" {
        errors := errors[field := ""];
      }
    }
  }
}
