/**
 * The client sign-up form: e-mail, password and its confirmation, checked in the
 * browser before the (simulated) submission. Also the pieces the other two account
 * forms share with it: the e-mail pattern, the per-field checks, and clearing one
 * field's error while the user types.
 */
module ClientRegistrationForm {
  import opened Common

  // ---------------------------------------------------------------- the e-mail pattern

  /** `\s` in a JavaScript regular expression: white space and line terminators. */
  predicate IsSpace(c: char) {
    c == ' ' || c == '\t' || c == '\n' || c == '\U{000B}' || c == '\U{000C}' || c == '\r' ||
    c == '\U{00A0}' || c == '\U{1680}' || '\U{2000}' <= c <= '\U{200A}' || c == '\U{2028}' || c == '\U{2029}' ||
    c == '\U{202F}' || c == '\U{205F}' || c == '\U{3000}' || c == '\U{FEFF}'
  }

  /** `[^\s@]`. */
  predicate WordChar(c: char) {
    !IsSpace(c) && c != '@'
  }

  /** `[^\s@]+`. */
  predicate Word(s: string) {
    |s| > 0 && forall j :: 0 <= j < |s| ==> WordChar(s[j])
  }

  /**
   * `/^[^\s@]+@[^\s@]+\.[^\s@]+$/`, read as the regular expression reads: a word, "@",
   * a word, ".", a word, covering the whole text.
   */
  ghost predicate EmailPattern(s: string) {
    exists i, k :: 0 < i < k < |s| && Word(s[..i]) && s[i] == '@' && Word(s[i + 1..k]) && s[k] == '.' && Word(s[k + 1..])
  }

  /** The position of the first "@", or -1. */
  function AtIndex(s: string): (i: int)
    ensures -1 <= i < |s|
    ensures i >= 0 ==> s[i] == '@' && forall j :: 0 <= j < i ==> s[j] != '@'
    ensures i == -1 ==> forall j :: 0 <= j < |s| ==> s[j] != '@'
  {
    if s == [] then -1
    else if s[0] == '@' then 0
    else
      var k := AtIndex(s[1..]);
      if k == -1 then -1 else k + 1
  }

  /**
   * The e-mail test as a check on the text: a non-empty local part without white space
   * or "@" before the first "@", and after it a domain without white space or "@" that
   * holds a "." with text on both sides.
   */
  predicate MatchesEmail(s: string) {
    var i := AtIndex(s);
    i > 0 && Word(s[..i]) && var d := s[i + 1..];
    Word(d) && exists k :: 0 < k < |d| - 1 && d[k] == '.'
  }

  /** Words joined by a word character form a word. */
  lemma WordJoin(a: string, c: char, b: string)
    requires Word(a) && WordChar(c) && Word(b)
    ensures Word(a + [c] + b)
  {
    var w := a + [c] + b;
    forall j | 0 <= j < |w| ensures WordChar(w[j]) {
      if j < |a| {
        assert w[j] == a[j];
      } else if j > |a| {
        assert w[j] == b[j - |a| - 1];
      }
    }
  }

  /** Every non-empty slice of a word is a word. */
  lemma WordSlice(w: string, lo: nat, hi: nat)
    requires Word(w) && lo < hi <= |w|
    ensures Word(w[lo..hi])
  {
    assert forall j :: 0 <= j < hi - lo ==> w[lo..hi][j] == w[lo + j];
  }

  /** A match of the regular expression passes the check. */
  lemma PatternPassesCheck(s: string, i: nat, k: nat)
    requires 0 < i < k < |s| && Word(s[..i]) && s[i] == '@' && Word(s[i + 1..k]) && s[k] == '.' && Word(s[k + 1..])
    ensures MatchesEmail(s)
  {
    assert forall j :: 0 <= j < i ==> s[j] == s[..i][j];
    assert AtIndex(s) == i;
    var d := s[i + 1..];
    assert d == s[i + 1..k] + [s[k]] + s[k + 1..];
    WordJoin(s[i + 1..k], s[k], s[k + 1..]);
    assert d[k - i - 1] == '.';
  }

  /** A text passing the check matches the regular expression. */
  lemma CheckMatchesPattern(s: string)
    requires MatchesEmail(s)
    ensures EmailPattern(s)
  {
    var i := AtIndex(s);
    var d := s[i + 1..];
    var k' :| 0 < k' < |d| - 1 && d[k'] == '.';
    var k := i + 1 + k';
    assert s[i + 1..k] == d[..k'];
    assert s[k + 1..] == d[k' + 1..];
    WordSlice(d, 0, k');
    WordSlice(d, k' + 1, |d|);
  }

  /** The check accepts exactly the texts the regular expression matches. */
  lemma EmailPatternIff(s: string)
    ensures EmailPattern(s) <==> MatchesEmail(s)
  {
    if EmailPattern(s) {
      var i, k :| 0 < i < k < |s| && Word(s[..i]) && s[i] == '@' && Word(s[i + 1..k]) && s[k] == '.' && Word(s[k + 1..]);
      PatternPassesCheck(s, i, k);
    }
    if MatchesEmail(s) {
      CheckMatchesPattern(s);
    }
  }

  // ---------------------------------------------------------------- field checks

  const EMAIL_REQUIRED := "E-mail je povinný"
  const EMAIL_FORMAT := "Neplatný formát e-mailu"
  const PASSWORD_REQUIRED := "Heslo je povinné"
  const PASSWORD_LENGTH := "Heslo musí mať aspoň 8 znakov"
  const CONFIRM_REQUIRED := "Potvrdenie hesla je povinné"
  const CONFIRM_MISMATCH := "Heslá sa nezhodujú"

  const MIN_PASSWORD_LENGTH := 8

  /** The e-mail's error: required first, then the pattern. */
  function EmailError(email: string): (e: Option<string>)
    ensures e.None? <==> email != "" && MatchesEmail(email)
    ensures email == "" ==> e == Some(EMAIL_REQUIRED)
    ensures email != "" && !MatchesEmail(email) ==> e == Some(EMAIL_FORMAT)
  {
    if email == "" then Some(EMAIL_REQUIRED)
    else if !MatchesEmail(email) then Some(EMAIL_FORMAT)
    else None
  }

  /**
   * `String.prototype.length`: the number of UTF-16 code units, so a character outside
   * the Basic Multilingual Plane (an emoji, say) counts twice.
   */
  function Utf16Length(s: string): (n: nat)
    ensures |s| <= n <= 2 * |s|
    ensures (forall i :: 0 <= i < |s| ==> s[i] as int < 0x1_0000) ==> n == |s|
    ensures (forall i :: 0 <= i < |s| ==> s[i] as int >= 0x1_0000) ==> n == 2 * |s|
  {
    if s == [] then 0 else (if s[0] as int < 0x1_0000 then 1 else 2) + Utf16Length(s[1..])
  }

  /** A new password's error: required, then at least eight UTF-16 code units. */
  function PasswordError(password: string): (e: Option<string>)
    ensures e.None? <==> Utf16Length(password) >= MIN_PASSWORD_LENGTH
    ensures password == "" ==> e == Some(PASSWORD_REQUIRED)
    ensures password != "" && Utf16Length(password) < MIN_PASSWORD_LENGTH ==> e == Some(PASSWORD_LENGTH)
  {
    if password == "" then Some(PASSWORD_REQUIRED)
    else if Utf16Length(password) < MIN_PASSWORD_LENGTH then Some(PASSWORD_LENGTH)
    else None
  }

  /** The confirmation's error: required, then equal to the password. */
  function ConfirmError(password: string, confirm: string): (e: Option<string>)
    ensures e.None? <==> confirm != "" && confirm == password
    ensures confirm == "" ==> e == Some(CONFIRM_REQUIRED)
    ensures confirm != "" && confirm != password ==> e == Some(CONFIRM_MISMATCH)
  {
    if confirm == "" then Some(CONFIRM_REQUIRED)
    else if password != confirm then Some(CONFIRM_MISMATCH)
    else None
  }

  /** `newErrors.field = message` when the check produced a message. */
  function Put<F>(errors: map<F, string>, field: F, e: Option<string>): (r: map<F, string>)
    ensures e.None? ==> r == errors
    ensures e.Some? ==> r == errors[field := e.value]
  {
    if e.Some? then errors[field := e.value] else errors
  }

  /**
   * `handleChange`'s effect on the errors: a field with a (non-empty) message gets an
   * empty one; every other field, and a field without a message, is left as it was.
   */
  function ClearedError<F>(errors: map<F, string>, field: F): (r: map<F, string>)
    ensures r.Keys == errors.Keys
    ensures forall g :: g in errors && g != field ==> r[g] == errors[g]
    ensures field in errors ==> r[field] == ""
  {
    if field in errors && errors[field] != "" then errors[field := ""] else errors
  }

  // ---------------------------------------------------------------- the client form

  datatype Field = Email | Password | ConfirmPassword

  datatype FormData = FormData(email: string, password: string, confirmPassword: string)

  const EMPTY_FORM := FormData("", "", "")

  /** The value of one field of the form. */
  function FieldValue(f: FormData, field: Field): string {
    match field
    case Email => f.email
    case Password => f.password
    case ConfirmPassword => f.confirmPassword
  }

  /** `setFormData((prev) => ({...prev, [field]: value}))`. */
  function WithField(f: FormData, field: Field, value: string): (r: FormData)
    ensures FieldValue(r, field) == value
    ensures forall g :: g != field ==> FieldValue(r, g) == FieldValue(f, g)
  {
    match field
    case Email => f.(email := value)
    case Password => f.(password := value)
    case ConfirmPassword => f.(confirmPassword := value)
  }

  /** The errors `validateForm` stores: one message per failing field, none for a passing one. */
  function FormErrors(f: FormData): (r: map<Field, string>)
    ensures Email in r <==> EmailError(f.email).Some?
    ensures Password in r <==> PasswordError(f.password).Some?
    ensures ConfirmPassword in r <==> ConfirmError(f.password, f.confirmPassword).Some?
    ensures Email in r ==> r[Email] == EmailError(f.email).value
    ensures Password in r ==> r[Password] == PasswordError(f.password).value
    ensures ConfirmPassword in r ==> r[ConfirmPassword] == ConfirmError(f.password, f.confirmPassword).value
  {
    var e := Put(map[], Email, EmailError(f.email));
    var p := Put(e, Password, PasswordError(f.password));
    Put(p, ConfirmPassword, ConfirmError(f.password, f.confirmPassword))
  }

  /** An error map is empty exactly when none of the three fields has an entry. */
  lemma EmptyIffNoKeys(r: map<Field, string>)
    ensures r == map[] <==> Email !in r && Password !in r && ConfirmPassword !in r
  {
    if Email !in r && Password !in r && ConfirmPassword !in r {
      forall k | k in r ensures false {
        match k
        case Email =>
        case Password =>
        case ConfirmPassword =>
      }
      assert r.Keys == {};
    }
  }

  /** The form is valid exactly when the e-mail matches and the password, of eight or more UTF-16 code units, is confirmed. */
  lemma ValidIff(f: FormData)
    ensures FormErrors(f) == map[] <==>
      f.email != "" && MatchesEmail(f.email) && Utf16Length(f.password) >= MIN_PASSWORD_LENGTH && f.confirmPassword == f.password
  {
    EmptyIffNoKeys(FormErrors(f));
  }

  class ClientForm {
    var formData: FormData
    var errors: map<Field, string>
    var isSubmitting: bool
    var isSuccess: bool

    constructor ()
      ensures formData == EMPTY_FORM && errors == map[] && !isSubmitting && !isSuccess
    {
      formData := EMPTY_FORM;
      errors := map[];
      isSubmitting := false;
      isSuccess := false;
    }

    /** `validateForm`: builds the errors field by field, stores them, and reports whether there are none. */
    method ValidateForm() returns (valid: bool)
      modifies this`errors
      ensures errors == FormErrors(formData)
      ensures valid <==> errors == map[]
    {
      var newErrors: map<Field, string> := map[];
      if formData.email == "" {
        newErrors := newErrors[Email := EMAIL_REQUIRED];
      } else if !MatchesEmail(formData.email) {
        newErrors := newErrors[Email := EMAIL_FORMAT];
      }
      if formData.password == "" {
        newErrors := newErrors[Password := PASSWORD_REQUIRED];
      } else if Utf16Length(formData.password) < MIN_PASSWORD_LENGTH {
        newErrors := newErrors[Password := PASSWORD_LENGTH];
      }
      if formData.confirmPassword == "" {
        newErrors := newErrors[ConfirmPassword := CONFIRM_REQUIRED];
      } else if formData.password != formData.confirmPassword {
        newErrors := newErrors[ConfirmPassword := CONFIRM_MISMATCH];
      }
      errors := newErrors;
      valid := |newErrors| == 0;
    }

    /**
     * `handleSubmit`: an invalid form only shows its errors; a valid one goes through the
     * simulated request and ends in the success state.
     */
    method HandleSubmit()
      modifies this`errors, this`isSubmitting, this`isSuccess
      ensures errors == FormErrors(formData)
      ensures errors != map[] ==> isSubmitting == old(isSubmitting) && isSuccess == old(isSuccess)
      ensures errors == map[] ==> !isSubmitting && isSuccess
    {
      var valid := ValidateForm();
      if !valid {
        return;
      }
      isSubmitting := true;
      isSubmitting := false;
      isSuccess := true;
    }

    /** `handleChange`: the field takes the value, and only that field's error is cleared. */
    method HandleChange(field: Field, value: string)
      modifies this`formData, this`errors
      ensures formData == WithField(old(formData), field, value)
      ensures errors == ClearedError(old(errors), field)
    {
      formData := WithField(formData, field, value);
      if field in errors && errors[field] != "" {
        errors := errors[field := ""];
      }
    }
  }
}
