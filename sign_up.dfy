/** The sign-up form of `SignUp.jsx`: four fields, the error map `validateForm` fills one
    rule at a time, the per-field clearing of `handleChange`, and the submit gate in front
    of the external `signup` call. */
module SignUp {
  import opened Wrappers
  import opened Validation

  const NameKey: string := "name"
  const EmailKey: string := "email"
  const PasswordKey: string := "password"
  const ConfirmKey: string := "confirmPassword"

  /** The fields the rules look at. */
  function Fields(): set<string> {
    {NameKey, EmailKey, PasswordKey, ConfirmKey}
  }

  const MinPasswordLength: nat := 6

  /** A blank name fails with "Name is required"; any other name passes. */
  function NameRule(name: string): (r: Option<string>)
    ensures r.Some? <==> name == ""
    ensures name == "" ==> r == Some("Name is required")
  {
    if name == "" then Some("Name is required") else None
  }

  /** A missing password and a short one fail with different messages; six characters
      or more pass. */
  function PasswordRule(password: string): (r: Option<string>)
    ensures r.Some? <==> |password| < MinPasswordLength
    ensures password == "" ==> r == Some("Password is required")
    ensures 0 < |password| < MinPasswordLength ==> r == Some("Password must be at least 6 characters")
  {
    if password == "" then Some("Password is required")
    else if |password| < MinPasswordLength then Some("Password must be at least 6 characters")
    else None
  }

  /** A missing confirmation and a mismatching one fail with different messages; the
      blank check comes first, so a blank confirmation of a blank password still fails. */
  function ConfirmRule(password: string, confirm: string): (r: Option<string>)
    ensures r.Some? <==> confirm == "" || confirm != password
    ensures confirm == "" ==> r == Some("Please confirm your password")
    ensures confirm != "" && confirm != password ==> r == Some("Passwords do not match")
  {
    if confirm == "" then Some("Please confirm your password")
    else if password != confirm then Some("Passwords do not match")
    else None
  }

  /** The message recorded for field `key`, or `None` when the rule for that field passes. */
  function FieldError(form: map<string, string>, key: string): (r: Option<string>)
    ensures key !in Fields() ==> r.None?
    ensures key == NameKey ==> (r.Some? <==> Field(form, NameKey) == "")
    ensures key == NameKey && Field(form, NameKey) == "" ==> r == Some("Name is required")
    ensures key == EmailKey ==> r == EmailError(Field(form, EmailKey))
    ensures key == PasswordKey ==> (r.Some? <==> |Field(form, PasswordKey)| < MinPasswordLength)
    ensures key == PasswordKey && Field(form, PasswordKey) == "" ==> r == Some("Password is required")
    ensures key == PasswordKey && 0 < |Field(form, PasswordKey)| < MinPasswordLength ==>
      r == Some("Password must be at least 6 characters")
    ensures key == ConfirmKey ==>
      (r.Some? <==> Field(form, ConfirmKey) == "" || Field(form, ConfirmKey) != Field(form, PasswordKey))
    ensures key == ConfirmKey && Field(form, ConfirmKey) == "" ==> r == Some("Please confirm your password")
    ensures key == ConfirmKey && Field(form, ConfirmKey) != "" && Field(form, ConfirmKey) != Field(form, PasswordKey) ==>
      r == Some("Passwords do not match")
  {
    if key == NameKey then NameRule(Field(form, NameKey))
    else if key == EmailKey then EmailError(Field(form, EmailKey))
    else if key == PasswordKey then PasswordRule(Field(form, PasswordKey))
    else if key == ConfirmKey then ConfirmRule(Field(form, PasswordKey), Field(form, ConfirmKey))
    else None
  }

  /** Records a field's message when its rule fails. */
  function Put(errors: map<string, string>, key: string, message: Option<string>): (r: map<string, string>)
    ensures forall k :: k in r <==> k in errors || (k == key && message.Some?)
    ensures forall k :: k in r ==> r[k] == if k == key && message.Some? then message.value else errors[k]
  {
    if message.Some? then errors[key := message.value] else errors
  }

  /** The error map `validateForm` builds, one rule after the other: one entry for every
      field whose rule fails, and no other entry. */
  function SignUpErrors(form: map<string, string>): (errors: map<string, string>)
    ensures errors.Keys <= Fields()
    ensures forall k :: k in errors <==> FieldError(form, k).Some?
    ensures forall k :: k in errors ==> errors[k] == FieldError(form, k).value
  {
    var name := Field(form, NameKey);
    var email := Field(form, EmailKey);
    var password := Field(form, PasswordKey);
    var confirm := Field(form, ConfirmKey);
    Put(Put(Put(Put(map[], NameKey, NameRule(name)), EmailKey, EmailError(email)),
            PasswordKey, PasswordRule(password)),
        ConfirmKey, ConfirmRule(password, confirm))
  }

  /** The form passes exactly when all four rules hold. */
  lemma SignUpValidIff(form: map<string, string>)
    ensures SignUpErrors(form) == map[] <==>
      && Field(form, NameKey) != ""
      && EmailPattern(Field(form, EmailKey))
      && |Field(form, PasswordKey)| >= MinPasswordLength
      && Field(form, ConfirmKey) == Field(form, PasswordKey)
  {
    var e := SignUpErrors(form);
    if e == map[] {
      assert FieldError(form, NameKey).None? && FieldError(form, EmailKey).None?;
      assert FieldError(form, PasswordKey).None? && FieldError(form, ConfirmKey).None?;
      assert Field(form, ConfirmKey) != "";
    } else {
      var k :| k in e;
    }
  }

  /** The fields a field's rule reads: its own, and the password for the confirmation. */
  function ReadsFields(key: string): set<string> {
    if key == ConfirmKey then {ConfirmKey, PasswordKey} else {key}
  }

  /** Each field is checked on its own: editing a field the rule does not read leaves its
      message as it was. Editing the password can change the confirmation's message. */
  lemma FieldsIndependent(form: map<string, string>, edited: string, value: string, key: string)
    requires edited !in ReadsFields(key)
    ensures FieldError(form[edited := value], key) == FieldError(form, key)
  {
    var f := form[edited := value];
    assert Field(f, key) == Field(form, key);
    assert key == ConfirmKey ==> Field(f, PasswordKey) == Field(form, PasswordKey);
  }

  lemma SignUpExamples()
    ensures SignUpErrors(map[NameKey := "Ann", EmailKey := "a@b.co", PasswordKey := "secret", ConfirmKey := "secret"]) == map[]
    ensures FieldError(map[PasswordKey := "12345"], PasswordKey) == Some("Password must be at least 6 characters")
    ensures FieldError(map[PasswordKey := "123456", ConfirmKey := "123457"], ConfirmKey) == Some("Passwords do not match")
    ensures FieldError(map[], ConfirmKey) == Some("Please confirm your password")
  {
    var form := map[NameKey := "Ann", EmailKey := "a@b.co", PasswordKey := "secret", ConfirmKey := "secret"];
    assert EmailMatchAt("a@b.co", 0, 3);
    SignUpValidIff(form);
  }

  /** The arguments handed to the external `signup(email, password, name)`. */
  datatype SignupCall = SignupCall(email: string, password: string, name: string)

  /** The form's state: `formData` and `errors`. */
  class SignUpForm {
    var formData: map<string, string>
    var errors: map<string, string>

    constructor ()
      ensures formData == map[NameKey := "", EmailKey := "", PasswordKey := "", ConfirmKey := ""]
      ensures errors == map[]
    {
      formData := map[NameKey := "", EmailKey := "", PasswordKey := "", ConfirmKey := ""];
      errors := map[];
    }

    /** Fills a fresh error map rule by rule, stores it, and reports whether it is empty. */
    method ValidateForm() returns (ok: bool)
      modifies this
      ensures formData == old(formData)
      ensures errors == SignUpErrors(formData)
      ensures ok <==> errors == map[]
    {
      var form := formData;
      var newErrors: map<string, string> := map[];
      var name := Field(form, NameKey);
      var email := Field(form, EmailKey);
      var password := Field(form, PasswordKey);
      var confirm := Field(form, ConfirmKey);
      var e0 := newErrors;
      if name == "" {
        newErrors := newErrors[NameKey := "Name is required"];
      }
      assert newErrors == Put(e0, NameKey, NameRule(name));
      var e1 := newErrors;
      if email == "" {
        newErrors := newErrors[EmailKey := "Email is required"];
      } else if !EmailPattern(email) {
        newErrors := newErrors[EmailKey := "Email is invalid"];
      }
      assert newErrors == Put(e1, EmailKey, EmailError(email));
      var e2 := newErrors;
      if password == "" {
        newErrors := newErrors[PasswordKey := "Password is required"];
      } else if |password| < MinPasswordLength {
        newErrors := newErrors[PasswordKey := "Password must be at least 6 characters"];
      }
      assert newErrors == Put(e2, PasswordKey, PasswordRule(password));
      var e3 := newErrors;
      if confirm == "" {
        newErrors := newErrors[ConfirmKey := "Please confirm your password"];
      } else if password != confirm {
        newErrors := newErrors[ConfirmKey := "Passwords do not match"];
      }
      assert newErrors == Put(e3, ConfirmKey, ConfirmRule(password, confirm));
      errors := newErrors;
      // The form passes when no field recorded a message.
      ok := newErrors == map[];
    }

    /** Writes the edited field and blanks that field's error if one is shown. */
    method HandleChange(name: string, value: string)
      modifies this
      ensures formData == old(formData)[name := value]
      ensures errors == ClearError(old(errors), name)
    {
      formData := formData[name := value];
      errors := ClearError(errors, name);
    }

    /** Validates; only a form that passes reaches `signup`, whose outcome is
        `signupSucceeds`. On success the toast is shown and the page goes to "/login"; a
        failure is left to the auth store. */
    method HandleSubmit(signupSucceeds: bool) returns (call: Option<SignupCall>, toast: Option<string>, navigateTo: Option<string>)
      modifies this
      ensures formData == old(formData) && errors == SignUpErrors(formData)
      ensures call.Some? <==> SignUpErrors(formData) == map[]
      ensures call.Some? ==>
        call.value == SignupCall(Field(formData, EmailKey), Field(formData, PasswordKey), Field(formData, NameKey))
      ensures navigateTo.Some? <==> call.Some? && signupSucceeds
      ensures navigateTo.Some? ==> navigateTo == Some("/login") && toast == Some("Account created successfully! Please log in.")
      ensures navigateTo.None? ==> toast.None?
    {
      call, toast, navigateTo := None, None, None;
      var ok := ValidateForm();
      if ok {
        call := Some(SignupCall(Field(formData, EmailKey), Field(formData, PasswordKey), Field(formData, NameKey)));
        if signupSucceeds {
          toast := Some("Account created successfully! Please log in.");
          navigateTo := Some("/login");
        }
      }
    }
  }
}
