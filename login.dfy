/** The login form of `Login.jsx`: the e-mail and password rules (there is no length rule
    here), per-field clearing on edit, and the gate in front of the external `login`. */
module Login {
  import opened Wrappers
  import opened Validation

  const EmailKey: string := "email"
  const PasswordKey: string := "password"

  function Fields(): set<string> {
    {EmailKey, PasswordKey}
  }

  /** The message recorded for field `key`, or `None` when its rule passes. */
  function FieldError(form: map<string, string>, key: string): (r: Option<string>)
    ensures key !in Fields() ==> r.None?
    ensures key == EmailKey ==> r == EmailError(Field(form, EmailKey))
    ensures key == PasswordKey ==> (r.Some? <==> Field(form, PasswordKey) == "")
    ensures key == PasswordKey && Field(form, PasswordKey) == "" ==> r == Some("Password is required")
  {
    if key == EmailKey then EmailError(Field(form, EmailKey))
    else if key == PasswordKey then
      if Field(form, PasswordKey) == "" then Some("Password is required") else None
    else None
  }

  /** The error map: one entry for every field whose rule fails, and no other. */
  function LoginErrors(form: map<string, string>): (errors: map<string, string>)
    ensures errors.Keys <= Fields()
    ensures forall k :: k in errors <==> FieldError(form, k).Some?
    ensures forall k :: k in errors ==> errors[k] == FieldError(form, k).value
  {
    map k | k in Fields() && FieldError(form, k).Some? :: FieldError(form, k).value
  }

  /** The form passes exactly when the address matches and some password is given. */
  lemma LoginValidIff(form: map<string, string>)
    ensures LoginErrors(form) == map[] <==> EmailPattern(Field(form, EmailKey)) && Field(form, PasswordKey) != ""
  {
    var e := LoginErrors(form);
    if e == map[] {
      assert FieldError(form, EmailKey).None? && FieldError(form, PasswordKey).None?;
    } else {
      var k :| k in e;
    }
  }

  /** A one-character password is accepted: only its presence is checked. */
  lemma ShortPasswordAccepted()
    ensures LoginErrors(map[EmailKey := "a@b.co", PasswordKey := "x"]) == map[]
  {
    assert EmailMatchAt("a@b.co", 0, 3);
    LoginValidIff(map[EmailKey := "a@b.co", PasswordKey := "x"]);
  }

  /** Editing one field never changes the other field's message. */
  lemma FieldsIndependent(form: map<string, string>, edited: string, value: string, key: string)
    requires edited != key
    ensures FieldError(form[edited := value], key) == FieldError(form, key)
  {
    assert Field(form[edited := value], key) == Field(form, key);
  }

  /** The arguments handed to `login(email, password)`. */
  datatype LoginCall = LoginCall(email: string, password: string)

  /** The toast after a call: success, or the single message for every failure. */
  datatype Toast = SuccessToast(message: string) | ErrorToast(message: string)

  /** The form's state: `formData` and `errors`. */
  class LoginForm {
    var formData: map<string, string>
    var errors: map<string, string>

    constructor ()
      ensures formData == map[EmailKey := "", PasswordKey := ""] && errors == map[]
    {
      formData := map[EmailKey := "", PasswordKey := ""];
      errors := map[];
    }

    /** Fills a fresh error map rule by rule, stores it, and reports whether it is empty. */
    method ValidateForm() returns (ok: bool)
      modifies this
      ensures formData == old(formData)
      ensures errors == LoginErrors(formData)
      ensures ok <==> errors == map[]
    {
      var form := formData;
      var newErrors: map<string, string> := map[];
      var email := Field(form, EmailKey);
      var password := Field(form, PasswordKey);
      if email == "" {
        newErrors := newErrors[EmailKey := "Email is required"];
      } else if !EmailPattern(email) {
        newErrors := newErrors[EmailKey := "Email is invalid"];
      }
      if password == "" {
        newErrors := newErrors[PasswordKey := "Password is required"];
      }
      assert newErrors == LoginErrors(form) by {
        assert newErrors.Keys == LoginErrors(form).Keys;
      }
      errors := newErrors;
      // The form passes when no field recorded a message.
      ok := newErrors == map[];
    }

    method HandleChange(name: string, value: string)
      modifies this
      ensures formData == old(formData)[name := value]
      ensures errors == ClearError(old(errors), name)
    {
      formData := formData[name := value];
      errors := ClearError(errors, name);
    }

    /** Validates; only a form that passes reaches `login`, whose outcome is
        `loginSucceeds`, and each outcome has its toast. */
    method HandleSubmit(loginSucceeds: bool) returns (call: Option<LoginCall>, toast: Option<Toast>)
      modifies this
      ensures formData == old(formData) && errors == LoginErrors(formData)
      ensures call.Some? <==> LoginErrors(formData) == map[]
      ensures call.Some? ==> call.value == LoginCall(Field(formData, EmailKey), Field(formData, PasswordKey))
      ensures toast.Some? <==> call.Some?
      ensures call.Some? && loginSucceeds ==> toast == Some(SuccessToast("Logged in successfully!"))
      ensures call.Some? && !loginSucceeds ==> toast == Some(ErrorToast("Invalid email or password"))
    {
      call, toast := None, None;
      var ok := ValidateForm();
      if ok {
        call := Some(LoginCall(Field(formData, EmailKey), Field(formData, PasswordKey)));
        if loginSucceeds {
          toast := Some(SuccessToast("Logged in successfully!"));
        } else {
          toast := Some(ErrorToast("Invalid email or password"));
        }
      }
    }
  }
}
