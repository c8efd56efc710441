/** The reset-password form of `ResetPassword.jsx`: a single e-mail field with one error
    string, validation with early returns, and the `isSubmitted` flag that switches the page
    to its confirmation once `resetPassword` has resolved. */
module ResetPassword {
  import opened Wrappers
  import opened Validation

  class ResetPasswordForm {
    var email: string
    var error: string
    var isSubmitted: bool

    /** A shown message is always the current address's message: every edit blanks it and
        only a failed validation writes it. */
    predicate Consistent()
      reads this
    {
      error == "" || (EmailError(email).Some? && error == EmailError(email).value)
    }

    constructor ()
      ensures email == "" && error == "" && !isSubmitted
      ensures Consistent()
    {
      email := "";
      error := "";
      isSubmitted := false;
    }

    /** Sets the message of the first failing rule and leaves `error` as it was for an
        accepted address, which in a consistent form means no message is shown. */
    method ValidateForm() returns (ok: bool)
      requires Consistent()
      modifies this
      ensures Consistent()
      ensures ok ==> error == ""
      ensures email == old(email) && isSubmitted == old(isSubmitted)
      ensures ok <==> EmailPattern(email)
      ensures !ok ==> error == EmailError(email).value
      ensures ok ==> error == old(error)
    {
      if email == "" {
        error := "Email is required";
        return false;
      }
      if !EmailPattern(email) {
        error := "Email is invalid";
        return false;
      }
      return true;
    }

    /** Validates; only an accepted address reaches `resetPassword`, whose outcome is
        `resetSucceeds`, and only its success marks the form as submitted. */
    method HandleSubmit(resetSucceeds: bool) returns (called: bool, toast: Option<string>)
      requires Consistent()
      modifies this
      ensures Consistent()
      ensures email == old(email)
      ensures called <==> EmailPattern(email)
      ensures isSubmitted == (old(isSubmitted) || (called && resetSucceeds))
      ensures called && resetSucceeds ==> toast == Some("Password reset email sent!")
      ensures called && !resetSucceeds ==> toast == Some("Failed to send reset email. Please try again.")
      ensures !called ==> toast.None? && error == EmailError(email).value
    {
      toast := None;
      called := ValidateForm();
      if called {
        if resetSucceeds {
          toast := Some("Password reset email sent!");
          isSubmitted := true;
        } else {
          toast := Some("Failed to send reset email. Please try again.");
        }
      }
    }

    /** Takes the new address and blanks a shown error. */
    method HandleChange(value: string)
      modifies this
      ensures Consistent()
      ensures email == value && error == "" && isSubmitted == old(isSubmitted)
    {
      email := value;
      if error != "" {
        error := "";
      }
    }
  }
}
