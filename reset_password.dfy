/**
 * The password reset page: a new password and its confirmation, whose
 * `validate` rule compares it with the password's current value, and a
 * submit handler that passes the URL's reset token and the password (not
 * the confirmation) to the auth context's `resetPassword`. The handler
 * swallows a failure, and the page holds no state that the reply changes.
 */
module ResetPassword {
  import opened Platform
  import opened Backend
  import opened FormRules

  const PasswordRules :=
    Rules(Some("Password is required"), None, Some(Length(6, "Password must be at least 6 characters")), None, None)

  const Mismatch := "Your passwords do not match"

  function ConfirmRules(password: string): Rules {
    Rules(Some("Please confirm your password"), None, None, None, Some(MustEqual(password, Mismatch)))
  }

  datatype Form = Form(password: string, confirmPassword: string)

  function Fields(f: Form): seq<Field> {
    [ Field("password", PasswordRules, TextInput(f.password)),
      Field("confirmPassword", ConfirmRules(f.password), TextInput(f.confirmPassword)) ]
  }

  /** The confirmation shows the mismatch message exactly when it is filled in and differs from the password. */
  lemma ConfirmMessage(f: Form)
    ensures FieldError(ConfirmRules(f.password), TextInput(f.confirmPassword)) ==
              if f.confirmPassword == "" then Some("Please confirm your password")
              else if f.confirmPassword != f.password then Some(Mismatch)
              else None
  {
  }

  /** Submitting with the URL's `resetToken`: the request made, or none when validation stops it. */
  function Submit(resetToken: Option<string>, f: Form): (r: Option<Request>)
    ensures r.Some? <==> |f.password| >= 6 && f.confirmPassword == f.password
    ensures r.Some? ==> r.value == ResetPassword(resetToken, f.password)
  {
    var fs := Fields(f);
    assert FormErrors(fs) == [] <==> Satisfies(fs[0].rules, fs[0].input) && Satisfies(fs[1].rules, fs[1].input);
    if FormErrors(fs) == [] then Some(ResetPassword(resetToken, f.password)) else None
  }
}
