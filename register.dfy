/**
 * The registration page: three registered fields (name, email, password)
 * and a submit handler that calls the auth context's `register` and, when
 * that succeeds, navigates to the verification page carrying the email.
 */
module Register {
  import opened Platform
  import opened Backend
  import opened FormRules
  import EmailAddress

  const NameRules := Rules(Some("Name is required"), None, None, None, None)

  const EmailRules :=
    Rules(Some("Email is required"), None, None, Some(EmailPattern("Invalid email address")), None)

  const PasswordRules :=
    Rules(Some("Password is required"), None, Some(Length(6, "Password must be at least 6 characters")), None, None)

  const SentToast := "OTP sent to your email!"

  datatype Form = Form(name: string, email: string, password: string)

  function Fields(f: Form): seq<Field> {
    [ Field("name", NameRules, TextInput(f.name)),
      Field("email", EmailRules, TextInput(f.email)),
      Field("password", PasswordRules, TextInput(f.password)) ]
  }

  /** What the page accepts, in the terms of the email regular expression itself. */
  ghost predicate Acceptable(f: Form) {
    f.name != "" && EmailAddress.Matches(f.email) && |f.password| >= 6
  }

  /** The registered rules let a form through exactly when it is acceptable. */
  lemma NoErrorsIffAcceptable(f: Form)
    ensures FormErrors(Fields(f)) == [] <==> Acceptable(f)
  {
    var fs := Fields(f);
    assert FormErrors(fs) == [] <==>
      Satisfies(fs[0].rules, fs[0].input) && Satisfies(fs[1].rules, fs[1].input) && Satisfies(fs[2].rules, fs[2].input);
    assert Satisfies(fs[1].rules, fs[1].input) <==> EmailAddress.IsValid(f.email);
    EmailAddress.IsValidIffMatches(f.email);
  }

  /** A submission: stopped by validation, or a `register` call with the toast it raises and where the page goes next. */
  datatype Submission =
    | Invalid(errors: seq<FieldMessage>)
    | Sent(request: Request, toast: Option<string>, next: Option<Navigation>)

  /**
   * Submitting the form with the values `f`; `registered` is whether the
   * `register` call succeeds. A failure is reported by the auth context,
   * and the page stays where it is.
   */
  function Submit(f: Form, registered: bool): (r: Submission)
    ensures r.Invalid? <==> FormErrors(Fields(f)) != []
    ensures r.Invalid? ==> r.errors == FormErrors(Fields(f))
    ensures r.Sent? ==> r.request == RegisterUser(f.name, f.email, f.password)
    ensures r.Sent? ==> (r.next.Some? <==> registered)
    ensures r.Sent? ==> r.toast == (if registered then Some(SentToast) else None)
    ensures r.Sent? && registered ==> r.next.value == Navigate("/verify-email", Some(f.email))
  {
    var errors := FormErrors(Fields(f));
    if errors != [] then Invalid(errors)
    else Sent(RegisterUser(f.name, f.email, f.password),
              if registered then Some(SentToast) else None,
              if registered then Some(Navigate("/verify-email", Some(f.email))) else None)
  }

  /** A request is made exactly for acceptable forms, and a successful one toasts and leads to verification with that email. */
  lemma SubmitSendsIffAcceptable(f: Form, registered: bool)
    ensures Submit(f, registered).Sent? <==> Acceptable(f)
    ensures Acceptable(f) && registered ==>
              && Submit(f, registered).toast == Some(SentToast)
              && Submit(f, registered).next == Some(Navigate("/verify-email", Some(f.email)))
  {
    NoErrorsIffAcceptable(f);
  }
}
