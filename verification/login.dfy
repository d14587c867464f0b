/**
 * The login form's schema (app/login/page.tsx): the email chain, a password
 * that any string satisfies, and an optional `rememberMe` flag; and the
 * form's default values.
 */
module Login {
  import opened Wrappers
  import opened Validation

  datatype LoginForm = LoginForm(email: string, password: string, rememberMe: Option<bool>)

  /** The messages the form shows; the password and the flag have no checks
      that can fail on values of their types. */
  datatype LoginErrors = LoginErrors(email: Option<string>)

  function Validate(form: LoginForm, isEmail: string -> bool): LoginErrors {
    LoginErrors(FirstError(EmailChecks(form.email, isEmail)))
  }

  predicate Accepted(form: LoginForm, isEmail: string -> bool) {
    Validate(form, isEmail).email.None?
  }

  /** Acceptance depends on the email alone: any password, including the
      empty one, and an absent or present `rememberMe`, are accepted. */
  lemma OnlyEmailMatters(form: LoginForm, password: string, rememberMe: Option<bool>, isEmail: string -> bool)
    ensures Accepted(form, isEmail) <==> form.email != [] && isEmail(form.email)
    ensures Accepted(form, isEmail) <==> Accepted(form.(password := password, rememberMe := rememberMe), isEmail)
  {
    EmailRule(form.email, isEmail);
  }

  const Defaults: LoginForm := LoginForm("", "", Some(false))

  /** The defaults fail, on the email only, with "Email is required". */
  lemma DefaultsFailOnEmail(isEmail: string -> bool)
    ensures Validate(Defaults, isEmail) == LoginErrors(Some("Email is required"))
  {
    EmailRule(Defaults.email, isEmail);
  }
}
