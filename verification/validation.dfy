/**
 * The pieces of the zod form schemas that the sign-up and login pages share:
 * a chain of string checks, of which the form shows the first failing
 * message, and the email chain `.min(1).email()`. The email format test of
 * zod is a parameter `isEmail`.
 */
module Validation {
  import opened Wrappers

  /** One check of a chain: whether the value passes it, and its message. */
  datatype Check = Check(passes: bool, message: string)

  /** The message the form shows for a field: every check of the chain runs,
      and the first failing one is reported. */
  function FirstError(checks: seq<Check>): (r: Option<string>)
    ensures r.None? <==> forall k | 0 <= k < |checks| :: checks[k].passes
    ensures r.Some? ==> exists k | 0 <= k < |checks| ::
      && !checks[k].passes && checks[k].message == r.value
      && forall j | 0 <= j < k :: checks[j].passes
  {
    if checks == [] then None
    else if !checks[0].passes then Some(checks[0].message)
    else
      var rest := FirstError(checks[1..]);
      if rest.Some? then
        var k :| 0 <= k < |checks[1..]| && !checks[1..][k].passes && checks[1..][k].message == rest.value
          && forall j | 0 <= j < k :: checks[1..][j].passes;
        assert !checks[k + 1].passes && checks[k + 1].message == rest.value
          && forall j | 0 <= j < k + 1 :: checks[j].passes;
        rest
      else rest
  }

  /** `z.string().min(1, "Email is required").email("Invalid email address")`. */
  function EmailChecks(email: string, isEmail: string -> bool): seq<Check> {
    [Check(|email| >= 1, "Email is required"), Check(isEmail(email), "Invalid email address")]
  }

  /** An empty email is reported as missing, a non-empty one that is not an
      address as invalid, and an address passes. */
  lemma EmailRule(email: string, isEmail: string -> bool)
    ensures email == [] ==> FirstError(EmailChecks(email, isEmail)) == Some("Email is required")
    ensures email != [] && !isEmail(email) ==> FirstError(EmailChecks(email, isEmail)) == Some("Invalid email address")
    ensures email != [] && isEmail(email) ==> FirstError(EmailChecks(email, isEmail)).None?
  {
    var checks := EmailChecks(email, isEmail);
    assert checks[1..] == [checks[1]];
    assert checks[1..][1..] == [];
  }
}
