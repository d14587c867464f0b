/**
 * The sign-up form (app/signup/page.tsx): the zod schema with its field
 * chains and the passwords-match refinement, the form's default values, and
 * the mapping of the server's error body onto field errors.
 */
module Signup {
  import opened Wrappers
  import opened Strings
  import opened Validation

  datatype SignupForm = SignupForm(fullName: string, email: string, password: string, confirmPassword: string, terms: bool)

  /** The message the form shows for each field, if any. */
  datatype SignupErrors = SignupErrors(
    fullName: Option<string>,
    email: Option<string>,
    password: Option<string>,
    confirmPassword: Option<string>,
    terms: Option<string>)

  const NoErrors: SignupErrors := SignupErrors(None, None, None, None, None)

  /** `/^[a-zA-Z\s]*$/`. */
  predicate LettersAndSpaces(s: string) {
    forall k | 0 <= k < |s| :: IsAsciiLetter(s[k]) || IsWhitespace(s[k])
  }

  function FullNameChecks(fullName: string): seq<Check> {
    [Check(|fullName| >= 2, "Full name must be at least 2 characters"),
     Check(LettersAndSpaces(fullName), "Name can only contain letters and spaces")]
  }

  function PasswordChecks(password: string): seq<Check> {
    [Check(|password| >= 8, "Password must be at least 8 characters")]
  }

  function TermsChecks(terms: bool): seq<Check> {
    [Check(terms, "You must accept the terms and conditions")]
  }

  const MismatchText: string := "Passwords don't match"

  /** The resolver's errors: the first failing message of each field's
      chain, and on `confirmPassword` the refinement's message when the two
      passwords differ. zod runs the refinement whenever every field has the
      right type, so it is reported beside failing field checks too. */
  function Validate(form: SignupForm, isEmail: string -> bool): SignupErrors {
    SignupErrors(
      FirstError(FullNameChecks(form.fullName)),
      FirstError(EmailChecks(form.email, isEmail)),
      FirstError(PasswordChecks(form.password)),
      if form.password != form.confirmPassword then Some(MismatchText) else None,
      FirstError(TermsChecks(form.terms)))
  }

  /** The field rules: a full name of at least two characters made of ASCII
      letters and whitespace (the length is reported first), a password of at
      least eight characters and nothing else, and the terms accepted. */
  lemma FieldRules(form: SignupForm, isEmail: string -> bool)
    ensures var e := Validate(form, isEmail);
      && (e.fullName.None? <==> |form.fullName| >= 2 && LettersAndSpaces(form.fullName))
      && (|form.fullName| < 2 ==> e.fullName == Some("Full name must be at least 2 characters"))
      && (|form.fullName| >= 2 && !LettersAndSpaces(form.fullName) ==> e.fullName == Some("Name can only contain letters and spaces"))
      && (e.password.None? <==> |form.password| >= 8)
      && (e.terms.None? <==> form.terms)
      && (e.email.None? <==> form.email != [] && isEmail(form.email))
  {
    var names := FullNameChecks(form.fullName);
    assert names[1..] == [names[1]] && names[1..][1..] == [];
    assert PasswordChecks(form.password)[1..] == [];
    assert TermsChecks(form.terms)[1..] == [];
    EmailRule(form.email, isEmail);
  }

  /** Once every field check passes, the form is accepted exactly when the
      passwords match, and otherwise the one error is the mismatch, on
      `confirmPassword`. */
  lemma RefinementRule(form: SignupForm, isEmail: string -> bool)
    requires |form.fullName| >= 2 && LettersAndSpaces(form.fullName)
    requires form.email != [] && isEmail(form.email)
    requires |form.password| >= 8 && form.terms
    ensures Validate(form, isEmail)
         == if form.password == form.confirmPassword then NoErrors else NoErrors.(confirmPassword := Some(MismatchText))
  {
    FieldRules(form, isEmail);
  }

  const Defaults: SignupForm := SignupForm("", "", "", "", false)

  /** The default values fail on every field with a check; the empty
      passwords match. */
  lemma DefaultsFail(isEmail: string -> bool)
    ensures Validate(Defaults, isEmail)
         == SignupErrors(Some("Full name must be at least 2 characters"), Some("Email is required"),
                         Some("Password must be at least 8 characters"), None,
                         Some("You must accept the terms and conditions"))
  {
    FieldRules(Defaults, isEmail);
  }

  /** A parsed JSON value of the server's error body. */
  datatype Json =
    | JNull
    | JBool(b: bool)
    | JNumber(n: int)
    | JString(s: string)
    | JArray(items: seq<Json>)
    | JObject(entries: seq<(string, Json)>)

  /** `typeof errorData === "object"`: true of `null`, arrays and objects. */
  predicate IsObjectType(data: Json) {
    data.JNull? || data.JArray? || data.JObject?
  }

  /** The message `setError` is given for a value: the first element of an
      array (`undefined`, here `None`, for an empty one), the value itself
      otherwise. */
  function ErrorMessage(v: Json): Option<Json> {
    if v.JArray? then (if v.items == [] then None else Some(v.items[0])) else Some(v)
  }

  /** `Object.keys(errorData)` with their values: the entries of an object,
      and the indices (as decimal strings) of an array. */
  function Entries(data: Json): seq<(string, Json)>
    requires data.JArray? || data.JObject?
  {
    if data.JObject? then data.entries
    else seq(|data.items|, k requires 0 <= k < |data.items| => (NatToString(k), data.items[k]))
  }

  /** The field errors set for a list of entries, a later entry with the
      same key overriding an earlier one. */
  function FieldErrors(entries: seq<(string, Json)>): map<string, Option<Json>> {
    if entries == [] then map[]
    else FieldErrors(entries[..|entries| - 1])[entries[|entries| - 1].0 := ErrorMessage(entries[|entries| - 1].1)]
  }

  /** Every key gets an error, and the error of a key is the message of its
      last entry. */
  lemma {:induction false} FieldErrorsSpec(entries: seq<(string, Json)>)
    ensures forall key :: key in FieldErrors(entries) <==> exists k | 0 <= k < |entries| :: entries[k].0 == key
    ensures forall k | 0 <= k < |entries| && (forall j | k < j < |entries| :: entries[j].0 != entries[k].0) ::
      FieldErrors(entries)[entries[k].0] == ErrorMessage(entries[k].1)
    decreases |entries|
  {
    if entries != [] {
      var init := entries[..|entries| - 1];
      FieldErrorsSpec(init);
      forall key ensures key in FieldErrors(entries) <==> exists k | 0 <= k < |entries| :: entries[k].0 == key {
        if key in FieldErrors(init) {
          var k :| 0 <= k < |init| && init[k].0 == key;
          assert entries[k].0 == key;
        }
        if exists k | 0 <= k < |entries| :: entries[k].0 == key {
          var k :| 0 <= k < |entries| && entries[k].0 == key;
          if k < |init| {
            assert init[k].0 == key;
          }
        }
      }
      forall k | 0 <= k < |entries| && (forall j | k < j < |entries| :: entries[j].0 != entries[k].0)
        ensures FieldErrors(entries)[entries[k].0] == ErrorMessage(entries[k].1)
      {
        if k < |init| {
          assert init[k] == entries[k];
          assert forall j | k < j < |init| :: init[j] == entries[j];
        }
      }
    }
  }

  /** What the mapping does with a body: `None` when `Object.keys(null)`
      throws, otherwise the field errors it sets (none for a string, number
      or boolean). */
  function ServerErrors(data: Json): Option<map<string, Option<Json>>> {
    if data.JNull? then None
    else if data.JArray? || data.JObject? then Some(FieldErrors(Entries(data)))
    else Some(map[])
  }

  /** An object body sets one error per key: the first element of an array
      value, the value itself otherwise. */
  lemma ObjectBodyErrors(entries: seq<(string, Json)>, key: string, messages: seq<Json>, text: string)
    requires forall j, k | 0 <= j < k < |entries| :: entries[j].0 != entries[k].0
    ensures ServerErrors(JObject(entries)).Some?
    ensures forall k | 0 <= k < |entries| :: entries[k].0 in ServerErrors(JObject(entries)).value
    ensures (key, JArray(messages)) in entries && messages != [] ==>
      ServerErrors(JObject(entries)).value[key] == Some(messages[0])
    ensures (key, JString(text)) in entries ==> ServerErrors(JObject(entries)).value[key] == Some(JString(text))
  {
    FieldErrorsSpec(entries);
  }

  /** A body that is not of object type sets nothing. */
  lemma ScalarBodyErrors(data: Json)
    requires !IsObjectType(data)
    ensures ServerErrors(data) == Some(map[])
  {
  }

  /** The form's error state. */
  class SignupPage {
    var errors: map<string, Option<Json>>

    constructor()
      ensures errors == map[]
    {
      errors := map[];
    }

    /** The `if (typeof errorData === "object")` block of the `catch`: one
        `setError` per key, in order. `thrown` is true when
        `Object.keys(null)` throws. */
    method MapServerErrors(data: Json) returns (thrown: bool)
      modifies this
      ensures thrown <==> ServerErrors(data).None?
      ensures !thrown ==> errors == old(errors) + ServerErrors(data).value
      ensures thrown ==> errors == old(errors)
    {
      if !IsObjectType(data) {
        return false;
      }
      if data.JNull? {
        return true;
      }
      var entries := Entries(data);
      for i := 0 to |entries|
        invariant errors == old(errors) + FieldErrors(entries[..i])
      {
        assert entries[..i + 1][..i] == entries[..i];
        errors := errors[entries[i].0 := ErrorMessage(entries[i].1)];
      }
      assert entries[..|entries|] == entries;
      thrown := false;
    }
  }
}
