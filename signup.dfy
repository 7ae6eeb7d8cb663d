/**
 * The sign-up form: its schema (an email, a password of at least six
 * characters, a matching confirmation) and the loading/error/success state
 * around the call to the authentication service.
 */
module Signup {
  import opened Js
  import opened Validation

  datatype SignupForm = SignupForm(email: string, password: string, confirmPassword: string)

  const InvalidEmail := "Invalid email address"
  const PasswordTooShort := "Password must be at least 6 characters"
  const PasswordsDiffer := "Passwords don't match"

  /** `.min(6)` counts UTF-16 code units, as `String.length` does. */
  predicate LongEnough(password: string)
  {
    Utf16Length(password) >= 6
  }

  /**
   * The issues `signupSchema` reports, email then password, then the
   * refinement, which runs after either of them (neither stops the object).
   * `isEmail` stands for the library's `.email()` check.
   */
  function SignupIssues(f: SignupForm, isEmail: string -> bool): seq<Issue>
  {
    Check(isEmail(f.email), Issue("email", Custom(InvalidEmail)))
    + Check(LongEnough(f.password), Issue("password", Custom(PasswordTooShort)))
    + Check(f.password == f.confirmPassword, Issue("confirmPassword", Custom(PasswordsDiffer)))
  }

  /** `signupSchema.safeParse`. */
  function ParseSignup(f: SignupForm, isEmail: string -> bool): (r: Parsed<SignupForm>)
    ensures r.Valid? <==> isEmail(f.email) && LongEnough(f.password) && f.password == f.confirmPassword
    ensures r.Valid? ==> r.data == f
    ensures r.Invalid? ==> r.issues != []
  {
    var issues := SignupIssues(f, isEmail);
    if issues == [] then Valid(f) else Invalid(issues)
  }

  /** A mismatched confirmation is reported on `confirmPassword`, whatever else is wrong. */
  lemma MismatchAlwaysReported(f: SignupForm, isEmail: string -> bool)
    requires f.password != f.confirmPassword
    ensures |SignupIssues(f, isEmail)| > 0
    ensures SignupIssues(f, isEmail)[|SignupIssues(f, isEmail)| - 1] == Issue("confirmPassword", Custom(PasswordsDiffer))
  {
  }

  /** Every issue at once: a bad email, a short password and a mismatch are all listed, in that order. */
  lemma AllIssuesListed(f: SignupForm, isEmail: string -> bool)
    requires !isEmail(f.email) && !LongEnough(f.password) && f.password != f.confirmPassword
    ensures SignupIssues(f, isEmail) == [Issue("email", Custom(InvalidEmail)),
                                         Issue("password", Custom(PasswordTooShort)),
                                         Issue("confirmPassword", Custom(PasswordsDiffer))]
  {
  }

  /** Six characters are enough, five are not, when none lies outside the Basic Multilingual Plane. */
  lemma PasswordLengthBoundary()
    ensures LongEnough("secret") && !LongEnough("short")
  {
    Utf16LengthBmp("secret");
    Utf16LengthBmp("short");
  }

  /** Three characters outside the Basic Multilingual Plane already count as six. */
  lemma AstralPasswordCountsDouble()
    ensures LongEnough("\U{1F600}\U{1F601}\U{1F602}")
  {
    var p := "\U{1F600}\U{1F601}\U{1F602}";
    assert p[1..] == "\U{1F601}\U{1F602}";
    assert p[1..][1..] == "\U{1F602}";
    assert Utf16Length("\U{1F602}") == 2;
  }

  /** The form's `isLoading`, `error` and `success` state. */
  class SignupState {
    var isLoading: bool
    var error: Option<string>
    var success: bool

    constructor ()
      ensures !isLoading && error == None && !success
    {
      isLoading := false;
      error := None;
      success := false;
    }

    /** The confirmation screen replaces the form once sign-up succeeded. */
    predicate ShowsConfirmation()
      reads this
    {
      success
    }

    /**
     * `handleSubmit(onSubmit)` up to the call: a refused form changes nothing;
     * an accepted one starts loading and clears the error. Returns the
     * credentials handed to `signUp`, if any.
     */
    method Submit(f: SignupForm, isEmail: string -> bool) returns (credentials: Option<(string, string)>)
      modifies this
      ensures ParseSignup(f, isEmail).Invalid? ==>
                credentials.None? && isLoading == old(isLoading) && error == old(error)
      ensures ParseSignup(f, isEmail).Valid? ==>
                credentials == Some((f.email, f.password)) && isLoading && error == None
      ensures success == old(success)
    {
      var parsed := ParseSignup(f, isEmail);
      if parsed.Invalid? {
        return None;
      }
      isLoading := true;
      error := None;
      credentials := Some((parsed.data.email, parsed.data.password));
    }

    /**
     * `signUp` has answered with `failure` (its `error`, if any): the caught
     * message is shown, or sign-up succeeded. A failure leaves an earlier
     * success standing. Loading ends.
     */
    method Finish(failure: Option<ErrorValue>)
      modifies this
      ensures failure.Some? ==> error == Some(CaughtMessage(failure.value)) && success == old(success)
      ensures failure.None? ==> success && error == old(error)
      ensures ShowsConfirmation() <==> failure.None? || old(success)
      ensures !isLoading
    {
      if failure.Some? {
        error := Some(CaughtMessage(failure.value));
      } else {
        success := true;
      }
      isLoading := false;
    }
  }
}
