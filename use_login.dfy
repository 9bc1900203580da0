/** The login hook: a two-field form, a local check of the email and the
    password's presence, then one call to the identity provider whose
    response decides the error banner, the verified flag, the stored user,
    a reset of the form and the navigation to the dashboard. */
module UseLogin {
  import opened Wrappers
  import opened Ascii
  import opened Api
  import opened AuthTypes
  import opened Validator

  const PasswordMissing: string := "Le mot de passe est requis"
  const NotVerified: string := "Votre email n'est pas vérifié. Vérifiez votre boîte mail ou renvoyez le lien."
  const LoginFailed: string := "Connexion impossible"
  const LoginException: string := "Une erreur est survenue"
  const Dashboard: string := "/dashboard"

  /** `nextErrors`: the email key holds the email validator's complaint,
      the password key the missing-password message, and no other key is
      set. */
  function LoginErrors(d: LoginFormData): (e: FormErrors)
    ensures e.nom == None && e.confirmationMotDePasse == None
    ensures e.email.Some? <==> !MatchesEmailPattern(d.email)
    ensures e.email.Some? ==> e.email.value == ValidateEmail(d.email)
    ensures e.motDePasse.Some? <==> d.motDePasse == ""
    ensures e.motDePasse.Some? ==> e.motDePasse.value == PasswordMissing
  {
    FormErrors(None, Report(ValidateEmail(d.email)), if d.motDePasse == "" then Some(PasswordMissing) else None, None)
  }

  /** The local check passes exactly for a well-formed email and a
      non-empty password; no strength rule applies at login. */
  lemma LoginCheckPasses(d: LoginFormData)
    ensures LoginErrors(d) == NoErrors <==> MatchesEmailPattern(d.email) && d.motDePasse != ""
    ensures LoginErrors(d) == NoErrors <==> !HasFormErrors(LoginErrors(d))
    ensures LoginErrors(LoginFormData("a@b.c", "x")) == NoErrors
  {
    var e := LoginErrors(d);
    assert e == NoErrors <==> e.email.None? && e.motDePasse.None?;
    assert Filled(e.email) <==> e.email.Some?;
    assert Filled(e.motDePasse) <==> e.motDePasse.Some?;
    assert !HasFormErrors(e) <==> !Filled(e.email) && !Filled(e.motDePasse) by {
      assert ErrorOf(e, NomField) == None && ErrorOf(e, ConfirmationField) == None;
      assert ErrorOf(e, EmailField) == e.email && ErrorOf(e, MotDePasseField) == e.motDePasse;
    }
    PatternAccepts("a", "b", "c");
    assert "a" + "@" + "b" + "." + "c" == "a@b.c";
  }

  /** A partial record given to `updateFormData`: the present fields
      overwrite, the absent ones are kept. */
  datatype LoginPatch = LoginPatch(email: Option<string>, motDePasse: Option<string>)

  function Merge(d: LoginFormData, p: LoginPatch): LoginFormData {
    LoginFormData(p.email.GetOr(d.email), p.motDePasse.GetOr(d.motDePasse))
  }

  /** Merging is the object spread: an empty patch changes nothing, a
      patch applied twice is applied once, and a later patch wins over an
      earlier one field by field. */
  lemma MergeLaws(d: LoginFormData, p: LoginPatch, q: LoginPatch)
    ensures Merge(d, LoginPatch(None, None)) == d
    ensures Merge(Merge(d, p), p) == Merge(d, p)
    ensures Merge(Merge(d, p), q) ==
      Merge(d, LoginPatch(if q.email.Some? then q.email else p.email, if q.motDePasse.Some? then q.motDePasse else p.motDePasse))
    ensures p.email.Some? ==> Merge(d, p).email == p.email.value
    ensures p.email.None? ==> Merge(d, p).email == d.email
  {
  }

  /** The banner after a failed (non-throwing) login. */
  function FailureMessage(response: AuthResponse): (m: string)
    ensures m != ""
    ensures response.error != "" ==> m == response.error
  {
    if response.error != "" then response.error else LoginFailed
  }

  /** The hook's state; `navigations` records the paths passed to the
      navigator, which exists only when `canNavigate`. */
  class LoginHook {
    var formData: LoginFormData
    var errors: FormErrors
    var isLoading: bool
    var error: string
    var user: Option<User>
    var isEmailVerified: bool
    var navigations: seq<string>
    const canNavigate: bool

    constructor (canNavigate: bool)
      ensures this.canNavigate == canNavigate
      ensures formData == EmptyLogin && errors == NoErrors && !isLoading && error == ""
      ensures user == None && isEmailVerified && navigations == []
    {
      this.canNavigate := canNavigate;
      formData := EmptyLogin;
      errors := NoErrors;
      isLoading := false;
      error := "";
      user := None;
      isEmailVerified := true;
      navigations := [];
    }

    /** `updateFormData`. */
    method UpdateFormData(p: LoginPatch)
      modifies this
      ensures formData == Merge(old(formData), p)
      ensures errors == old(errors) && error == old(error) && user == old(user)
      ensures isLoading == old(isLoading) && isEmailVerified == old(isEmailVerified) && navigations == old(navigations)
    {
      formData := Merge(formData, p);
    }

    /** `resetForm`: the form, its errors and the banner are cleared. */
    method ResetForm()
      modifies this
      ensures formData == EmptyLogin && errors == NoErrors && error == ""
      ensures user == old(user) && isLoading == old(isLoading) && isEmailVerified == old(isEmailVerified)
      ensures navigations == old(navigations)
    {
      formData := EmptyLogin;
      errors := NoErrors;
      error := "";
    }

    /** The `try` block of `handleLogin`: how the provider's answer
        settles the state. */
    method Settle(call: CallOutcome)
      modifies this
      // The provider accepts an unverified user: nothing is reset and no navigation happens.
      ensures call.Responded? && call.response.success && call.response.user.Some? && !call.response.user.value.isVerified ==>
        user == call.response.user && !isEmailVerified && error == NotVerified
        && formData == old(formData) && errors == old(errors) && navigations == old(navigations)
      // The provider accepts a verified user: the form is reset and the dashboard opened.
      ensures call.Responded? && call.response.success && call.response.user.Some? && call.response.user.value.isVerified ==>
        user == call.response.user && isEmailVerified == old(isEmailVerified) && error == ""
        && formData == EmptyLogin && errors == NoErrors
        && navigations == old(navigations) + (if canNavigate then [Dashboard] else [])
      // The provider refuses.
      ensures call.Responded? && !(call.response.success && call.response.user.Some?) ==>
        error == FailureMessage(call.response) && formData == old(formData) && errors == old(errors)
        && navigations == old(navigations)
        && (if call.response.user.Some? && !call.response.user.value.isVerified
            then !isEmailVerified && user == call.response.user
            else isEmailVerified == old(isEmailVerified) && user == old(user))
      // The provider throws.
      ensures call.Threw? ==>
        error == MessageOr(call.thrown, LoginException) && isEmailVerified == old(isEmailVerified)
        && formData == old(formData) && errors == old(errors) && user == old(user) && navigations == old(navigations)
      ensures isLoading == old(isLoading)
    {
      match call {
        case Responded(response) =>
          if response.success && response.user.Some? {
            if !response.user.value.isVerified {
              user := response.user;
              isEmailVerified := false;
              error := NotVerified;
              return;
            }
            user := response.user;
            ResetForm();
            if canNavigate {
              navigations := navigations + [Dashboard];
            }
          } else {
            error := if response.error != "" then response.error else LoginFailed;
            if response.user.Some? && !response.user.value.isVerified {
              isEmailVerified := false;
              user := response.user;
            }
          }
        case Threw(e) =>
          error := MessageOr(e, LoginException);
      }
    }

    /** `handleLogin`. `call` is how `loginUser` ends when it is reached;
        `called` tells whether it was. */
    method HandleLogin(call: CallOutcome) returns (called: bool)
      modifies this
      ensures !isLoading
      ensures called <==> LoginErrors(old(formData)) == NoErrors
      // The local check fails: only the errors change.
      ensures !called ==> errors == LoginErrors(old(formData)) && error == "" && isEmailVerified
      ensures !called ==> formData == old(formData) && user == old(user) && navigations == old(navigations)
      // The provider answers: see `Settle`, entered with the banner cleared and the flag set.
      ensures called && call.Responded? && call.response.success && call.response.user.Some? && !call.response.user.value.isVerified ==>
        user == call.response.user && !isEmailVerified && error == NotVerified
        && formData == old(formData) && errors == old(errors) && navigations == old(navigations)
      ensures called && call.Responded? && call.response.success && call.response.user.Some? && call.response.user.value.isVerified ==>
        user == call.response.user && isEmailVerified && error == ""
        && formData == EmptyLogin && errors == NoErrors
        && navigations == old(navigations) + (if canNavigate then [Dashboard] else [])
      ensures called && call.Responded? && !(call.response.success && call.response.user.Some?) ==>
        error == FailureMessage(call.response) && formData == old(formData) && errors == old(errors)
        && navigations == old(navigations)
        && (if call.response.user.Some? && !call.response.user.value.isVerified
            then !isEmailVerified && user == call.response.user
            else isEmailVerified && user == old(user))
      ensures called && call.Threw? ==>
        error == MessageOr(call.thrown, LoginException) && isEmailVerified
        && formData == old(formData) && errors == old(errors) && user == old(user) && navigations == old(navigations)
    {
      isLoading := true;
      error := "";
      isEmailVerified := true;

      var nextErrors := LoginErrors(formData);
      if nextErrors != NoErrors {
        errors := nextErrors;
        isLoading := false;
        return false;
      }
      called := true;
      Settle(call);
      isLoading := false;
    }

    /** `resendVerification`: the provider's answer, or false when it
        throws. */
    method ResendVerification(outcome: Result<bool, Thrown>) returns (sent: bool)
      ensures sent <==> outcome.Ok? && outcome.value
    {
      match outcome
      case Ok(b) => sent := b;
      case Err(_) => sent := false;
    }
  }
}
