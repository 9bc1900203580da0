/** The signup form component: the four inputs, the full local check before
    the provider is called, the success panel that replaces the form once
    the verification email is out, and the resend button on that panel. */
module SignupForm {
  import opened Wrappers
  import opened Ascii
  import opened Api
  import opened AuthTypes
  import opened Validator
  import opened UseResetPassword

  const SignupSucceeded: string := "Signup successful!"
  const SignupRefused: string := "Échec de l'inscription. Veuillez réessayer."
  const SignupException: string := "Une erreur inattendue s'est produite"
  const ResendOk: string := "Email de vérification renvoyé avec succès."
  /** Written in pieces so that its letters can be checked piece by piece. */
  const ResendFailed: string := "Échec de renvoi " + "de l'email. " + "Assurez-vous d'être " + "connecté, puis réessayez."
  /** The word the panel looks for to style the resend message as a success. */
  const SuccessWord: string := "succès"

  /** The resend message for the provider's answer. */
  function ResendMessage(ok: bool): string {
    if ok then ResendOk else ResendFailed
  }

  /** A string without the letter 'è' cannot include "succès". */
  lemma NoGraveNoSuccess(s: string)
    requires 'è' !in s
    ensures !Contains(s, SuccessWord)
  {
    forall i | 0 <= i <= |s| - |SuccessWord| ensures !OccursAt(s, SuccessWord, i) {
      assert s[i + 4] in s;
      assert s[i..i + |SuccessWord|][4] == s[i + 4];
    }
  }

  /** The panel's styling test `includes('succès')` tells the two resend
      messages apart exactly: it holds iff the provider answered true. */
  lemma ResendStylingAgrees(ok: bool)
    ensures Contains(ResendMessage(ok), SuccessWord) <==> ok
  {
    if ok {
      assert OccursAt(ResendOk, SuccessWord, 35);
    } else {
      NoGraveNoSuccess(ResendFailed);
    }
  }

  /** The errors after typing in field `f`: a truthy message of that field
      becomes "", the key stays, and every other field is left alone. */
  function ClearOnInput(errors: FormErrors, f: SignupField): (r: FormErrors)
    ensures !Filled(ErrorOf(r, f))
    ensures Filled(ErrorOf(errors, f)) ==> ErrorOf(r, f) == Some("")
    ensures !Filled(ErrorOf(errors, f)) ==> r == errors
    ensures forall g :: g != f ==> ErrorOf(r, g) == ErrorOf(errors, g)
  {
    if Filled(ErrorOf(errors, f)) then SetError(errors, f, Some("")) else errors
  }

  class Form {
    var formData: SignupFormData
    var errors: FormErrors
    var isLoading: bool
    var apiError: string
    var verificationSent: bool
    var resendLoading: bool
    var resendMessage: string
    var signedUpEmail: string
    /** The records handed to `signupUser`. */
    var submissions: seq<SignupFormData>
    /** The messages passed to `onSignupSuccess` and `onSignupError`. */
    var successNotices: seq<string>
    var errorNotices: seq<string>

    constructor ()
      ensures formData == EmptySignup && errors == NoErrors && !isLoading && apiError == ""
      ensures !verificationSent && !resendLoading && resendMessage == "" && signedUpEmail == ""
      ensures submissions == [] && successNotices == [] && errorNotices == []
    {
      formData := EmptySignup;
      errors := NoErrors;
      isLoading := false;
      apiError := "";
      verificationSent := false;
      resendLoading := false;
      resendMessage := "";
      signedUpEmail := "";
      submissions := [];
      successNotices := [];
      errorNotices := [];
    }

    /** The success panel replaces the form exactly when the email is out. */
    predicate ShowsPanel()
      reads this
    {
      verificationSent
    }

    /** `handleInputChange`: the named field takes the value, its error is
        blanked when set, and the provider's banner goes away. */
    method HandleInputChange(f: SignupField, v: string)
      modifies this
      ensures formData == SetSignupField(old(formData), f, v)
      ensures errors == ClearOnInput(old(errors), f)
      ensures apiError == ""
      ensures isLoading == old(isLoading) && verificationSent == old(verificationSent)
      ensures submissions == old(submissions) && signedUpEmail == old(signedUpEmail)
      ensures resendLoading == old(resendLoading) && resendMessage == old(resendMessage)
      ensures successNotices == old(successNotices) && errorNotices == old(errorNotices)
    {
      formData := SetSignupField(formData, f, v);
      if Filled(ErrorOf(errors, f)) {
        errors := SetError(errors, f, Some(""));
      }
      if apiError != "" {
        apiError := "";
      }
    }

    /** The `try` block of `handleSubmit`, once the form has passed. */
    method Settle(call: CallOutcome)
      modifies this
      ensures submissions == old(submissions) + [old(formData)] && isLoading == old(isLoading)
      ensures resendLoading == old(resendLoading) && resendMessage == old(resendMessage)
      ensures call.Responded? && call.response.success ==>
        verificationSent && signedUpEmail == old(formData).email
        && formData == EmptySignup && errors == NoErrors && apiError == old(apiError)
        && successNotices == old(successNotices) + [OrElse(call.response.message, SignupSucceeded)]
        && errorNotices == old(errorNotices)
      ensures call.Responded? && !call.response.success ==>
        !verificationSent && apiError == OrElse(call.response.error, SignupRefused) && apiError != ""
        && formData == old(formData) && errors == old(errors) && signedUpEmail == old(signedUpEmail)
        && errorNotices == old(errorNotices) + [apiError] && successNotices == old(successNotices)
      ensures call.Threw? ==>
        !verificationSent && apiError == MessageOr(call.thrown, SignupException)
        && formData == old(formData) && errors == old(errors) && signedUpEmail == old(signedUpEmail)
        && errorNotices == old(errorNotices) + [apiError] && successNotices == old(successNotices)
    {
      submissions := submissions + [formData];
      match call {
        case Responded(response) =>
          if response.success {
            var message := if response.message != "" then response.message else SignupSucceeded;
            successNotices := successNotices + [message];
            signedUpEmail := formData.email;
            formData := EmptySignup;
            errors := NoErrors;
            verificationSent := true;
          } else {
            var errorMessage := if response.error != "" then response.error else SignupRefused;
            apiError := errorMessage;
            errorNotices := errorNotices + [errorMessage];
            verificationSent := false;
          }
        case Threw(e) =>
          var errorMessage := MessageOr(e, SignupException);
          apiError := errorMessage;
          errorNotices := errorNotices + [errorMessage];
          verificationSent := false;
      }
    }

    /** `handleSubmit`: a form the validators refuse shows their messages
        and never reaches the provider; one they accept is settled by the
        provider's answer (see `Settle`), with the banner cleared first. */
    method HandleSubmit(call: CallOutcome)
      modifies this
      ensures !isLoading
      ensures resendLoading == old(resendLoading) && resendMessage == old(resendMessage)
      ensures HasFormErrors(ValidateSignupForm(old(formData))) ==>
        errors == ValidateSignupForm(old(formData)) && apiError == "" && submissions == old(submissions)
        && formData == old(formData) && verificationSent == old(verificationSent) && signedUpEmail == old(signedUpEmail)
        && successNotices == old(successNotices) && errorNotices == old(errorNotices)
      ensures !HasFormErrors(ValidateSignupForm(old(formData))) ==>
        submissions == old(submissions) + [old(formData)]
        && (call.Responded? && call.response.success ==>
              verificationSent && signedUpEmail == old(formData).email
              && formData == EmptySignup && errors == NoErrors && apiError == ""
              && successNotices == old(successNotices) + [OrElse(call.response.message, SignupSucceeded)]
              && errorNotices == old(errorNotices))
        && (call.Responded? && !call.response.success ==>
              !verificationSent && apiError == OrElse(call.response.error, SignupRefused)
              && formData == old(formData) && errors == old(errors) && signedUpEmail == old(signedUpEmail)
              && errorNotices == old(errorNotices) + [apiError] && successNotices == old(successNotices))
        && (call.Threw? ==>
              !verificationSent && apiError == MessageOr(call.thrown, SignupException)
              && formData == old(formData) && errors == old(errors) && signedUpEmail == old(signedUpEmail)
              && errorNotices == old(errorNotices) + [apiError] && successNotices == old(successNotices))
    {
      apiError := "";
      isLoading := true;

      var validationErrors := ValidateSignupForm(formData);
      if HasFormErrors(validationErrors) {
        errors := validationErrors;
        isLoading := false;
        return;
      }

      Settle(call);
      isLoading := false;
    }

    /** The resend button on the success panel. */
    method Resend(ok: bool)
      modifies this
      ensures resendMessage == ResendMessage(ok) && !resendLoading
      ensures verificationSent == old(verificationSent) && formData == old(formData) && signedUpEmail == old(signedUpEmail)
      ensures errors == old(errors) && apiError == old(apiError) && isLoading == old(isLoading)
      ensures submissions == old(submissions) && successNotices == old(successNotices) && errorNotices == old(errorNotices)
    {
      resendLoading := true;
      resendMessage := "";
      resendLoading := false;
      resendMessage := if ok then ResendOk else ResendFailed;
    }
  }

  /** Only a form every validator accepts is sent, and such a form has a
      name of 2 to 100 UTF-16 code units, a well-formed email, a strong password
      and a matching confirmation. */
  lemma SentFormsAreValid(d: SignupFormData)
    requires !HasFormErrors(ValidateSignupForm(d))
    ensures MinNomLength <= JsLength(Trim(d.nom)) && JsLength(d.nom) <= MaxNomLength
    ensures MatchesEmailPattern(d.email) && StrongPassword(d.motDePasse)
    ensures d.confirmationMotDePasse == d.motDePasse
  {
    SignupFormPasses(d);
  }
}
