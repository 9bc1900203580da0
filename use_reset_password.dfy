/** The password reset hook: send the reset email, check the link's code,
    and set the new password. Each operation clears both messages first and
    ends with at most one of them set. */
module UseResetPassword {
  import opened Wrappers
  import opened Validator
  import opened AuthTypes

  const EmailSent: string := "Un email de réinitialisation a été envoyé."
  const EmailNotSent: string := "Impossible d'envoyer l'email."
  const LinkInvalid: string := "Lien invalide ou expiré"
  const PasswordReset: string := "Mot de passe réinitialisé avec succès."
  const ResetFailed: string := "Échec de la réinitialisation."

  /** The provider calls the hook makes, in order. */
  datatype ProviderCall =
    | SendPasswordReset(email: string)
    | VerifyResetCode(oobCode: string)
    | ConfirmResetPassword(oobCode: string, newPassword: string)

  /** `a || b` on strings. */
  function OrElse(a: string, b: string): (r: string)
    ensures a != "" ==> r == a
    ensures a == "" ==> r == b
    ensures r == "" <==> a == "" && b == ""
  {
    if a != "" then a else b
  }

  /** The email a `verifyCode` answer yields: the message of a success, and
      only when that message is non-empty. */
  function VerifiedEmail(response: AuthResponse): (r: Option<string>)
    ensures r.Some? <==> response.success && response.message != ""
    ensures r.Some? ==> r.value == response.message && r.value != ""
  {
    if response.success && response.message != "" then Some(response.message) else None
  }

  class ResetPasswordHook {
    var isLoading: bool
    var error: string
    var successMessage: string
    var emailForReset: string
    var calls: seq<ProviderCall>

    /** Never a success and an error at once. */
    predicate Exclusive()
      reads this
    {
      error == "" || successMessage == ""
    }

    constructor ()
      ensures !isLoading && error == "" && successMessage == "" && emailForReset == "" && calls == []
      ensures Exclusive()
    {
      isLoading := false;
      error := "";
      successMessage := "";
      emailForReset := "";
      calls := [];
    }

    /** `sendEmail`: an address the validator refuses never reaches the
        provider. */
    method SendEmail(email: string, response: AuthResponse)
      modifies this
      ensures Exclusive() && !isLoading
      ensures (error == "") != (successMessage == "")
      ensures !MatchesEmailPattern(email) ==>
        error == ValidateEmail(email) && error != "" && successMessage == ""
        && calls == old(calls) && emailForReset == old(emailForReset)
      ensures MatchesEmailPattern(email) ==> calls == old(calls) + [SendPasswordReset(email)]
      ensures MatchesEmailPattern(email) && response.success ==>
        successMessage == OrElse(response.message, EmailSent) && error == "" && emailForReset == email
      ensures MatchesEmailPattern(email) && !response.success ==>
        error == OrElse(response.error, EmailNotSent) && successMessage == "" && emailForReset == old(emailForReset)
    {
      isLoading := true;
      error := "";
      successMessage := "";

      var emailError := ValidateEmail(email);
      if emailError != "" {
        error := emailError;
        isLoading := false;
        return;
      }

      calls := calls + [SendPasswordReset(email)];
      if response.success {
        successMessage := if response.message != "" then response.message else EmailSent;
        emailForReset := email;
      } else {
        error := if response.error != "" then response.error else EmailNotSent;
      }
      isLoading := false;
    }

    /** `verifyCode`: the email the code was issued for, or `None` with the
        banner set. A success without a message counts as a failure. */
    method VerifyCode(oobCode: string, response: AuthResponse) returns (r: Option<string>)
      modifies this
      ensures Exclusive() && !isLoading && successMessage == ""
      ensures calls == old(calls) + [VerifyResetCode(oobCode)]
      ensures r == VerifiedEmail(response)
      ensures r.Some? ==> emailForReset == r.value && error == ""
      ensures r.None? ==> error == OrElse(response.error, LinkInvalid) && emailForReset == old(emailForReset)
    {
      isLoading := true;
      error := "";
      successMessage := "";

      calls := calls + [VerifyResetCode(oobCode)];
      isLoading := false;

      if response.success && response.message != "" {
        emailForReset := response.message;
        return Some(response.message);
      }

      error := if response.error != "" then response.error else LinkInvalid;
      return None;
    }

    /** `resetPassword`: a weak password never reaches the provider. */
    method ResetPassword(oobCode: string, newPassword: string, response: AuthResponse)
      modifies this
      ensures Exclusive() && !isLoading && emailForReset == old(emailForReset)
      ensures (error == "") != (successMessage == "")
      ensures !StrongPassword(newPassword) ==>
        error == ValidatePassword(newPassword) && error != "" && successMessage == "" && calls == old(calls)
      ensures StrongPassword(newPassword) ==> calls == old(calls) + [ConfirmResetPassword(oobCode, newPassword)]
      ensures StrongPassword(newPassword) && response.success ==>
        successMessage == OrElse(response.message, PasswordReset) && error == ""
      ensures StrongPassword(newPassword) && !response.success ==>
        error == OrElse(response.error, ResetFailed) && successMessage == ""
    {
      isLoading := true;
      error := "";
      successMessage := "";

      var passwordError := ValidatePassword(newPassword);
      if passwordError != "" {
        error := passwordError;
        isLoading := false;
        return;
      }

      calls := calls + [ConfirmResetPassword(oobCode, newPassword)];
      isLoading := false;

      if response.success {
        successMessage := if response.message != "" then response.message else PasswordReset;
      } else {
        error := if response.error != "" then response.error else ResetFailed;
      }
    }
  }
}
