/** The new-password form: a local equality check between the two inputs,
    then the hook's reset; its banner prefers the local complaint. */
module ResetPasswordForm {
  import opened Wrappers
  import opened Validator
  import opened AuthTypes
  import opened UseResetPassword

  const Mismatch: string := "Les mots de passe ne correspondent pas"

  /** The red banner: shown when either error is set, with the local one
      taking precedence. */
  function ErrorBanner(localError: string, error: string): (r: Option<string>)
    ensures r.Some? <==> localError != "" || error != ""
    ensures r.Some? ==> r.value != ""
    ensures localError != "" ==> r == Some(localError)
    ensures localError == "" && error != "" ==> r == Some(error)
  {
    if localError != "" || error != "" then Some(OrElse(localError, error)) else None
  }

  /** The green banner. */
  function SuccessBanner(successMessage: string): (r: Option<string>)
    ensures r.Some? <==> successMessage != ""
    ensures r.Some? ==> r.value == successMessage
  {
    if successMessage != "" then Some(successMessage) else None
  }

  class Form {
    var password: string
    var confirmPassword: string
    var localError: string
    const oobCode: string
    const hook: ResetPasswordHook

    constructor (oobCode: string, hook: ResetPasswordHook)
      ensures this.oobCode == oobCode && this.hook == hook
      ensures password == "" && confirmPassword == "" && localError == ""
    {
      this.oobCode := oobCode;
      this.hook := hook;
      password := "";
      confirmPassword := "";
      localError := "";
    }

    method SetPassword(v: string)
      modifies this
      ensures password == v && confirmPassword == old(confirmPassword) && localError == old(localError)
    {
      password := v;
    }

    method SetConfirmPassword(v: string)
      modifies this
      ensures confirmPassword == v && password == old(password) && localError == old(localError)
    {
      confirmPassword := v;
    }

    /** `onSubmit`: two different entries stop at the local banner; equal
        ones go to the hook, whose own strength check is the only one. */
    method OnSubmit(response: AuthResponse)
      modifies this, hook
      ensures password == old(password) && confirmPassword == old(confirmPassword)
      ensures hook.emailForReset == old(hook.emailForReset)
      ensures hook.isLoading == if password != confirmPassword then old(hook.isLoading) else false
      ensures password != confirmPassword ==>
        localError == Mismatch && hook.calls == old(hook.calls)
        && hook.error == old(hook.error) && hook.successMessage == old(hook.successMessage)
        && ErrorBanner(localError, hook.error) == Some(Mismatch)
      ensures password == confirmPassword ==> localError == ""
      ensures password == confirmPassword && !StrongPassword(password) ==>
        ErrorBanner(localError, hook.error) == Some(ValidatePassword(password))
        && SuccessBanner(hook.successMessage) == None && hook.calls == old(hook.calls)
      ensures password == confirmPassword && StrongPassword(password) ==>
        hook.calls == old(hook.calls) + [ConfirmResetPassword(oobCode, password)]
      ensures password == confirmPassword && StrongPassword(password) && response.success ==>
        ErrorBanner(localError, hook.error) == None
        && SuccessBanner(hook.successMessage) == Some(OrElse(response.message, PasswordReset))
      ensures password == confirmPassword && StrongPassword(password) && !response.success ==>
        ErrorBanner(localError, hook.error) == Some(OrElse(response.error, ResetFailed))
        && SuccessBanner(hook.successMessage) == None
    {
      localError := "";
      if password != confirmPassword {
        localError := Mismatch;
        return;
      }
      hook.ResetPassword(oobCode, password, response);
    }
  }
}
