/** The records the authentication screens exchange with the identity
    provider. An optional string field that is absent is represented by "",
    which every consumer treats the same way (as falsy). */
module AuthTypes {
  import opened Wrappers
  import opened Api

  datatype User = User(uid: string, nom: string, email: string, roleId: Option<string>, isVerified: bool, isActive: bool)

  datatype AuthResponse = AuthResponse(success: bool, user: Option<User>, error: string, message: string)

  /** How an awaited provider call ends: with a response, or by throwing. */
  datatype CallOutcome = Responded(response: AuthResponse) | Threw(thrown: Thrown)

  datatype SignupFormData = SignupFormData(nom: string, email: string, motDePasse: string, confirmationMotDePasse: string)

  datatype LoginFormData = LoginFormData(email: string, motDePasse: string)

  /** Per-field messages; `None` is a key that was never set. */
  datatype FormErrors = FormErrors(
    nom: Option<string>,
    email: Option<string>,
    motDePasse: Option<string>,
    confirmationMotDePasse: Option<string>)

  const NoErrors: FormErrors := FormErrors(None, None, None, None)

  const EmptySignup: SignupFormData := SignupFormData("", "", "", "")
  const EmptyLogin: LoginFormData := LoginFormData("", "")

  /** The four signup fields, as the `name` of an input. */
  datatype SignupField = NomField | EmailField | MotDePasseField | ConfirmationField

  function SetSignupField(d: SignupFormData, f: SignupField, v: string): SignupFormData {
    match f
    case NomField => d.(nom := v)
    case EmailField => d.(email := v)
    case MotDePasseField => d.(motDePasse := v)
    case ConfirmationField => d.(confirmationMotDePasse := v)
  }

  function ErrorOf(e: FormErrors, f: SignupField): Option<string> {
    match f
    case NomField => e.nom
    case EmailField => e.email
    case MotDePasseField => e.motDePasse
    case ConfirmationField => e.confirmationMotDePasse
  }

  function SetError(e: FormErrors, f: SignupField, m: Option<string>): FormErrors {
    match f
    case NomField => e.(nom := m)
    case EmailField => e.(email := m)
    case MotDePasseField => e.(motDePasse := m)
    case ConfirmationField => e.(confirmationMotDePasse := m)
  }
}
