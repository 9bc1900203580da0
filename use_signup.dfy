/** The signup hook: it hands the form as it is to the identity provider
    (no local check) and records whether a verification email went out. */
module UseSignup {
  import opened Wrappers
  import opened Api
  import opened AuthTypes

  const SignupFailed: string := "Signup failed"
  const SignupException: string := "An error occurred"

  /** A partial record given to `updateFormData`. */
  datatype SignupPatch = SignupPatch(
    nom: Option<string>,
    email: Option<string>,
    motDePasse: Option<string>,
    confirmationMotDePasse: Option<string>)

  function Merge(d: SignupFormData, p: SignupPatch): SignupFormData {
    SignupFormData(
      p.nom.GetOr(d.nom),
      p.email.GetOr(d.email),
      p.motDePasse.GetOr(d.motDePasse),
      p.confirmationMotDePasse.GetOr(d.confirmationMotDePasse))
  }

  /** A patch that names one field is the same edit as setting that field. */
  function Only(f: SignupField, v: string): SignupPatch {
    match f
    case NomField => SignupPatch(Some(v), None, None, None)
    case EmailField => SignupPatch(None, Some(v), None, None)
    case MotDePasseField => SignupPatch(None, None, Some(v), None)
    case ConfirmationField => SignupPatch(None, None, None, Some(v))
  }

  /** Merging is the object spread: an empty patch changes nothing, a patch
      applied twice is applied once, and a one-field patch sets that field
      and nothing else. */
  lemma MergeLaws(d: SignupFormData, p: SignupPatch, f: SignupField, v: string)
    ensures Merge(d, SignupPatch(None, None, None, None)) == d
    ensures Merge(Merge(d, p), p) == Merge(d, p)
    ensures Merge(d, Only(f, v)) == SetSignupField(d, f, v)
  {
  }

  /** The banner after a refused signup. */
  function SignupFailure(response: AuthResponse): (m: string)
    ensures m != ""
    ensures response.error != "" ==> m == response.error
    ensures response.error == "" ==> m == SignupFailed
  {
    if response.error != "" then response.error else SignupFailed
  }

  class SignupHook {
    var formData: SignupFormData
    var errors: FormErrors
    var isLoading: bool
    var error: string
    var user: Option<User>
    var isVerificationSent: bool
    /** The records handed to `signupUser`, in order. */
    var submissions: seq<SignupFormData>

    constructor ()
      ensures formData == EmptySignup && errors == NoErrors && !isLoading && error == ""
      ensures user == None && !isVerificationSent && submissions == []
    {
      formData := EmptySignup;
      errors := NoErrors;
      isLoading := false;
      error := "";
      user := None;
      isVerificationSent := false;
      submissions := [];
    }

    /** `updateFormData`. */
    method UpdateFormData(p: SignupPatch)
      modifies this
      ensures formData == Merge(old(formData), p)
      ensures errors == old(errors) && error == old(error) && user == old(user)
      ensures isLoading == old(isLoading) && isVerificationSent == old(isVerificationSent) && submissions == old(submissions)
    {
      formData := Merge(formData, p);
    }

    /** `resetForm`. */
    method ResetForm()
      modifies this
      ensures formData == EmptySignup && errors == NoErrors && error == ""
      ensures user == old(user) && isLoading == old(isLoading) && isVerificationSent == old(isVerificationSent)
      ensures submissions == old(submissions)
    {
      formData := EmptySignup;
      errors := NoErrors;
      error := "";
    }

    /** `handleSignup`: the form goes to the provider whatever it holds. */
    method HandleSignup(call: CallOutcome)
      modifies this
      ensures submissions == old(submissions) + [old(formData)]
      ensures !isLoading
      ensures call.Responded? && call.response.success && call.response.user.Some? ==>
        user == call.response.user && isVerificationSent
        && formData == EmptySignup && errors == NoErrors && error == ""
      ensures call.Responded? && !(call.response.success && call.response.user.Some?) ==>
        error == SignupFailure(call.response) && !isVerificationSent
        && formData == old(formData) && errors == old(errors) && user == old(user)
      ensures call.Threw? ==>
        error == MessageOr(call.thrown, SignupException) && !isVerificationSent
        && formData == old(formData) && errors == old(errors) && user == old(user)
    {
      isLoading := true;
      error := "";
      submissions := submissions + [formData];
      match call {
        case Responded(response) =>
          if response.success && response.user.Some? {
            user := response.user;
            isVerificationSent := true;
            ResetForm();
          } else {
            error := if response.error != "" then response.error else SignupFailed;
            isVerificationSent := false;
          }
        case Threw(e) =>
          error := MessageOr(e, SignupException);
          isVerificationSent := false;
      }
      isLoading := false;
    }
  }
}
