/** The signup validators: each returns an error message, or "" when the
    value is acceptable, and the first failing check decides the message. */
module Validator {
  import opened Wrappers
  import opened Ascii
  import opened AuthTypes

  const EmailRequired: string := "Email is required"
  const EmailInvalid: string := "Please enter a valid email address"
  const NomRequired: string := "Full name is required"
  const NomTooShort: string := "Name must be at least 2 characters"
  const NomTooLong: string := "Name must not exceed 100 characters"
  const PasswordRequired: string := "Password is required"
  const PasswordTooShort: string := "Password must be at least 8 characters"
  const PasswordTooLong: string := "Password must not exceed 128 characters"
  const PasswordNoUpper: string := "Password must contain at least one uppercase letter"
  const PasswordNoLower: string := "Password must contain at least one lowercase letter"
  const PasswordNoDigit: string := "Password must contain at least one number"
  const ConfirmationRequired: string := "Password confirmation is required"
  const PasswordsDiffer: string := "Passwords do not match"

  const MinPasswordLength: nat := 8
  const MaxPasswordLength: nat := 128
  const MinNomLength: nat := 2
  const MaxNomLength: nat := 100

  /** The UTF-16 code units of one character: two for a character outside
      the Basic Multilingual Plane, which JavaScript stores as a surrogate
      pair. */
  function CodeUnits(c: char): nat {
    if c as int >= 0x1_0000 then 2 else 1
  }

  /** A JavaScript string's `length`: its UTF-16 code units, not its
      characters. */
  function JsLength(s: string): (n: nat)
    ensures |s| <= n <= 2 * |s|
    ensures n == 0 <==> s == []
    ensures (forall i :: 0 <= i < |s| ==> s[i] as int < 0x1_0000) ==> n == |s|
  {
    if s == [] then 0 else CodeUnits(s[0]) + JsLength(s[1..])
  }

  /** One run of `[^\s@]+`: non-empty, with no white space and no '@'. */
  predicate EmailPart(s: string) {
    s != [] && forall i :: 0 <= i < |s| ==> !IsSpace(s[i]) && s[i] != '@'
  }

  /** `s` reads as part '@' part '.' part, with the '@' at `a` and the
      separating '.' at `b`. */
  predicate EmailSplit(s: string, a: int, b: int)
    requires 0 <= a < b < |s|
  {
    s[a] == '@' && s[b] == '.' && EmailPart(s[..a]) && EmailPart(s[a + 1..b]) && EmailPart(s[b + 1..])
  }

  /** The whole string matches `^[^\s@]+@[^\s@]+\.[^\s@]+$`. The middle run
      may itself hold dots, so the separating dot is any one of them. */
  predicate MatchesEmailPattern(s: string) {
    exists a, b :: 0 <= a < b < |s| && EmailSplit(s, a, b)
  }

  /** Every address built as local '@' domain '.' suffix from runs without
      white space or '@' is accepted by the pattern. */
  lemma PatternAccepts(local: string, domain: string, suffix: string)
    requires EmailPart(local) && EmailPart(domain) && EmailPart(suffix)
    ensures MatchesEmailPattern(local + "@" + domain + "." + suffix)
  {
    var s := local + "@" + domain + "." + suffix;
    var a, b := |local|, |local| + 1 + |domain|;
    assert s[..a] == local;
    assert s[a + 1..b] == domain;
    assert s[b + 1..] == suffix;
    assert EmailSplit(s, a, b);
  }

  /** A run of the pattern holds no '@'. */
  lemma PartHasNoAt(x: string)
    requires EmailPart(x)
    ensures multiset(x)['@'] == 0
  {
    assert '@' !in x;
  }

  /** The '@' of a split is the only one. */
  lemma SplitHasOneAt(s: string, a: int, b: int)
    requires 0 <= a < b < |s| && EmailSplit(s, a, b)
    ensures multiset(s)['@'] == 1
  {
    var p, q, t := s[..a], s[a + 1..b], s[b + 1..];
    assert s == p + [s[a]] + q + [s[b]] + t;
    PartHasNoAt(p);
    PartHasNoAt(q);
    PartHasNoAt(t);
  }

  /** No character of a split is white space. */
  lemma SplitHasNoSpace(s: string, a: int, b: int)
    requires 0 <= a < b < |s| && EmailSplit(s, a, b)
    ensures forall i :: 0 <= i < |s| ==> !IsSpace(s[i])
  {
    forall i | 0 <= i < |s| ensures !IsSpace(s[i]) {
      if i < a {
        assert s[i] == s[..a][i];
      } else if a < i < b {
        assert s[i] == s[a + 1..b][i - a - 1];
      } else if b < i {
        assert s[i] == s[b + 1..][i - b - 1];
      }
    }
  }

  /** Conversely, an accepted address has exactly one '@' and no white
      space at all. */
  lemma PatternShape(s: string)
    requires MatchesEmailPattern(s)
    ensures multiset(s)['@'] == 1
    ensures forall i :: 0 <= i < |s| ==> !IsSpace(s[i])
  {
    var a, b :| 0 <= a < b < |s| && EmailSplit(s, a, b);
    SplitHasOneAt(s, a, b);
    SplitHasNoSpace(s, a, b);
  }

  /** `validateEmail`: required when blank after trimming (`Trim` is empty
      exactly on all-white-space strings), then the pattern is tested on the
      untrimmed value. */
  function ValidateEmail(email: string): (r: string)
    ensures r == "" <==> MatchesEmailPattern(email)
    ensures r == EmailRequired <==> AllSpace(email)
    ensures r == EmailInvalid <==> !AllSpace(email) && !MatchesEmailPattern(email)
  {
    if AllSpace(email) then
      assert !MatchesEmailPattern(email) by {
        if MatchesEmailPattern(email) {
          PatternShape(email);
        }
      }
      EmailRequired
    else if !MatchesEmailPattern(email) then EmailInvalid
    else ""
  }

  /** `validateNom`: the minimum is checked on the trimmed value, the
      maximum on the value as typed. */
  function ValidateNom(nom: string): (r: string)
    ensures r == "" <==> MinNomLength <= JsLength(Trim(nom)) && JsLength(nom) <= MaxNomLength
    ensures r == NomRequired <==> AllSpace(nom)
    ensures r == NomTooShort <==> JsLength(Trim(nom)) == 1
    ensures r == NomTooLong <==> MinNomLength <= JsLength(Trim(nom)) && JsLength(nom) > MaxNomLength
  {
    if Trim(nom) == [] then NomRequired
    else if JsLength(Trim(nom)) < MinNomLength then NomTooShort
    else if JsLength(nom) > MaxNomLength then NomTooLong
    else ""
  }

  predicate HasUpper(s: string) { exists i :: 0 <= i < |s| && IsUpperAlpha(s[i]) }
  predicate HasLower(s: string) { exists i :: 0 <= i < |s| && IsLowerAlpha(s[i]) }
  predicate HasDigit(s: string) { exists i :: 0 <= i < |s| && IsDigit(s[i]) }

  /** A password the signup accepts: 8 to 128 UTF-16 code units with an upper-case
      letter, a lower-case letter and a digit. */
  predicate StrongPassword(p: string) {
    MinPasswordLength <= JsLength(p) <= MaxPasswordLength && HasUpper(p) && HasLower(p) && HasDigit(p)
  }

  /** `validatePassword`: the checks run in the order empty, too short,
      too long, upper case, lower case, digit, and the first failure wins. */
  function ValidatePassword(password: string): (r: string)
    ensures r == "" <==> StrongPassword(password)
    ensures r == PasswordRequired <==> password == []
    ensures r == PasswordTooShort <==> 0 < JsLength(password) < MinPasswordLength
    ensures r == PasswordTooLong <==> JsLength(password) > MaxPasswordLength
    ensures r == PasswordNoUpper <==> MinPasswordLength <= JsLength(password) <= MaxPasswordLength && !HasUpper(password)
    ensures r == PasswordNoLower <==>
      MinPasswordLength <= JsLength(password) <= MaxPasswordLength && HasUpper(password) && !HasLower(password)
    ensures r == PasswordNoDigit <==>
      MinPasswordLength <= JsLength(password) <= MaxPasswordLength && HasUpper(password) && HasLower(password) && !HasDigit(password)
  {
    if password == [] then PasswordRequired
    else if JsLength(password) < MinPasswordLength then PasswordTooShort
    else if JsLength(password) > MaxPasswordLength then PasswordTooLong
    else if !HasUpper(password) then PasswordNoUpper
    else if !HasLower(password) then PasswordNoLower
    else if !HasDigit(password) then PasswordNoDigit
    else ""
  }

  /** Lengths are counted as JavaScript counts them: three characters
      outside the Basic Multilingual Plane make a six-character password
      long enough. */
  lemma LengthsCountCodeUnits()
    ensures |"Aa1😀😀😀"| == 6 && JsLength("Aa1😀😀😀") == 9
    ensures ValidatePassword("Aa1😀😀😀") == ""
  {
    var p := "Aa1😀😀😀";
    var e := "😀😀😀";
    assert JsLength(e[2..]) == 2;
    assert JsLength(e[1..]) == 4;
    assert JsLength(e) == 6;
    assert p[3..] == e && p[2..] == [p[2]] + e && p[1..] == [p[1]] + p[2..];
    assert IsUpperAlpha(p[0]) && IsLowerAlpha(p[1]) && IsDigit(p[2]);
  }

  /** `validatePasswordConfirmation`: a missing confirmation is reported
      before any mismatch. */
  function ValidatePasswordConfirmation(password: string, confirmation: string): (r: string)
    ensures r == "" <==> confirmation != [] && confirmation == password
    ensures r == ConfirmationRequired <==> confirmation == []
    ensures r == PasswordsDiffer <==> confirmation != [] && confirmation != password
  {
    if confirmation == [] then ConfirmationRequired
    else if password != confirmation then PasswordsDiffer
    else ""
  }

  /** The message the validator of field `f` gives for the form `d`. */
  function FieldMessage(d: SignupFormData, f: SignupField): string {
    match f
    case NomField => ValidateNom(d.nom)
    case EmailField => ValidateEmail(d.email)
    case MotDePasseField => ValidatePassword(d.motDePasse)
    case ConfirmationField => ValidatePasswordConfirmation(d.motDePasse, d.confirmationMotDePasse)
  }

  /** A validator's message as an optional key: unset when it is "". */
  function Report(m: string): Option<string> {
    if m != "" then Some(m) else None
  }

  /** `validateSignupForm`: a field's key is set exactly when its validator
      complains, and then it holds that complaint. */
  function ValidateSignupForm(d: SignupFormData): (e: FormErrors)
    ensures forall f :: ErrorOf(e, f).Some? <==> FieldMessage(d, f) != ""
    ensures forall f :: ErrorOf(e, f).Some? ==> ErrorOf(e, f).value == FieldMessage(d, f)
  {
    var e := FormErrors(
      Report(FieldMessage(d, NomField)),
      Report(FieldMessage(d, EmailField)),
      Report(FieldMessage(d, MotDePasseField)),
      Report(FieldMessage(d, ConfirmationField)));
    assert forall f :: ErrorOf(e, f) == Report(FieldMessage(d, f)) by {
      forall f ensures ErrorOf(e, f) == Report(FieldMessage(d, f)) {
        if f.NomField? {
        } else if f.EmailField? {
        } else if f.MotDePasseField? {
        }
      }
    }
    e
  }

  /** A set key holding a non-empty message. */
  predicate Filled(m: Option<string>) {
    m.Some? && m.value != ""
  }

  /** `hasFormErrors`: some key holds a non-empty message. */
  function HasFormErrors(e: FormErrors): (b: bool)
    ensures b <==> exists f :: Filled(ErrorOf(e, f))
  {
    var b := Filled(e.nom) || Filled(e.email) || Filled(e.motDePasse) || Filled(e.confirmationMotDePasse);
    assert b ==> exists f :: Filled(ErrorOf(e, f)) by {
      if Filled(e.nom) { assert Filled(ErrorOf(e, NomField)); }
      else if Filled(e.email) { assert Filled(ErrorOf(e, EmailField)); }
      else if Filled(e.motDePasse) { assert Filled(ErrorOf(e, MotDePasseField)); }
      else if Filled(e.confirmationMotDePasse) { assert Filled(ErrorOf(e, ConfirmationField)); }
    }
    b
  }

  /** A signup form passes exactly when all four validators are satisfied,
      that is when the name is long enough, the email matches the pattern,
      the password is strong and the confirmation repeats it. */
  lemma SignupFormPasses(d: SignupFormData)
    ensures !HasFormErrors(ValidateSignupForm(d)) <==>
      ValidateNom(d.nom) == "" && ValidateEmail(d.email) == "" &&
      ValidatePassword(d.motDePasse) == "" && ValidatePasswordConfirmation(d.motDePasse, d.confirmationMotDePasse) == ""
    ensures !HasFormErrors(ValidateSignupForm(d)) <==>
      MinNomLength <= JsLength(Trim(d.nom)) && JsLength(d.nom) <= MaxNomLength && MatchesEmailPattern(d.email) &&
      StrongPassword(d.motDePasse) && d.confirmationMotDePasse == d.motDePasse
  {
    var e := ValidateSignupForm(d);
    assert FieldMessage(d, NomField) == ValidateNom(d.nom);
    assert FieldMessage(d, EmailField) == ValidateEmail(d.email);
    assert FieldMessage(d, MotDePasseField) == ValidatePassword(d.motDePasse);
    assert FieldMessage(d, ConfirmationField) == ValidatePasswordConfirmation(d.motDePasse, d.confirmationMotDePasse);
    assert StrongPassword(d.motDePasse) ==> d.motDePasse != [];
  }

  /** The empty form fails every one of the four checks. */
  lemma EmptyFormFailsEverywhere()
    ensures forall f :: Filled(ErrorOf(ValidateSignupForm(EmptySignup), f))
  {
    assert AllSpace("");
  }
}
