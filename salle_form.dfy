/** The room form: its fields start from the room being edited (or from the
    defaults of a new room), edits change one field at a time, and a submit
    only reaches the caller when the three required checks pass. */
module SalleForm {
  import opened Wrappers
  import opened Ascii
  import opened SalleTypes

  /** The `name`s of the three validated inputs, which are also the keys of
      the error map. */
  datatype Field = NomKey | CapaciteKey | TypeKey

  const NomRequired: string := "Le nom est requis"
  const CapaciteInvalid: string := "La capacité doit être supérieure à 0"
  const TypeRequired: string := "Le type est requis"

  /** The fields of a room that does not exist yet. */
  const NewSalle: SalleData := SalleData("", 0, "Cours", true)

  /** The data the form shows for `salle`: its four mutable fields, or the
      defaults when there is none. */
  function InitialData(salle: Option<Salle>): SalleData {
    if salle.Some? then DataOf(salle.value) else NewSalle
  }

  /** The three checks a submission must pass. A capacity is acceptable
      when it is truthy and positive, which for an integer is positive. */
  predicate Acceptable(d: SalleData) {
    !AllSpace(d.nom) && d.capacite > 0 && !AllSpace(d.salleType)
  }

  /** Whether the check on field `k` fails for `d`. */
  predicate Fails(d: SalleData, k: Field) {
    match k
    case NomKey => Trim(d.nom) == []
    case CapaciteKey => d.capacite <= 0
    case TypeKey => Trim(d.salleType) == []
  }

  function MessageOf(k: Field): string {
    match k
    case NomKey => NomRequired
    case CapaciteKey => CapaciteInvalid
    case TypeKey => TypeRequired
  }

  /** `validateForm`'s fresh error map: one key per failing check, holding
      that check's message, and no other key. */
  function ValidationErrors(d: SalleData): (e: map<Field, string>)
    ensures NomKey in e <==> AllSpace(d.nom)
    ensures CapaciteKey in e <==> d.capacite <= 0
    ensures TypeKey in e <==> AllSpace(d.salleType)
    ensures forall k :: k in e ==> e[k] == MessageOf(k)
    ensures e == map[] <==> Acceptable(d)
  {
    var e := map k | k in {NomKey, CapaciteKey, TypeKey} && Fails(d, k) :: MessageOf(k);
    assert e == map[] ==> Acceptable(d) by {
      if e == map[] {
        assert NomKey !in e && CapaciteKey !in e && TypeKey !in e;
      }
    }
    e
  }

  /** What `handleSubmit` hands to `onSubmit`: the form data itself, and only
      when it is acceptable. */
  function Submission(d: SalleData): (r: Option<SalleData>)
    ensures r.Some? <==> Acceptable(d)
    ensures r.Some? ==> r.value == d
  {
    if ValidationErrors(d) == map[] then Some(d) else None
  }

  /** An edit of one text or number input, by the input's `name`. */
  datatype FieldChange =
    | NomChange(nom: string)
    | CapaciteChange(capacite: int)
    | TypeChange(salleType: string)

  function KeyOf(c: FieldChange): Field {
    match c
    case NomChange(_) => NomKey
    case CapaciteChange(_) => CapaciteKey
    case TypeChange(_) => TypeKey
  }

  function ApplyChange(d: SalleData, c: FieldChange): (r: SalleData)
    ensures r.disponible == d.disponible
    ensures c.NomChange? ==> r == d.(nom := c.nom)
    ensures c.CapaciteChange? ==> r == d.(capacite := c.capacite)
    ensures c.TypeChange? ==> r == d.(salleType := c.salleType)
  {
    match c
    case NomChange(v) => d.(nom := v)
    case CapaciteChange(v) => d.(capacite := v)
    case TypeChange(v) => d.(salleType := v)
  }

  /** The error map after an edit of `key`: its message is blanked when it
      held one, and every other key is left alone. */
  function ClearFieldError(errors: map<Field, string>, key: Field): (r: map<Field, string>)
    ensures r.Keys == errors.Keys
    ensures key in r ==> r[key] == ""
    ensures forall k :: k in r && k != key ==> r[k] == errors[k]
  {
    if key in errors && errors[key] != "" then errors[key := ""] else errors
  }

  /** The effect's dependency, `salle?.id`: absent without a room. */
  function IdOf(salle: Option<Salle>): Option<int> {
    if salle.Some? then Some(salle.value.id) else None
  }

  /** The form's state. */
  class SalleFormState {
    var formData: SalleData
    var errors: map<Field, string>
    /** The dependency the effect last ran with. */
    var loadedId: Option<int>

    /** Mounting the form for `salle` (or for a new room): the effect runs
        once on mount. */
    constructor (salle: Option<Salle>)
      ensures formData == InitialData(salle) && errors == map[] && loadedId == IdOf(salle)
    {
      formData := InitialData(salle);
      errors := map[];
      loadedId := IdOf(salle);
    }

    /** The form rendered again with `salle`: the effect runs, and the data
        is reloaded, only when the room's id differs from the last one. A
        new room object with the same id (the selection refreshed after an
        update, say) leaves the typed data alone. The errors are kept. */
    method SalleChanged(salle: Option<Salle>)
      modifies this
      ensures loadedId == IdOf(salle) && errors == old(errors)
      ensures formData == if IdOf(salle) != old(loadedId) then InitialData(salle) else old(formData)
    {
      if IdOf(salle) != loadedId {
        formData := InitialData(salle);
        loadedId := IdOf(salle);
      }
    }

    /** `validateForm`: the errors map is replaced as a whole. */
    method ValidateForm() returns (ok: bool)
      modifies this
      ensures errors == ValidationErrors(formData) && formData == old(formData)
      ensures loadedId == old(loadedId)
      ensures ok <==> Acceptable(formData)
    {
      var e := ValidationErrors(formData);
      errors := e;
      ok := |e| == 0;
      assert ok <==> e == map[] by {
        if |e| == 0 {
          assert forall k :: k !in e;
        }
      }
    }

    /** `handleSubmit`: the data passed to `onSubmit`, or `None` when no
        callback is made. */
    method HandleSubmit() returns (submitted: Option<SalleData>)
      modifies this
      ensures submitted == Submission(old(formData))
      ensures errors == ValidationErrors(old(formData)) && formData == old(formData)
      ensures loadedId == old(loadedId)
    {
      var ok := ValidateForm();
      if ok {
        submitted := Some(formData);
      } else {
        submitted := None;
      }
    }

    /** `handleChange`: one field takes the typed value and only that
        field's error is blanked. */
    method HandleChange(c: FieldChange)
      modifies this
      ensures formData == ApplyChange(old(formData), c)
      ensures errors == ClearFieldError(old(errors), KeyOf(c))
      ensures loadedId == old(loadedId)
    {
      formData := ApplyChange(formData, c);
      if KeyOf(c) in errors && errors[KeyOf(c)] != "" {
        errors := errors[KeyOf(c) := ""];
      }
    }

    /** `handleCheckboxChange` on the availability box: the errors are kept. */
    method HandleCheckboxChange(checked: bool)
      modifies this
      ensures formData == old(formData).(disponible := checked) && errors == old(errors)
      ensures loadedId == old(loadedId)
    {
      formData := formData.(disponible := checked);
    }
  }

  /** A new form submitted untouched never reaches `onSubmit`: its name is
      blank and its capacity is 0, while its type is already set. */
  lemma UntouchedNewFormRejected()
    ensures Submission(InitialData(None)) == None
    ensures var e := ValidationErrors(InitialData(None));
      NomKey in e && CapaciteKey in e && TypeKey !in e
  {
    assert AllSpace(NewSalle.nom);
    assert !IsSpace(NewSalle.salleType[0]);
  }

  /** Editing an acceptable room and submitting it unchanged hands back
      exactly its four mutable fields. */
  lemma EditRoundTrip(s: Salle)
    requires !AllSpace(s.nom) && s.capacite > 0 && !AllSpace(s.salleType)
    ensures Submission(InitialData(Some(s))) == Some(DataOf(s))
  {
  }

  /** Blanking an error twice is the same as blanking it once, and blanking
      never creates a message. */
  lemma ClearFieldErrorIdempotent(errors: map<Field, string>, key: Field)
    ensures ClearFieldError(ClearFieldError(errors, key), key) == ClearFieldError(errors, key)
    ensures forall k :: k in ClearFieldError(errors, key) && ClearFieldError(errors, key)[k] != "" ==>
      k in errors && errors[k] != ""
  {
  }
}
