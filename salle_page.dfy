/** The room management page: a filtered view of the cached rooms, the list
    of room types for the type filter, three counters, and the handlers that
    open the form and dispatch the store's operations. */
module SallePage {
  import opened Wrappers
  import opened Ascii
  import opened Seqs
  import opened Api
  import opened SalleTypes
  import opened SalleService
  import opened SalleSlice

  const All: string := "all"
  const Disponible: string := "disponible"
  const Indisponible: string := "indisponible"

  /** The search term, lower-cased, occurs in the lower-cased name or type. */
  predicate MatchesSearch(s: Salle, term: string) {
    Contains(ToLower(s.nom), ToLower(term)) || Contains(ToLower(s.salleType), ToLower(term))
  }

  /** The type filter is off, or names the room's type exactly. */
  predicate MatchesType(s: Salle, filterType: string) {
    filterType == All || s.salleType == filterType
  }

  /** The availability filter is off, or agrees with the room. */
  predicate MatchesDisponible(s: Salle, filterDisponible: string) {
    filterDisponible == All
    || (filterDisponible == Disponible && s.disponible)
    || (filterDisponible == Indisponible && !s.disponible)
  }

  predicate Shown(s: Salle, term: string, filterType: string, filterDisponible: string) {
    MatchesSearch(s, term) && MatchesType(s, filterType) && MatchesDisponible(s, filterDisponible)
  }

  /** The callback given to `filter`. */
  function ShownBy(term: string, filterType: string, filterDisponible: string): Salle -> bool {
    (s: Salle) => Shown(s, term, filterType, filterDisponible)
  }

  /** `filteredSalles`: exactly the rooms that pass all three filters, in
      their original order. */
  function FilteredSalles(salles: seq<Salle>, term: string, filterType: string, filterDisponible: string): (r: seq<Salle>)
    ensures forall i :: 0 <= i < |r| ==> r[i] in salles && Shown(r[i], term, filterType, filterDisponible)
    ensures forall k :: 0 <= k < |salles| && Shown(salles[k], term, filterType, filterDisponible) ==> salles[k] in r
    ensures forall x :: multiset(r)[x] == if Shown(x, term, filterType, filterDisponible) then multiset(salles)[x] else 0
    ensures IsSubsequence(r, salles)
  {
    var p := ShownBy(term, filterType, filterDisponible);
    FilterIsSubsequence(salles, p);
    FilterCounts(salles, p);
    Filter(salles, p)
  }

  /** With an empty search and both filters on "all", every room is shown. */
  lemma NoFilterShowsEverything(salles: seq<Salle>)
    ensures FilteredSalles(salles, "", All, All) == salles
  {
    var p := ShownBy("", All, All);
    forall s | s in salles ensures p(s) {
      ContainsEmpty(ToLower(s.nom));
    }
    FilterAll(salles, p);
  }

  /** An availability filter other than the three offered values hides
      every room. */
  lemma UnknownAvailabilityHidesAll(salles: seq<Salle>, term: string, filterType: string, filterDisponible: string)
    requires filterDisponible != All && filterDisponible != Disponible && filterDisponible != Indisponible
    ensures FilteredSalles(salles, term, filterType, filterDisponible) == []
  {
    var r := FilteredSalles(salles, term, filterType, filterDisponible);
    if r != [] {
      assert false;
    }
  }

  /** `salles.map((s) => s.type)`. */
  function TypesOf(salles: seq<Salle>): (r: seq<string>)
    ensures |r| == |salles|
    ensures forall i :: 0 <= i < |salles| ==> r[i] == salles[i].salleType
  {
    seq(|salles|, i requires 0 <= i < |salles| => salles[i].salleType)
  }

  /** `uniqueTypes`: each type present among the rooms, exactly once, in
      order of first occurrence. */
  function UniqueTypes(salles: seq<Salle>): (r: seq<string>)
    ensures Distinct(r)
    ensures forall k :: 0 <= k < |salles| ==> salles[k].salleType in r
    ensures forall i :: 0 <= i < |r| ==> exists k :: 0 <= k < |salles| && salles[k].salleType == r[i]
    ensures forall i, j :: 0 <= i < j < |r| ==> IndexOf(TypesOf(salles), r[i]) < IndexOf(TypesOf(salles), r[j])
  {
    var types := TypesOf(salles);
    var r := Dedup(types);
    assert forall k :: 0 <= k < |salles| ==> salles[k].salleType == types[k];
    forall i | 0 <= i < |r| ensures exists k :: 0 <= k < |salles| && salles[k].salleType == r[i] {
      var k := IndexOf(types, r[i]);
      assert salles[k].salleType == r[i];
    }
    r
  }

  predicate Available(s: Salle) { s.disponible }

  /** The "Disponibles" counter. */
  function AvailableCount(salles: seq<Salle>): (n: nat)
    ensures n <= |salles|
    ensures (forall k :: 0 <= k < |salles| ==> salles[k].disponible) ==> n == |salles|
    ensures (forall k :: 0 <= k < |salles| ==> !salles[k].disponible) ==> n == 0
  {
    var r := Filter(salles, Available);
    assert (forall k :: 0 <= k < |salles| ==> salles[k].disponible) ==> r == salles by {
      if forall k :: 0 <= k < |salles| ==> salles[k].disponible {
        FilterAll(salles, Available);
      }
    }
    assert r != [] ==> Available(r[0]);
    |r|
  }

  function Capacity(s: Salle): int { s.capacite }

  /** The "Capacité totale" counter. */
  function TotalCapacity(salles: seq<Salle>): (n: int)
    ensures (forall k :: 0 <= k < |salles| ==> salles[k].capacite >= 0) ==> n >= 0
  {
    assert (forall k :: 0 <= k < |salles| ==> salles[k].capacite >= 0) ==> SumOf(salles, Capacity) >= 0 by {
      if forall k :: 0 <= k < |salles| ==> salles[k].capacite >= 0 {
        SumOfNonNegative(salles, Capacity);
      }
    }
    SumOf(salles, Capacity)
  }

  /** After a room is created, the three counters move by exactly that room. */
  lemma StatsAfterCreate(salles: seq<Salle>, p: Salle)
    ensures |salles + [p]| == |salles| + 1
    ensures AvailableCount(salles + [p]) == AvailableCount(salles) + (if p.disponible then 1 else 0)
    ensures TotalCapacity(salles + [p]) == TotalCapacity(salles) + p.capacite
  {
    FilterAppend(salles, [p], Available);
    SumOfAppend(salles, [p], Capacity);
    assert SumOf([p], Capacity) == p.capacite by {
      assert [p][..0] == [];
    }
  }

  /** The operation `handleSubmit` dispatches: an update of the selected room
      when editing one, a creation otherwise. */
  function SubmitOp(isEditing: bool, selected: Option<Salle>, data: SalleData): SalleOp {
    if isEditing && selected.Some? then UpdateSalle(selected.value.id, data) else CreateSalle(data)
  }

  class Page {
    var showForm: bool
    var isEditing: bool
    var searchTerm: string
    var filterType: string
    var filterDisponible: string
    const store: SalleStore
    const api: ApiClient

    constructor (store: SalleStore, api: ApiClient)
      ensures this.store == store && this.api == api
      ensures !showForm && !isEditing && searchTerm == "" && filterType == All && filterDisponible == All
    {
      this.store := store;
      this.api := api;
      showForm := false;
      isEditing := false;
      searchTerm := "";
      filterType := All;
      filterDisponible := All;
    }

    /** The rooms the page lists. */
    function Visible(): seq<Salle>
      reads this, store
    {
      FilteredSalles(store.salles, searchTerm, filterType, filterDisponible)
    }

    /** The fetch dispatched when the page mounts. */
    method Mount(outcome: Result<seq<Salle>, HttpFailure>)
      modifies store, api, api.storage
      ensures api.log == old(api.log) + [Request(Get, PathOf(GetAll), WithBearer(DefaultHeaders, old(api.storage.items)))]
      ensures api.storage.items == if outcome.Ok? then old(api.storage.items) else ItemsAfterFailure(old(api.storage.items), outcome.error)
      ensures outcome.Ok? ==> store.salles == outcome.value && store.error == None
      ensures outcome.Err? ==> store.salles == old(store.salles) && store.error == Some(Fallback(GetAll))
      ensures store.selectedSalle == old(store.selectedSalle) && !store.loading
    {
      var _ := store.RunFetchAll(api, outcome);
    }

    /** `handleAddNew`: a blank form in creation mode. */
    method HandleAddNew()
      modifies this, store
      ensures showForm && !isEditing && store.selectedSalle == None
      ensures store.salles == old(store.salles) && store.loading == old(store.loading) && store.error == old(store.error)
      ensures searchTerm == old(searchTerm) && filterType == old(filterType) && filterDisponible == old(filterDisponible)
    {
      store.SetSelectedSalle(None);
      isEditing := false;
      showForm := true;
    }

    /** `handleEdit`: the form in edition mode on `s`. */
    method HandleEdit(s: Salle)
      modifies this, store
      ensures showForm && isEditing && store.selectedSalle == Some(s)
      ensures store.salles == old(store.salles) && store.loading == old(store.loading) && store.error == old(store.error)
      ensures searchTerm == old(searchTerm) && filterType == old(filterType) && filterDisponible == old(filterDisponible)
    {
      store.SetSelectedSalle(Some(s));
      isEditing := true;
      showForm := true;
    }

    /** `handleCancel`: the form closes and the selection is cleared; the
        editing flag is left as it was. */
    method HandleCancel()
      modifies this, store
      ensures !showForm && store.selectedSalle == None && isEditing == old(isEditing)
      ensures store.salles == old(store.salles) && store.loading == old(store.loading) && store.error == old(store.error)
      ensures searchTerm == old(searchTerm) && filterType == old(filterType) && filterDisponible == old(filterDisponible)
    {
      showForm := false;
      store.SetSelectedSalle(None);
    }

    /** `handleDelete`: dispatch the delete of `id`. */
    method HandleDelete(id: int, outcome: Result<(), HttpFailure>)
      modifies store, api, api.storage
      ensures api.log == old(api.log) + [Request(Delete, PathOf(DeleteSalle(id)), WithBearer(DefaultHeaders, old(api.storage.items)))]
      ensures api.storage.items == if outcome.Ok? then old(api.storage.items) else ItemsAfterFailure(old(api.storage.items), outcome.error)
      ensures !store.loading
      ensures outcome.Ok? ==> store.salles == RemoveId(old(store.salles), id) && store.error == None
      ensures outcome.Ok? ==> store.selectedSalle == SelectionAfterDelete(old(store.selectedSalle), id)
      ensures outcome.Err? ==> store.salles == old(store.salles) && store.selectedSalle == old(store.selectedSalle)
      ensures outcome.Err? ==> store.error == Some(Fallback(DeleteSalle(id)))
    {
      var _ := store.RunDelete(api, id, outcome);
    }

    /** `handleSubmit` with the form's data: dispatch the update or the
        creation; only a success closes the form and clears the selection. */
    method HandleSubmit(data: SalleData, outcome: Result<Salle, HttpFailure>) returns (op: SalleOp)
      modifies this, store, api, api.storage
      ensures op == SubmitOp(old(isEditing), old(store.selectedSalle), data)
      ensures api.log == old(api.log) + [Request(VerbOf(op), PathOf(op), WithBearer(DefaultHeaders, old(api.storage.items)))]
      ensures api.storage.items == if outcome.Ok? then old(api.storage.items) else ItemsAfterFailure(old(api.storage.items), outcome.error)
      ensures isEditing == old(isEditing) && !store.loading
      ensures searchTerm == old(searchTerm) && filterType == old(filterType) && filterDisponible == old(filterDisponible)
      ensures outcome.Ok? ==> !showForm && store.selectedSalle == None && store.error == None
      ensures outcome.Ok? && op.UpdateSalle? ==> store.salles == ReplaceFirst(old(store.salles), outcome.value)
      ensures outcome.Ok? && op.CreateSalle? ==> store.salles == old(store.salles) + [outcome.value]
      ensures outcome.Err? ==> showForm == old(showForm) && store.selectedSalle == old(store.selectedSalle)
      ensures outcome.Err? ==> store.salles == old(store.salles) && store.error == Some(Fallback(op))
    {
      var r: Result<Salle, string>;
      if isEditing && store.selectedSalle.Some? {
        op := UpdateSalle(store.selectedSalle.value.id, data);
        r := store.RunUpdate(api, store.selectedSalle.value.id, data, outcome);
      } else {
        op := CreateSalle(data);
        r := store.RunCreate(api, data, outcome);
      }
      if r.Ok? {
        showForm := false;
        store.SetSelectedSalle(None);
      }
    }
  }
}
