/** The room cache of the global store: the list of rooms, the room being
    edited, a loading flag and the last error. Each asynchronous operation
    goes through pending, then fulfilled or rejected; each phase is a
    reducer that assigns fields of the state in place. */
module SalleSlice {
  import opened Wrappers
  import opened Seqs
  import opened SalleTypes
  import opened Api
  import opened SalleService

  /** `findIndex((s) => s.id === id)`: the first position holding that id,
      or -1. */
  function FindIndex(s: seq<Salle>, id: int): (r: int)
    ensures -1 <= r < |s|
    ensures r == -1 <==> forall k :: 0 <= k < |s| ==> s[k].id != id
    ensures r != -1 ==> s[r].id == id && forall k :: 0 <= k < r ==> s[k].id != id
  {
    if s == [] then -1
    else if s[0].id == id then 0
    else
      var t := FindIndex(s[1..], id);
      if t == -1 then -1 else t + 1
  }

  /** The list after an update of `p`: the first room with `p`'s id becomes
      `p`, every other position is kept. */
  function ReplaceFirst(s: seq<Salle>, p: Salle): (r: seq<Salle>)
    ensures |r| == |s|
    ensures (forall k :: 0 <= k < |s| ==> s[k].id != p.id) ==> r == s
    ensures forall k :: 0 <= k < |s| && k != FindIndex(s, p.id) ==> r[k] == s[k]
    ensures FindIndex(s, p.id) != -1 ==> r[FindIndex(s, p.id)] == p
  {
    var index := FindIndex(s, p.id);
    if index != -1 then s[index := p] else s
  }

  /** Only the first matching position changes: a later duplicate of the id
      is left as it was. */
  lemma ReplaceFirstOnly(s: seq<Salle>, p: Salle, i: int, j: int)
    requires 0 <= i < j < |s| && s[i].id == p.id && s[j].id == p.id
    ensures ReplaceFirst(s, p)[j] == s[j]
  {
  }

  /** `filter((s) => s.id !== id)`. */
  function RemoveId(s: seq<Salle>, id: int): (r: seq<Salle>)
    ensures forall k :: 0 <= k < |r| ==> r[k].id != id
    ensures forall k :: 0 <= k < |s| && s[k].id != id ==> s[k] in r
    ensures forall k :: 0 <= k < |r| ==> r[k] in s
    ensures forall x :: multiset(r)[x] == if x.id != id then multiset(s)[x] else 0
  {
    FilterCounts(s, (x: Salle) => x.id != id);
    Filter(s, (x: Salle) => x.id != id)
  }

  /** Deleting keeps the relative order of the remaining rooms, and deleting
      an id that is absent changes nothing. */
  lemma RemoveIdKeepsOrder(s: seq<Salle>, id: int)
    ensures IsSubsequence(RemoveId(s, id), s)
    ensures (forall k :: 0 <= k < |s| ==> s[k].id != id) ==> RemoveId(s, id) == s
  {
    FilterIsSubsequence(s, (x: Salle) => x.id != id);
    if forall k :: 0 <= k < |s| ==> s[k].id != id {
      FilterAll(s, (x: Salle) => x.id != id);
    }
  }

  /** The selection after an update: refreshed when it is the updated room. */
  function SelectionAfterUpdate(sel: Option<Salle>, p: Salle): Option<Salle> {
    if sel.Some? && sel.value.id == p.id then Some(p) else sel
  }

  /** The selection after a delete: cleared when it is the deleted room. */
  function SelectionAfterDelete(sel: Option<Salle>, id: int): Option<Salle> {
    if sel.Some? && sel.value.id == id then None else sel
  }

  /** The `deleteSalle` thunk: it resolves to the id it was given, or rejects
      with the service's message. */
  function DeleteThunk(id: int, service: Result<(), string>): (r: Result<int, string>)
    ensures r.Ok? <==> service.Ok?
    ensures r.Ok? ==> r.value == id
    ensures r.Err? ==> r.error == service.error
  {
    match service
    case Ok(_) => Ok(id)
    case Err(m) => Err(m)
  }

  class SalleStore {
    var salles: seq<Salle>
    var selectedSalle: Option<Salle>
    var loading: bool
    var error: Option<string>

    /** The initial state: no rooms, no selection, idle, no error. */
    constructor ()
      ensures salles == [] && selectedSalle == None && !loading && error == None
    {
      salles := [];
      selectedSalle := None;
      loading := false;
      error := None;
    }

    /** The pending reducer, identical for fetch-all, fetch-by-id, create,
        update and delete. */
    method Pending()
      modifies this
      ensures loading && error == None
      ensures salles == old(salles) && selectedSalle == old(selectedSalle)
    {
      loading := true;
      error := None;
    }

    /** The rejected reducer, identical for all five operations: it records
        the payload and touches neither the list nor the selection. */
    method Rejected(message: string)
      modifies this
      ensures !loading && error == Some(message)
      ensures salles == old(salles) && selectedSalle == old(selectedSalle)
    {
      loading := false;
      error := Some(message);
    }

    /** fetchAll fulfilled: the list becomes the server's list. */
    method FetchAllFulfilled(payload: seq<Salle>)
      modifies this
      ensures !loading && salles == payload
      ensures selectedSalle == old(selectedSalle) && error == old(error)
    {
      loading := false;
      salles := payload;
    }

    /** fetchById fulfilled: only the selection changes. */
    method FetchByIdFulfilled(payload: Salle)
      modifies this
      ensures !loading && selectedSalle == Some(payload)
      ensures salles == old(salles) && error == old(error)
    {
      loading := false;
      selectedSalle := Some(payload);
    }

    /** create fulfilled: the new room is appended. */
    method CreateFulfilled(payload: Salle)
      modifies this
      ensures !loading && salles == old(salles) + [payload]
      ensures selectedSalle == old(selectedSalle) && error == old(error)
    {
      loading := false;
      salles := salles + [payload];
    }

    /** update fulfilled: the first room with the same id is replaced in
        place, and the selection is refreshed when it is that room. */
    method UpdateFulfilled(payload: Salle)
      modifies this
      ensures !loading && salles == ReplaceFirst(old(salles), payload)
      ensures selectedSalle == SelectionAfterUpdate(old(selectedSalle), payload)
      ensures error == old(error)
    {
      loading := false;
      var index := FindIndex(salles, payload.id);
      if index != -1 {
        salles := salles[index := payload];
      }
      if selectedSalle.Some? && selectedSalle.value.id == payload.id {
        selectedSalle := Some(payload);
      }
    }

    /** delete fulfilled (the payload is the deleted id): the room leaves the
        list and the selection is cleared when it was that room. */
    method DeleteFulfilled(id: int)
      modifies this
      ensures !loading && salles == RemoveId(old(salles), id)
      ensures selectedSalle == SelectionAfterDelete(old(selectedSalle), id)
      ensures error == old(error)
    {
      loading := false;
      salles := RemoveId(salles, id);
      if selectedSalle.Some? && selectedSalle.value.id == id {
        selectedSalle := None;
      }
    }

    /** The `fetchAllSalles` thunk: pending, the service call, then the
        fulfilled or the rejected reducer. */
    method RunFetchAll(api: ApiClient, outcome: Result<seq<Salle>, HttpFailure>) returns (r: Result<seq<Salle>, string>)
      modifies this, api, api.storage
      ensures api.log == old(api.log) + [Request(Get, PathOf(GetAll), WithBearer(DefaultHeaders, old(api.storage.items)))]
      ensures api.storage.items == if outcome.Ok? then old(api.storage.items) else ItemsAfterFailure(old(api.storage.items), outcome.error)
      ensures r == if outcome.Ok? then Ok(outcome.value) else Err(Fallback(GetAll))
      ensures !loading && selectedSalle == old(selectedSalle)
      ensures outcome.Ok? ==> salles == outcome.value && error == None
      ensures outcome.Err? ==> salles == old(salles) && error == Some(Fallback(GetAll))
    {
      Pending();
      r := Call(api, GetAll, outcome);
      match r
      case Ok(v) => FetchAllFulfilled(v);
      case Err(m) => Rejected(m);
    }

    /** The `fetchSalleById` thunk. */
    method RunFetchById(api: ApiClient, id: int, outcome: Result<Salle, HttpFailure>) returns (r: Result<Salle, string>)
      modifies this, api, api.storage
      ensures api.log == old(api.log) + [Request(Get, PathOf(GetById(id)), WithBearer(DefaultHeaders, old(api.storage.items)))]
      ensures api.storage.items == if outcome.Ok? then old(api.storage.items) else ItemsAfterFailure(old(api.storage.items), outcome.error)
      ensures r == if outcome.Ok? then Ok(outcome.value) else Err(Fallback(GetById(id)))
      ensures !loading && salles == old(salles)
      ensures outcome.Ok? ==> selectedSalle == Some(outcome.value) && error == None
      ensures outcome.Err? ==> selectedSalle == old(selectedSalle) && error == Some(Fallback(GetById(id)))
    {
      Pending();
      r := Call(api, GetById(id), outcome);
      match r
      case Ok(v) => FetchByIdFulfilled(v);
      case Err(m) => Rejected(m);
    }

    /** The `createSalle` thunk. */
    method RunCreate(api: ApiClient, data: SalleData, outcome: Result<Salle, HttpFailure>) returns (r: Result<Salle, string>)
      modifies this, api, api.storage
      ensures api.log == old(api.log) + [Request(Post, PathOf(CreateSalle(data)), WithBearer(DefaultHeaders, old(api.storage.items)))]
      ensures api.storage.items == if outcome.Ok? then old(api.storage.items) else ItemsAfterFailure(old(api.storage.items), outcome.error)
      ensures r == if outcome.Ok? then Ok(outcome.value) else Err(Fallback(CreateSalle(data)))
      ensures !loading && selectedSalle == old(selectedSalle)
      ensures outcome.Ok? ==> salles == old(salles) + [outcome.value] && error == None
      ensures outcome.Err? ==> salles == old(salles) && error == Some(Fallback(CreateSalle(data)))
    {
      Pending();
      r := Call(api, CreateSalle(data), outcome);
      match r
      case Ok(v) => CreateFulfilled(v);
      case Err(m) => Rejected(m);
    }

    /** The `updateSalle` thunk. */
    method RunUpdate(api: ApiClient, id: int, data: SalleData, outcome: Result<Salle, HttpFailure>) returns (r: Result<Salle, string>)
      modifies this, api, api.storage
      ensures api.log == old(api.log) + [Request(Put, PathOf(UpdateSalle(id, data)), WithBearer(DefaultHeaders, old(api.storage.items)))]
      ensures api.storage.items == if outcome.Ok? then old(api.storage.items) else ItemsAfterFailure(old(api.storage.items), outcome.error)
      ensures r == if outcome.Ok? then Ok(outcome.value) else Err(Fallback(UpdateSalle(id, data)))
      ensures !loading
      ensures outcome.Ok? ==> salles == ReplaceFirst(old(salles), outcome.value) && error == None
      ensures outcome.Ok? ==> selectedSalle == SelectionAfterUpdate(old(selectedSalle), outcome.value)
      ensures outcome.Err? ==> salles == old(salles) && selectedSalle == old(selectedSalle)
      ensures outcome.Err? ==> error == Some(Fallback(UpdateSalle(id, data)))
    {
      Pending();
      r := Call(api, UpdateSalle(id, data), outcome);
      match r
      case Ok(v) => UpdateFulfilled(v);
      case Err(m) => Rejected(m);
    }

    /** The `deleteSalle` thunk: the fulfilled payload is the id it was
        given, whatever the server answered. */
    method RunDelete(api: ApiClient, id: int, outcome: Result<(), HttpFailure>) returns (r: Result<int, string>)
      modifies this, api, api.storage
      ensures api.log == old(api.log) + [Request(Delete, PathOf(DeleteSalle(id)), WithBearer(DefaultHeaders, old(api.storage.items)))]
      ensures api.storage.items == if outcome.Ok? then old(api.storage.items) else ItemsAfterFailure(old(api.storage.items), outcome.error)
      ensures r == if outcome.Ok? then Ok(id) else Err(Fallback(DeleteSalle(id)))
      ensures !loading
      ensures outcome.Ok? ==> salles == RemoveId(old(salles), id) && error == None
      ensures outcome.Ok? ==> selectedSalle == SelectionAfterDelete(old(selectedSalle), id)
      ensures outcome.Err? ==> salles == old(salles) && selectedSalle == old(selectedSalle)
      ensures outcome.Err? ==> error == Some(Fallback(DeleteSalle(id)))
    {
      Pending();
      var served := Call(api, DeleteSalle(id), outcome);
      r := DeleteThunk(id, served);
      match r
      case Ok(v) => DeleteFulfilled(v);
      case Err(m) => Rejected(m);
    }

    /** `setSelectedSalle`: only the selection changes. */
    method SetSelectedSalle(s: Option<Salle>)
      modifies this
      ensures selectedSalle == s
      ensures salles == old(salles) && loading == old(loading) && error == old(error)
    {
      selectedSalle := s;
    }

    /** `clearError`: only the error changes. */
    method ClearError()
      modifies this
      ensures error == None
      ensures salles == old(salles) && selectedSalle == old(selectedSalle) && loading == old(loading)
    {
      error := None;
    }
  }

  /** An update changes the selection exactly when the selected room has the
      updated id, and then the selection is the new version of that room. */
  lemma UpdateRefreshesSelection(sel: Option<Salle>, p: Salle)
    ensures sel.Some? && sel.value.id == p.id ==> SelectionAfterUpdate(sel, p) == Some(p)
    ensures !(sel.Some? && sel.value.id == p.id) ==> SelectionAfterUpdate(sel, p) == sel
    ensures SelectionAfterUpdate(sel, p).None? <==> sel.None?
  {
  }

  /** A delete clears the selection exactly when the selected room has the
      deleted id; afterwards neither the list nor the selection mentions it. */
  lemma DeleteClearsSelection(s: seq<Salle>, sel: Option<Salle>, id: int)
    ensures sel.Some? && sel.value.id == id ==> SelectionAfterDelete(sel, id) == None
    ensures !(sel.Some? && sel.value.id == id) ==> SelectionAfterDelete(sel, id) == sel
    ensures forall k :: 0 <= k < |RemoveId(s, id)| ==> RemoveId(s, id)[k].id != id
  {
  }
}
