/** The room service: one REST call per operation on `/salles`, each failure
    turned into an `Error` by `toSalleError` with an operation-specific
    fallback text. */
module SalleService {
  import opened Wrappers
  import opened Ascii
  import opened Api
  import opened SalleTypes

  const Endpoint: string := "/salles"

  /** The five operations of the service. */
  datatype SalleOp =
    | GetAll
    | GetById(id: int)
    | CreateSalle(data: SalleData)
    | UpdateSalle(id: int, data: SalleData)
    | DeleteSalle(id: int)

  function VerbOf(op: SalleOp): Verb {
    match op
    case GetAll => Get
    case GetById(_) => Get
    case CreateSalle(_) => Post
    case UpdateSalle(_, _) => Put
    case DeleteSalle(_) => Delete
  }

  /** The list and create calls address the collection; the others address
      one room by its id, and every path lies under `/salles`. */
  function PathOf(op: SalleOp): (path: string)
    ensures (op.GetAll? || op.CreateSalle?) <==> path == Endpoint
    ensures !(op.GetAll? || op.CreateSalle?) ==> path == Endpoint + "/" + IntToString(op.id)
    ensures |path| >= |Endpoint| && path[..|Endpoint|] == Endpoint
  {
    match op
    case GetAll => Endpoint
    case CreateSalle(_) => Endpoint
    case GetById(id) => Endpoint + "/" + IntToString(id)
    case UpdateSalle(id, _) => Endpoint + "/" + IntToString(id)
    case DeleteSalle(id) => Endpoint + "/" + IntToString(id)
  }

  function Fallback(op: SalleOp): string {
    match op
    case GetAll => "Failed to fetch salles"
    case GetById(_) => "Failed to fetch salle"
    case CreateSalle(_) => "Failed to create salle"
    case UpdateSalle(_, _) => "Failed to update salle"
    case DeleteSalle(_) => "Failed to delete salle"
  }

  /** Every operation has a fallback of its own. */
  lemma FallbacksDistinct(a: SalleOp, b: SalleOp)
    requires Fallback(a) == Fallback(b)
    ensures a.GetAll? == b.GetAll? && a.GetById? == b.GetById? && a.CreateSalle? == b.CreateSalle?
    ensures a.UpdateSalle? == b.UpdateSalle? && a.DeleteSalle? == b.DeleteSalle?
  {
  }

  /** `toSalleError`: for an axios error, the body's `error`, else its
      `message`, else the error's own message, else the fallback; for any
      other thrown value, the fallback. */
  function ToSalleError(e: Thrown, fallback: string): (m: string)
    ensures !e.AxiosError? ==> m == fallback
    ensures e.AxiosError? && e.failure.dataError != "" ==> m == e.failure.dataError
    ensures e.AxiosError? && e.failure.dataError == "" && e.failure.dataMessage != "" ==> m == e.failure.dataMessage
    ensures e.AxiosError? && e.failure.dataError == "" && e.failure.dataMessage == "" && e.failure.message != "" ==> m == e.failure.message
    ensures e.AxiosError? && e.failure.dataError == "" && e.failure.dataMessage == "" && e.failure.message == "" ==> m == fallback
  {
    match e
    case AxiosError(f) =>
      var message := if f.dataError != "" then f.dataError else if f.dataMessage != "" then f.dataMessage else f.message;
      if message != "" then message else fallback
    case _ => fallback
  }

  /** The shared client rejects with a plain `Error`, so `toSalleError`
      never sees an axios error: whatever the server said, the caller gets
      only the fallback text of the operation. */
  lemma ServerMessageDiscarded(op: SalleOp, f: HttpFailure)
    ensures ToSalleError(Rejection(f), Fallback(op)) == Fallback(op)
    ensures f.dataError != "" && f.dataError != Fallback(op) ==>
      ToSalleError(Rejection(f), Fallback(op)) != ErrorMessage(f)
  {
  }

  /** One service operation: the request goes through the shared client and a
      failure becomes the operation's message. `outcome` is the server's
      answer; the value type is the one the operation returns. */
  method Call<T>(api: ApiClient, op: SalleOp, outcome: Result<T, HttpFailure>) returns (r: Result<T, string>)
    modifies api, api.storage
    ensures api.log == old(api.log) + [Request(VerbOf(op), PathOf(op), WithBearer(DefaultHeaders, old(api.storage.items)))]
    ensures outcome.Ok? ==> r == Ok(outcome.value)
    ensures outcome.Err? ==> r == Err(Fallback(op))
    ensures api.storage.items == if outcome.Ok? then old(api.storage.items) else ItemsAfterFailure(old(api.storage.items), outcome.error)
  {
    var sent := api.Send(VerbOf(op), PathOf(op), outcome);
    match sent
    case Ok(v) =>
      r := Ok(v);
    case Err(e) =>
      ServerMessageDiscarded(op, outcome.error);
      r := Err(ToSalleError(e, Fallback(op)));
  }
}
