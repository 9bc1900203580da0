/** The shared HTTP client of the room service: a request interceptor that
    adds the bearer token, and a response interceptor that passes successes
    through, purges the token on a 401 and turns every failure into a plain
    `Error` carrying one display message. */
module Api {
  import opened Wrappers
  import opened Storage

  datatype Verb = Get | Post | Put | Patch | Delete

  /** What a failed axios call carries: the HTTP status when a response came
      back, the response body's `error` and `message` fields ("" when absent
      or falsy) and the transport-level message. */
  datatype HttpFailure = HttpFailure(status: Option<int>, dataError: string, dataMessage: string, message: string)

  /** A value a rejected promise can carry: an axios error (an `Error` with
      the failure attached), a plain `Error` with its message, or a thrown
      value that is not an `Error` at all. */
  datatype Thrown = AxiosError(failure: HttpFailure) | PlainError(message: string) | NonError

  /** `err instanceof Error ? err.message : fallback`. */
  function MessageOr(e: Thrown, fallback: string): string {
    match e
    case AxiosError(f) => f.message
    case PlainError(m) => m
    case NonError => fallback
  }

  /** One outgoing request as the server sees it. */
  datatype Request = Request(verb: Verb, path: string, headers: map<string, string>)

  const AuthorizationHeader: string := "Authorization"
  const BearerPrefix: string := "Bearer "
  const DefaultHeaders: map<string, string> := map["Content-Type" := "application/json"]
  const UnexpectedError: string := "Unexpected error"

  /** The request interceptor: with a token stored, `Authorization` becomes
      `Bearer <token>`; every other header is left as it was, and without a
      token nothing changes. */
  function WithBearer(headers: map<string, string>, items: map<string, string>): (h: map<string, string>)
    ensures StoredToken(items).Some? ==>
      AuthorizationHeader in h && h[AuthorizationHeader] == BearerPrefix + StoredToken(items).value
    ensures StoredToken(items).Some? ==>
      h[AuthorizationHeader][..|BearerPrefix|] == BearerPrefix && h[AuthorizationHeader][|BearerPrefix|..] == items[TokenKey]
    ensures StoredToken(items).None? ==> h == headers
    ensures forall k :: k != AuthorizationHeader ==> (k in h <==> k in headers)
    ensures forall k :: k != AuthorizationHeader && k in h ==> h[k] == headers[k]
  {
    match StoredToken(items)
    case Some(token) => headers[AuthorizationHeader := BearerPrefix + token]
    case None => headers
  }

  /** The response interceptor's message: the body's `error`, else its
      `message`, else the transport message, else "Unexpected error". */
  function ErrorMessage(f: HttpFailure): (m: string)
    ensures m != ""
    ensures f.dataError != "" ==> m == f.dataError
    ensures f.dataError == "" && f.dataMessage != "" ==> m == f.dataMessage
    ensures f.dataError == "" && f.dataMessage == "" && f.message != "" ==> m == f.message
    ensures f.dataError == "" && f.dataMessage == "" && f.message == "" ==> m == UnexpectedError
  {
    if f.dataError != "" then f.dataError
    else if f.dataMessage != "" then f.dataMessage
    else if f.message != "" then f.message
    else UnexpectedError
  }

  /** What the response interceptor rejects with: always a plain `Error`. */
  function Rejection(f: HttpFailure): (e: Thrown)
    ensures e.PlainError? && e.message == ErrorMessage(f)
    ensures !e.AxiosError?
  {
    PlainError(ErrorMessage(f))
  }

  /** The token store after a failure: only a 401 removes the token. */
  function ItemsAfterFailure(items: map<string, string>, f: HttpFailure): (r: map<string, string>)
    ensures f.status == Some(401) ==> TokenKey !in r && forall k :: k in items && k != TokenKey ==> k in r && r[k] == items[k]
    ensures f.status != Some(401) ==> r == items
    ensures r.Keys <= items.Keys
  {
    if f.status == Some(401) then items - {TokenKey} else items
  }

  /** The shared axios instance, with the requests it has sent. */
  class ApiClient {
    const storage: LocalStorage
    var log: seq<Request>

    constructor (storage: LocalStorage)
      ensures this.storage == storage && log == []
    {
      this.storage := storage;
      log := [];
    }

    /** One call through both interceptors. `outcome` is what the server (or
        the network) answers. */
    method Send<T>(verb: Verb, path: string, outcome: Result<T, HttpFailure>) returns (r: Result<T, Thrown>)
      modifies this, storage
      ensures log == old(log) + [Request(verb, path, WithBearer(DefaultHeaders, old(storage.items)))]
      ensures outcome.Ok? ==> r == Ok(outcome.value)
      ensures outcome.Err? ==> r == Err(Rejection(outcome.error))
      ensures storage.items == if outcome.Ok? then old(storage.items) else ItemsAfterFailure(old(storage.items), outcome.error)
    {
      log := log + [Request(verb, path, WithBearer(DefaultHeaders, storage.items))];
      match outcome
      case Ok(v) =>
        r := Ok(v);
      case Err(f) =>
        if f.status == Some(401) {
          storage.RemoveItem(TokenKey);
        }
        r := Err(Rejection(f));
    }
  }
}
