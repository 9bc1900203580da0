/** The notification service: its own HTTP client (with the same bearer
    interceptor as the room client but no response interceptor), a local
    guard on notification ids, and one error normaliser that always throws
    an `Error`. */
module NotificationService {
  import opened Wrappers
  import opened Api

  /** A notification as the server returns it; `kind` is the source's
      `type`. Channels, metadata and the read/update dates are not read by
      the client and are not modelled. */
  datatype Notification = Notification(
    id: int,
    userId: int,
    titre: string,
    message: string,
    kind: string,
    isRead: bool,
    createdAt: string)

  /** The routes under `/api/notifications`. Ids are JavaScript numbers,
      hence `real`. */
  datatype Endpoint =
    | Collection         // ''
    | Everyone           // '/all'
    | Mine               // '/me'
    | MineUnread         // '/me/unread'
    | ReadOne(id: real)  // '/{id}/read'
    | ReadAll            // '/me/read-all'
    | One(id: real)      // '/{id}'

  datatype NotificationRequest = NotificationRequest(verb: Verb, endpoint: Endpoint, headers: map<string, string>)

  const InvalidId: string := "ID de notification invalide"
  const GenericError: string := "Une erreur est survenue"

  /** The guard of `markAsRead` and `deleteNotification`: the id is falsy
      (0; NaN is not modelled) or not positive. */
  predicate IdRejected(id: real) {
    id == 0.0 || id <= 0.0
  }

  /** The guard rejects exactly the non-positive ids: a positive fractional
      id, which names no notification, is sent to the server. */
  lemma IdGuardBoundary(id: real)
    ensures IdRejected(id) <==> id <= 0.0
    ensures !IdRejected(1.5) && (1.5).Floor as real != 1.5
  {
  }

  /** `handleError`: what the service throws for a caught value. An axios
      error becomes an `Error` with the body's `message`, else its own
      message; an `Error` is rethrown as it is; anything else becomes the
      generic message. */
  function HandleError(e: Thrown): (r: Thrown)
    ensures r.PlainError?
    ensures e.PlainError? ==> r == e
    ensures e.AxiosError? && e.failure.dataMessage != "" ==> r.message == e.failure.dataMessage
    ensures e.AxiosError? && e.failure.dataMessage == "" ==> r.message == e.failure.message
    ensures e.NonError? ==> r.message == GenericError
  {
    match e
    case AxiosError(f) => PlainError(if f.dataMessage != "" then f.dataMessage else f.message)
    case PlainError(_) => e
    case NonError => PlainError(GenericError)
  }

  /** What the service throws is always an `Error`, so a caller's
      `err instanceof Error ? err.message : fallback` never uses its
      fallback; normalising twice changes nothing; and, unlike the room
      client, the body's `error` field is never consulted. */
  lemma ServiceErrorsAreErrors(e: Thrown, fallback: string)
    ensures MessageOr(HandleError(e), fallback) == HandleError(e).message
    ensures HandleError(HandleError(e)) == HandleError(e)
    ensures e.AxiosError? ==> HandleError(e) == HandleError(AxiosError(e.failure.(dataError := "")))
  {
  }

  function VerbOf(e: Endpoint): Verb {
    match e
    case Collection => Post
    case Everyone => Get
    case Mine => Get
    case MineUnread => Get
    case ReadOne(_) => Patch
    case ReadAll => Patch
    case One(_) => Delete
  }

  class Service {
    const storage: Storage.LocalStorage
    var log: seq<NotificationRequest>

    constructor (storage: Storage.LocalStorage)
      ensures this.storage == storage && log == []
    {
      this.storage := storage;
      log := [];
    }

    /** One request through the client: it is logged with the bearer header
        and a failure is normalised by `handleError`. */
    method Issue<T>(endpoint: Endpoint, outcome: Result<T, Thrown>) returns (r: Result<T, Thrown>)
      modifies this
      ensures log == old(log) + [NotificationRequest(VerbOf(endpoint), endpoint, WithBearer(DefaultHeaders, storage.items))]
      ensures r == if outcome.Ok? then Ok(outcome.value) else Err(HandleError(outcome.error))
    {
      log := log + [NotificationRequest(VerbOf(endpoint), endpoint, WithBearer(DefaultHeaders, storage.items))];
      match outcome
      case Ok(v) => r := Ok(v);
      case Err(e) => r := Err(HandleError(e));
    }

    /** `createNotification` (the request body is not modelled). */
    method CreateNotification(outcome: Result<Notification, Thrown>) returns (r: Result<Notification, Thrown>)
      modifies this
      ensures log == old(log) + [NotificationRequest(Post, Collection, WithBearer(DefaultHeaders, storage.items))]
      ensures r == if outcome.Ok? then Ok(outcome.value) else Err(HandleError(outcome.error))
    {
      r := Issue(Collection, outcome);
    }

    /** `getAllNotifications`. */
    method GetAllNotifications(outcome: Result<seq<Notification>, Thrown>) returns (r: Result<seq<Notification>, Thrown>)
      modifies this
      ensures log == old(log) + [NotificationRequest(Get, Everyone, WithBearer(DefaultHeaders, storage.items))]
      ensures r == if outcome.Ok? then Ok(outcome.value) else Err(HandleError(outcome.error))
    {
      r := Issue(Everyone, outcome);
    }

    /** `getMyNotifications`. */
    method GetMyNotifications(outcome: Result<seq<Notification>, Thrown>) returns (r: Result<seq<Notification>, Thrown>)
      modifies this
      ensures log == old(log) + [NotificationRequest(Get, Mine, WithBearer(DefaultHeaders, storage.items))]
      ensures r == if outcome.Ok? then Ok(outcome.value) else Err(HandleError(outcome.error))
    {
      r := Issue(Mine, outcome);
    }

    /** `getMyUnreadNotifications`. */
    method GetMyUnreadNotifications(outcome: Result<seq<Notification>, Thrown>) returns (r: Result<seq<Notification>, Thrown>)
      modifies this
      ensures log == old(log) + [NotificationRequest(Get, MineUnread, WithBearer(DefaultHeaders, storage.items))]
      ensures r == if outcome.Ok? then Ok(outcome.value) else Err(HandleError(outcome.error))
    {
      r := Issue(MineUnread, outcome);
    }

    /** `markAsRead`: a rejected id fails before any request is made. */
    method MarkAsRead(id: real, outcome: Result<(), Thrown>) returns (r: Result<(), Thrown>)
      modifies this
      ensures IdRejected(id) ==> r == Err(PlainError(InvalidId)) && log == old(log)
      ensures !IdRejected(id) ==> log == old(log) + [NotificationRequest(Patch, ReadOne(id), WithBearer(DefaultHeaders, storage.items))]
      ensures !IdRejected(id) ==> r == if outcome.Ok? then Ok(outcome.value) else Err(HandleError(outcome.error))
    {
      if id == 0.0 || id <= 0.0 {
        return Err(PlainError(InvalidId));
      }
      r := Issue(ReadOne(id), outcome);
    }

    /** `markAllAsRead`. */
    method MarkAllAsRead(outcome: Result<(), Thrown>) returns (r: Result<(), Thrown>)
      modifies this
      ensures log == old(log) + [NotificationRequest(Patch, ReadAll, WithBearer(DefaultHeaders, storage.items))]
      ensures r == if outcome.Ok? then Ok(outcome.value) else Err(HandleError(outcome.error))
    {
      r := Issue(ReadAll, outcome);
    }

    /** `deleteNotification`: the same guard as `markAsRead`. */
    method DeleteNotification(id: real, outcome: Result<(), Thrown>) returns (r: Result<(), Thrown>)
      modifies this
      ensures IdRejected(id) ==> r == Err(PlainError(InvalidId)) && log == old(log)
      ensures !IdRejected(id) ==> log == old(log) + [NotificationRequest(Delete, One(id), WithBearer(DefaultHeaders, storage.items))]
      ensures !IdRejected(id) ==> r == if outcome.Ok? then Ok(outcome.value) else Err(HandleError(outcome.error))
    {
      if id == 0.0 || id <= 0.0 {
        return Err(PlainError(InvalidId));
      }
      r := Issue(One(id), outcome);
    }

    /** `getUnreadCount`: the length of the unread list, or 0 on any
        failure; it never fails itself. */
    method GetUnreadCount(outcome: Result<seq<Notification>, Thrown>) returns (n: nat)
      modifies this
      ensures log == old(log) + [NotificationRequest(Get, MineUnread, WithBearer(DefaultHeaders, storage.items))]
      ensures n == if outcome.Ok? then |outcome.value| else 0
    {
      var unread := GetMyUnreadNotifications(outcome);
      match unread
      case Ok(v) => n := |v|;
      case Err(_) => n := 0;
    }
  }
}
