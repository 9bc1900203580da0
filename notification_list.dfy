/** The full notification list of a user's page: all or only the unread
    notifications, an error banner, and the read, read-all and delete
    handlers, each of which reloads the list after a success. */
module NotificationList {
  import opened Wrappers
  import opened Ascii
  import opened Api
  import opened NotificationService
  import opened NotificationDropdown

  const LoadFallback: string := "Failed to load notifications"
  const MarkFallback: string := "Failed to mark as read"
  const MarkAllFallback: string := "Failed to mark all as read"
  const DeleteFallback: string := "Failed to delete notification"

  /** The five notification types the list knows how to decorate. */
  predicate KnownKind(kind: string) {
    kind == "grade" || kind == "exam" || kind == "absence" || kind == "homework" || kind == "event"
  }

  const DefaultIcon: string := "📢"
  const DefaultColor: string := "bg-gray-100 text-gray-800"

  /** `getNotificationIcon`. */
  function Icon(kind: string): (r: string)
    ensures r == DefaultIcon <==> !KnownKind(kind)
    ensures kind == "grade" ==> r == "📊"
    ensures kind == "exam" ==> r == "📝"
    ensures kind == "absence" ==> r == "⚠️"
    ensures kind == "homework" ==> r == "📚"
    ensures kind == "event" ==> r == "📅"
  {
    if kind == "grade" then "📊"
    else if kind == "exam" then "📝"
    else if kind == "absence" then "⚠️"
    else if kind == "homework" then "📚"
    else if kind == "event" then "📅"
    else DefaultIcon
  }

  /** `getNotificationColor`. */
  function Color(kind: string): (r: string)
    ensures r == DefaultColor <==> !KnownKind(kind)
    ensures kind == "grade" ==> r == "bg-blue-100 text-blue-800"
    ensures kind == "exam" ==> r == "bg-purple-100 text-purple-800"
    ensures kind == "absence" ==> r == "bg-red-100 text-red-800"
    ensures kind == "homework" ==> r == "bg-green-100 text-green-800"
    ensures kind == "event" ==> r == "bg-yellow-100 text-yellow-800"
  {
    if kind == "grade" then "bg-blue-100 text-blue-800"
    else if kind == "exam" then "bg-purple-100 text-purple-800"
    else if kind == "absence" then "bg-red-100 text-red-800"
    else if kind == "homework" then "bg-green-100 text-green-800"
    else if kind == "event" then "bg-yellow-100 text-yellow-800"
    else DefaultColor
  }

  /** Icon and colour pick the same five types apart: two types share a
      decoration only when they are the same type or both unknown, and the
      lookup is case-sensitive. */
  lemma DecorationsDistinguishKinds(k1: string, k2: string)
    ensures Icon(k1) == Icon(k2) <==> k1 == k2 || (!KnownKind(k1) && !KnownKind(k2))
    ensures Color(k1) == Color(k2) <==> k1 == k2 || (!KnownKind(k1) && !KnownKind(k2))
    ensures Icon("Grade") == DefaultIcon && Color("Grade") == DefaultColor
  {
  }

  /** The list's `formatDate`: the panel's buckets plus whole days under a
      week. */
  function ListAge(diff: int): (a: Age)
    ensures a.DaysAgo? ==> 1 <= a.days < 7 && a.days * 86400 <= diff < (a.days + 1) * 86400
    ensures a.CalendarDate? <==> diff >= 604800
  {
    if diff < 60 then JustNow
    else if diff < 3600 then MinutesAgo(diff / 60)
    else if diff < 86400 then HoursAgo(diff / 3600)
    else if diff < 604800 then DaysAgo(diff / 86400)
    else CalendarDate
  }

  /** The two `formatDate`s agree for anything younger than a day; from a
      day to a week the list counts days where the panel shows a date. */
  lemma AgesAgreeWithinADay(diff: int)
    ensures diff < 86400 ==> ListAge(diff) == PanelAge(diff)
    ensures 86400 <= diff < 604800 ==> ListAge(diff).DaysAgo? && PanelAge(diff).CalendarDate?
    ensures diff >= 604800 ==> ListAge(diff) == PanelAge(diff)
  {
  }

  /** The six kinds of user the list is written for. */
  const UserTypes: set<string> :=
    {"etudiant", "parent", "enseignant", "adminsysteme", "adminpedagogique", "admincontenue"}

  /** The heading for each kind of user; any other value gets the content
      administrator's heading. */
  function Heading(userType: string): (r: string)
    ensures userType == "etudiant" ==> r == "Mes Notifications"
    ensures userType == "parent" ==> r == "Notifications Parents"
    ensures userType == "enseignant" ==> r == "Notifications Enseignant"
    ensures userType == "adminsysteme" ==> r == "Notifications Admin Système"
    ensures userType == "adminpedagogique" ==> r == "Notifications Admin Pédagogique"
    ensures userType == "admincontenue" ==> r == "Notifications Admin Contenue"
    ensures r == "Notifications Admin Contenue" <==>
      userType != "etudiant" && userType != "parent" && userType != "enseignant"
      && userType != "adminsysteme" && userType != "adminpedagogique"
  {
    if userType == "etudiant" then "Mes Notifications"
    else if userType == "parent" then "Notifications Parents"
    else if userType == "enseignant" then "Notifications Enseignant"
    else if userType == "adminsysteme" then "Notifications Admin Système"
    else if userType == "adminpedagogique" then "Notifications Admin Pédagogique"
    else "Notifications Admin Contenue"
  }

  /** The six kinds of user get six different headings. */
  lemma HeadingsDistinguishUsers(a: string, b: string)
    requires a in UserTypes && b in UserTypes
    ensures Heading(a) == Heading(b) <==> a == b
  {
  }

  const Noun: string := " notification"

  /** The counter under the heading: the number, then the noun, plural
      unless the number is exactly one. */
  function CountLabel(n: nat): (r: string)
    ensures |r| == |NatToString(n)| + |Noun| + (if n == 1 then 0 else 1)
    ensures r[..|NatToString(n)|] == NatToString(n)
    ensures DigitsValue(r[..|NatToString(n)|]) == n
    ensures r[|r| - 1] == 's' <==> n != 1
  {
    NatToStringRoundTrip(n);
    NatToString(n) + Noun + (if n != 1 then "s" else "")
  }

  /** The message a caught failure leaves in the banner. */
  function Banner(e: Thrown, fallback: string): string {
    MessageOr(e, fallback)
  }

  /** The component's state. */
  class List {
    var notifications: seq<Notification>
    var unreadOnly: bool
    var loading: bool
    var error: Option<string>
    const userType: string
    const service: Service

    constructor (userType: string, service: Service)
      ensures this.userType == userType && this.service == service
      ensures notifications == [] && !unreadOnly && loading && error == None
    {
      this.userType := userType;
      this.service := service;
      notifications := [];
      unreadOnly := false;
      loading := true;
      error := None;
    }

    /** The endpoint `loadNotifications` reads. */
    function Source(): Endpoint
      reads this
    {
      if unreadOnly then MineUnread else Mine
    }

    /** `loadNotifications`: the banner is cleared, then either the list is
        replaced or the banner holds the service's message. */
    method Load(outcome: Result<seq<Notification>, Thrown>)
      modifies this, service
      ensures service.log == old(service.log) + [NotificationRequest(Get, old(Source()), WithBearer(DefaultHeaders, service.storage.items))]
      ensures !loading && unreadOnly == old(unreadOnly)
      ensures outcome.Ok? ==> notifications == outcome.value && error == None
      ensures outcome.Err? ==> notifications == old(notifications)
      ensures outcome.Err? ==> error == Some(HandleError(outcome.error).message)
    {
      loading := true;
      error := None;
      var data: Result<seq<Notification>, Thrown>;
      if unreadOnly {
        data := service.GetMyUnreadNotifications(outcome);
      } else {
        data := service.GetMyNotifications(outcome);
      }
      match data {
        case Ok(v) => notifications := v;
        case Err(e) =>
          ServiceErrorsAreErrors(outcome.error, LoadFallback);
          error := Some(Banner(e, LoadFallback));
      }
      loading := false;
    }

    /** The "Toutes" / "Non lues" button: the filter flips and, since the
        loader depends on it, the list is reloaded from the other endpoint. */
    method ToggleUnreadOnly(outcome: Result<seq<Notification>, Thrown>)
      modifies this, service
      ensures unreadOnly == !old(unreadOnly) && !loading
      ensures service.log == old(service.log) + [NotificationRequest(Get, if old(unreadOnly) then Mine else MineUnread, WithBearer(DefaultHeaders, service.storage.items))]
      ensures outcome.Ok? ==> notifications == outcome.value && error == None
      ensures outcome.Err? ==> notifications == old(notifications) && error == Some(HandleError(outcome.error).message)
    {
      unreadOnly := !unreadOnly;
      Load(outcome);
    }

    /** "Marquer comme lu": a success reloads the list, a failure (the id
        guard included) puts the service's message in the banner. */
    method HandleMarkAsRead(id: real, outcome: Result<(), Thrown>, reload: Result<seq<Notification>, Thrown>)
      modifies this, service
      ensures unreadOnly == old(unreadOnly)
      ensures IdRejected(id) ==>
        error == Some(InvalidId) && notifications == old(notifications) && service.log == old(service.log) && loading == old(loading)
      ensures !IdRejected(id) && outcome.Err? ==>
        error == Some(HandleError(outcome.error).message) && notifications == old(notifications)
      ensures !IdRejected(id) && outcome.Ok? && reload.Ok? ==> notifications == reload.value && error == None
      ensures !IdRejected(id) && outcome.Err? ==>
        service.log == old(service.log) + [NotificationRequest(Patch, ReadOne(id), WithBearer(DefaultHeaders, service.storage.items))]
        && loading == old(loading)
      ensures !IdRejected(id) && outcome.Ok? ==>
        service.log == old(service.log) + [NotificationRequest(Patch, ReadOne(id), WithBearer(DefaultHeaders, service.storage.items)),
                                           NotificationRequest(Get, old(Source()), WithBearer(DefaultHeaders, service.storage.items))]
        && !loading
      ensures !IdRejected(id) && outcome.Ok? && reload.Err? ==>
        notifications == old(notifications) && error == Some(HandleError(reload.error).message)
    {
      var r := service.MarkAsRead(id, outcome);
      match r
      case Ok(_) => Load(reload);
      case Err(e) => error := Some(Banner(e, MarkFallback));
    }

    /** "Marquer tout comme lu". */
    method HandleMarkAllAsRead(outcome: Result<(), Thrown>, reload: Result<seq<Notification>, Thrown>)
      modifies this, service
      ensures unreadOnly == old(unreadOnly)
      ensures outcome.Err? ==> error == Some(HandleError(outcome.error).message) && notifications == old(notifications)
      ensures outcome.Ok? && reload.Ok? ==> notifications == reload.value && error == None
      ensures outcome.Err? ==>
        service.log == old(service.log) + [NotificationRequest(Patch, ReadAll, WithBearer(DefaultHeaders, service.storage.items))]
        && loading == old(loading)
      ensures outcome.Ok? ==>
        service.log == old(service.log) + [NotificationRequest(Patch, ReadAll, WithBearer(DefaultHeaders, service.storage.items)),
                                           NotificationRequest(Get, old(Source()), WithBearer(DefaultHeaders, service.storage.items))]
        && !loading
      ensures outcome.Ok? && reload.Err? ==>
        notifications == old(notifications) && error == Some(HandleError(reload.error).message)
    {
      var r := service.MarkAllAsRead(outcome);
      match r
      case Ok(_) => Load(reload);
      case Err(e) => error := Some(Banner(e, MarkAllFallback));
    }

    /** "Supprimer": the same guard as marking one as read. */
    method HandleDelete(id: real, outcome: Result<(), Thrown>, reload: Result<seq<Notification>, Thrown>)
      modifies this, service
      ensures unreadOnly == old(unreadOnly)
      ensures IdRejected(id) ==>
        error == Some(InvalidId) && notifications == old(notifications) && service.log == old(service.log) && loading == old(loading)
      ensures !IdRejected(id) && outcome.Err? ==>
        error == Some(HandleError(outcome.error).message) && notifications == old(notifications)
      ensures !IdRejected(id) && outcome.Ok? && reload.Ok? ==> notifications == reload.value && error == None
      ensures !IdRejected(id) && outcome.Err? ==>
        service.log == old(service.log) + [NotificationRequest(Delete, One(id), WithBearer(DefaultHeaders, service.storage.items))]
        && loading == old(loading)
      ensures !IdRejected(id) && outcome.Ok? ==>
        service.log == old(service.log) + [NotificationRequest(Delete, One(id), WithBearer(DefaultHeaders, service.storage.items)),
                                           NotificationRequest(Get, old(Source()), WithBearer(DefaultHeaders, service.storage.items))]
        && !loading
      ensures !IdRejected(id) && outcome.Ok? && reload.Err? ==>
        notifications == old(notifications) && error == Some(HandleError(reload.error).message)
    {
      var r := service.DeleteNotification(id, outcome);
      match r
      case Ok(_) => Load(reload);
      case Err(e) => error := Some(Banner(e, DeleteFallback));
    }
  }

  /** The buttons under one notification. */
  datatype Action = MarkRead(id: int) | Remove(id: int)

  /** An unread notification offers "mark as read" before "delete"; a
      read one offers only "delete". */
  function ItemActions(n: Notification): (r: seq<Action>)
    ensures MarkRead(n.id) in r <==> !n.isRead
    ensures |r| > 0 && r[|r| - 1] == Remove(n.id)
    ensures forall a :: a in r ==> a.id == n.id
    ensures |r| == if n.isRead then 1 else 2
  {
    (if n.isRead then [] else [MarkRead(n.id)]) + [Remove(n.id)]
  }

  /** None of the four fallback messages can ever reach the banner: every
      failure the service reports is an `Error` carrying its own message. */
  lemma FallbacksUnreachable(e: Thrown)
    ensures Banner(HandleError(e), LoadFallback) == HandleError(e).message
    ensures Banner(HandleError(e), MarkFallback) == HandleError(e).message
    ensures Banner(HandleError(e), MarkAllFallback) == HandleError(e).message
    ensures Banner(HandleError(e), DeleteFallback) == HandleError(e).message
  {
    ServiceErrorsAreErrors(e, LoadFallback);
    ServiceErrorsAreErrors(e, MarkFallback);
    ServiceErrorsAreErrors(e, MarkAllFallback);
    ServiceErrorsAreErrors(e, DeleteFallback);
  }
}
