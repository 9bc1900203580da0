/** The bell in the navigation bar: it loads the unread notifications,
    shows the first five of them and a badge with their number, and opens
    and closes a panel. */
module NotificationDropdown {
  import opened Wrappers
  import opened Ascii
  import opened Seqs
  import opened Api
  import opened NotificationService

  const ShownLimit: nat := 5
  const ManyUnread: string := "9+"

  /** The badge on the bell: absent without unread notifications, the
      number itself up to nine, "9+" beyond. */
  function BadgeLabel(unreadCount: int): (r: Option<string>)
    ensures r.Some? <==> unreadCount > 0
    ensures unreadCount > 9 ==> r == Some(ManyUnread)
    ensures 0 < unreadCount <= 9 ==>
      |r.value| == 1 && IsDigit(r.value[0]) && DigitsValue(r.value) == unreadCount
    ensures r.Some? ==> 1 <= |r.value| <= 2
  {
    if unreadCount <= 0 then None
    else if unreadCount > 9 then Some(ManyUnread)
    else
      NatToStringRoundTrip(unreadCount);
      Some(NatToString(unreadCount))
  }

  /** The panel offers "mark all as read" exactly when the bell shows a
      badge. */
  function MarkAllOffered(unreadCount: int): (r: bool)
    ensures r <==> BadgeLabel(unreadCount).Some?
  {
    unreadCount > 0
  }

  /** How long ago a notification was created, as the panel words it. */
  datatype Age = JustNow | MinutesAgo(minutes: nat) | HoursAgo(hours: nat) | DaysAgo(days: nat) | CalendarDate

  /** The text of an age; `None` stands for the locale date, which is not
      modelled. */
  function AgeText(a: Age): Option<string> {
    match a
    case JustNow => Some("Just now")
    case MinutesAgo(m) => Some(NatToString(m) + "m ago")
    case HoursAgo(h) => Some(NatToString(h) + "h ago")
    case DaysAgo(d) => Some(NatToString(d) + "d ago")
    case CalendarDate => None
  }

  /** The panel's `formatDate` on a difference of `diff` whole seconds:
      under a minute, whole minutes under an hour, whole hours under a day,
      then the calendar date. */
  function PanelAge(diff: int): (a: Age)
    ensures a.JustNow? <==> diff < 60
    ensures a.MinutesAgo? ==> 1 <= a.minutes < 60 && a.minutes * 60 <= diff < (a.minutes + 1) * 60
    ensures a.HoursAgo? ==> 1 <= a.hours < 24 && a.hours * 3600 <= diff < (a.hours + 1) * 3600
    ensures a.CalendarDate? <==> diff >= 86400
    ensures !a.DaysAgo?
  {
    if diff < 60 then JustNow
    else if diff < 3600 then MinutesAgo(diff / 60)
    else if diff < 86400 then HoursAgo(diff / 3600)
    else CalendarDate
  }

  /** The widget's state. */
  class Dropdown {
    var isOpen: bool
    var notifications: seq<Notification>
    var unreadCount: nat
    var loading: bool
    const service: Service

    /** What the panel shows never exceeds five items, nor the count. */
    predicate Valid()
      reads this
    {
      |notifications| <= ShownLimit && |notifications| <= unreadCount
    }

    constructor (service: Service)
      ensures this.service == service && Valid()
      ensures !isOpen && notifications == [] && unreadCount == 0 && !loading
    {
      this.service := service;
      isOpen := false;
      notifications := [];
      unreadCount := 0;
      loading := false;
    }

    /** `loadNotifications`: the first five unread notifications and their
        total; a failure keeps the previous ones. */
    method LoadNotifications(outcome: Result<seq<Notification>, Thrown>)
      requires Valid()
      modifies this, service
      ensures Valid() && !loading && isOpen == old(isOpen)
      ensures service.log == old(service.log) + [NotificationRequest(Get, MineUnread, WithBearer(DefaultHeaders, service.storage.items))]
      ensures outcome.Ok? ==> notifications == Take(outcome.value, ShownLimit) && unreadCount == |outcome.value|
      ensures outcome.Err? ==> notifications == old(notifications) && unreadCount == old(unreadCount)
    {
      loading := true;
      var data := service.GetMyUnreadNotifications(outcome);
      if data.Ok? {
        notifications := Take(data.value, ShownLimit);
        unreadCount := |data.value|;
      }
      loading := false;
    }

    /** The bell: open or close the panel. */
    method Toggle()
      modifies this
      ensures isOpen == !old(isOpen)
      ensures notifications == old(notifications) && unreadCount == old(unreadCount) && loading == old(loading)
    {
      isOpen := !isOpen;
    }

    /** The backdrop, a click on an item and the link to the full list all
        close the panel. */
    method Close()
      modifies this
      ensures !isOpen
      ensures notifications == old(notifications) && unreadCount == old(unreadCount) && loading == old(loading)
    {
      isOpen := false;
    }

    /** "Marquer comme lu" on one item (the click does not reach the item,
        so the panel stays as it is): a reload follows only a success. */
    method HandleMarkAsRead(id: real, outcome: Result<(), Thrown>, reload: Result<seq<Notification>, Thrown>)
      requires Valid()
      modifies this, service
      ensures Valid() && isOpen == old(isOpen)
      ensures !IdRejected(id) && outcome.Ok? && reload.Ok? ==>
        notifications == Take(reload.value, ShownLimit) && unreadCount == |reload.value|
      ensures IdRejected(id) || outcome.Err? || reload.Err? ==>
        notifications == old(notifications) && unreadCount == old(unreadCount)
      ensures IdRejected(id) ==> service.log == old(service.log) && loading == old(loading)
      ensures !IdRejected(id) && outcome.Err? ==>
        service.log == old(service.log) + [NotificationRequest(Patch, ReadOne(id), WithBearer(DefaultHeaders, service.storage.items))]
        && loading == old(loading)
      ensures !IdRejected(id) && outcome.Ok? ==>
        service.log == old(service.log) + [NotificationRequest(Patch, ReadOne(id), WithBearer(DefaultHeaders, service.storage.items)),
                                           NotificationRequest(Get, MineUnread, WithBearer(DefaultHeaders, service.storage.items))]
        && !loading
    {
      var r := service.MarkAsRead(id, outcome);
      if r.Ok? {
        LoadNotifications(reload);
      }
    }

    /** "Marquer tout comme lu", offered only while `unreadCount > 0`: a
        reload follows only a success. */
    method HandleMarkAllAsRead(outcome: Result<(), Thrown>, reload: Result<seq<Notification>, Thrown>)
      requires Valid()
      modifies this, service
      ensures Valid() && isOpen == old(isOpen)
      ensures outcome.Ok? && reload.Ok? ==>
        notifications == Take(reload.value, ShownLimit) && unreadCount == |reload.value|
      ensures outcome.Err? || reload.Err? ==>
        notifications == old(notifications) && unreadCount == old(unreadCount)
      ensures outcome.Err? ==>
        service.log == old(service.log) + [NotificationRequest(Patch, ReadAll, WithBearer(DefaultHeaders, service.storage.items))]
        && loading == old(loading)
      ensures outcome.Ok? ==>
        service.log == old(service.log) + [NotificationRequest(Patch, ReadAll, WithBearer(DefaultHeaders, service.storage.items)),
                                           NotificationRequest(Get, MineUnread, WithBearer(DefaultHeaders, service.storage.items))]
        && !loading
    {
      var r := service.MarkAllAsRead(outcome);
      if r.Ok? {
        LoadNotifications(reload);
      }
    }
  }

  /** A successful load shows a prefix of the unread list, at most five
      items, and all of them when there are five or fewer. */
  lemma ShownIsPrefix(data: seq<Notification>)
    ensures |Take(data, ShownLimit)| <= ShownLimit
    ensures Take(data, ShownLimit) == data[..|Take(data, ShownLimit)|]
    ensures |data| <= ShownLimit ==> Take(data, ShownLimit) == data
  {
  }
}
