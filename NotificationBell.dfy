/**
 * The notification bell: the inbox fetch with its unread count, mark-read
 * requests followed by a refetch, the accept/reject handlers that call the
 * host page's callbacks, and the rule for when those buttons appear.
 * Requests the bell sends are recorded in order in `sent`; each response
 * the bell reads is a parameter (None for a failed or non-2xx fetch).
 */
module NotificationBell {
  import opened Wrappers

  datatype Notification = Notification(
    notificationId: int,
    receiverId: int,
    receiverType: string,
    message: string,
    kind: string,
    status: string,
    relatedBookingId: Option<int>,
    createdAt: string)

  datatype UserType = USER | PROVIDER

  datatype Request =
    | GetInbox(userId: int)
    | PatchRead(notificationId: int)
    | PatchReadAll(userId: int)
    | AcceptCallback(bookingId: int)
    | RejectCallback(bookingId: int)

  /** The notifications whose status is exactly "UNREAD", in order. */
  function Unread(ns: seq<Notification>): (r: seq<Notification>)
    ensures |r| <= |ns|
    ensures forall i :: 0 <= i < |r| ==> r[i].status == "UNREAD" && r[i] in ns
    ensures forall i :: 0 <= i < |ns| && ns[i].status == "UNREAD" ==> ns[i] in r
  {
    if ns == [] then []
    else (if ns[0].status == "UNREAD" then [ns[0]] else []) + Unread(ns[1..])
  }

  function UnreadCount(ns: seq<Notification>): (n: nat)
    ensures n <= |ns|
  {
    |Unread(ns)|
  }

  /**
   * The filter keeps every unread notification, duplicates included, in its
   * original order: appending one notification appends it to the unread list
   * exactly when it is unread, and so raises the count by one exactly then.
   */
  lemma {:induction false} UnreadAppend(ns: seq<Notification>, n: Notification)
    ensures Unread(ns + [n]) == Unread(ns) + (if n.status == "UNREAD" then [n] else [])
    ensures UnreadCount(ns + [n]) == UnreadCount(ns) + (if n.status == "UNREAD" then 1 else 0)
  {
    if ns == [] {
      assert ns + [n] == [n];
    } else {
      assert (ns + [n])[1..] == ns[1..] + [n];
      UnreadAppend(ns[1..], n);
    }
  }

  /** The badge and "Mark all read" show exactly when some notification is unread. */
  lemma BadgeShownIffUnread(ns: seq<Notification>)
    ensures UnreadCount(ns) > 0 <==> exists i :: 0 <= i < |ns| && ns[i].status == "UNREAD"
  {
    if UnreadCount(ns) > 0 {
      var u := Unread(ns);
      assert u[0] in ns;
    }
  }

  /** An inbox where nothing is unread shows no badge, whatever its length. */
  lemma {:induction false} AllReadCountsZero(ns: seq<Notification>)
    requires forall i :: 0 <= i < |ns| ==> ns[i].status != "UNREAD"
    ensures UnreadCount(ns) == 0
  {
    if ns != [] {
      AllReadCountsZero(ns[1..]);
    }
  }

  /**
   * Accept and Reject buttons: a provider's bell, a BOOKING_REQUEST
   * notification, and a related booking id that is present and not 0.
   */
  predicate ActionsOffered(userType: UserType, n: Notification) {
    userType == PROVIDER && n.kind == "BOOKING_REQUEST" && n.relatedBookingId.Some? && n.relatedBookingId.value != 0
  }

  /** A plain user's bell never offers the actions. */
  lemma UserBellOffersNoActions(n: Notification)
    ensures !ActionsOffered(USER, n)
  {
  }

  class Bell {
    const userId: int
    const userType: UserType
    /** Whether the host page passed `onAcceptBooking` / `onRejectBooking`. */
    const hasAcceptHandler: bool
    const hasRejectHandler: bool
    var notifications: seq<Notification>
    var unreadCount: int
    var sent: seq<Request>

    /** The count shown always agrees with the list shown. */
    ghost predicate Valid()
      reads this
    {
      unreadCount == UnreadCount(notifications)
    }

    constructor (userId: int, userType: UserType, hasAcceptHandler: bool, hasRejectHandler: bool)
      ensures Valid()
      ensures this.userId == userId && this.userType == userType
      ensures this.hasAcceptHandler == hasAcceptHandler && this.hasRejectHandler == hasRejectHandler
      ensures notifications == [] && unreadCount == 0 && sent == []
    {
      this.userId := userId;
      this.userType := userType;
      this.hasAcceptHandler := hasAcceptHandler;
      this.hasRejectHandler := hasRejectHandler;
      notifications := [];
      unreadCount := 0;
      sent := [];
    }

    /** `fetchNotifications`: a failed fetch keeps both the list and the count. */
    method FetchNotifications(response: Option<seq<Notification>>)
      requires Valid()
      modifies this`notifications, this`unreadCount, this`sent
      ensures Valid()
      ensures sent == old(sent) + [GetInbox(userId)]
      ensures notifications == if response.Some? then response.value else old(notifications)
    {
      sent := sent + [GetInbox(userId)];
      if response.Some? {
        notifications := response.value;
        unreadCount := |Unread(response.value)|;
      }
    }

    /**
     * `markAsRead`: the PATCH, then a refetch unless the PATCH itself threw
     * (a network failure; an error status does not throw).
     */
    method MarkAsRead(notificationId: int, patchThrew: bool, refetch: Option<seq<Notification>>)
      requires Valid()
      modifies this`notifications, this`unreadCount, this`sent
      ensures Valid()
      ensures sent == old(sent) + [PatchRead(notificationId)] + (if patchThrew then [] else [GetInbox(userId)])
      ensures notifications == if !patchThrew && refetch.Some? then refetch.value else old(notifications)
    {
      sent := sent + [PatchRead(notificationId)];
      if !patchThrew {
        FetchNotifications(refetch);
      }
    }

    /** `markAllAsRead`: as `markAsRead`, for the whole inbox of this user. */
    method MarkAllAsRead(patchThrew: bool, refetch: Option<seq<Notification>>)
      requires Valid()
      modifies this`notifications, this`unreadCount, this`sent
      ensures Valid()
      ensures sent == old(sent) + [PatchReadAll(userId)] + (if patchThrew then [] else [GetInbox(userId)])
      ensures notifications == if !patchThrew && refetch.Some? then refetch.value else old(notifications)
    {
      sent := sent + [PatchReadAll(userId)];
      if !patchThrew {
        FetchNotifications(refetch);
      }
    }

    /**
     * `handleAccept`: without a callback nothing happens. Otherwise the
     * callback gets the booking id first, then the notification is marked
     * read, then the inbox is fetched once more.
     */
    method HandleAccept(bookingId: int, notificationId: int, patchThrew: bool,
                        refetch: Option<seq<Notification>>, lastFetch: Option<seq<Notification>>)
      requires Valid()
      modifies this`notifications, this`unreadCount, this`sent
      ensures Valid()
      ensures !hasAcceptHandler ==> sent == old(sent) && notifications == old(notifications) && unreadCount == old(unreadCount)
      ensures hasAcceptHandler ==>
                sent == old(sent) + [AcceptCallback(bookingId), PatchRead(notificationId)]
                        + (if patchThrew then [] else [GetInbox(userId)]) + [GetInbox(userId)]
      ensures hasAcceptHandler ==>
                notifications == if lastFetch.Some? then lastFetch.value
                                 else if !patchThrew && refetch.Some? then refetch.value
                                 else old(notifications)
    {
      if hasAcceptHandler {
        sent := sent + [AcceptCallback(bookingId)];
        MarkAsRead(notificationId, patchThrew, refetch);
        FetchNotifications(lastFetch);
      }
    }

    /** `handleReject`: the same sequence with the reject callback. */
    method HandleReject(bookingId: int, notificationId: int, patchThrew: bool,
                        refetch: Option<seq<Notification>>, lastFetch: Option<seq<Notification>>)
      requires Valid()
      modifies this`notifications, this`unreadCount, this`sent
      ensures Valid()
      ensures !hasRejectHandler ==> sent == old(sent) && notifications == old(notifications) && unreadCount == old(unreadCount)
      ensures hasRejectHandler ==>
                sent == old(sent) + [RejectCallback(bookingId), PatchRead(notificationId)]
                        + (if patchThrew then [] else [GetInbox(userId)]) + [GetInbox(userId)]
      ensures hasRejectHandler ==>
                notifications == if lastFetch.Some? then lastFetch.value
                                 else if !patchThrew && refetch.Some? then refetch.value
                                 else old(notifications)
    {
      if hasRejectHandler {
        sent := sent + [RejectCallback(bookingId)];
        MarkAsRead(notificationId, patchThrew, refetch);
        FetchNotifications(lastFetch);
      }
    }
  }
}
