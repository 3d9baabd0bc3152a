/**
 * The user's bookings view: the role-guarded fetch, the local cancel (which
 * never reaches the backend), the status badge table and the rule for when
 * the cancel button is shown.
 */
module MyBookings {
  import opened Wrappers
  import opened Text
  import opened Entities
  import opened Sessions
  import opened Badges

  /** The list after a local cancel: every booking with `id` gets status CANCELLED. */
  function Cancelled(bs: seq<Booking>, id: int): (r: seq<Booking>)
    ensures |r| == |bs|
    ensures forall i :: 0 <= i < |bs| && bs[i].bookingId == id ==> r[i] == bs[i].(status := CANCELLED)
    ensures forall i :: 0 <= i < |bs| && bs[i].bookingId != id ==> r[i] == bs[i]
  {
    if bs == [] then []
    else [if bs[0].bookingId == id then bs[0].(status := CANCELLED) else bs[0]] + Cancelled(bs[1..], id)
  }

  /** Cancelling the same id twice is cancelling it once. */
  lemma {:induction false} CancelIdempotent(bs: seq<Booking>, id: int)
    ensures Cancelled(Cancelled(bs, id), id) == Cancelled(bs, id)
  {
    if bs != [] {
      CancelIdempotent(bs[1..], id);
    }
  }

  /** Cancelling an id no booking carries changes nothing. */
  lemma {:induction false} CancelUnknownId(bs: seq<Booking>, id: int)
    requires forall i :: 0 <= i < |bs| ==> bs[i].bookingId != id
    ensures Cancelled(bs, id) == bs
  {
    if bs != [] {
      CancelUnknownId(bs[1..], id);
    }
  }

  /** Cancels of different ids commute, so the order of clicks does not matter. */
  lemma {:induction false} CancelsCommute(bs: seq<Booking>, id1: int, id2: int)
    ensures Cancelled(Cancelled(bs, id1), id2) == Cancelled(Cancelled(bs, id2), id1)
  {
    if bs != [] {
      CancelsCommute(bs[1..], id1, id2);
    }
  }

  /** The cancel button is rendered only for a booking that is still PENDING. */
  predicate CancelOffered(b: Booking) {
    b.status == PENDING
  }

  /** Once cancelled, a booking no longer offers the cancel button; the others keep theirs. */
  lemma CancelWithdrawsOffer(bs: seq<Booking>, id: int, i: int)
    requires 0 <= i < |bs|
    ensures CancelOffered(Cancelled(bs, id)[i]) <==> bs[i].bookingId != id && CancelOffered(bs[i])
  {
  }

  datatype Icon = CheckCircle | XCircle

  datatype StatusBadge = StatusBadge(variant: Variant, caption: string, icon: Option<Icon>)

  /**
   * `getStatusBadge`: the caption is the status name with all but its first
   * letter in lower case; the two terminal refusals are destructive, and only
   * PENDING has no icon.
   */
  function Badge(s: BookingStatus): (b: StatusBadge)
    ensures |b.caption| == |StatusName(s)| && b.caption[0] == StatusName(s)[0]
    ensures b.caption[1..] == AsciiLowerString(StatusName(s)[1..])
    ensures b.variant == Destructive <==> s == REJECTED || s == CANCELLED
    ensures b.icon.None? <==> s == PENDING
    ensures b.icon == Some(XCircle) <==> b.variant == Destructive
  {
    match s
    case PENDING => StatusBadge(Secondary, "Pending", None)
    case ACCEPTED => StatusBadge(Default, "Accepted", Some(CheckCircle))
    case REJECTED => StatusBadge(Destructive, "Rejected", Some(XCircle))
    case COMPLETED => StatusBadge(Outline, "Completed", Some(CheckCircle))
    case CANCELLED => StatusBadge(Destructive, "Cancelled", Some(XCircle))
  }

  /** No two statuses share a caption. */
  lemma BadgeLabelsDistinct(s: BookingStatus, t: BookingStatus)
    requires s != t
    ensures Badge(s).caption != Badge(t).caption
  {
    assert Badge(s).caption[0] == StatusName(s)[0];
    assert Badge(t).caption[0] == StatusName(t)[0];
  }

  class BookingsView {
    /** The session read once from storage when the page mounts. */
    const session: Option<LoginSession>
    var bookings: seq<Booking>
    var loading: bool
    /** The user ids whose bookings were requested, in order. */
    var requested: seq<int>

    constructor (session: Option<LoginSession>)
      ensures this.session == session && bookings == [] && !loading && requested == []
    {
      this.session := session;
      bookings := [];
      loading := false;
      requested := [];
    }

    /**
     * `fetchBookings`: nothing is sent unless a USER is logged in. A 2xx answer
     * replaces the list (a null body stores the empty list); any failure keeps it.
     */
    method FetchBookings(response: Option<Option<seq<Booking>>>) returns (sent: bool)
      modifies this`bookings, this`loading, this`requested
      ensures sent <==> LoggedInAsUser(session)
      ensures !sent ==> bookings == old(bookings) && loading == old(loading) && requested == old(requested)
      ensures sent ==> requested == old(requested) + [session.value.id] && !loading
      ensures sent ==> bookings == if response.Some? then response.value.GetOr([]) else old(bookings)
    {
      if !LoggedInAsUser(session) {
        return false;
      }
      loading := true;
      requested := requested + [session.value.id];
      if response.Some? {
        bookings := response.value.GetOr([]);
      }
      loading := false;
      sent := true;
    }

    /** `handleCancel`: a local change only; the current status is not checked. */
    method HandleCancel(id: int)
      modifies this`bookings
      ensures bookings == Cancelled(old(bookings), id)
    {
      bookings := Cancelled(bookings, id);
    }
  }
}
