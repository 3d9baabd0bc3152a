/**
 * The backend booking service: a repository of bookings keyed by id, the
 * creation of PENDING bookings, the per-user and per-provider listings, and
 * the status update, which parses a status name and overwrites the status
 * whatever the booking's current status is (there is no transition guard).
 */
module BookingService {
  import opened Wrappers
  import opened Text
  import opened Entities

  /** `Booking.BookingStatus.valueOf(name)`: exact match on a constant's name. */
  function ValueOf(name: string): (r: Result<BookingStatus, Exception>)
    ensures r.Success? ==> StatusName(r.value) == name
    ensures r.Failure? ==> forall s :: StatusName(s) != name
    ensures r.Failure? ==> r.error == IllegalArgument("No enum constant com.smarthub.entity.Booking.BookingStatus." + name)
  {
    if name == "PENDING" then Success(PENDING)
    else if name == "ACCEPTED" then Success(ACCEPTED)
    else if name == "REJECTED" then Success(REJECTED)
    else if name == "COMPLETED" then Success(COMPLETED)
    else if name == "CANCELLED" then Success(CANCELLED)
    else Failure(IllegalArgument("No enum constant com.smarthub.entity.Booking.BookingStatus." + name))
  }

  /**
   * `Booking.BookingStatus.valueOf(status.toUpperCase())`, where the status
   * comes from the request body's "status" key and may be missing (null).
   */
  function ParseStatus(status: Option<string>): (r: Result<BookingStatus, Exception>)
    ensures status.None? ==> r == Failure(NullPointer)
    ensures r.Success? ==> status.Some? && StatusName(r.value) == JavaUpperString(status.value)
    ensures status.Some? && r.Failure? ==> forall s :: StatusName(s) != JavaUpperString(status.value)
    ensures status.Some? && r.Failure? ==> r.error.IllegalArgument?
  {
    match status
    case None => Failure(NullPointer)
    case Some(name) => ValueOf(JavaUpperString(name))
  }

  /** Every constant is accepted under its own name and under its lower-case spelling. */
  lemma ParseStatusIgnoresCase(s: BookingStatus)
    ensures ParseStatus(Some(StatusName(s))) == Success(s)
    ensures ParseStatus(Some(AsciiLowerString(StatusName(s)))) == Success(s)
  {
    var name := StatusName(s);
    assert JavaUpperString(name) == name;
    var lower := AsciiLowerString(name);
    assert JavaUpperString(lower) == name;
  }

  /** `getUserBookings(userId)`: `findByUserId` over the repository. */
  function UserBookings(store: map<int, Booking>, userId: int): (r: map<int, Booking>)
    ensures r.Keys <= store.Keys
    ensures forall id :: id in r ==> r[id] == store[id] && r[id].userId == userId
    ensures forall id :: id in store && store[id].userId == userId ==> id in r
  {
    map id | id in store && store[id].userId == userId :: store[id]
  }

  /** `getProviderBookings(providerId)`: `findByProviderId` over the repository. */
  function ProviderBookings(store: map<int, Booking>, providerId: int): (r: map<int, Booking>)
    ensures r.Keys <= store.Keys
    ensures forall id :: id in r ==> r[id] == store[id] && r[id].providerId == providerId
    ensures forall id :: id in store && store[id].providerId == providerId ==> id in r
  {
    map id | id in store && store[id].providerId == providerId :: store[id]
  }

  /** `getAllBookings()`: `findAll` over the repository. */
  function AllBookings(store: map<int, Booking>): (r: map<int, Booking>)
    ensures r.Keys == store.Keys
    ensures forall id :: id in r ==> r[id] == store[id]
  {
    store
  }

  /**
   * Storing a booking under a fresh id adds it to its own user's and
   * provider's listings and leaves every other listing as it was.
   */
  lemma ListingsAfterInsert(store: map<int, Booking>, b: Booking, userId: int, providerId: int)
    requires b.bookingId !in store
    ensures UserBookings(store[b.bookingId := b], userId)
         == if b.userId == userId then UserBookings(store, userId)[b.bookingId := b] else UserBookings(store, userId)
    ensures ProviderBookings(store[b.bookingId := b], providerId)
         == if b.providerId == providerId then ProviderBookings(store, providerId)[b.bookingId := b] else ProviderBookings(store, providerId)
  {
    var after := store[b.bookingId := b];
    var u, u' := UserBookings(after, userId), UserBookings(store, userId);
    if b.userId == userId {
      assert u.Keys == u'.Keys + {b.bookingId};
      assert u == u'[b.bookingId := b];
    } else {
      assert u.Keys == u'.Keys;
    }
    var p, p' := ProviderBookings(after, providerId), ProviderBookings(store, providerId);
    if b.providerId == providerId {
      assert p.Keys == p'.Keys + {b.bookingId};
      assert p == p'[b.bookingId := b];
    } else {
      assert p.Keys == p'.Keys;
    }
  }

  /**
   * Overwriting the status of a stored booking keeps it in the same user and
   * provider listings: only the status of that one entry changes.
   */
  lemma ListingsAfterStatusChange(store: map<int, Booking>, id: int, s: BookingStatus, userId: int, providerId: int)
    requires id in store
    ensures UserBookings(store[id := store[id].(status := s)], userId).Keys == UserBookings(store, userId).Keys
    ensures ProviderBookings(store[id := store[id].(status := s)], providerId).Keys == ProviderBookings(store, providerId).Keys
  {
  }

  /** The service over its repository; ids come from the repository's own counter. */
  class BookingStore {
    var bookings: map<int, Booking>
    var nextId: int

    ghost predicate Valid()
      reads this
    {
      && nextId >= 1
      && forall id :: id in bookings ==> 1 <= id < nextId && bookings[id].bookingId == id
    }

    constructor ()
      ensures Valid() && bookings == map[]
    {
      bookings := map[];
      nextId := 1;
    }

    /** `createBooking(request)`: copy the request's fields, set PENDING, save under a new id. */
    method CreateBooking(request: BookingRequest) returns (saved: Booking)
      requires Valid()
      modifies this
      ensures Valid()
      ensures saved.bookingId !in old(bookings)
      ensures && saved.userId == request.userId
              && saved.providerId == request.providerId
              && saved.serviceType == request.serviceType
              && saved.bookingDate == request.bookingDate
              && saved.bookingTime == request.bookingTime
              && saved.status == PENDING
      ensures bookings == old(bookings)[saved.bookingId := saved]
    {
      var booking := Booking(0, request.userId, request.providerId, request.serviceType,
                             request.bookingDate, request.bookingTime, PENDING);
      saved := booking.(bookingId := nextId);
      bookings := bookings[nextId := saved];
      nextId := nextId + 1;
    }

    /**
     * `updateBookingStatus(bookingId, status)`: look the booking up (not found
     * is reported first), parse the name, then overwrite the status field only.
     * Any status may replace any other one.
     */
    method UpdateBookingStatus(bookingId: int, status: Option<string>) returns (r: Result<Booking, Exception>)
      requires Valid()
      modifies this
      ensures Valid() && nextId == old(nextId)
      ensures bookingId !in old(bookings) ==> r == Failure(ResourceNotFound("Booking not found"))
      ensures bookingId in old(bookings) && ParseStatus(status).Failure? ==> r == Failure(ParseStatus(status).error)
      ensures r.Success? <==> bookingId in old(bookings) && ParseStatus(status).Success?
      ensures r.Failure? ==> bookings == old(bookings)
      ensures r.Success? ==> && r.value == old(bookings)[bookingId].(status := ParseStatus(status).value)
                             && bookings == old(bookings)[bookingId := r.value]
    {
      if bookingId !in bookings {
        return Failure(ResourceNotFound("Booking not found"));
      }
      var booking := bookings[bookingId];
      var parsed := ParseStatus(status);
      if parsed.Failure? {
        return Failure(parsed.error);
      }
      booking := booking.(status := parsed.value);
      bookings := bookings[bookingId := booking];
      r := Success(booking);
    }
  }
}
