/**
 * The records exchanged between the backend services and the web pages:
 * the booking entity and its status enumeration, the booking request body,
 * the service-provider entity, and the exceptions the services throw.
 * The entity classes themselves are not part of this model; their fields
 * are the ones the services and pages read and write.
 */
module Entities {

  /** `Booking.BookingStatus`, with the five constants the booking pages expect. */
  datatype BookingStatus = PENDING | ACCEPTED | REJECTED | COMPLETED | CANCELLED

  /** The constant's name, as `Enum.name()` returns it. */
  function StatusName(s: BookingStatus): (name: string)
    ensures |name| >= 7
    ensures forall i :: 0 <= i < |name| ==> 'A' <= name[i] <= 'Z'
  {
    match s
    case PENDING => "PENDING"
    case ACCEPTED => "ACCEPTED"
    case REJECTED => "REJECTED"
    case COMPLETED => "COMPLETED"
    case CANCELLED => "CANCELLED"
  }

  /** Distinct constants have distinct names, so a name identifies at most one constant. */
  lemma StatusNameInjective(s: BookingStatus, t: BookingStatus)
    ensures StatusName(s) == StatusName(t) ==> s == t
  {
  }

  /** A stored booking, as the backend returns it in JSON. */
  datatype Booking = Booking(
    bookingId: int,
    userId: int,
    providerId: int,
    serviceType: string,
    bookingDate: string,
    bookingTime: string,
    status: BookingStatus)

  /** The body of `POST /api/bookings`. */
  datatype BookingRequest = BookingRequest(
    userId: int,
    providerId: int,
    serviceType: string,
    bookingDate: string,
    bookingTime: string)

  /**
   * A service provider row. `other` stands for the entity's remaining
   * columns (such as its login credentials), which no core operation writes.
   */
  datatype ServiceProvider = ServiceProvider(
    providerId: int,
    fullName: string,
    email: string,
    mobile: string,
    serviceType: string,
    experience: int,
    price: int,
    availability: string,
    location: string,
    other: map<string, string>)

  /** The exceptions the services let escape to their callers. */
  datatype Exception =
    | ResourceNotFound(message: string)
    | IllegalArgument(message: string)
    | NullPointer
    | UnsupportedOperation(message: string)
}
