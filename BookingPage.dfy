/**
 * The demo booking page: a draft with a fixed service, rate and location,
 * whose date and time the user picks; submitting a complete draft stores it
 * under the `pendingBooking` storage key and moves on to the payment page.
 */
module BookingPage {
  import opened Wrappers

  /** The `bookingData` state record. */
  datatype BookingDraft = BookingDraft(service: string, rate: string, location: string, date: string, time: string)

  /** The draft the page starts with: Plumber at ₹500 in Pune, no date or time yet. */
  const InitialDraft := BookingDraft("Plumber", "\U{20B9}500", "Pune", "", "")

  class BookingForm {
    var bookingData: BookingDraft
    /** The `pendingBooking` storage entry. */
    var pendingBooking: Option<BookingDraft>
    /** The route navigated to, if any. */
    var route: Option<string>

    constructor (stored: Option<BookingDraft>)
      ensures bookingData == InitialDraft
      ensures pendingBooking == stored && route == None
    {
      bookingData := InitialDraft;
      pendingBooking := stored;
      route := None;
    }

    /** The date input: `{ ...bookingData, date: value }`. */
    method ChangeDate(value: string)
      modifies this`bookingData
      ensures bookingData.date == value
      ensures bookingData == old(bookingData).(date := value)
    {
      bookingData := bookingData.(date := value);
    }

    /** The time select: `{ ...bookingData, time: value }`. */
    method ChangeTime(value: string)
      modifies this`bookingData
      ensures bookingData.time == value
      ensures bookingData == old(bookingData).(time := value)
    {
      bookingData := bookingData.(time := value);
    }

    /**
     * `handleSubmit`: with an empty date or time it only alerts; otherwise it
     * stores exactly the current draft and navigates to `/payment`.
     */
    method HandleSubmit() returns (submitted: bool)
      modifies this`pendingBooking, this`route
      ensures submitted <==> bookingData.date != "" && bookingData.time != ""
      ensures submitted ==> pendingBooking == Some(bookingData) && route == Some("/payment")
      ensures !submitted ==> pendingBooking == old(pendingBooking) && route == old(route)
    {
      if bookingData.date == "" || bookingData.time == "" {
        return false;
      }
      pendingBooking := Some(bookingData);
      route := Some("/payment");
      submitted := true;
    }
  }
}
