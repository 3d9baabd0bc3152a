# SmartHub booking core in Dafny

SmartHub is a home-services marketplace. A user finds a service provider,
books a date and time, pays, follows the booking and reviews the finished
job. A provider accepts or rejects requests and sees a notification bell.
An admin sees platform totals. This project models the logic under those
pages and the two Spring services behind them. It proves what each operation
promises:

- **Booking store** (`BookingService`). A class holds a `map<int, Booking>`
  and a fresh-id counter. `CreateBooking` always adds one new PENDING booking.
  `UpdateBookingStatus` looks up the booking first, then parses the status name
  after Java upper-casing, and changes only that booking's status. The code
  has no transition rule: any status can follow any status. The per-user,
  per-provider and full listings are filters over the map.
- **Provider directory** (`ProviderService`). Profile lookup and update carry
  the not-found error. The update copies eight fields and keeps the id. The
  search is a four-way dispatch over two optional, case-insensitive substring
  filters. The reviews stub always fails.
- **Form shaping and validation**:
  - `PaymentPage`: card-number grouping and truncation, MM/YY expiry, the CVC
    filter, and the ordered submit checks.
  - `BookingPage`: the draft record and its submit guard.
  - `SearchServices`: the search query, the selected provider, time
    normalisation, the booking guard chain and payload, and the reset after
    success.
- **In-memory list updates in the views**:
  - the local cancel in `MyBookings`;
  - accept/reject in `ProviderDashboard`;
  - unread counting, action visibility and request sequencing in
    `NotificationBell`;
  - the completed filter, star widget and append-only review list in
    `Reviews`.
- **Admin totals** (`AdminDashboard`): list lengths, the active-complaint
  count, and the all-zero fallback.

Shared modules:

- `Wrappers`: `Option` and `Result`.
- `Text`: JavaScript `\s` and `\d`, clamped `substring`, substring search,
  ASCII and Java upper-casing.
- `Entities`: the backend records and the five-value `BookingStatus`.
- `Sessions`: the stored login session and the "logged in as a USER" guard
  (a missing session or an id of 0 fails it).
- `Badges`: badge variants.

Backend operations are modelled as follows:

- **Repositories** are maps. A booking id comes from a counter that always
  yields an unused key.
- **Exceptions** are `Result` failures.
- **HTTP** is not modelled. Each response a page reads is a method parameter:
  `None` when the request failed or was not 2xx. The admin dashboard is the
  exception: it never checks the status code (see "## Left out").
- **Requests a page sends** are recorded in order in a log field (`posted`,
  `searches`, `requested`, `sent`). The booking, payment, provider-dashboard
  and reviews pages send no request.
- **Storage entries** (localStorage) are plain fields.

`UpdateBookingStatus` accepts every status change for a known booking,
whatever its current status. No operation creates notifications.

## Model

| member | source | states |
|---|---|---|
| Sessions.LoggedInAsUser | frontend/src/pages/user/SearchServices.tsx:139 | the booking and bookings-list guard passes exactly for a stored session with a non-zero id and role USER |
| Entities.StatusName | backend/src/main/java/com/smarthub/service/BookingService.java:40 | every enum constant's name is upper-case ASCII, at least seven letters long |
| Entities.StatusNameInjective | backend/src/main/java/com/smarthub/service/BookingService.java:40 | distinct statuses have distinct names, so `valueOf` is unambiguous |
| BookingService.ValueOf | backend/src/main/java/com/smarthub/service/BookingService.java:40 | succeeds only with the constant whose name is exactly the argument; fails only when no constant has that name, with IllegalArgumentException and Java's "No enum constant …" message |
| BookingService.ParseStatus | backend/src/main/java/com/smarthub/service/BookingService.java:40 | a null status throws NullPointerException; otherwise the result is the constant named by the upper-cased string, or IllegalArgumentException when none is |
| BookingService.ParseStatusIgnoresCase | backend/src/main/java/com/smarthub/service/BookingService.java:40 | every status name parses to its constant both as written and in lower case |
| BookingService.UserBookings | backend/src/main/java/com/smarthub/service/BookingService.java:29-31 | exactly the stored bookings whose userId is the argument, unmodified |
| BookingService.ProviderBookings | backend/src/main/java/com/smarthub/service/BookingService.java:33-35 | exactly the stored bookings whose providerId is the argument, unmodified |
| BookingService.AllBookings | backend/src/main/java/com/smarthub/service/BookingService.java:44-46 | every stored booking and nothing else |
| BookingService.ListingsAfterInsert | backend/src/main/java/com/smarthub/service/BookingService.java:18-35 | saving a new booking adds it to exactly the user's and the provider's listings it belongs to and changes no other entry |
| BookingService.ListingsAfterStatusChange | backend/src/main/java/com/smarthub/service/BookingService.java:29-42 | a status change moves no booking into or out of any user or provider listing |
| BookingService.BookingStore.constructor | backend/src/main/java/com/smarthub/service/BookingService.java:15-16 | the repository starts empty and the store invariant holds |
| BookingService.BookingStore.CreateBooking | backend/src/main/java/com/smarthub/service/BookingService.java:18-27 | the saved booking copies userId, providerId, serviceType, date and time from the request and has status PENDING; its id was unused; the map gains exactly that entry and every other booking is unchanged |
| BookingService.BookingStore.UpdateBookingStatus | backend/src/main/java/com/smarthub/service/BookingService.java:37-42 | an unknown id fails with "Booking not found" before the status is read; a bad or null status fails next; both failures leave the store unchanged; success exactly when the id is known and the name parses, from any current status; only that booking's status field changes |
| ProviderService.GetProfile | backend/src/main/java/com/smarthub/service/ServiceProviderService.java:17-20 | succeeds exactly for stored ids, returning the stored record; otherwise fails with "Provider not found" |
| ProviderService.CopyProfile | backend/src/main/java/com/smarthub/service/ServiceProviderService.java:24-31 | the result carries the incoming eight profile fields and keeps the stored id and every other stored field |
| ProviderService.CopyProfileIdempotent | backend/src/main/java/com/smarthub/service/ServiceProviderService.java:22-33 | repeating an update with the same body changes nothing more; updating a record with itself is the identity |
| ProviderService.SearchProviders | backend/src/main/java/com/smarthub/service/ServiceProviderService.java:35-45 | each of the four null/non-null branches returns exactly the stored providers whose present filters occur, ignoring case, in the matching field; the result is always a subset of the store |
| ProviderService.EmptyFilterMatchesAll | backend/src/main/java/com/smarthub/service/ServiceProviderService.java:36-38 | two empty (non-null) filters return every provider |
| ProviderService.SearchIgnoresFilterCase | backend/src/main/java/com/smarthub/service/ServiceProviderService.java:36-42 | in every branch (both filters, type only, location only, none), lower-casing the filters that are present does not change the result |
| ProviderService.ProviderReviews | backend/src/main/java/com/smarthub/service/ServiceProviderService.java:47-50 | always fails with UnsupportedOperationException |
| ProviderService.ProviderDirectory.constructor | backend/src/main/java/com/smarthub/service/ServiceProviderService.java:14-15 | the directory holds the given providers, each stored under its own id |
| ProviderService.ProviderDirectory.UpdateProfile | backend/src/main/java/com/smarthub/service/ServiceProviderService.java:22-33 | fails exactly for an unknown id, with "Provider not found" and nothing saved; otherwise stores and returns the copied profile under the same id, and every other provider is unchanged; every provider stays stored under its own id |
| BookingPage.BookingForm.constructor | frontend/src/pages/BookingPage.tsx:18-24 | the draft starts as Plumber, ₹500, Pune, with empty date and time |
| BookingPage.BookingForm.ChangeDate | frontend/src/pages/BookingPage.tsx:80 | only the draft's date changes |
| BookingPage.BookingForm.ChangeTime | frontend/src/pages/BookingPage.tsx:90 | only the draft's time changes |
| BookingPage.BookingForm.HandleSubmit | frontend/src/pages/BookingPage.tsx:26-36 | submits exactly when date and time are both non-empty; then the pending booking is the current draft and the route is /payment; otherwise neither changes |
| PaymentPage.Chunks | frontend/src/pages/PaymentPage.tsx:39 | the four-character groups of `.{1,4}`: ⌈n/4⌉ groups of one to four characters |
| PaymentPage.FormatCardNumber | frontend/src/pages/PaymentPage.tsx:37-41 | at most 19 characters; a space exactly at every fifth position and no other whitespace; no leading or trailing space; without its spaces it is the first min(16, n) non-whitespace characters of the input |
| PaymentPage.JoinedChunksShape | frontend/src/pages/PaymentPage.tsx:39 | joining the groups with spaces gives length n + (n-1)/4 and puts each input character at its grouped position |
| PaymentPage.StripShaped | frontend/src/pages/PaymentPage.tsx:38-40 | stripping the spaces from any prefix of the grouped text gives the matching prefix of the input |
| PaymentPage.CardNumberIdempotent | frontend/src/pages/PaymentPage.tsx:37-41 | formatting an already formatted card number returns it unchanged |
| PaymentPage.FormatExpiry | frontend/src/pages/PaymentPage.tsx:44-50 | at most five characters; the bare digits when fewer than two; otherwise two digits, "/", and up to two digits; its digits are the first four digits of the input |
| PaymentPage.ExpiryCheckPasses | frontend/src/pages/PaymentPage.tsx:44-50 | the formatted expiry matches MM/YY exactly when the input holds at least four digits |
| PaymentPage.ExpiryIdempotent | frontend/src/pages/PaymentPage.tsx:44-50 | formatting a formatted expiry returns it unchanged |
| PaymentPage.CvcInput | frontend/src/pages/PaymentPage.tsx:176 | digits only, the first ones typed: all of them when fewer than three, otherwise the first three |
| PaymentPage.CvcIdempotent | frontend/src/pages/PaymentPage.tsx:176 | filtering a filtered CVC returns it unchanged |
| PaymentPage.PaymentForm.constructor | frontend/src/pages/PaymentPage.tsx:19-34 | empty fields, not loading, the pending booking read from storage |
| PaymentPage.PaymentForm.EnterEmail | frontend/src/pages/PaymentPage.tsx:136 | the email field holds the typed text |
| PaymentPage.PaymentForm.EnterName | frontend/src/pages/PaymentPage.tsx:191 | the name field holds the typed text |
| PaymentPage.PaymentForm.EnterCardNumber | frontend/src/pages/PaymentPage.tsx:155 | the card field holds the formatted input |
| PaymentPage.PaymentForm.EnterExpiry | frontend/src/pages/PaymentPage.tsx:168 | the expiry field holds the formatted input |
| PaymentPage.PaymentForm.EnterCvc | frontend/src/pages/PaymentPage.tsx:176 | the CVC field holds the filtered input |
| PaymentPage.PaymentForm.Submit | frontend/src/pages/PaymentPage.tsx:52-97 | the first failing check, in the order missing field, card not 16, expiry not MM/YY, CVC not 3, is reported and nothing changes; when all pass, loading is set, the pending booking is removed and the route is /payment-success (the failure alert is unreachable) |
| PaymentPage.FormattedInputsPassChecks | frontend/src/pages/PaymentPage.tsx:61-79 | through the formatters the card, expiry and CVC checks pass exactly when at least 16 non-blank characters, 4 digits and 3 digits were typed |
| SearchServices.ToProviders | frontend/src/pages/user/SearchServices.tsx:111-121 | same count and order, each provider reduced to the seven declared fields |
| SearchServices.SearchParams | frontend/src/pages/user/SearchServices.tsx:95-97 | `type` is present exactly when the service filter is non-empty and not "all"; `location` exactly when non-empty; `type` comes first |
| SearchServices.ParamValue | frontend/src/pages/user/SearchServices.tsx:99 | the value a query key carries, or absent when no entry has that key |
| SearchServices.SearchParamsReachService | frontend/src/pages/user/SearchServices.tsx:95-99 | the backend's optional `type` and `location` are null exactly when the page's filter is empty (or "all"), and otherwise carry the filter |
| SearchServices.FirstWithId | frontend/src/pages/user/SearchServices.tsx:60 | the index of the first provider with the id, or the length when none has it |
| SearchServices.SelectedProvider | frontend/src/pages/user/SearchServices.tsx:59-62 | the first provider in the list carrying the selected id, and null exactly when nothing is selected or no provider has that id |
| SearchServices.NormalizeTime | frontend/src/pages/user/SearchServices.tsx:161 | `HH:mm` gets ":00" appended; any other string is unchanged; the result is never of the `HH:mm` form |
| SearchServices.NormalizeTimeIdempotent | frontend/src/pages/user/SearchServices.tsx:161 | normalising twice equals normalising once |
| SearchServices.PayloadServiceType | frontend/src/pages/user/SearchServices.tsx:166 | the provider's service type if non-empty, else the filter if non-empty, else "Service"; never empty |
| SearchServices.SearchPage.constructor | frontend/src/pages/user/SearchServices.tsx:37-57 | empty filters, list, selection, date and time; nothing sent |
| SearchServices.SearchPage.FetchProviders | frontend/src/pages/user/SearchServices.tsx:92-131 | one search request whose parameters reach the service as the filters; a 2xx response replaces the list by its projection (a null body gives the empty list); a failure keeps the old list; loading ends false |
| SearchServices.SearchPage.HandleBooking | frontend/src/pages/user/SearchServices.tsx:137-200 | stops without sending, in this order, when not logged in as a USER, when no provider is selected, when date or time is empty; otherwise posts the session id, the provider id, the fallback service type, the date and the normalised time; clears date, time and selection exactly when the request succeeds |
| MyBookings.Cancelled | frontend/src/pages/user/MyBookings.tsx:90-93 | same length and order; every booking with the id becomes CANCELLED whatever its status; all others are unchanged |
| MyBookings.CancelIdempotent | frontend/src/pages/user/MyBookings.tsx:90-93 | cancelling twice equals cancelling once |
| MyBookings.CancelUnknownId | frontend/src/pages/user/MyBookings.tsx:91-93 | an id no booking carries leaves the list unchanged |
| MyBookings.CancelsCommute | frontend/src/pages/user/MyBookings.tsx:90-93 | cancels of two ids give the same list in either order |
| MyBookings.CancelOffered | frontend/src/pages/user/MyBookings.tsx:193 | the cancel button is shown exactly for a PENDING booking |
| MyBookings.CancelWithdrawsOffer | frontend/src/pages/user/MyBookings.tsx:193 | after a cancel the button is shown exactly for PENDING bookings with another id |
| MyBookings.Badge | frontend/src/pages/user/MyBookings.tsx:44-51 | total over the five statuses; the caption is the status name in title case; destructive exactly for REJECTED and CANCELLED; no icon exactly for PENDING |
| MyBookings.BadgeLabelsDistinct | frontend/src/pages/user/MyBookings.tsx:44-51 | different statuses get different captions |
| MyBookings.BookingsView.constructor | frontend/src/pages/user/MyBookings.tsx:32-42 | an empty list, not loading, nothing requested |
| MyBookings.BookingsView.FetchBookings | frontend/src/pages/user/MyBookings.tsx:60-87 | sends exactly when a USER is logged in; without one nothing changes; a 2xx answer replaces the list (a null body gives the empty list); a failure keeps it |
| MyBookings.BookingsView.HandleCancel | frontend/src/pages/user/MyBookings.tsx:90-95 | the list becomes its cancelled version; no request is sent |
| ProviderDashboard.WithStatus | frontend/src/pages/ProviderDashboard.tsx:28-37 | same length and order; rows with the id take the new status; all others are unchanged |
| ProviderDashboard.LastStatusWins | frontend/src/pages/ProviderDashboard.tsx:28-37 | two clicks on the same row leave the status of the second |
| ProviderDashboard.UnknownIdUnchanged | frontend/src/pages/ProviderDashboard.tsx:29-37 | accepting or rejecting an absent id leaves the list unchanged |
| ProviderDashboard.ActionsOffered | frontend/src/pages/ProviderDashboard.tsx:117 | accept/reject are shown exactly for a row whose status is "pending" |
| ProviderDashboard.DecisionWithdrawsActions | frontend/src/pages/ProviderDashboard.tsx:117 | after accept or reject the buttons remain exactly on pending rows with another id |
| ProviderDashboard.BadgeVariant | frontend/src/pages/ProviderDashboard.tsx:44-51 | secondary exactly for "pending", destructive exactly for "rejected", default for every other string |
| ProviderDashboard.Dashboard.constructor | frontend/src/pages/ProviderDashboard.tsx:22-26 | the three sample requests, two pending and one accepted |
| ProviderDashboard.Dashboard.HandleAccept | frontend/src/pages/ProviderDashboard.tsx:28-34 | rows with the id become "accepted" |
| ProviderDashboard.Dashboard.HandleReject | frontend/src/pages/ProviderDashboard.tsx:36-42 | rows with the id become "rejected" |
| NotificationBell.Unread | frontend/src/components/NotificationBell.tsx:44 | only notifications whose status is "UNREAD", each taken from the list, and every unread one is kept; no longer than the list |
| NotificationBell.UnreadCount | frontend/src/components/NotificationBell.tsx:44 | between 0 and the number of notifications |
| NotificationBell.UnreadAppend | frontend/src/components/NotificationBell.tsx:43-44 | appending a notification appends it to the unread list exactly when its status is "UNREAD", so the count is the number of UNREAD notifications, duplicates included, in list order |
| NotificationBell.BadgeShownIffUnread | frontend/src/components/NotificationBell.tsx:101-111 | the badge and "Mark all read" appear exactly when some notification is unread |
| NotificationBell.AllReadCountsZero | frontend/src/components/NotificationBell.tsx:44 | with nothing unread the count is 0 |
| NotificationBell.ActionsOffered | frontend/src/components/NotificationBell.tsx:137-139 | accept/reject are shown exactly for a PROVIDER bell, a BOOKING_REQUEST notification and a present, non-zero related booking id |
| NotificationBell.UserBellOffersNoActions | frontend/src/components/NotificationBell.tsx:137-139 | a USER bell never shows accept/reject |
| NotificationBell.Bell.constructor | frontend/src/components/NotificationBell.tsx:33-35 | an empty inbox with count 0 |
| NotificationBell.Bell.FetchNotifications | frontend/src/components/NotificationBell.tsx:38-49 | one inbox request; a 2xx answer replaces the list and the count agrees with it; a failure keeps both |
| NotificationBell.Bell.MarkAsRead | frontend/src/components/NotificationBell.tsx:51-60 | the PATCH, then a refetch unless the PATCH threw |
| NotificationBell.Bell.MarkAllAsRead | frontend/src/components/NotificationBell.tsx:62-71 | the read-all PATCH for this user, then a refetch unless it threw |
| NotificationBell.Bell.HandleAccept | frontend/src/components/NotificationBell.tsx:73-79 | nothing without an accept callback; otherwise the callback with the booking id, then the mark-read sequence, then one more fetch |
| NotificationBell.Bell.HandleReject | frontend/src/components/NotificationBell.tsx:81-87 | the same with the reject callback |
| Reviews.Completed | frontend/src/pages/user/Reviews.tsx:31-32 | exactly the stored bookings whose status is "completed" |
| Reviews.CompletedAppend | frontend/src/pages/user/Reviews.tsx:32 | the filter keeps the original order |
| Reviews.WriteReviewOfferedIff | frontend/src/pages/user/Reviews.tsx:95 | "Write Review" is offered exactly when some stored booking is completed |
| Reviews.FilledAmong | frontend/src/pages/user/Reviews.tsx:72-78 | never more filled stars than stars |
| Reviews.FilledCount | frontend/src/pages/user/Reviews.tsx:72-78 | with a rating of 0..5, exactly that many of the five stars are filled |
| Reviews.FilledPrefix | frontend/src/pages/user/Reviews.tsx:76 | every star up to the rating is filled |
| Reviews.ReviewsPage.constructor | frontend/src/pages/user/Reviews.tsx:27-34 | the stored reviews are shown and the completed bookings are the filtered stored bookings |
| Reviews.ReviewsPage.SelectBooking | frontend/src/pages/user/Reviews.tsx:122 | the clicked booking becomes the selection |
| Reviews.ReviewsPage.EditComment | frontend/src/pages/user/Reviews.tsx:143 | the comment holds the typed text |
| Reviews.ReviewsPage.ClickStar | frontend/src/pages/user/Reviews.tsx:80 | in interactive mode the rating becomes the star clicked, otherwise it stays; it stays within 0..5 |
| Reviews.ReviewsPage.SubmitReview | frontend/src/pages/user/Reviews.tsx:36-67 | a zero rating is refused with nothing changed; a missing selection throws before anything changes; otherwise exactly one review (selected provider and service, current rating 1..5 and comment) is appended, the stored list equals the shown list, and rating, comment and selection reset |
| AdminDashboard.ActiveComplaints | frontend/src/pages/AdminDashboard.tsx:36 | at most the number of complaints; 0 exactly when none is "OPEN" or "Active"; all of them exactly when each is |
| AdminDashboard.ActiveComplaintsAppend | frontend/src/pages/AdminDashboard.tsx:36 | the count over two lists is the sum of their counts |
| AdminDashboard.ComputeStats | frontend/src/pages/AdminDashboard.tsx:32-37 | the three totals are the list lengths; the active count is the number of OPEN/Active complaints and never exceeds the complaint count |
| AdminDashboard.Dashboard.constructor | frontend/src/pages/AdminDashboard.tsx:9-15 | all counters zero, loading, nothing requested |
| AdminDashboard.Dashboard.FetchStats | frontend/src/pages/AdminDashboard.tsx:19-48 | the four GETs to users, providers, bookings and complaints are issued in that order whatever their outcome; the computed totals when every request and body succeeded, all zeros otherwise; loading ends false either way |

## Left out

- HTTP, Spring and JPA plumbing are not modelled. This covers the REST
  controllers, `fetch`, status codes, JSON parsing, and `save`/`findById`
  mechanics. Each response is a parameter, and the repositories are maps.
- Repository listings are maps keyed by id, so the order in which the
  database returns rows is not modelled.
- The `Booking` entity, the `BookingRequest` DTO, the `ServiceProvider`
  entity and `ResourceNotFoundException` are not part of this model:
  - their fields are taken as seen in the services and pages;
  - `createdAt` and validation annotations are omitted;
  - nullable entity fields are modelled as always present;
  - the provider's other columns are kept as a `map<string, string>`.
- The notification bell's 15-second polling timer, its teardown, and the
  1.5-second payment delay are not modelled. The payment success branch runs
  as if the timer had fired.
- `BookingService.BookingStore.CreateBooking` stands for the id generator
  with a counter. It is one fresh id per call, not the database sequence.
- `ProviderService.SearchProviders` folds case with ASCII upper-casing for
  the SQL `IgnoreCase` queries. Database collation and Unicode case folding
  are not modelled.
- `BookingService.ParseStatus` models Java `toUpperCase` only on ASCII and
  on the two non-ASCII letters that upper-case into ASCII (dotless ı → I and
  long ſ → S). Other letters (é → É, ß → SS, ﬁ → FI, …) are left as they
  are. This cannot change which strings parse. The other letters either
  upper-case to something non-ASCII, or to a pair (SS, FF, FI, FL, ST) that
  no status name contains. It only changes the text of the "No enum
  constant" message for such input. The Turkish-locale behaviour of the
  server JVM is not modelled.
- Strings are sequences of characters. UTF-16 surrogate pairs are not split
  as JavaScript `substring` and `.` would split them.
- URL percent-encoding of the search query is not modelled; the query is
  the list of key/value pairs.
- Badge lookups are modelled over the declared keys only. The JavaScript
  prototype keys that `variants[status]` would also find
  (e.g. "constructor") are not modelled.
- `NotificationBell.Bell.FetchNotifications` assumes that a 2xx body is an
  array of notifications. A null or non-array body throws inside the
  component and is not modelled.
- `NotificationBell.Bell.MarkAsRead` does not await its refetch, so it
  races with later requests. The model lets responses arrive in issue
  order, and assumes the host's accept/reject callbacks return normally.
- `AdminDashboard.Dashboard.FetchStats` does not model that the page never
  checks `res.ok`. Every non-2xx answer is modelled as a failure that gives
  zeros. In the page, an error object from the users, providers or bookings
  endpoint yields an `undefined` total while the other totals are still set.
  Only a non-array complaints body throws at `.filter` and falls back to
  zeros. The model also assumes that each 2xx body is an array. The `Promise.all` fan-out is collapsed into one outcome: all four
  lists, or a failure.
- The payment amount (`parseFloat` of the rate, halved) is floating point
  and is left out. So are date and time display formatting (`Date`,
  locale), review ids and timestamps from `Date.now()`, which are
  parameters, and the booking page's minimum date.
- A provider's `price` is an integer. The pages hold and send it as
  `number | string`; no modelled operation reads it.
- The payment form's country and save-info fields are not modelled; no check reads them.
- Geolocation, toasts, alerts, navigation beyond the recorded route,
  rendering and styling are not modelled.
- The routing shell, the layout component, the admin table pages, and the
  provider's services and reviews pages are not modelled. They hold no logic
  beyond fetching and rendering.
