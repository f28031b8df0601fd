# PC booking and booking history — a verified model

This project models the two pieces of the booking front end that carry
rules rather than layout:

- **The PC detail page** (`PcDetails`, in `pc_details.dfy`): the static
  catalog of five PCs, the lookup of the PC named by the route (`Array.find`
  by integer id, "PC not found" otherwise), and `handleBooking`. That handler
  clears both messages and refuses incomplete input (empty date, empty time
  or a duration of zero or less). It then refuses an instant strictly before
  now. It builds the record with `totalCost = pricePerHour * duration`, posts
  it, and maps the store's reply to a message. An acknowledged reply also
  requests the confirmation e-mail and a move to `/pcaccess`. A rejected or
  failed e-mail is only logged.
- **The booking history page** (`BookingHistory`, in `booking_history.dfy`):
  nothing is retrieved until the signed-in user's e-mail is known. Then the
  room bookings, PC bookings and food orders are each filtered to the
  records owned by that e-mail: through `userEmail` for rooms and PCs,
  through `email` for food orders. Each result goes into its own slot, and
  a failed retrieval leaves its slot untouched.

The store's replies, the e-mail service's replies, the signed-in user and
the instants of "now" and of the chosen date and time are inputs of the
model. The page state is a class per page whose fields are the React state
slots, plus the effects the page has on the outside: bodies posted,
e-mails requested, routes navigated to, console errors.

An instant equal to now is accepted: `handleBooking` refuses only
`selectedDateTime < now` (`src/component/PcDetails.jsx:88`), and the model
follows the code.

The history page's `Scoped` invariant (every shown record belongs to the
session e-mail) is kept by every retrieval. It is not re-established when
the e-mail changes while the page stays mounted: a slot whose new retrieval
fails still holds the previous user's records. `OnAuthStateChanged`
therefore promises the invariant only when the e-mail is unchanged.

## Model

| member | source | states |
|---|---|---|
| `PcDetails.Find` | src/component/PcDetails.jsx:18 | returns nothing exactly when no entry has the id; otherwise the first entry with that id |
| `PcDetails.SelectedPc` | src/component/PcDetails.jsx:16-18 | the shown PC is a catalog entry with the parsed id; none (the "PC not found" state) exactly when the id is NaN or outside 1..5 |
| `PcDetails.CatalogWellFormed` | src/component/PcDetails.jsx:6-13 | catalog ids are unique, entry k has id k+1, every price is positive |
| `PcDetails.FindUnique` | src/component/PcDetails.jsx:18 | with unique ids, looking up an entry's id returns that entry |
| `PcDetails.CatalogLookup` | src/component/PcDetails.jsx:6-18 | ids 1..5 find the matching catalog entry; any other id finds nothing |
| `PcDetails.Validate` | src/component/PcDetails.jsx:76-101 | incomplete input gives the completeness message whatever the instants; complete input before now gives the past-date message; a record exactly when input is complete and the instant is not before now; the record copies pc id, title, date, time, duration and e-mail, with totalCost = pricePerHour * duration |
| `PcDetails.CatalogCostPositive` | src/component/PcDetails.jsx:93-101 | a validated booking of a catalog PC costs at least one hour's price, hence more than zero |
| `PcDetails.ScenarioPc02` | src/component/PcDetails.jsx:9 | PC 02 for 3 hours at 10:00 validates to the record with pcId 2, title "PC 02" and totalCost 45 |
| `PcDetails.MailLog` | src/component/PcDetails.jsx:67-73 | the e-mail send logs nothing exactly when the service reports success |
| `PcDetails.Page.constructor` | src/component/PcDetails.jsx:18-36 | the page holds the looked-up PC, empty messages, the user's e-mail, and a move to `/login` exactly when nobody is signed in |
| `PcDetails.Page.SendEmail` | src/component/PcDetails.jsx:55-74 | requests the e-mail and logs a failure; it can change nothing but the e-mail requests and the log, so never the error or success message |
| `PcDetails.Page.HandleBooking` | src/component/PcDetails.jsx:76-124 | a refused request sets only its error message and posts nothing; a validated one posts the record; an acknowledgement sets the confirmation, requests the e-mail and the move to `/pcaccess`; a non-acknowledgement sets only "Failed to book"; a transport failure sets only the "error occurred" message |
| `BookingHistory.FilterByOwner` | src/component/BookingHistory.jsx:33-35 | keeps only records of the input whose owner field equals the e-mail (soundness) and never grows the collection |
| `BookingHistory.FilterCounts` | src/component/BookingHistory.jsx:44-46 | each matching record is kept exactly as often as it occurs in the input, each other record never: complete, nothing added or duplicated |
| `BookingHistory.FilterComplete` | src/component/BookingHistory.jsx:57-59 | every input record whose owner matches is kept |
| `BookingHistory.FilterOrdered` | src/component/BookingHistory.jsx:33-35 | the kept records are a subsequence of the input: original relative order |
| `BookingHistory.FilterKeepsOwned` | src/component/BookingHistory.jsx:33-35 | a collection whose records all match is returned whole |
| `BookingHistory.FilterIdempotent` | src/component/BookingHistory.jsx:33-35 | filtering a filtered collection by the same e-mail returns it unchanged |
| `BookingHistory.StoredBookingListed` | src/component/BookingHistory.jsx:44-46 | a PC booking validated for a user and present in the store appears in that user's PC history |
| `BookingHistory.Receive` | src/component/BookingHistory.jsx:32-38 | a failed retrieval leaves the slot unchanged; a successful one holds exactly the fetched records owned by the e-mail |
| `BookingHistory.Failures` | src/component/BookingHistory.jsx:38 | a retrieval writes a console error naming its source exactly when it fails |
| `BookingHistory.Page.constructor` | src/component/BookingHistory.jsx:8-11 | three empty slots and no e-mail |
| `BookingHistory.Page.OnAuthStateChanged` | src/component/BookingHistory.jsx:15-24 | a signed-in user's e-mail is stored; no user means a move to `/login`; the shown records stay scoped when the e-mail does not change |
| `BookingHistory.Page.ReceiveRooms` | src/component/BookingHistory.jsx:30-38 | fills the room slot with the records owned through `userEmail`, or leaves it on failure; no other slot changes |
| `BookingHistory.Page.ReceivePcs` | src/component/BookingHistory.jsx:41-51 | fills the PC slot with the records owned through `userEmail`, or leaves it on failure; no other slot changes |
| `BookingHistory.Page.ReceiveFood` | src/component/BookingHistory.jsx:54-64 | fills the food slot with the orders owned through `email`, or leaves it on failure; no other slot changes |
| `BookingHistory.Page.Load` | src/component/BookingHistory.jsx:27-66 | without an e-mail nothing is requested and no slot changes; with one the three collections are requested and each slot is updated from its own outcome only; scoping is preserved |
| `BookingHistory.ScenarioIsolation` | src/component/BookingHistory.jsx:30-64 | with rooms of two users, one PC booking and an unreachable food collection, the room slot holds only the session user's booking, the PC slot that booking, the food slot stays empty and only the food failure is logged |

## Left out

- Rendering, styling and the sidebar: presentational only.
- Network calls and JSON parsing: every reply is an input value. A failure in fetch, in parsing or in `data.filter` (a non-array body) is one `Fail` outcome.
- The history list fetched and shown on the PC page, and the e-mail subject and message text: display only.
- The authentication provider: the signed-in user's e-mail is a parameter; unsubscribing the listener is not modelled.
- `parseInt` of the route parameter: the parsed value is given, with `None` for NaN.
- Parsing `${date}T${time}` with `Date`: the chosen instant is an integer parameter. So an unparseable date, which compares false with now and is therefore not refused, is not modelled.
- PcDetails.Validate: duration is an integer; the page's `Number(...)` can also yield a fractional duration, which the model does not cover.
- PcDetails.Page.HandleBooking: the two-second delay before the move to `/pcaccess` is recorded as an immediate navigation request, and the asynchronous e-mail completion is applied within the same call.
- BookingHistory.Page.Load: the three retrievals run concurrently in the page; the model applies their completions in a fixed order. Each touches only its own slot, so only the order of log entries depends on it.
- The success-path `console.log` of the PC and food retrievals is not modelled; `log` holds only the `console.error` diagnostics.
- Results arriving after the page is unmounted or after the e-mail changed are not modelled.
- Record fields other than the owner field (such as `_id`) are omitted. A missing owner field compares like "", which never equals the non-empty e-mail the filter runs with.
