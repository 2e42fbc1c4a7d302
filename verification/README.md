# Campus ride-sharing demo: booking store and user-directory handlers

This project models the two pieces of logic in the ride-sharing demo and proves
properties about them in Dafny.

The first is the client-side ride/booking store (`AppContext.tsx`). It holds a
list of ride offers, a map from ride id to booking, and the `bookRide`,
`confirmBooking`, `addRide`, `getDriver`, `getLocation` and `liveRideCount`
operations. Each operation is a pure transition over an immutable `Store`.
`bookRide` has two parts. Its immediate part writes a pending booking and
schedules a timer. Its deferred part confirms the booking and takes a seat.
The pending `setTimeout` callbacks are an explicit FIFO queue in the store,
because JavaScript fires timers with equal delays in the order they were set.
`FireNext` runs the oldest one. `Date.now()` is the parameter `now`.
`StoreTraces` replays whole sessions of events and proves what holds across
every run:
- the seat invariant `0 <= availableSeats <= totalSeats` is kept;
- each ride id has at most one booking, stored under its own id;
- no booking is ever cancelled;
- the rides present at the start keep their position and every field except
  their seat count;
- a ride loses at most one seat per fired confirmation for its id.

The second is the user-directory HTTP server (`server.js`). Its three
`/api/users` handlers and `/health` are pure functions from the request input
and the database outcome to an HTTP status and a JSON body. The database
outcome is an abstract input: the rows returned, or an error carrying an
optional PostgreSQL SQLSTATE code (Appendix A of the PostgreSQL documentation:
3D000 invalid_catalog_name, 28P01 invalid_password, 42P01 undefined_table,
23505 unique_violation). JavaScript's `String.prototype.trim` is modelled with
the ECMAScript white-space and line-terminator characters.

Modules: `Wrappers` (Option), `RideModel` (entities), `SeedData` (seed tables,
`getDriver`/`getLocation`), `RideStore` (store transitions), `StoreTraces`
(runs of events), `JsString` (`trim`), `UserApi` (HTTP handlers).

Two behaviours of the code worth knowing:
- `addRide` copies the caller's `availableSeats` as given. It does not reset
  it to `totalSeats`. `RideStore.AddRide` therefore keeps the seat invariant
  only when the input already satisfies it.
- The deferred step confirms a booking even when no seat is left.

Re-booking a ride before the first timer fires leaves one booking record but
takes two seats, and the first timer confirms the newer booking early
(`StoreTraces.RebookingTakesTwoSeats`).

## Model

| member | source | states |
|---|---|---|
| SeedData.FindById | frontend/src/store/AppContext.tsx:147-148 | the lookup returns nothing exactly when no entry has the id; otherwise it returns an entry with that id with no matching entry before it (the first match) |
| SeedData.GetDriver | frontend/src/store/AppContext.tsx:147 | `getDriver` returns nothing iff no seed driver has the id, else the first seed driver carrying that id |
| SeedData.GetLocation | frontend/src/store/AppContext.tsx:148 | `getLocation` returns nothing iff no seed location has the id, else the first seed location carrying that id |
| SeedData.SeedIdsDistinct | frontend/src/store/AppContext.tsx:46-71 | no two seed drivers and no two seed locations share an id, so each lookup's first match is its only match |
| RideStore.Initial | frontend/src/store/AppContext.tsx:73-107 | the provider starts from the seed rides in a valid store (every seed ride has 0 <= availableSeats <= totalSeats) with no bookings and no scheduled timers |
| RideStore.BookRide | frontend/src/store/AppContext.tsx:111-115 | the ride id now maps to a pending booking stamped `now`, overwriting any earlier record; other bookings and the rides are unchanged; one confirmation for the id joins the end of the timer queue; validity is kept |
| RideStore.ConfirmIn | frontend/src/store/AppContext.tsx:118-123 | the set of booked ids is unchanged; an existing booking for the id becomes confirmed with its ride id and timestamp kept; other bookings are unchanged; with no booking nothing changes |
| RideStore.DecrementSeat | frontend/src/store/AppContext.tsx:124-130 | length and order are kept and only seat counts change; a ride with the id and a free seat loses exactly one; every other ride, and a matching ride with no free seat, is unchanged; the seat invariant is kept |
| RideStore.FireConfirmation | frontend/src/store/AppContext.tsx:117-131 | the deferred step confirms the booking for the id if one exists and, independently, takes one seat from each ride with that id and a free seat, leaving everything else as it was; validity is kept |
| RideStore.FireNext | frontend/src/store/AppContext.tsx:117-131 | with no timer pending nothing changes; otherwise the oldest scheduled ride id leaves the queue, its booking (if any) is confirmed and each ride with that id and a free seat loses one seat; validity is kept |
| RideStore.ConfirmBooking | frontend/src/store/AppContext.tsx:134-141 | an existing booking for the id becomes confirmed with its ride id and timestamp kept, other bookings are unchanged; with no booking for the id the store is unchanged; rides and timers are untouched; validity is kept |
| RideStore.ConfirmBookingIdempotent | frontend/src/store/AppContext.tsx:134-141 | confirming twice equals confirming once |
| RideStore.AddRide | frontend/src/store/AppContext.tsx:143-145 | exactly one ride is appended at the end, with the input's fields and the id `now`; earlier rides, bookings and timers are unchanged; validity is kept when the new ride's seats are in range |
| RideStore.LiveRideCount | frontend/src/store/AppContext.tsx:150 | the count is at most the number of rides; it is zero iff no ride has a free seat, and it is full iff every ride has one |
| RideStore.LiveRideCountIsLiveIndices | frontend/src/store/AppContext.tsx:150 | the count equals the number of positions whose ride has availableSeats > 0 |
| RideStore.AddRideLiveCount | frontend/src/store/AppContext.tsx:143-150 | adding a ride raises the live count by one exactly when the new ride has a free seat |
| RideStore.DecrementSeatLiveCount | frontend/src/store/AppContext.tsx:124-150 | the deferred seat update never raises the live count |
| StoreTraces.StepPreservesValid | frontend/src/store/AppContext.tsx:109-145 | every store operation keeps the seat invariant, one booking per id stored under that id, and no cancelled booking |
| StoreTraces.RunPreservesValid | frontend/src/store/AppContext.tsx:109-145 | any session of operations keeps that invariant |
| StoreTraces.StepRide | frontend/src/store/AppContext.tsx:117-145 | a single operation moves no ride, changes no field other than seats, takes at most one seat, and takes one only when a confirmation for that ride's id leaves the queue |
| StoreTraces.RunSeatDropBounded | frontend/src/store/AppContext.tsx:117-131 | over any session, each original ride keeps its position and fields, its seats never rise, and the seats it lost are at most the confirmations for its id that fired |
| StoreTraces.BookThenFire | frontend/src/store/AppContext.tsx:109-131 | `bookRide(r)` gives a pending booking at once; when its timer fires, the booking is confirmed with the same timestamp and each ride r with a free seat has one fewer |
| StoreTraces.RebookingTakesTwoSeats | frontend/src/store/AppContext.tsx:109-131 | re-booking before the first timer fires leaves a single confirmed booking (the newer one) yet takes two seats |
| JsString.Trim | backend/server.js:102-108 | the result has no white space at either end; the input is the result with white-space runs at both ends; the result is empty iff the input is all white space |
| JsString.TrimIdempotent | backend/server.js:108 | trimming a trimmed username changes nothing |
| UserApi.StorageFailure | backend/server.js:46-141 | the three catch blocks (list 46-62, by-id 81-92, update 120-141): 3D000 and 28P01 give their messages on every endpoint; 42P01 gives the missing-table message except on the by-id endpoint (generic there); 409 "Username already exists" iff the update endpoint sees 23505; every other status is 500, and every other code (23505 outside the update endpoint, or no code) gives "Internal server error" |
| UserApi.EndpointFailuresAgree | backend/server.js:46-141 | list and update agree on every error except 23505; by-id and list agree on every error except 42P01, which by-id reports like an error with no code |
| UserApi.ListUsersHandler | backend/server.js:38-63 | 200 with all rows exactly when the query succeeds; a storage error gives the list endpoint's mapping (3D000, 28P01, 42P01 messages, else generic), always 500 |
| UserApi.GetUserHandler | backend/server.js:67-94 | 404 "User not found" exactly when zero rows come back; 200 with the first row exactly when some row does; a storage error gives the by-id endpoint's mapping (3D000, 28P01 messages, 42P01 generic), always 500 |
| UserApi.PutUsernameHandler | backend/server.js:97-143 | 400 "Username is required" iff the username is missing, falsy or blank after trimming, with no update issued; an update is issued iff the username is a non-blank string, and it carries the trimmed value; a truthy non-string gives the generic 500; after an update: 404 iff zero rows, 200 with the first row iff some row, otherwise the update endpoint's error mapping |
| UserApi.PutReturnsTrimmedUsername | backend/server.js:106-115 | a 200 from the PUT always follows an issued update and carries a user record; when that row carries the value written, its username is non-empty with no white space at either end |
| UserApi.HealthHandler | backend/server.js:146-148 | `/health` answers 200 with status "ok" |

## Left out

- Rendering, hooks plumbing, toasts and every component file: they are presentation only.
- The 2000 ms delay and wall-clock time: timers are an explicit queue, and `Date.now()` is a parameter.
- Timers are not cancellable in the source, and an unmount never clears them, so the model has no cancel step.
- Uniqueness of ride ids made by `Date.now()`: the code cannot guarantee it, so the model lets two rides share an id. `DecrementSeat` then takes a seat from each.
- The driver `rating` and other floating-point fields: no modelled operation reads them.
- The ride search, filter and sort view: neither `AppContext.tsx` nor `server.js` filters or sorts rides; the ride list only records booked ids.
- The PostgreSQL pool, SQL execution, `ORDER BY`, the unique constraint itself, environment/dotenv configuration, CORS and JSON middleware, logging and `process.exit`: they are foreign I/O. A query's result is an abstract input.
- The `:id` route parameter: it only reaches the SQL query, whose outcome is already an input.
- The client-side blank-username check and the `fetch` calls in the profile page: they duplicate the server check.
- JavaScript numbers are unbounded integers here. Ids, seats and timestamps never reach the 2^53 precision limit in this program.
