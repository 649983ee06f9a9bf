# TwendeBus seat booking: a Dafny model of the transaction handlers

This project models the seat-booking backend of the TwendeBus bus-booking
application: the four callable handlers in `functions/index.js` that each run
one database transaction over trip, user, booking and transaction documents.

- `holdSeat` puts a seat of a trip on hold for the caller. The seat must not
  already be booked or held.
- `releaseSeat` drops the caller's own hold. For any other seat it answers
  `success: false`.
- `processBooking` turns the caller's held seats into a paid booking:
  - it debits `fare × |selectedSeats|` from the wallet;
  - it moves the seats from `heldSeats` to `bookedSeats` and lowers
    `availableSeats`;
  - it writes an `active` booking and a `deduction` record.
- `cancelBooking` refunds the full fare when departure is at least two hours
  away and nothing otherwise. It credits the wallet and writes a `refund`
  record only for a positive refund. It marks the booking `cancelled` and
  gives its seats back to the trip.

Files:

- `documents.dfy` (module `Documents`): the documents as datatypes (`Trip`,
  `Hold`, `User`, `Booking`, `TxRecord`), the error kinds and `Result`.
- `seats.dfy` (module `Seats`): pure functions giving the trip a handler
  leaves behind. These are `HoldOn`, `ReleaseOn`, `BookOn`, `CancelOn` and
  `Unbook` (the `filter` of `cancelBooking`). The module also holds the two
  loops of `processBooking` as methods, and the lemmas about all of them.
  The lemmas use the seat invariant `Consistent`: no seat booked twice, and
  no booked seat also held.
- `refunds.dfy` (module `Refunds`): the two-hour refund rule.
- `store.dfy` (module `Bookings`): class `Store` holds the four collections
  as maps and a counter for generated document ids. Each handler is a method
  on it: a failing handler leaves the store unchanged, a successful one
  writes every document at once. Two scenario methods walk through concrete
  sequences of calls, checked by the verifier: a hold conflict, and a
  book / cancel / cancel-again round trip.

Behaviour of the code that the model keeps, and proves:

- `cancelBooking` never looks at the booking's status. Cancelling the same
  booking twice refunds twice and returns its seats to `availableSeats`
  twice (`CancelTwice`, `RoundTripScenario`). A stale second cancellation
  also hits whoever booked the same seats in between: their seats are
  filtered out of `bookedSeats` while their booking stays `active`
  (`StaleCancelUnbooksLaterBooking`).
- `processBooking` appends the selected seats to `bookedSeats`. It does not
  take a set union, so a selection that names a seat twice books it twice.
  The seat invariant survives a booking exactly when the selection has no
  repeated seat (`BookKeepsConsistentIff`).
- The cancellation `filter` removes every occurrence of the booking's seats.
  On a trip that keeps the seat invariant, `availableSeats + |bookedSeats|`
  is conserved by a cancellation exactly when the booking's seats are
  distinct and all currently booked (`CancelConserves`).

## Model

| member | source | states |
|---|---|---|
| `Bookings.Store.HoldSeat` | functions/index.js:11-48 | Fails `unauthenticated` without a caller and `not-found` for a missing trip. Fails `already-exists` when the seat is booked or already held (by anyone, the caller included). Every failure leaves the store unchanged. On success only the trip's `heldSeats[seat]` is set, to a hold by the caller at `now`. The seat invariant of the trip is preserved. |
| `Bookings.Store.ReleaseSeat` | functions/index.js:53-78 | Answers `true` exactly when the caller holds the seat, and then deletes only that hold. Otherwise it answers `false` and the store is unchanged. Same authentication and missing-trip errors as holding. |
| `Bookings.Store.ProcessBooking` | functions/index.js:80-164 | Checks run in the source's order: caller, user (`not-found`), trip (`not-found`), balance below fare times the number of selected seats (`failed-precondition`), then a seat not held by the caller (`aborted`). Any failure leaves the store untouched. On success: the balance drops by exactly the total fare, so a non-negative balance stays non-negative. The trip becomes `BookOn` of the selection. A fresh booking is written with `farePaid` = total and status `active`. A fresh `deduction` record is written with amount −total. |
| `Bookings.Store.CancelBooking` | functions/index.js:166-229 | Fails `not-found` for a missing booking, `permission-denied` for a caller who is not the owner, and `not-found` for a missing trip, each with no state change. On success it returns the refund of `RefundAmount`. The booking becomes `cancelled` whatever its status was, and the trip becomes `CancelOn` of its seats. A positive refund is added to the wallet and recorded in one fresh `refund` record. Otherwise wallet and records are unchanged. |
| `Seats.FirstNotHeld` | functions/index.js:114-119 | Returns None exactly when every selected seat is held by the caller. Otherwise it returns the index of the first selected seat the caller does not hold; all seats before it are held by the caller. |
| `Seats.RemoveHolds` | functions/index.js:127-130 | The copied `heldSeats` map after the delete loop equals the original without the entries of the selected seats. |
| `Seats.BookOn` | functions/index.js:126-137 | After a booking, `availableSeats` plus the length of `bookedSeats` is unchanged. Every selected seat is booked and no longer held. The old `bookedSeats` is a prefix of the new one. Holds on other seats are kept, and fare and departure time are unchanged. |
| `Seats.Unbook` | functions/index.js:220 | The filtered list holds exactly the booked seats that are not among the booking's seats, and it is never longer than the original. |
| `Seats.CancelOn` | functions/index.js:219-225 | After a cancellation no seat of the booking is still booked, and every other booked seat still is. Holds, fare and departure time are unchanged. |
| `Seats.ReleaseUndoesHold` | functions/index.js:39-72 | A hold by a user on a seat that was not held is that user's hold. A release of it restores the trip exactly. |
| `Seats.HoldKeepsConsistent` | functions/index.js:32-44 | A hold that passed the `already-exists` checks keeps the seat invariant. |
| `Seats.ReleaseKeepsConsistent` | functions/index.js:69-72 | Deleting a hold keeps the seat invariant. |
| `Seats.BookKeepsConsistentIff` | functions/index.js:115-130 | For a consistent trip whose selected seats are all held by the caller, the booked trip is consistent if and only if the selection has no repeated seat. |
| `Seats.CancelKeepsConsistent` | functions/index.js:220-225 | Returning a booking's seats keeps the seat invariant. |
| `Seats.CancelConserves` | functions/index.js:220-221 | On a consistent trip, a cancellation conserves `availableSeats` plus the length of `bookedSeats` if and only if the booking's seats are distinct and all booked. |
| `Seats.BookThenCancel` | functions/index.js:126-225 | Booking seats that are not booked, then cancelling them, gives back the original trip without the holds on those seats. This holds even when the selection repeats a seat. |
| `Seats.CancelTwice` | functions/index.js:217-225 | A second cancellation of the same seats removes nothing more from `bookedSeats` but adds the number of those seats to `availableSeats` again. |
| `Seats.StaleCancelUnbooksLaterBooking` | functions/index.js:217-225 | After a cancellation and a later booking of seats, a second cancellation of the first booking's seats removes them from `bookedSeats` again, including seats the later booking had just booked. |
| `Refunds.CutoffInHours` | functions/index.js:192-197 | The integer test "departure − now ≥ 7 200 000 ms" is the hour test "(departure − now) / 3 600 000 ≥ 2" over the reals. |
| `Refunds.RefundAllOrNothing` | functions/index.js:196-200 | The refund is either the fare paid or 0. It is the fare paid exactly when departure is at least two hours away (or the fare was 0). |
| `Refunds.RefundMonotone` | functions/index.js:196-200 | For a non-negative fare, the refund lies between 0 and the fare paid, and cancelling later never refunds more. |

## Left out

- Firebase plumbing (`onCall`, `HttpsError`, `initializeApp`, collection and document references) is not modelled. An error is its kind (`ErrorKind`), without the message text.
- Authentication is the `caller` parameter: None stands for a request without `auth`.
- Concurrency is not modelled. The transaction retries of `runTransaction` are left out: each handler is one atomic step on the store.
- Clocks are parameters. Server timestamps and `new Date()` become the parameter `now`, and departure is an integer number of milliseconds.
- The floating-point hour division is left out. It is replaced by the equivalent integer test (`CutoffInHours`).
- Generated document ids (`.doc()`) come from the counter `nextId`. `Valid` keeps the counter above every id in use.
- The `details` and `message` strings are not modelled, including the `substring` calls that build them.
- `Bookings.Store.CancelBooking`: requires that the caller's user document exists in the one case where the handler credits a positive refund to it. In that case the source would throw a TypeError on the missing document rather than return an error.
- Absent trip fields are not modelled. The source reads a missing `bookedSeats`, `heldSeats` or `availableSeats` as `[]`, `{}` or 0. The model's trips always carry these fields, and an absent field is written as those values.
- Numbers are unbounded integers. JavaScript numbers (doubles, `NaN` for a missing `fare` or `walletBalance`) are not modelled.
- Seat numbers are integers. JavaScript turns a map key into a string while `includes` compares strictly; this type mixing is not modelled.
- `startStop` and `endStop` are stored as given and never inspected.
- The rest of the repository is not part of this model: pending bookings, mobile-money payments and their callbacks, the expiry sweep, notifications, the tiered refund policy and the administrative and role functions.
