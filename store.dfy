/** The four callable handlers of the booking backend, each one database
    transaction over the trip, user, booking and transaction documents. The
    database is a `Store` object whose collections are maps; a handler that
    fails changes nothing, one that succeeds writes all its documents. */
module Bookings {
  import opened Documents
  import opened Seats
  import opened Refunds

  class Store {
    var trips: map<TripId, Trip>
    var users: map<UserId, User>
    var bookings: map<DocId, Booking>
    var transactions: map<DocId, TxRecord>
    /** Source of generated document ids: every id handed out so far is below it. */
    var nextId: DocId

    /** Generated ids are fresh: no booking or transaction record uses
        `nextId` or above. */
    ghost predicate Valid()
      reads this
    {
      && (forall id :: id in bookings ==> id < nextId)
      && (forall id :: id in transactions ==> id < nextId)
    }

    constructor (trips0: map<TripId, Trip>, users0: map<UserId, User>)
      ensures Valid()
      ensures trips == trips0 && users == users0
      ensures bookings == map[] && transactions == map[] && nextId == 0
    {
      trips, users := trips0, users0;
      bookings, transactions := map[], map[];
      nextId := 0;
    }

    /** `holdSeat`: the caller claims one seat of a trip. */
    method HoldSeat(caller: Option<UserId>, tripId: TripId, seat: Seat, now: int) returns (r: Result<()>)
      requires Valid()
      modifies this
      ensures Valid()
      ensures r.Err? ==> unchanged(this)
      ensures users == old(users) && bookings == old(bookings)
      ensures transactions == old(transactions) && nextId == old(nextId)
      ensures caller.None? ==> r == Err(Unauthenticated)
      ensures caller.Some? && tripId !in old(trips) ==> r == Err(NotFound)
      ensures caller.Some? && tripId in old(trips) ==>
        var t := old(trips)[tripId];
        if seat in t.bookedSeats || seat in t.heldSeats then r == Err(AlreadyExists)
        else r == Ok(()) && trips == old(trips)[tripId := HoldOn(t, seat, caller.value, now)]
      ensures tripId in old(trips) && Consistent(old(trips)[tripId]) ==> Consistent(trips[tripId])
    {
      if caller.None? {
        return Err(Unauthenticated);
      }
      if tripId !in trips {
        return Err(NotFound);
      }
      var trip := trips[tripId];
      if seat in trip.bookedSeats {
        return Err(AlreadyExists);
      }
      if seat in trip.heldSeats {
        return Err(AlreadyExists);
      }
      if Consistent(trip) {
        HoldKeepsConsistent(trip, seat, caller.value, now);
      }
      trips := trips[tripId := HoldOn(trip, seat, caller.value, now)];
      return Ok(());
    }

    /** `releaseSeat`: drops the caller's hold on a seat; answers false,
        changing nothing, when the caller does not hold it. */
    method ReleaseSeat(caller: Option<UserId>, tripId: TripId, seat: Seat) returns (r: Result<bool>)
      requires Valid()
      modifies this
      ensures Valid()
      ensures r.Err? || r == Ok(false) ==> unchanged(this)
      ensures users == old(users) && bookings == old(bookings)
      ensures transactions == old(transactions) && nextId == old(nextId)
      ensures caller.None? ==> r == Err(Unauthenticated)
      ensures caller.Some? && tripId !in old(trips) ==> r == Err(NotFound)
      ensures caller.Some? && tripId in old(trips) ==>
        var t := old(trips)[tripId];
        && r == Ok(HeldBy(t.heldSeats, seat, caller.value))
        && (r == Ok(true) ==> trips == old(trips)[tripId := ReleaseOn(t, seat)])
      ensures tripId in old(trips) && Consistent(old(trips)[tripId]) ==> Consistent(trips[tripId])
    {
      if caller.None? {
        return Err(Unauthenticated);
      }
      if tripId !in trips {
        return Err(NotFound);
      }
      var trip := trips[tripId];
      if seat in trip.heldSeats && trip.heldSeats[seat].userId == caller.value {
        if Consistent(trip) {
          ReleaseKeepsConsistent(trip, seat);
        }
        trips := trips[tripId := ReleaseOn(trip, seat)];
        return Ok(true);
      }
      return Ok(false);
    }

    /** `processBooking`: pays for the caller's held seats from the wallet,
        books them and records the booking and the deduction. The checks run
        in the source's order: user, trip, balance, holds. */
    method ProcessBooking(caller: Option<UserId>, tripId: TripId, selectedSeats: seq<Seat>,
                          startStop: StopRef, endStop: StopRef, now: int)
      returns (r: Result<DocId>)
      requires Valid()
      modifies this
      ensures Valid()
      ensures r.Err? ==> unchanged(this)
      ensures caller.None? ==> r == Err(Unauthenticated)
      ensures caller.Some? && caller.value !in old(users) ==> r == Err(NotFound)
      ensures caller.Some? && caller.value in old(users) && tripId !in old(trips) ==> r == Err(NotFound)
      ensures caller.Some? && caller.value in old(users) && tripId in old(trips) ==>
        var uid := caller.value;
        var t := old(trips)[tripId];
        var balance := old(users)[uid].walletBalance;
        var totalFare := t.fare * |selectedSeats|;
        if balance < totalFare then r == Err(FailedPrecondition)
        else if !AllHeldBy(t.heldSeats, selectedSeats, uid) then r == Err(Aborted)
        else
          && r == Ok(old(nextId))
          && old(nextId) !in old(bookings) && old(nextId) + 1 !in old(transactions)
          && users == old(users)[uid := old(users)[uid].(walletBalance := balance - totalFare)]
          && trips == old(trips)[tripId := BookOn(t, selectedSeats)]
          && bookings == old(bookings)[old(nextId) :=
               Booking(uid, tripId, selectedSeats, totalFare, Active, now, startStop, endStop)]
          && transactions == old(transactions)[old(nextId) + 1 := TxRecord(uid, -totalFare, Deduction, now)]
          && (balance >= 0 ==> users[uid].walletBalance >= 0)
    {
      if caller.None? {
        return Err(Unauthenticated);
      }
      var uid := caller.value;
      if uid !in users {
        return Err(NotFound);
      }
      if tripId !in trips {
        return Err(NotFound);
      }
      var user := users[uid];
      var trip := trips[tripId];
      var totalFare := trip.fare * |selectedSeats|;
      if user.walletBalance < totalFare {
        return Err(FailedPrecondition);
      }
      var missing := FirstNotHeld(trip.heldSeats, selectedSeats, uid);
      if missing.Some? {
        return Err(Aborted);
      }

      users := users[uid := user.(walletBalance := user.walletBalance - totalFare)];

      var newHeldSeats := RemoveHolds(trip.heldSeats, selectedSeats);
      trips := trips[tripId := trip.(bookedSeats := trip.bookedSeats + selectedSeats,
                                     heldSeats := newHeldSeats,
                                     availableSeats := trip.availableSeats - |selectedSeats|)];

      var bookingId := nextId;
      bookings := bookings[bookingId := Booking(uid, tripId, selectedSeats, totalFare, Active, now, startStop, endStop)];
      var recordId := nextId + 1;
      transactions := transactions[recordId := TxRecord(uid, -totalFare, Deduction, now)];
      nextId := nextId + 2;
      return Ok(bookingId);
    }

    /** `cancelBooking`: refunds the fare in full when departure is at least
        two hours away, marks the booking cancelled and gives its seats back.
        The booking's current status is not consulted.
        The caller's user document is required only where the handler
        credits a positive refund to it. */
    method CancelBooking(caller: Option<UserId>, bookingId: DocId, now: int) returns (r: Result<int>)
      requires Valid()
      requires (caller.Some? && bookingId in bookings && bookings[bookingId].userId == caller.value
                && bookings[bookingId].tripId in trips
                && RefundAmount(bookings[bookingId].farePaid,
                                trips[bookings[bookingId].tripId].departureTime, now) > 0)
               ==> caller.value in users
      modifies this
      ensures Valid()
      ensures r.Err? ==> unchanged(this)
      ensures caller.None? ==> r == Err(Unauthenticated)
      ensures caller.Some? && bookingId !in old(bookings) ==> r == Err(NotFound)
      ensures (caller.Some? && bookingId in old(bookings) && old(bookings)[bookingId].userId != caller.value)
              ==> r == Err(PermissionDenied)
      ensures (caller.Some? && bookingId in old(bookings) && old(bookings)[bookingId].userId == caller.value
               && old(bookings)[bookingId].tripId !in old(trips))
              ==> r == Err(NotFound)
      ensures (caller.Some? && bookingId in old(bookings) && old(bookings)[bookingId].userId == caller.value
               && old(bookings)[bookingId].tripId in old(trips))
              ==>
        var uid := caller.value;
        var b := old(bookings)[bookingId];
        var t := old(trips)[b.tripId];
        var refund := RefundAmount(b.farePaid, t.departureTime, now);
        && r == Ok(refund)
        && bookings == old(bookings)[bookingId := b.(status := Cancelled)]
        && trips == old(trips)[b.tripId := CancelOn(t, b.seatNumbers)]
        && (refund > 0 ==>
              && old(nextId) !in old(transactions)
              && users == old(users)[uid := old(users)[uid].(walletBalance := old(users)[uid].walletBalance + refund)]
              && transactions == old(transactions)[old(nextId) := TxRecord(uid, refund, Refund, now)])
        && (refund <= 0 ==> users == old(users) && transactions == old(transactions))
    {
      if caller.None? {
        return Err(Unauthenticated);
      }
      var uid := caller.value;
      if bookingId !in bookings {
        return Err(NotFound);
      }
      var booking := bookings[bookingId];
      if booking.userId != uid {
        return Err(PermissionDenied);
      }
      if booking.tripId !in trips {
        return Err(NotFound);
      }
      var trip := trips[booking.tripId];

      var refund := RefundAmount(booking.farePaid, trip.departureTime, now);

      if refund > 0 {
        var user := users[uid];
        users := users[uid := user.(walletBalance := user.walletBalance + refund)];
        transactions := transactions[nextId := TxRecord(uid, refund, Refund, now)];
        nextId := nextId + 1;
      }

      bookings := bookings[bookingId := booking.(status := Cancelled)];

      trips := trips[booking.tripId := CancelOn(trip, booking.seatNumbers)];
      return Ok(refund);
    }
  }

  /** Two riders race for one seat: the second hold is refused. */
  method HoldConflictScenario() {
    var trip := Trip(500, 10, [], map[], 6 * 3_600_000);
    var store := new Store(map["trip" := trip], map[]);
    var first := store.HoldSeat(Some("rider"), "trip", 3, 0);
    assert first == Ok(());
    var second := store.HoldSeat(Some("other"), "trip", 3, 1);
    assert second == Err(AlreadyExists);
    var released := store.ReleaseSeat(Some("other"), "trip", 3);
    assert released == Ok(false);
    released := store.ReleaseSeat(Some("rider"), "trip", 3);
    assert released == Ok(true) && store.trips["trip"] == trip;
  }

  /** The round trip on the model: book two held seats of a ten-seat trip
      from a wallet of 1000, cancel six hours before departure. Seats and
      balance come back exactly; cancelling the same booking again refunds a
      second time and frees two more seats, because the handler never looks
      at the booking's status. */
  method RoundTripScenario() {
    var held := map[3 := Hold("rider", 0), 4 := Hold("rider", 0)];
    var trip := Trip(500, 10, [], held, 6 * 3_600_000);
    var store := new Store(map["trip" := trip], map["rider" := User(1000)]);
    var rider := Some("rider");
    assert HeldBy(held, 3, "rider") && HeldBy(held, 4, "rider");
    assert AllHeldBy(held, [3, 4], "rider");

    var booked := store.ProcessBooking(rider, "trip", [3, 4], "A", "B", 0);
    assert booked == Ok(0);
    assert store.trips["trip"].availableSeats == 8;
    assert store.users["rider"].walletBalance == 0;

    var cancelled := store.CancelBooking(rider, 0, 0);
    assert cancelled == Ok(1000);
    assert Unbook([3, 4], [3, 4]) == [];
    assert store.trips["trip"].availableSeats == 10;
    assert store.trips["trip"].bookedSeats == [];
    assert store.users["rider"].walletBalance == 1000;

    var twice := store.CancelBooking(rider, 0, 0);
    assert twice == Ok(1000);
    assert store.trips["trip"].availableSeats == 12;
    assert store.users["rider"].walletBalance == 2000;
  }
}
