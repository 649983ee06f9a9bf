/** Seat bookkeeping on one trip document: who holds a seat, the new
    `bookedSeats` and `heldSeats` a booking or a cancellation leaves behind,
    and the two loops `processBooking` runs over the selected seats. */
module Seats {
  import opened Documents

  /** The seat is held, and held by `user`. */
  predicate HeldBy(held: map<Seat, Hold>, seat: Seat, user: UserId) {
    seat in held && held[seat].userId == user
  }

  /** Every selected seat is held by `user`. */
  predicate AllHeldBy(held: map<Seat, Hold>, seats: seq<Seat>, user: UserId) {
    forall i :: 0 <= i < |seats| ==> HeldBy(held, seats[i], user)
  }

  /** The seat numbers occurring in a list. */
  function Elems(seats: seq<Seat>): set<Seat> {
    set s | s in seats
  }

  /** No seat number occurs twice. */
  predicate NoDup(seats: seq<Seat>) {
    forall i, j :: 0 <= i < j < |seats| ==> seats[i] != seats[j]
  }

  /** The seat invariant of a trip: no seat is booked twice and no booked
      seat is also held. */
  predicate Consistent(t: Trip) {
    && NoDup(t.bookedSeats)
    && forall s :: s in t.bookedSeats ==> s !in t.heldSeats
  }

  /** `booked.filter(seat => !seats.includes(seat))`: every occurrence of a
      seat of `seats` is dropped, the rest keep their order. */
  function Unbook(booked: seq<Seat>, seats: seq<Seat>): (r: seq<Seat>)
    ensures forall x :: x in r <==> x in booked && x !in seats
    ensures |r| <= |booked|
  {
    if booked == [] then []
    else if booked[0] in seats then Unbook(booked[1..], seats)
    else [booked[0]] + Unbook(booked[1..], seats)
  }

  /** The trip after a hold of `seat` by `user` at time `now`. */
  function HoldOn(t: Trip, seat: Seat, user: UserId, now: int): Trip {
    t.(heldSeats := t.heldSeats[seat := Hold(user, now)])
  }

  /** The trip after the hold on `seat` is deleted. */
  function ReleaseOn(t: Trip, seat: Seat): Trip {
    t.(heldSeats := t.heldSeats - {seat})
  }

  /** The trip after a booking of `seats`: they are appended to `bookedSeats`,
      their holds are deleted and `availableSeats` drops by their number. */
  function BookOn(t: Trip, seats: seq<Seat>): (r: Trip)
    ensures r.availableSeats + |r.bookedSeats| == t.availableSeats + |t.bookedSeats|
    ensures forall s :: s in seats ==> s in r.bookedSeats && s !in r.heldSeats
    ensures |t.bookedSeats| <= |r.bookedSeats| && r.bookedSeats[..|t.bookedSeats|] == t.bookedSeats
    ensures forall s :: s in t.heldSeats && s !in seats ==> s in r.heldSeats && r.heldSeats[s] == t.heldSeats[s]
    ensures r.heldSeats.Keys <= t.heldSeats.Keys
    ensures r.fare == t.fare && r.departureTime == t.departureTime
  {
    t.(bookedSeats := t.bookedSeats + seats,
       heldSeats := t.heldSeats - Elems(seats),
       availableSeats := t.availableSeats - |seats|)
  }

  /** The trip after a cancellation returns `seats`: they are filtered out of
      `bookedSeats` and `availableSeats` grows by their number. */
  function CancelOn(t: Trip, seats: seq<Seat>): (r: Trip)
    ensures forall s :: s in r.bookedSeats <==> s in t.bookedSeats && s !in seats
    ensures |r.bookedSeats| <= |t.bookedSeats|
    ensures r.heldSeats == t.heldSeats && r.fare == t.fare && r.departureTime == t.departureTime
  {
    t.(bookedSeats := Unbook(t.bookedSeats, seats),
       availableSeats := t.availableSeats + |seats|)
  }

  /** The check loop of `processBooking`: the index of the first selected
      seat that the caller does not hold, or None when they hold them all. */
  method FirstNotHeld(held: map<Seat, Hold>, seats: seq<Seat>, user: UserId) returns (r: Option<nat>)
    ensures r.None? <==> AllHeldBy(held, seats, user)
    ensures r.Some? ==> r.value < |seats| && !HeldBy(held, seats[r.value], user)
    ensures r.Some? ==> forall j :: 0 <= j < r.value ==> HeldBy(held, seats[j], user)
  {
    var i := 0;
    while i < |seats|
      invariant 0 <= i <= |seats|
      invariant forall j :: 0 <= j < i ==> HeldBy(held, seats[j], user)
    {
      if !HeldBy(held, seats[i], user) {
        return Some(i);
      }
      i := i + 1;
    }
    return None;
  }

  /** The delete loop of `processBooking`: a copy of `held` with the entry of
      every selected seat removed. */
  method RemoveHolds(held: map<Seat, Hold>, seats: seq<Seat>) returns (r: map<Seat, Hold>)
    ensures r == held - Elems(seats)
  {
    r := held;
    var i := 0;
    while i < |seats|
      invariant 0 <= i <= |seats|
      invariant r == held - Elems(seats[..i])
    {
      assert Elems(seats[..i + 1]) == Elems(seats[..i]) + {seats[i]} by {
        assert seats[..i + 1] == seats[..i] + [seats[i]];
      }
      r := r - {seats[i]};
      i := i + 1;
    }
    assert seats[..i] == seats;
  }

  // ---------------------------------------------------------------------
  // Facts about lists of seats

  lemma {:induction false} NoDupConcat(a: seq<Seat>, b: seq<Seat>)
    ensures NoDup(a + b) <==> NoDup(a) && NoDup(b) && (forall x :: x in a ==> x !in b)
  {
    var ab := a + b;
    if NoDup(ab) {
      forall i, j | 0 <= i < j < |a| ensures a[i] != a[j] {
        assert ab[i] == a[i] && ab[j] == a[j];
      }
      forall i, j | 0 <= i < j < |b| ensures b[i] != b[j] {
        assert ab[|a| + i] == b[i] && ab[|a| + j] == b[j];
      }
      forall i, j | 0 <= i < |a| && 0 <= j < |b| ensures a[i] != b[j] {
        assert ab[i] == a[i] && ab[|a| + j] == b[j];
      }
    }
    if NoDup(a) && NoDup(b) && (forall x :: x in a ==> x !in b) {
      forall i, j | 0 <= i < j < |ab| ensures ab[i] != ab[j] {
        if j < |a| {
          assert ab[i] == a[i] && ab[j] == a[j];
        } else if i < |a| {
          assert ab[i] == a[i] && ab[j] == b[j - |a|];
          assert a[i] in a;
        } else {
          assert ab[i] == b[i - |a|] && ab[j] == b[j - |a|];
        }
      }
    }
  }

  /** A list has at most as many distinct seats as entries, and exactly as
      many when it has no repetitions. */
  lemma {:induction false} ElemsCard(s: seq<Seat>)
    ensures |Elems(s)| <= |s|
    ensures NoDup(s) <==> |Elems(s)| == |s|
  {
    if s == [] {
      assert Elems(s) == {};
    } else {
      var first, tail := s[0], s[1..];
      assert s == [first] + tail;
      NoDupConcat([first], tail);
      ElemsCard(tail);
      assert Elems(s) == {first} + Elems(tail);
      assert first in [first];
      if first in Elems(tail) {
        assert Elems(s) == Elems(tail);
      } else {
        assert first !in tail;
      }
    }
  }

  /** Filtering a list without repetitions keeps it without repetitions. */
  lemma {:induction false} UnbookNoDup(booked: seq<Seat>, seats: seq<Seat>)
    requires NoDup(booked)
    ensures NoDup(Unbook(booked, seats))
  {
    if booked != [] {
      var tail := booked[1..];
      assert NoDup(tail) by {
        assert booked == [booked[0]] + tail;
        NoDupConcat([booked[0]], tail);
      }
      UnbookNoDup(tail, seats);
      if booked[0] !in seats {
        assert booked[0] !in tail by {
          assert booked == [booked[0]] + tail;
          NoDupConcat([booked[0]], tail);
        }
        NoDupConcat([booked[0]], Unbook(tail, seats));
      }
    }
  }

  /** On a list without repetitions the filter drops exactly one entry for
      each distinct seat it shares with `seats`. */
  lemma {:induction false} UnbookLength(booked: seq<Seat>, seats: seq<Seat>)
    requires NoDup(booked)
    ensures |Unbook(booked, seats)| + |Elems(booked) * Elems(seats)| == |booked|
  {
    if booked == [] {
      assert Elems(booked) == {};
    } else {
      var tail := booked[1..];
      assert booked == [booked[0]] + tail;
      NoDupConcat([booked[0]], tail);
      UnbookLength(tail, seats);
      assert booked[0] !in Elems(tail);
      assert Elems(booked) == {booked[0]} + Elems(tail);
      if booked[0] in seats {
        assert Elems(booked) * Elems(seats) == {booked[0]} + Elems(tail) * Elems(seats);
      } else {
        assert Elems(booked) * Elems(seats) == Elems(tail) * Elems(seats);
      }
    }
  }

  /** Filtering distributes over concatenation. */
  lemma {:induction false} UnbookConcat(a: seq<Seat>, b: seq<Seat>, seats: seq<Seat>)
    ensures Unbook(a + b, seats) == Unbook(a, seats) + Unbook(b, seats)
  {
    if a != [] {
      assert (a + b)[1..] == a[1..] + b;
      UnbookConcat(a[1..], b, seats);
    } else {
      assert a + b == b;
    }
  }

  /** Filtering out seats that do not occur changes nothing. */
  lemma {:induction false} UnbookDisjoint(booked: seq<Seat>, seats: seq<Seat>)
    requires forall x :: x in booked ==> x !in seats
    ensures Unbook(booked, seats) == booked
  {
    if booked != [] {
      var tail := booked[1..];
      assert forall x :: x in tail ==> x in booked;
      UnbookDisjoint(tail, seats);
      var first := booked[0];
      assert first in booked;
      assert first !in seats;
      assert booked == [first] + tail;
    }
  }

  /** Filtering out every seat of a list leaves nothing. */
  lemma {:induction false} UnbookCovered(booked: seq<Seat>, seats: seq<Seat>)
    requires forall x :: x in booked ==> x in seats
    ensures Unbook(booked, seats) == []
  {
    if booked != [] {
      var tail := booked[1..];
      assert forall x :: x in tail ==> x in booked;
      UnbookCovered(tail, seats);
      var first := booked[0];
      assert first in booked;
      assert first in seats;
    }
  }

  // ---------------------------------------------------------------------
  // Holds

  /** A hold followed by a release by the same user gives back the trip as
      it was: the new entry is the caller's, and deleting it restores
      `heldSeats`. */
  lemma ReleaseUndoesHold(t: Trip, seat: Seat, user: UserId, now: int)
    requires seat !in t.heldSeats
    ensures HeldBy(HoldOn(t, seat, user, now).heldSeats, seat, user)
    ensures ReleaseOn(HoldOn(t, seat, user, now), seat) == t
  {
    assert ReleaseOn(HoldOn(t, seat, user, now), seat).heldSeats == t.heldSeats;
  }

  /** A hold that passed the `already-exists` checks keeps the seat invariant. */
  lemma HoldKeepsConsistent(t: Trip, seat: Seat, user: UserId, now: int)
    requires Consistent(t) && seat !in t.bookedSeats
    ensures Consistent(HoldOn(t, seat, user, now))
  {
  }

  /** Releasing a hold keeps the seat invariant. */
  lemma ReleaseKeepsConsistent(t: Trip, seat: Seat)
    requires Consistent(t)
    ensures Consistent(ReleaseOn(t, seat))
  {
  }

  // ---------------------------------------------------------------------
  // Bookings

  /** A booking of seats that are all held by the caller keeps the seat
      invariant exactly when the selected list has no repeated seat: a
      repeated seat is appended to `bookedSeats` twice. */
  lemma BookKeepsConsistentIff(t: Trip, seats: seq<Seat>, user: UserId)
    requires Consistent(t) && AllHeldBy(t.heldSeats, seats, user)
    ensures Consistent(BookOn(t, seats)) <==> NoDup(seats)
  {
    var r := BookOn(t, seats);
    assert forall x :: x in t.bookedSeats ==> x !in seats by {
      forall i | 0 <= i < |seats| ensures seats[i] !in t.bookedSeats {
        assert HeldBy(t.heldSeats, seats[i], user);
      }
    }
    NoDupConcat(t.bookedSeats, seats);
    assert forall s :: s in r.bookedSeats ==> s !in r.heldSeats by {
      forall s | s in r.bookedSeats ensures s !in r.heldSeats {
        assert s in t.bookedSeats || s in seats;
      }
    }
  }

  // ---------------------------------------------------------------------
  // Cancellations

  /** Returning seats keeps the seat invariant. */
  lemma CancelKeepsConsistent(t: Trip, seats: seq<Seat>)
    requires Consistent(t)
    ensures Consistent(CancelOn(t, seats))
  {
    UnbookNoDup(t.bookedSeats, seats);
  }

  /** On a trip that keeps the seat invariant, a cancellation conserves
      `availableSeats + |bookedSeats|` exactly when the booking's seats are
      distinct and all currently booked. */
  lemma CancelConserves(t: Trip, seats: seq<Seat>)
    requires Consistent(t)
    ensures CancelOn(t, seats).availableSeats + |CancelOn(t, seats).bookedSeats|
            == t.availableSeats + |t.bookedSeats|
            <==> NoDup(seats) && forall s :: s in seats ==> s in t.bookedSeats
  {
    UnbookLength(t.bookedSeats, seats);
    ElemsCard(seats);
    var common := Elems(t.bookedSeats) * Elems(seats);
    if forall s :: s in seats ==> s in t.bookedSeats {
      assert common == Elems(seats);
    } else {
      var missing :| missing in seats && missing !in t.bookedSeats;
      var rest := Elems(seats) - common;
      assert missing in rest;
      assert Elems(seats) == common + rest && common !! rest;
      assert |rest| >= 1;
    }
  }

  /** Booking seats that are not booked yet and then cancelling that booking
      gives back the trip without the holds on those seats. */
  lemma BookThenCancel(t: Trip, seats: seq<Seat>)
    requires forall s :: s in seats ==> s !in t.bookedSeats
    ensures CancelOn(BookOn(t, seats), seats) == t.(heldSeats := t.heldSeats - Elems(seats))
  {
    UnbookConcat(t.bookedSeats, seats, seats);
    UnbookDisjoint(t.bookedSeats, seats);
    UnbookCovered(seats, seats);
    assert t.bookedSeats + [] == t.bookedSeats;
  }

  /** Because the status is not checked, a stale second cancellation also
      hits whoever booked the same seats in between: seats that a later
      booking put into `bookedSeats` are filtered out again, though that
      booking stays active. */
  lemma StaleCancelUnbooksLaterBooking(t: Trip, seats: seq<Seat>, later: seq<Seat>)
    ensures var rebooked := BookOn(CancelOn(t, seats), later);
            && (forall s :: s in later ==> s in rebooked.bookedSeats)
            && (forall s :: s in seats ==> s !in CancelOn(rebooked, seats).bookedSeats)
  {
  }

  /** The handler does not look at the booking's status, so a second
      cancellation of the same seats removes nothing more from `bookedSeats`
      but returns `|seats|` seats to `availableSeats` again. */
  lemma CancelTwice(t: Trip, seats: seq<Seat>)
    ensures CancelOn(CancelOn(t, seats), seats).bookedSeats == CancelOn(t, seats).bookedSeats
    ensures CancelOn(CancelOn(t, seats), seats).availableSeats
            == CancelOn(t, seats).availableSeats + |seats|
  {
    UnbookDisjoint(Unbook(t.bookedSeats, seats), seats);
  }
}
