/** The documents the booking handlers read and write: trips, users (wallets),
    bookings and wallet transaction records, plus the error kinds the handlers
    raise. Every document is a value; the store that holds them is in store.dfy. */
module Documents {

  type UserId = string
  type TripId = string
  /** Identifiers of generated documents (bookings, transaction records). */
  type DocId = nat
  /** A seat number as sent by the client. */
  type Seat = int
  /** A reference to a pick-up or drop-off stop, stored but never inspected. */
  type StopRef = string

  datatype Option<T> = None | Some(value: T)

  /** The error kinds the handlers raise (HttpsError codes). */
  datatype ErrorKind =
    | Unauthenticated
    | NotFound
    | AlreadyExists
    | FailedPrecondition
    | Aborted
    | PermissionDenied

  /** A handler either returns a value or fails with one error kind. */
  datatype Result<T> = Ok(value: T) | Err(kind: ErrorKind)

  /** One entry of a trip's `heldSeats` map. */
  datatype Hold = Hold(userId: UserId, holdTime: int)

  /** A trip document. Times are milliseconds since the epoch. */
  datatype Trip = Trip(
    fare: int,
    availableSeats: int,
    bookedSeats: seq<Seat>,
    heldSeats: map<Seat, Hold>,
    departureTime: int)

  /** A user document; only the wallet balance is used by the handlers. */
  datatype User = User(walletBalance: int)

  datatype BookingStatus = Active | Cancelled

  /** A booking document. */
  datatype Booking = Booking(
    userId: UserId,
    tripId: TripId,
    seatNumbers: seq<Seat>,
    farePaid: int,
    status: BookingStatus,
    bookingTime: int,
    startStop: StopRef,
    endStop: StopRef)

  datatype TxType = Deduction | Refund

  /** A wallet transaction record: a signed amount and its type. */
  datatype TxRecord = TxRecord(userId: UserId, amount: int, txType: TxType, timestamp: int)
}
