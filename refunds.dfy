/** The cancellation refund rule: the full fare when departure is at least
    two hours away, nothing otherwise. Times are milliseconds. */
module Refunds {

  /** Two hours in milliseconds. */
  const FULL_REFUND_NOTICE: int := 2 * 3_600_000

  /** The refund for a booking that paid `farePaid`, cancelled at `now` for a
      trip departing at `departure`. */
  function RefundAmount(farePaid: int, departure: int, now: int): int {
    if departure - now >= FULL_REFUND_NOTICE then farePaid else 0
  }

  /** The integer cutoff is the rule the handler states in hours: the time
      to departure divided by 3 600 000 is at least 2. */
  lemma CutoffInHours(departure: int, now: int)
    ensures (departure - now) as real / 3_600_000.0 >= 2.0 <==> departure - now >= FULL_REFUND_NOTICE
  {
    var d := (departure - now) as real;
    assert d / 3_600_000.0 * 3_600_000.0 == d;
  }

  /** All or nothing: the refund is the fare paid or zero, and it is the
      fare paid exactly when the notice is long enough (or the fare was 0). */
  lemma RefundAllOrNothing(farePaid: int, departure: int, now: int)
    ensures RefundAmount(farePaid, departure, now) in {0, farePaid}
    ensures RefundAmount(farePaid, departure, now) == farePaid
            <==> departure - now >= FULL_REFUND_NOTICE || farePaid == 0
  {
  }

  /** For a non-negative fare, cancelling later never refunds more, and the
      refund never exceeds what was paid. */
  lemma RefundMonotone(farePaid: int, departure: int, earlier: int, later: int)
    requires 0 <= farePaid && earlier <= later
    ensures 0 <= RefundAmount(farePaid, departure, later) <= RefundAmount(farePaid, departure, earlier) <= farePaid
  {
  }
}
