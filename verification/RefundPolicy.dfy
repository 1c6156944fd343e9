/** The published cancellation policy: who cancelled, and when, decides the refund. */
module RefundPolicy {
  import opened Outcomes
  import opened Paise

  const REFUND_PROCESSING_FEE_PAISE: int := 1_000
  const OWNER_CANCEL_GOODWILL_PAISE: int := 5_000
  const ACTIVE_GRACE_MS: int := 30 * 60_000
  const ACTIVE_GRACE_REFUND_BP: nat := 5_000

  datatype RefundTier = BeforeStart | ActiveGrace | NoRefund | OwnerCancelled

  datatype CancelledBy = Driver | Owner | Admin

  datatype RefundOutcome = RefundOutcome(
    tier: RefundTier,
    refundPaise: nat,
    retainedPaise: int,
    goodwillPaise: nat)

  function ResolveRefund(totalPaise: int, startsAt: int, at: int, cancelledBy: CancelledBy): Outcome<RefundOutcome>
  {
    if totalPaise < 0 then Thrown(NegativeAmount)
    else if cancelledBy == Owner || cancelledBy == Admin then
      Ok(RefundOutcome(OwnerCancelled, totalPaise, 0, OWNER_CANCEL_GOODWILL_PAISE))
    else if at < startsAt then
      var retained := if REFUND_PROCESSING_FEE_PAISE < totalPaise then REFUND_PROCESSING_FEE_PAISE else totalPaise;
      Ok(RefundOutcome(BeforeStart, totalPaise - retained, retained, 0))
    else if at < startsAt + ACTIVE_GRACE_MS then
      var refund := MulRate(totalPaise, ACTIVE_GRACE_REFUND_BP);
      Ok(RefundOutcome(ActiveGrace, refund, totalPaise - refund, 0))
    else
      Ok(RefundOutcome(NoRefund, 0, totalPaise, 0))
  }

  /** Refund and retention split the total, neither is negative, and goodwill is only our apology. */
  lemma RefundSplitsTotal(totalPaise: int, startsAt: int, at: int, cancelledBy: CancelledBy)
    ensures ResolveRefund(totalPaise, startsAt, at, cancelledBy).Ok? <==> totalPaise >= 0
    ensures totalPaise >= 0 ==>
      var o := ResolveRefund(totalPaise, startsAt, at, cancelledBy).value;
      && o.refundPaise + o.retainedPaise == totalPaise && o.retainedPaise >= 0
      && (o.goodwillPaise > 0 <==> cancelledBy != Driver)
      && (cancelledBy != Driver ==> o.refundPaise == totalPaise)
  {
    if totalPaise >= 0 {
      MulRateLipschitz(0, totalPaise, ACTIVE_GRACE_REFUND_BP);
    }
  }

  /** The clock decides a driver's refund: all but the flat fee, then half rounded up, then nothing. */
  lemma RefundByClock(totalPaise: nat, startsAt: int, at: int)
    ensures var o := ResolveRefund(totalPaise, startsAt, at, Driver).value;
      && (o.tier == BeforeStart <==> at < startsAt)
      && (o.tier == ActiveGrace <==> startsAt <= at < startsAt + ACTIVE_GRACE_MS)
      && (o.tier == NoRefund <==> startsAt + ACTIVE_GRACE_MS <= at)
      && (o.tier == BeforeStart ==>
            o.retainedPaise <= REFUND_PROCESSING_FEE_PAISE
            && (o.refundPaise > 0 ==> o.retainedPaise == REFUND_PROCESSING_FEE_PAISE))
      && (o.tier == ActiveGrace ==> 0 <= 2 * o.refundPaise - totalPaise <= 1)
      && (o.tier == NoRefund ==> o.refundPaise == 0)
  {
    MulRateError(totalPaise, ACTIVE_GRACE_REFUND_BP);
  }

  /**
   * Cancelling earlier never pays the driver less, except on small bookings: the flat fee before
   * the start takes more than half of a total under ₹20.
   */
  lemma EarlierNeverPaysLess(totalPaise: nat)
    ensures (forall startsAt, t1, t2 :: t1 <= t2 ==>
               ResolveRefund(totalPaise, startsAt, t2, Driver).value.refundPaise
               <= ResolveRefund(totalPaise, startsAt, t1, Driver).value.refundPaise)
      <==> totalPaise == 0 || totalPaise >= 2 * REFUND_PROCESSING_FEE_PAISE
  {
    MulRateError(totalPaise, ACTIVE_GRACE_REFUND_BP);
    var before := ResolveRefund(totalPaise, 0, -1, Driver).value.refundPaise;
    var during := ResolveRefund(totalPaise, 0, 0, Driver).value.refundPaise;
  }
}
