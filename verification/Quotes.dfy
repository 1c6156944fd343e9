/** The parking quote: surge premium, commission, GST, and the waiver of a commission-free owner. */
module Quotes {
  import opened Outcomes
  import opened Paise
  import opened Rates

  datatype FeeInput = FeeInput(
    basePaise: nat,
    surgeBp: int,
    commissionBp: Option<nat>,
    gstBp: Option<nat>,
    commissionWaived: bool)

  datatype FeeBreakdown = FeeBreakdown(
    basePaise: nat,
    surgePremiumPaise: nat,
    commissionPaise: nat,
    parkeaseFeePaise: nat)

  datatype Quote = Quote(
    fee: FeeBreakdown,
    gstPaise: nat,
    driverTotalPaise: nat,
    ownerEarningsPaise: nat,
    commissionWaiverPaise: nat,
    surgeMultiplierBp: int,
    commissionRateBp: nat,
    gstRateBp: nat)

  function OrElse(o: Option<nat>, fallback: nat): nat
  {
    match o
    case Some(v) => v
    case None => fallback
  }

  function CommissionBp(input: FeeInput): nat
  {
    OrElse(input.commissionBp, PLATFORM_COMMISSION_BP)
  }

  predicate SurgeInRange(surgeBp: int)
  {
    SURGE_MULTIPLIER_MIN_BP <= surgeBp <= SURGE_MULTIPLIER_MAX_BP
  }

  function ParkEaseFee(input: FeeInput): Outcome<FeeBreakdown>
  {
    if input.surgeBp < SURGE_MULTIPLIER_MIN_BP || input.surgeBp > SURGE_MULTIPLIER_MAX_BP then
      Thrown(SurgeOutOfRange)
    else
      var surgePremium := MulRate(input.basePaise, input.surgeBp - SURGE_MULTIPLIER_MIN_BP);
      var commission := MulRate(input.basePaise, CommissionBp(input));
      Ok(FeeBreakdown(input.basePaise, surgePremium, commission, commission + surgePremium))
  }

  predicate QuoteBalances(q: Quote)
  {
    q.ownerEarningsPaise + q.fee.parkeaseFeePaise + q.gstPaise
    == q.driverTotalPaise + q.commissionWaiverPaise
  }

  function MakeQuote(input: FeeInput): Outcome<Quote>
  {
    var fee :- ParkEaseFee(input);
    var gstRate := OrElse(input.gstBp, GST_BP);
    var gst := MulRate(fee.parkeaseFeePaise, gstRate);
    var waiver := if input.commissionWaived then fee.commissionPaise else 0;
    var afterCommission :- SubPaise(fee.basePaise, fee.commissionPaise);
    var q := Quote(
      fee, gst,
      fee.basePaise + fee.surgePremiumPaise + gst,
      afterCommission + waiver,
      waiver, input.surgeBp, CommissionBp(input), gstRate);
    if !QuoteBalances(q) then Thrown(QuoteUnbalanced) else Ok(q)
  }

  /**
   * A quote fails only for a surge out of range, or a commission over 100% whose excess does not
   * round away; the balance assertion never fires.
   */
  lemma QuoteFailsExactly(input: FeeInput)
    ensures MakeQuote(input).Ok? <==>
      SurgeInRange(input.surgeBp)
      && 2 * (input.basePaise * (CommissionBp(input) - RATE_SCALE)) < RATE_SCALE
    ensures MakeQuote(input).Thrown? ==>
      MakeQuote(input).error == if SurgeInRange(input.surgeBp) then Underflow else SurgeOutOfRange
  {
    MulRateAtMostWhole(input.basePaise, CommissionBp(input));
  }

  /**
   * What each amount is a share of: the surge premium and the commission of the base, the GST of
   * the platform's fee alone; each is the nearest paisa, and the driver pays base, premium and GST.
   */
  lemma QuoteAmounts(input: FeeInput)
    requires MakeQuote(input).Ok?
    ensures var q := MakeQuote(input).value;
      && NearestPaisa(q.fee.surgePremiumPaise, input.basePaise, input.surgeBp - SURGE_MULTIPLIER_MIN_BP)
      && NearestPaisa(q.fee.commissionPaise, input.basePaise, q.commissionRateBp)
      && NearestPaisa(q.gstPaise, q.fee.commissionPaise + q.fee.surgePremiumPaise, q.gstRateBp)
      && q.driverTotalPaise == input.basePaise + q.fee.surgePremiumPaise + q.gstPaise
  {
    var q := MakeQuote(input).value;
    MulRateIsNearest(input.basePaise, input.surgeBp - SURGE_MULTIPLIER_MIN_BP, q.fee.surgePremiumPaise);
    MulRateIsNearest(input.basePaise, q.commissionRateBp, q.fee.commissionPaise);
    MulRateIsNearest(q.fee.parkeaseFeePaise, q.gstRateBp, q.gstPaise);
  }

  /** A commission of at most 100% always quotes, at every base and every permitted surge. */
  lemma QuoteNeverUnderflows(input: FeeInput)
    requires SurgeInRange(input.surgeBp) && CommissionBp(input) <= RATE_SCALE
    ensures MakeQuote(input).Ok?
  {
    QuoteFailsExactly(input);
    NonPositiveProduct(input.basePaise, CommissionBp(input) - RATE_SCALE);
  }

  lemma NonPositiveProduct(a: nat, b: int)
    requires b <= 0
    ensures a * b <= 0
  {
  }

  /** Waiving the commission moves nothing for the driver and pays the owner exactly the base. */
  lemma WaiverIsInvisibleToDriver(input: FeeInput)
    requires MakeQuote(input).Ok?
    ensures var q, kept, waived := MakeQuote(input).value,
        MakeQuote(input.(commissionWaived := false)), MakeQuote(input.(commissionWaived := true));
      && kept.Ok? && waived.Ok?
      && waived.value.driverTotalPaise == kept.value.driverTotalPaise == q.driverTotalPaise
      && waived.value.gstPaise == kept.value.gstPaise
      && waived.value.ownerEarningsPaise == input.basePaise
      && kept.value.ownerEarningsPaise == input.basePaise - kept.value.fee.commissionPaise
      && waived.value.commissionWaiverPaise
           == waived.value.ownerEarningsPaise - kept.value.ownerEarningsPaise
  {
  }

  /** Surge is the platform's alone, and a higher surge never lowers the driver's price. */
  lemma SurgeReachesOnlyDriver(input: FeeInput, surgeBp: int)
    requires MakeQuote(input).Ok? && SurgeInRange(surgeBp) && input.surgeBp <= surgeBp
    ensures var low, high := MakeQuote(input), MakeQuote(input.(surgeBp := surgeBp));
      && high.Ok?
      && high.value.ownerEarningsPaise == low.value.ownerEarningsPaise
      && high.value.commissionWaiverPaise == low.value.commissionWaiverPaise
      && low.value.driverTotalPaise <= high.value.driverTotalPaise
      && low.value.fee.parkeaseFeePaise <= high.value.fee.parkeaseFeePaise
  {
    var base, gstBp := input.basePaise, OrElse(input.gstBp, GST_BP);
    var low := ParkEaseFee(input).value;
    var high := ParkEaseFee(input.(surgeBp := surgeBp)).value;
    MulRateMonotone(base, base, input.surgeBp - SURGE_MULTIPLIER_MIN_BP, surgeBp - SURGE_MULTIPLIER_MIN_BP);
    MulRateMonotone(low.parkeaseFeePaise, high.parkeaseFeePaise, gstBp, gstBp);
  }
}
