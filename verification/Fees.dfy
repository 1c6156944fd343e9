/** What a valet leg and a car wash cost, and how the price is split. */
module Fees {
  import opened Outcomes
  import opened Paise
  import opened Rates

  /** A service price split between partner, platform and tax. */
  datatype ServiceFee = ServiceFee(
    feePaise: nat,
    commissionPaise: nat,
    partnerEarningsPaise: int,
    gstPaise: nat,
    driverTotalPaise: nat)

  function Split(feePaise: nat, commissionBp: nat): ServiceFee
  {
    var commission := MulRate(feePaise, commissionBp);
    var gst := MulRate(commission, GST_BP);
    ServiceFee(feePaise, commission, feePaise - commission, gst, feePaise + gst)
  }

  const METRES_PER_KM: real := 1000.0

  function Ceil(x: real): int
  {
    -(-x).Floor
  }

  function ChargeableKm(distanceM: real): int
  {
    Ceil(distanceM / METRES_PER_KM)
  }

  function ComputeValetLegFee(distanceM: real, commissionBp: nat): Outcome<ServiceFee>
  {
    if distanceM < 0.0 then Thrown(NegativeDistance)
    else
      var distancePaise := ChargeableKm(distanceM) * VALET_PER_KM_PAISE;
      assert ChargeableKm(distanceM) >= 0;
      Ok(Split(VALET_BASE_FEE_PAISE + distancePaise, commissionBp))
  }

  function ComputeValetNoShowFee(commissionBp: nat): Outcome<ServiceFee>
  {
    ComputeValetLegFee(0.0, commissionBp)
  }

  function ComputeWashFee(pricePaise: int, commissionBp: nat): Outcome<ServiceFee>
  {
    if pricePaise <= 0 then Thrown(NonPositivePrice) else Ok(Split(pricePaise, commissionBp))
  }

  /** Commission is a share of the fee, GST a share of the commission only; nothing is lost between them. */
  lemma SplitAmounts(feePaise: nat, commissionBp: nat)
    ensures var f := Split(feePaise, commissionBp);
      && NearestPaisa(f.commissionPaise, feePaise, commissionBp)
      && NearestPaisa(f.gstPaise, f.commissionPaise, GST_BP)
      && f.driverTotalPaise == feePaise + f.gstPaise
      && f.partnerEarningsPaise + f.commissionPaise + f.gstPaise == f.driverTotalPaise
  {
    var f := Split(feePaise, commissionBp);
    MulRateIsNearest(feePaise, commissionBp, f.commissionPaise);
    MulRateIsNearest(f.commissionPaise, GST_BP, f.gstPaise);
  }

  /** A leg costs ₹50 and ₹10 for each kilometre begun; a driver who does not show up owes the ₹50. */
  lemma ValetFeeByDistance(distanceM: real, commissionBp: nat, km: int)
    requires 0.0 <= distanceM
    requires (km - 1) as real * METRES_PER_KM < distanceM <= km as real * METRES_PER_KM
    ensures km >= 0
    ensures ComputeValetLegFee(distanceM, commissionBp) == Ok(Split(5_000 + 1_000 * km, commissionBp))
    ensures ComputeValetNoShowFee(commissionBp) == Ok(Split(5_000, commissionBp))
  {
    assert ChargeableKm(distanceM) == km;
    assert ChargeableKm(0.0) == 0;
  }

  /** Every part of the split grows with the fee, and by no more than the fee itself does. */
  lemma SplitMonotone(low: nat, high: nat, commissionBp: nat)
    requires low <= high && commissionBp <= RATE_SCALE
    ensures var a, b := Split(low, commissionBp), Split(high, commissionBp);
      && 0 <= a.partnerEarningsPaise <= b.partnerEarningsPaise
      && a.commissionPaise <= b.commissionPaise
      && a.gstPaise <= b.gstPaise
      && b.driverTotalPaise - a.driverTotalPaise >= high - low
  {
    MulRateLipschitz(low, high, commissionBp);
    MulRateLipschitz(0, low, commissionBp);
    var a, b := Split(low, commissionBp), Split(high, commissionBp);
    MulRateMonotone(a.commissionPaise, b.commissionPaise, GST_BP, GST_BP);
  }
}
