/**
 * What is not true of several partial refunds, and of one refund to a commission-free owner: each
 * claim holds for every quote up to an exact limit, and quotes at the platform's rates break it beyond.
 */
module RefundLimits {
  import opened Outcomes
  import opened Rounding
  import opened Paise
  import opened Sums
  import opened LargestRemainder
  import opened Rates
  import opened Quotes
  import opened LedgerEntries
  import opened LedgerEffects
  import opened PartialRefunds
  import opened LifeCycles

  // ----- Quotes at the platform's own rates

  /** A quote at the platform's commission and GST. */
  ghost predicate AtPlatformRates(input: FeeInput)
  {
    input.commissionBp == None && input.gstBp == None && MakeQuote(input).Ok?
  }

  function QuoteTotals(input: FeeInput): ReceivableTotals
    requires MakeQuote(input).Ok?
  {
    TotalsOf(MakeQuote(input).value)
  }

  ghost predicate EachPositive(refunds: seq<nat>)
  {
    forall i :: 0 <= i < |refunds| ==> refunds[i] > 0
  }

  /** What a caller may do: refunds that are worth something and together stay within the booking. */
  ghost predicate Permitted(t: ReceivableTotals, refunds: seq<nat>)
  {
    EachPositive(refunds) && Sum(refunds) <= t.driverTotalPaise
  }

  // ----- Refunding a paisa at a time

  function Pennies(k: nat): seq<nat>
  {
    seq(k, _ => 1)
  }

  lemma {:induction false} PenniesSum(k: nat)
    ensures Sum(Pennies(k)) == k
  {
    if k == 0 {
    } else {
      PenniesSum(k - 1);
      assert Pennies(k) == Pennies(k - 1) + [1];
      SumAppend(Pennies(k - 1), 1);
    }
  }

  /** The owner's leg is the largest, and not the whole price. */
  predicate OwnerHeaviest(t: ReceivableTotals)
  {
    && t.WellFormed() && t.commissionWaiverPaise == 0
    && t.parkeaseFeePaise <= t.ownerEarningsPaise && t.gstPaise <= t.ownerEarningsPaise
    && 0 < t.ownerEarningsPaise < t.driverTotalPaise
  }

  /** A single paisa comes from the heaviest leg. */
  lemma PennyFromOwner(t: ReceivableTotals)
    requires OwnerHeaviest(t)
    ensures SplitRefund(t, 1) == Ok(RefundSplit(1, 0, 0, 0))
  {
    var w, total := SplitWeights(t), t.driverTotalPaise;
    Sum3(w);
    var parts := Parts(1, w, total);
    PennyFloors(w, total);
    assert Rank(Remainders(1, w, total), 0) == 0 by {
      assert (set j: nat | j < 3 && Before(Remainders(1, w, total), j, 0)) == {};
    }
    AllocationIsExact(1, w);
    Sum3(parts);
    AllocationQuota(1, w, 1);
    AllocationQuota(1, w, 2);
  }

  lemma PennyFloors(w: seq<int>, total: int)
    requires |w| == 3 && AllNonNegative(w) && w[0] < total && w[1] < total && w[2] < total
    ensures Floors(1, w, total) == [0, 0, 0] && Remainders(1, w, total) == w && Spare(1, w, total) == 1
  {
    assert Floors(1, w, total) == [0, 0, 0];
    Sum3([0, 0, 0]);
  }

  /** So refunding a paisa at a time takes every paisa from the owner. */
  lemma {:induction false} PenniesFromOwner(t: ReceivableTotals, k: nat)
    requires OwnerHeaviest(t)
    ensures Taken(t, Pennies(k)) == RefundSplit(k, 0, 0, 0)
  {
    if k == 0 {
    } else {
      PenniesFromOwner(t, k - 1);
      assert Pennies(k)[..k - 1] == Pennies(k - 1);
      PennyFromOwner(t);
    }
  }

  // ----- The bound on the drift is attained

  /**
   * At a commission of 50% and a GST of 100% the three legs are equal, and every refund of a paisa
   * is off by the full 2/3 of a paisa: `DriftBound` cannot be improved for any number of refunds.
   */
  lemma DriftBoundIsAttained(share: nat, k: nat)
    requires share > 0
    ensures var quote := MakeQuote(FeeInput(2 * share, SURGE_MULTIPLIER_MIN_BP, Some(5_000), Some(10_000), false));
      && quote.Ok?
      && var t, refunds := TotalsOf(quote.value), Pennies(k);
      && t.driverTotalPaise == 3 * share
      && |refunds| == k && Sum(refunds) == k
      && 3 * Abs(Sum(refunds) * t.ownerEarningsPaise - t.driverTotalPaise * Taken(t, refunds).owner)
         == 2 * (k * t.driverTotalPaise)
  {
    EqualQuote(share);
    EqualPennies(TotalsOf(MakeQuote(
        FeeInput(2 * share, SURGE_MULTIPLIER_MIN_BP, Some(5_000), Some(10_000), false)).value), share, k);
  }

  lemma EqualQuote(share: nat)
    ensures var quote := MakeQuote(FeeInput(2 * share, SURGE_MULTIPLIER_MIN_BP, Some(5_000), Some(10_000), false));
      quote.Ok? && TotalsOf(quote.value) == ReceivableTotals(3 * share, share, share, share, 0)
  {
    QuoteNeverUnderflows(FeeInput(2 * share, SURGE_MULTIPLIER_MIN_BP, Some(5_000), Some(10_000), false));
    EqualLegs(share);
  }

  lemma EqualPennies(t: ReceivableTotals, share: nat, k: nat)
    requires share > 0 && t == ReceivableTotals(3 * share, share, share, share, 0)
    ensures |Pennies(k)| == k && Sum(Pennies(k)) == k
    ensures 3 * Abs(Sum(Pennies(k)) * t.ownerEarningsPaise - t.driverTotalPaise * Taken(t, Pennies(k)).owner)
      == 2 * (k * t.driverTotalPaise)
  {
    PenniesSum(k);
    PenniesFromOwner(t, k);
    ThirdOfEach(k, share, 3 * share);
  }

  lemma ThirdOfEach(k: nat, share: nat, total: nat)
    requires total == 3 * share
    ensures 3 * Abs(k * share - total * k) == 2 * (k * total)
  {
    assert total * k == 3 * (k * share);
  }

  lemma EqualLegs(share: nat)
    ensures MulRate(2 * share, 0) == 0
    ensures MulRate(2 * share, 5_000) == share
    ensures MulRate(share, 10_000) == share
  {
    MulRateIsNearest(2 * share, 0, 0);
    MulRateIsNearest(2 * share, 5_000, share);
    MulRateIsNearest(share, 10_000, share);
  }

  // ----- Overdrawing a leg

  /** Some leg has given back more than the booking credited it. */
  ghost predicate Overdrawn(t: ReceivableTotals, refunds: seq<nat>)
  {
    var s := Taken(t, refunds);
    || s.owner + s.waiver > t.ownerEarningsPaise
    || s.fee > t.parkeaseFeePaise
    || s.gst > t.gstPaise
    || s.waiver > t.commissionWaiverPaise
  }

  /** No `k` permitted refunds overdraw a leg, whatever the totals. */
  ghost predicate NeverOverdrawn(k: nat)
  {
    forall t: ReceivableTotals, refunds: seq<nat> ::
      t.WellFormed() && |refunds| == k && Permitted(t, refunds) ==> !Overdrawn(t, refunds)
  }

  /** The same, for quotes at the platform's rates. */
  ghost predicate NeverOverdrawnAtPlatformRates(k: nat)
  {
    forall input: FeeInput, refunds: seq<nat> ::
      AtPlatformRates(input) && |refunds| == k && Permitted(QuoteTotals(input), refunds) ==>
        !Overdrawn(QuoteTotals(input), refunds)
  }

  /** A second refund can overdraw a leg, though the refunds together stay within the booking. */
  lemma NeverOverdrawnIff(k: nat)
    ensures NeverOverdrawn(k) <==> k <= 1
    ensures NeverOverdrawnAtPlatformRates(k) <==> k <= 1
  {
    if k <= 1 {
      forall t: ReceivableTotals, refunds: seq<nat> | t.WellFormed() && |refunds| == k && Permitted(t, refunds)
        ensures !Overdrawn(t, refunds)
      {
        OneRefundWithin(t, refunds);
      }
      forall input: FeeInput, refunds: seq<nat>
        | AtPlatformRates(input) && |refunds| == k && Permitted(QuoteTotals(input), refunds)
        ensures !Overdrawn(QuoteTotals(input), refunds)
      {
        OneRefundWithin(QuoteTotals(input), refunds);
      }
    } else {
      SeveralOverdraw(k);
    }
  }

  lemma SeveralOverdraw(k: nat)
    requires k >= 2
    ensures !NeverOverdrawn(k) && !NeverOverdrawnAtPlatformRates(k)
  {
    var input := OverdrawnQuote(k);
    var t, refunds := QuoteTotals(input), Pennies(k);
    assert t.WellFormed() && Permitted(t, refunds) && Overdrawn(t, refunds);
  }

  lemma OverdrawnQuote(k: nat) returns (input: FeeInput)
    requires k >= 2
    ensures AtPlatformRates(input) && QuoteTotals(input).WellFormed() && |Pennies(k)| == k
    ensures Permitted(QuoteTotals(input), Pennies(k)) && Overdrawn(QuoteTotals(input), Pennies(k))
  {
    var t;
    input, t := HalfSurgeQuote(k - 1);
    PenniesOverdraw(t, k);
  }

  lemma PenniesOverdraw(t: ReceivableTotals, k: nat)
    requires OwnerHeaviest(t) && t.ownerEarningsPaise < k <= t.driverTotalPaise
    ensures |Pennies(k)| == k && Permitted(t, Pennies(k)) && Overdrawn(t, Pennies(k))
  {
    PenniesFromOwner(t, k);
    PenniesSum(k);
  }

  lemma OneRefundWithin(t: ReceivableTotals, refunds: seq<nat>)
    requires t.WellFormed() && |refunds| <= 1 && Permitted(t, refunds)
    ensures !Overdrawn(t, refunds)
  {
    if refunds == [] {
    } else {
      var refund := refunds[0];
      assert refunds == [] + [refund];
      SumAppend([], refund);
      SplitWithin(t, refund);
      TakenByOne(t, refund, SplitRefund(t, refund).value);
    }
  }

  /** At half as much again, the owner's leg is the heaviest and the price exceeds it by a paisa at least. */
  lemma HalfSurgeQuote(base: nat) returns (input: FeeInput, t: ReceivableTotals)
    requires base > 0
    ensures AtPlatformRates(input) && QuoteTotals(input) == t
    ensures OwnerHeaviest(t) && t.ownerEarningsPaise <= base < t.driverTotalPaise
  {
    input := FeeInput(base, 15_000, None, None, false);
    QuoteNeverUnderflows(input);
    t := QuoteTotals(input);
    var premium, commission := MulRate(base, 5_000), MulRate(base, PLATFORM_COMMISSION_BP);
    MulRateError(base, 5_000);
    MulRateError(base, PLATFORM_COMMISSION_BP);
    MulRateLipschitz(0, premium + commission, GST_BP);
    HalfSurgeLegs(base, premium, commission);
  }

  lemma HalfSurgeLegs(base: nat, premium: nat, commission: nat)
    requires base > 0
    requires -10_000 <= 2 * (5_000 * base - 10_000 * premium) < 10_000
    requires -10_000 <= 2 * (1_500 * base - 10_000 * commission) < 10_000
    ensures premium > 0 && 0 < premium + commission <= base - commission
  {
  }

  // ----- Taking back more than was transferred

  /** What a run of refunds takes back: of each the partner's share, never more than the transfer carried. */
  function TakeBacks(t: ReceivableTotals, transfer: nat, refunds: seq<nat>): int
  {
    if refunds == [] then 0
    else
      TakeBacks(t, transfer, refunds[..|refunds| - 1])
      + match ProportionalRefundEntries(t, refunds[|refunds| - 1], "refund: admin")
        case Ok(p) => TakenBack(PartnerShareOf(p), transfer)
        case Thrown(_) => 0
  }

  lemma TakeBacksAppend(t: ReceivableTotals, transfer: nat, refunds: seq<nat>, refund: nat)
    requires t.WellFormed()
    ensures SplitRefund(t, refund).Ok?
    ensures var s := SplitRefund(t, refund).value;
      TakeBacks(t, transfer, refunds + [refund])
      == TakeBacks(t, transfer, refunds) + TakenBack(s.owner + s.waiver, transfer)
  {
    assert (refunds + [refund])[..|refunds|] == refunds;
    RefundShare(t, refund, "refund: admin");
  }

  lemma TakeBacksOfTwo(
      t: ReceivableTotals, transfer: nat, first: nat, s1: RefundSplit, second: nat, s2: RefundSplit)
    requires t.WellFormed() && SplitRefund(t, first) == Ok(s1) && SplitRefund(t, second) == Ok(s2)
    ensures TakeBacks(t, transfer, [first, second])
      == TakenBack(s1.owner + s1.waiver, transfer) + TakenBack(s2.owner + s2.waiver, transfer)
  {
    TakeBacksAppend(t, transfer, [], first);
    TakeBacksAppend(t, transfer, [first], second);
    assert [] + [first] == [first] && [first] + [second] == [first, second];
  }

  /** `k` permitted refunds take back no more than was transferred, whatever that was. */
  ghost predicate TakeBacksWithin(k: nat)
  {
    forall t: ReceivableTotals, transfer: nat, refunds: seq<nat> ::
      t.WellFormed() && |refunds| == k && Permitted(t, refunds) ==> TakeBacks(t, transfer, refunds) <= transfer
  }

  /** The same, for quotes at the platform's rates whose earnings were transferred. */
  ghost predicate TakeBacksWithinAtPlatformRates(k: nat)
  {
    forall input: FeeInput, refunds: seq<nat> ::
      AtPlatformRates(input) && |refunds| == k && Permitted(QuoteTotals(input), refunds) ==>
        TakeBacks(QuoteTotals(input), QuoteTotals(input).ownerEarningsPaise, refunds)
        <= QuoteTotals(input).ownerEarningsPaise
  }

  /**
   * "Never more than the transfer carried" holds of one refund. Each is capped by itself, so a second
   * one can take back more than the transfer still holds.
   */
  lemma TakeBacksWithinTransferIff(k: nat)
    ensures TakeBacksWithin(k) <==> k <= 1
    ensures TakeBacksWithinAtPlatformRates(k) <==> k <= 1
  {
    if k <= 1 {
      forall t: ReceivableTotals, transfer: nat, refunds: seq<nat>
        | t.WellFormed() && |refunds| == k && Permitted(t, refunds)
        ensures TakeBacks(t, transfer, refunds) <= transfer
      {
        OneTakeBackWithin(t, transfer, refunds);
      }
      forall input: FeeInput, refunds: seq<nat>
        | AtPlatformRates(input) && |refunds| == k && Permitted(QuoteTotals(input), refunds)
        ensures TakeBacks(QuoteTotals(input), QuoteTotals(input).ownerEarningsPaise, refunds)
          <= QuoteTotals(input).ownerEarningsPaise
      {
        QuoteTotalsWellFormed(input);
        OneTakeBackWithin(QuoteTotals(input), QuoteTotals(input).ownerEarningsPaise, refunds);
      }
    } else {
      var input, t := HalfSurgeQuote(k - 1);
      PenniesSum(k);
      PenniesTakenBack(t, t.ownerEarningsPaise, k);
      assert Permitted(t, Pennies(k)) && TakeBacks(t, t.ownerEarningsPaise, Pennies(k)) > t.ownerEarningsPaise;
    }
  }

  lemma OneTakeBackWithin(t: ReceivableTotals, transfer: nat, refunds: seq<nat>)
    requires t.WellFormed() && |refunds| <= 1
    ensures TakeBacks(t, transfer, refunds) <= transfer
  {
    if refunds != [] {
      assert refunds == [] + [refunds[0]];
      TakeBacksAppend(t, transfer, [], refunds[0]);
    }
  }

  lemma {:induction false} PenniesTakenBack(t: ReceivableTotals, transfer: nat, k: nat)
    requires OwnerHeaviest(t) && transfer > 0
    ensures TakeBacks(t, transfer, Pennies(k)) == k
  {
    if k == 0 {
    } else {
      PenniesTakenBack(t, transfer, k - 1);
      assert Pennies(k) == Pennies(k - 1) + [1];
      TakeBacksAppend(t, transfer, Pennies(k - 1), 1);
      PennyFromOwner(t);
    }
  }

  // ----- A paisa per leg

  /** Each leg's share of the refunds, in all, is off by at most one paisa. */
  ghost predicate WithinOnePaisa(t: ReceivableTotals, refunds: seq<nat>)
  {
    var s, r, total := Taken(t, refunds), Sum(refunds), t.driverTotalPaise;
    && DriftWithin(r, t.ownerEarningsPaise - t.commissionWaiverPaise, total, s.owner, 1, 1, 1)
    && DriftWithin(r, t.parkeaseFeePaise, total, s.fee, 1, 1, 1)
    && DriftWithin(r, t.gstPaise, total, s.gst, 1, 1, 1)
    && DriftWithin(r, t.commissionWaiverPaise, total, s.waiver, 1, 1, 1)
  }

  ghost predicate AlwaysWithinOnePaisa(k: nat)
  {
    forall t: ReceivableTotals, refunds: seq<nat> ::
      t.WellFormed() && t.driverTotalPaise > 0 && |refunds| == k && Permitted(t, refunds) ==>
        WithinOnePaisa(t, refunds)
  }

  ghost predicate AlwaysWithinOnePaisaAtPlatformRates(k: nat)
  {
    forall input: FeeInput, refunds: seq<nat> ::
      AtPlatformRates(input) && QuoteTotals(input).driverTotalPaise > 0
      && |refunds| == k && Permitted(QuoteTotals(input), refunds) ==>
        WithinOnePaisa(QuoteTotals(input), refunds)
  }

  /** "At most a paisa per leg" is true of one refund, and of no larger number of them. */
  lemma OnePaisaPerLegIff(k: nat)
    ensures AlwaysWithinOnePaisa(k) <==> k <= 1
    ensures AlwaysWithinOnePaisaAtPlatformRates(k) <==> k <= 1
  {
    if k <= 1 {
      forall t: ReceivableTotals, refunds: seq<nat>
        | t.WellFormed() && t.driverTotalPaise > 0 && |refunds| == k && Permitted(t, refunds)
        ensures WithinOnePaisa(t, refunds)
      {
        OneRefundWithinOnePaisa(t, refunds);
      }
      forall input: FeeInput, refunds: seq<nat>
        | AtPlatformRates(input) && QuoteTotals(input).driverTotalPaise > 0
          && |refunds| == k && Permitted(QuoteTotals(input), refunds)
        ensures WithinOnePaisa(QuoteTotals(input), refunds)
      {
        OneRefundWithinOnePaisa(QuoteTotals(input), refunds);
      }
    } else {
      var input := FeeInput(10_000 * k, 17_000, None, None, false);
      SeventyPercentQuote(k);
      PenniesDrift(QuoteTotals(input), k);
    }
  }

  lemma OneRefundWithinOnePaisa(t: ReceivableTotals, refunds: seq<nat>)
    requires t.WellFormed() && t.driverTotalPaise > 0 && |refunds| <= 1
    ensures WithinOnePaisa(t, refunds)
  {
    DriftBound(t, refunds);
    var s, r, total, k := Taken(t, refunds), Sum(refunds), t.driverTotalPaise, |refunds|;
    OneRefundDriftsLess(r, t.ownerEarningsPaise - t.commissionWaiverPaise, total, s.owner, k, 2, 3);
    OneRefundDriftsLess(r, t.parkeaseFeePaise, total, s.fee, k, 2, 3);
    OneRefundDriftsLess(r, t.gstPaise, total, s.gst, k, 2, 3);
    OneRefundDriftsLess(r, t.commissionWaiverPaise, total, s.waiver, k, 1, 2);
  }

  lemma OneRefundDriftsLess(r: int, weight: int, total: nat, part: int, k: nat, num: nat, den: nat)
    requires DriftWithin(r, weight, total, part, k, num, den)
    requires k <= 1 && (num, den) in {(2, 3), (1, 2)}
    ensures DriftWithin(r, weight, total, part, 1, 1, 1)
  {
    var off := Abs(r * weight - total * part);
    if k == 0 {
      assert den * off <= 0;
    }
  }

  /** A surge of 1.7x makes the owner's leg and the platform's fee equal. */
  lemma SeventyPercentQuote(k: nat)
    requires k > 0
    ensures AtPlatformRates(FeeInput(10_000 * k, 17_000, None, None, false))
    ensures QuoteTotals(FeeInput(10_000 * k, 17_000, None, None, false))
      == ReceivableTotals(18_530 * k, 8_500 * k, 8_500 * k, 1_530 * k, 0)
  {
    QuoteNeverUnderflows(FeeInput(10_000 * k, 17_000, None, None, false));
    MulRateIsNearest(10_000 * k, 7_000, 7_000 * k);
    MulRateIsNearest(10_000 * k, PLATFORM_COMMISSION_BP, 1_500 * k);
    MulRateIsNearest(8_500 * k, GST_BP, 1_530 * k);
  }

  lemma PenniesDrift(t: ReceivableTotals, k: nat)
    requires t == ReceivableTotals(18_530 * k, 8_500 * k, 8_500 * k, 1_530 * k, 0) && k >= 2
    ensures |Pennies(k)| == k && Permitted(t, Pennies(k)) && !WithinOnePaisa(t, Pennies(k))
  {
    PenniesFromOwner(t, k);
    PenniesSum(k);
    SquareDrift(k, 18_530 * k, 8_500 * k);
  }

  lemma SquareDrift(k: nat, total: nat, owner: nat)
    requires k >= 2 && total == 18_530 * k && owner == 8_500 * k
    ensures Abs(k * owner - total * k) > total
  {
    assert k * owner == 8_500 * (k * k);
    assert total * k == 18_530 * (k * k);
    MulLe(2, k, k);
  }

  // ----- One refund to a commission-free owner

  /** The owner's own leg and the subsidised one are posted together. */
  ghost predicate OwnerWithinOnePaisa(t: ReceivableTotals, refund: nat)
  {
    var s := SplitOrNothing(t, refund);
    DriftWithin(refund, t.ownerEarningsPaise, t.driverTotalPaise, s.owner + s.waiver, 1, 1, 1)
  }

  ghost predicate OwnerAlwaysWithinOnePaisa(waived: bool)
  {
    forall input: FeeInput, refund: nat ::
      AtPlatformRates(input) && input.commissionWaived == waived
      && 0 < refund <= QuoteTotals(input).driverTotalPaise ==>
        OwnerWithinOnePaisa(QuoteTotals(input), refund)
  }

  /** A single refund can take an owner's posted leg off by more than a paisa, if commission was waived. */
  lemma OwnerLegWithinOnePaisaIff(waived: bool)
    ensures OwnerAlwaysWithinOnePaisa(waived) <==> !waived
  {
    if waived {
      var input := FeeInput(19, 20_000, None, None, true);
      QuotedTotals(input, 19, 3, 4);
      MoreThanOnePaisa(QuoteTotals(input), 35);
    } else {
      forall input: FeeInput, refund: nat
        | AtPlatformRates(input) && input.commissionWaived == waived
          && 0 < refund <= QuoteTotals(input).driverTotalPaise
        ensures OwnerWithinOnePaisa(QuoteTotals(input), refund)
      {
        UnwaivedWithinOnePaisa(QuoteTotals(input), refund);
      }
    }
  }

  lemma UnwaivedWithinOnePaisa(t: ReceivableTotals, refund: nat)
    requires t.WellFormed() && t.commissionWaiverPaise == 0 && 0 < refund <= t.driverTotalPaise
    ensures OwnerWithinOnePaisa(t, refund)
  {
    OneRefundDrift(t, refund);
    SplitWithin(t, refund);
  }

  lemma MoreThanOnePaisa(t: ReceivableTotals, refund: nat)
    requires t == ReceivableTotals(42, 19, 22, 4, 3) && refund == 35
    ensures !OwnerWithinOnePaisa(t, refund)
  {
    RefundOfThirtyFive(t, refund);
  }

  /** Both splits round the owner's way: 17 paise of an exact 15 5/6, the largest drift there can be. */
  lemma SevenSixthsOff()
    ensures AtPlatformRates(FeeInput(19, 20_000, None, None, true))
    ensures var t := QuoteTotals(FeeInput(19, 20_000, None, None, true));
      && t == ReceivableTotals(42, 19, 22, 4, 3)
      && SplitRefund(t, 35) == Ok(RefundSplit(14, 18, 3, 3))
      && 6 * Abs(35 * t.ownerEarningsPaise - t.driverTotalPaise * (14 + 3)) == 7 * t.driverTotalPaise
  {
    QuotedTotals(FeeInput(19, 20_000, None, None, true), 19, 3, 4);
    RefundOfThirtyFive(QuoteTotals(FeeInput(19, 20_000, None, None, true)), 35);
  }

  lemma RefundOfThirtyFive(t: ReceivableTotals, refund: nat)
    requires t == ReceivableTotals(42, 19, 22, 4, 3) && refund == 35
    ensures SplitRefund(t, refund) == Ok(RefundSplit(14, 18, 3, 3))
  {
    WaiverSplit([3, 39]);
    assert WaiverWeights(t) == [3, 39];
    SplitIs(t, refund, [13, 18, 3], [14, 14, 14], [0, 1, 2], RefundSplit(14, 18, 3, 3));
  }

  lemma WaiverSplit(w: seq<int>)
    requires w == [3, 39]
    ensures Allocate(35, w).Ok? && Allocate(35, w).value[0] == 3
  {
    Sum2(w);
    assert Floors(35, w, 42) == [2, 32] && Remainders(35, w, 42) == [21, 21];
    Sum2([2, 32]);
    assert Rank([21, 21], 0) == 0 by {
      assert (set j: nat | j < 2 && Before([21, 21], j, 0)) == {};
    }
  }

  // ----- Quotes and splits worked out by hand

  /** A quote at the platform's rates, once its three rounded amounts are known. */
  lemma QuotedTotals(input: FeeInput, premium: nat, commission: nat, gst: nat)
    requires SurgeInRange(input.surgeBp) && input.commissionBp == None && input.gstBp == None
    requires NearestPaisa(premium, input.basePaise, input.surgeBp - SURGE_MULTIPLIER_MIN_BP)
    requires NearestPaisa(commission, input.basePaise, PLATFORM_COMMISSION_BP)
    requires NearestPaisa(gst, commission + premium, GST_BP)
    ensures AtPlatformRates(input)
    ensures QuoteTotals(input) == ReceivableTotals(
        input.basePaise + premium + gst,
        if input.commissionWaived then input.basePaise else input.basePaise - commission,
        commission + premium,
        gst,
        if input.commissionWaived then commission else 0)
  {
    QuoteNeverUnderflows(input);
    MulRateIsNearest(input.basePaise, input.surgeBp - SURGE_MULTIPLIER_MIN_BP, premium);
    MulRateIsNearest(input.basePaise, PLATFORM_COMMISSION_BP, commission);
    MulRateIsNearest(commission + premium, GST_BP, gst);
  }

  /** ₹5 at no surge. */
  lemma FiveRupeeQuote(input: FeeInput)
    requires input.basePaise == 500 && input.surgeBp == SURGE_MULTIPLIER_MIN_BP
    requires input.commissionBp == None && input.gstBp == None && !input.commissionWaived
    ensures AtPlatformRates(input) && QuoteTotals(input) == ReceivableTotals(514, 425, 75, 14, 0)
  {
    QuotedTotals(input, 0, 75, 14);
  }

  /** The split of a refund, once the three divisions and the order of their remainders are known. */
  lemma SplitIs(
      t: ReceivableTotals, refund: nat, floors: seq<int>, remainders: seq<int>, order: seq<nat>, s: RefundSplit)
    requires t.WellFormed() && t.driverTotalPaise > 0 && |floors| == |remainders| == 3
    requires forall i :: 0 <= i < 3 ==>
      && refund * SplitWeights(t)[i] == t.driverTotalPaise * floors[i] + remainders[i]
      && 0 <= remainders[i] < t.driverTotalPaise
    requires IsOrder(remainders, order)
    requires forall k :: 0 <= k < 3 ==>
      [s.owner, s.fee, s.gst][order[k]]
      == floors[order[k]] + (if k < refund - (floors[0] + floors[1] + floors[2]) then 1 else 0)
    requires if t.commissionWaiverPaise == 0 then s.waiver == 0
             else Allocate(refund, WaiverWeights(t)).Ok? && Allocate(refund, WaiverWeights(t)).value[0] == s.waiver
    ensures SplitRefund(t, refund) == Ok(s)
  {
    var w, total := SplitWeights(t), t.driverTotalPaise;
    Sum3(w);
    PartsOfThree(refund, w, floors, remainders, order);
    var parts, expected := Parts(refund, w, total), [s.owner, s.fee, s.gst];
    forall i | 0 <= i < 3
      ensures parts[i] == expected[i]
    {
      OrderIsDistinct(remainders, order);
      Pigeonhole(order, i);
    }
  }

  // ----- Refunds a driver could ask for

  /**
   * ₹123 at 1.25x: two refunds that are together the whole price take a paisa too much from the
   * owner, and a paisa more than was transferred.
   */
  lemma TwoRefundsOverdrawOwner()
    ensures AtPlatformRates(FeeInput(12_300, 12_500, None, None, false))
    ensures var t, refunds := QuoteTotals(FeeInput(12_300, 12_500, None, None, false)), [2_323, 13_938];
      && Sum(refunds) == t.driverTotalPaise
      && Taken(t, refunds).owner == t.ownerEarningsPaise + 1
      && TakeBacks(t, t.ownerEarningsPaise, refunds) == t.ownerEarningsPaise + 1
  {
    QuotedTotals(FeeInput(12_300, 12_500, None, None, false), 3_075, 1_845, 886);
    TwoRefundsOfWhole(QuoteTotals(FeeInput(12_300, 12_500, None, None, false)), 2_323, 13_938);
    TwoTakeBacksOfWhole(QuoteTotals(FeeInput(12_300, 12_500, None, None, false)), 10_455, 2_323, 13_938);
    Sum2([2_323, 13_938]);
  }

  lemma TwoRefundsOfWhole(t: ReceivableTotals, first: nat, second: nat)
    requires t == ReceivableTotals(16_261, 10_455, 4_920, 886, 0) && first == 2_323 && second == 13_938
    ensures Taken(t, [first, second]) == RefundSplit(10_456, 4_920, 885, 0)
  {
    FirstOfWhole(t, first);
    SecondOfWhole(t, second);
    TakenByTwo(t, first, RefundSplit(1_494, 703, 126, 0), second, RefundSplit(8_962, 4_217, 759, 0));
  }

  lemma TwoTakeBacksOfWhole(t: ReceivableTotals, transfer: nat, first: nat, second: nat)
    requires t == ReceivableTotals(16_261, 10_455, 4_920, 886, 0) && first == 2_323 && second == 13_938
    requires transfer == 10_455
    ensures TakeBacks(t, transfer, [first, second]) == transfer + 1
  {
    FirstOfWhole(t, first);
    SecondOfWhole(t, second);
    TakeBacksOfTwo(t, transfer, first, RefundSplit(1_494, 703, 126, 0), second, RefundSplit(8_962, 4_217, 759, 0));
  }

  lemma FirstOfWhole(t: ReceivableTotals, refund: nat)
    requires t == ReceivableTotals(16_261, 10_455, 4_920, 886, 0) && refund == 2_323
    ensures SplitRefund(t, refund) == Ok(RefundSplit(1_494, 703, 126, 0))
  {
    SplitIs(t, refund, [1_493, 702, 126], [9_292, 13_938, 9_292], [1, 0, 2], RefundSplit(1_494, 703, 126, 0));
  }

  lemma SecondOfWhole(t: ReceivableTotals, refund: nat)
    requires t == ReceivableTotals(16_261, 10_455, 4_920, 886, 0) && refund == 13_938
    ensures SplitRefund(t, refund) == Ok(RefundSplit(8_962, 4_217, 759, 0))
  {
    SplitIs(t, refund, [8_961, 4_217, 759], [6_969, 2_323, 6_969], [0, 2, 1], RefundSplit(8_962, 4_217, 759, 0));
  }

  /** Six paise at 1.25x: a refund of five takes less GST back than a refund of four. */
  lemma LargerRefundSmallerLeg()
    ensures AtPlatformRates(FeeInput(6, 12_500, None, None, false))
    ensures var t := QuoteTotals(FeeInput(6, 12_500, None, None, false));
      && SplitRefund(t, 4) == Ok(RefundSplit(2, 1, 1, 0))
      && SplitRefund(t, 5) == Ok(RefundSplit(3, 2, 0, 0))
  {
    QuotedTotals(FeeInput(6, 12_500, None, None, false), 2, 1, 1);
    RefundOfFour(QuoteTotals(FeeInput(6, 12_500, None, None, false)), 4);
    RefundOfFive(QuoteTotals(FeeInput(6, 12_500, None, None, false)), 5);
  }

  lemma RefundOfFour(t: ReceivableTotals, four: nat)
    requires t == ReceivableTotals(9, 5, 3, 1, 0) && four == 4
    ensures SplitRefund(t, four) == Ok(RefundSplit(2, 1, 1, 0))
  {
    SplitIs(t, four, [2, 1, 0], [2, 3, 4], [2, 1, 0], RefundSplit(2, 1, 1, 0));
  }

  lemma RefundOfFive(t: ReceivableTotals, five: nat)
    requires t == ReceivableTotals(9, 5, 3, 1, 0) && five == 5
    ensures SplitRefund(t, five) == Ok(RefundSplit(3, 2, 0, 0))
  {
    SplitIs(t, five, [2, 1, 0], [7, 6, 5], [0, 1, 2], RefundSplit(3, 2, 0, 0));
  }

  /** The subsidised share is split over two legs only, so it never shrinks as the refund grows. */
  lemma WaiverGrowsWithRefund(t: ReceivableTotals, low: nat, high: nat)
    requires t.WellFormed() && t.driverTotalPaise > 0 && low <= high
    ensures SplitRefund(t, low).Ok? && SplitRefund(t, high).Ok?
    ensures SplitRefund(t, low).value.waiver <= SplitRefund(t, high).value.waiver
  {
    SplitIsFair(t, low);
    SplitIsFair(t, high);
    if t.commissionWaiverPaise > 0 {
      Sum2(WaiverWeights(t));
      PartGrows(low, high, WaiverWeights(t), 0);
    }
  }
}
