/** What each posting does to each column of the books, and why every posting balances. */
module LedgerEffects {
  import opened Outcomes
  import opened Rounding
  import opened Paise
  import opened Sums
  import opened LargestRemainder
  import opened Rates
  import opened Quotes
  import opened RefundPolicy
  import opened Fees
  import opened Columns
  import opened LedgerEntries

  /** What the ledger writers accept: nothing to write, or a balanced posting. */
  ghost predicate Postable(p: Posting)
  {
    p == [] || Balanced(p)
  }

  lemma LegsBalance(legs: seq<Entry>)
    requires |legs| <= 8 && NonNegative(legs)
    requires EffectAt(legs, 0, Everything) + EffectAt(legs, 1, Everything) + EffectAt(legs, 2, Everything)
      + EffectAt(legs, 3, Everything) + EffectAt(legs, 4, Everything) + EffectAt(legs, 5, Everything)
      + EffectAt(legs, 6, Everything) + EffectAt(legs, 7, Everything) == 0
    ensures Postable(Compose(legs))
  {
    NetOfLegs(legs, Everything);
    ComposedEntries(legs);
  }

  // ----- Totals

  lemma QuoteTotalsWellFormed(input: FeeInput)
    requires MakeQuote(input).Ok?
    ensures TotalsOf(MakeQuote(input).value).WellFormed()
  {
  }

  /** An extended booking's totals are well formed because each quote's are. */
  lemma ExtensionKeepsWellFormed(t: ReceivableTotals, more: ReceivableTotals, d: string, c: Column)
    requires t.WellFormed() && more.WellFormed()
    ensures t.Plus(more).WellFormed()
    ensures Net(BookingReceivableEntries(t.Plus(more), d), c)
         == Net(BookingReceivableEntries(t, d), c) + Net(BookingReceivableEntries(more, d), c)
  {
    SumIsWellFormed(t, more);
    BookingNet(t.Plus(more), d, c);
    BookingNet(t, d, c);
    BookingNet(more, d, c);
    LegsAdd(DriverReceivable, Debit, t.driverTotalPaise, more.driverTotalPaise, d, c);
    LegsAdd(PromoExpense, Debit, t.commissionWaiverPaise, more.commissionWaiverPaise, d, c);
    LegsAdd(OwnerPayable, Credit, t.ownerEarningsPaise, more.ownerEarningsPaise, d, c);
    LegsAdd(PlatformRevenue, Credit, t.parkeaseFeePaise, more.parkeaseFeePaise, d, c);
    LegsAdd(GstPayable, Credit, t.gstPaise, more.gstPaise, d, c);
  }

  lemma SumIsWellFormed(t: ReceivableTotals, more: ReceivableTotals)
    requires t.WellFormed() && more.WellFormed()
    ensures t.Plus(more).WellFormed()
  {
  }

  lemma LegsAdd(a: Account, direction: Direction, x: int, y: int, d: string, c: Column)
    ensures Effect(Leg(a, direction, x + y, d), c)
      == Effect(Leg(a, direction, x, d), c) + Effect(Leg(a, direction, y, d), c)
  {
  }

  lemma BookingNet(t: ReceivableTotals, d: string, c: Column)
    requires t.WellFormed()
    ensures Net(BookingReceivableEntries(t, d), c)
      == Effect(Leg(DriverReceivable, Debit, t.driverTotalPaise, d), c)
         + Effect(Leg(PromoExpense, Debit, t.commissionWaiverPaise, d), c)
         + Effect(Leg(OwnerPayable, Credit, t.ownerEarningsPaise, d), c)
         + Effect(Leg(PlatformRevenue, Credit, t.parkeaseFeePaise, d), c)
         + Effect(Leg(GstPayable, Credit, t.gstPaise, d), c)
  {
    NetOfLegs(BookingLegs(t, d), c);
  }

  /** What a booking does to each account: the driver's debt, and who it is apportioned to. */
  function BookingEffect(t: ReceivableTotals, a: Account): int
  {
    match a
    case DriverReceivable => t.driverTotalPaise
    case PromoExpense => t.commissionWaiverPaise
    case OwnerPayable => -t.ownerEarningsPaise
    case PlatformRevenue => -t.parkeaseFeePaise
    case GstPayable => -t.gstPaise
    case _ => 0
  }

  /** A booking posts exactly what the driver owes, unless it is worth nothing at all. */
  lemma BookingBalances(t: ReceivableTotals, d: string)
    requires t.WellFormed()
    ensures Postable(BookingReceivableEntries(t, d))
    ensures forall a :: Net(BookingReceivableEntries(t, d), Whole(a)) == BookingEffect(t, a)
  {
    LegsBalance(BookingLegs(t, d));
    forall a {
      BookingNet(t, d, Whole(a));
    }
  }

  /** Every accepted discount balances. */
  lemma DiscountBalances(t: ReceivableTotals, discountPaise: nat, d: string)
    requires t.WellFormed()
    ensures var p := PromoBookingEntries(t, discountPaise, d);
      && (p.Ok? <==> discountPaise <= t.driverTotalPaise)
      && (p.Ok? ==> Postable(p.value))
  {
    if discountPaise <= t.driverTotalPaise {
      LegsBalance(PromoBookingLegs(t, discountPaise, d));
    }
  }

  /** A discount moves only the driver's receivable and the promotion expense. */
  lemma DiscountIsInvisibleToOwner(t: ReceivableTotals, discountPaise: nat, d: string, c: Column)
    requires t.WellFormed() && 0 <= discountPaise <= t.driverTotalPaise
    ensures PromoBookingEntries(t, discountPaise, d).Ok?
    ensures Net(PromoBookingEntries(t, discountPaise, d).value, c)
         == Net(BookingReceivableEntries(t, d), c)
            + Effect(Leg(DriverReceivable, Credit, discountPaise, d), c)
            + Effect(Leg(PromoExpense, Debit, discountPaise, d), c)
  {
    NetOfLegs(PromoBookingLegs(t, discountPaise, d), c);
    BookingNet(t, d, c);
  }

  // ----- Reversal

  /** Reversing a posting negates it in every column, so the two together leave no trace. */
  lemma ReverseRestores(entries: Posting, description: string, c: Column)
    ensures Net(ReverseEntries(entries, description), c) == -Net(entries, c)
    ensures Net(entries + ReverseEntries(entries, description), c) == 0
    ensures Balanced(entries) ==> Balanced(ReverseEntries(entries, description))
  {
    NegatedBy(entries, description, c);
    NegatedBy(entries, description, Everything);
    NetConcat(entries, ReverseEntries(entries, description), c);
    var reversed := ReverseEntries(entries, description);
    if AllPositive(entries) {
      forall e | e in reversed
        ensures e.amountPaise > 0
      {
        var i :| 0 <= i < |reversed| && reversed[i] == e;
        assert entries[i] in entries;
      }
    }
  }

  lemma NegatedBy(entries: Posting, description: string, c: Column)
    ensures Net(ReverseEntries(entries, description), c) == -Net(entries, c)
  {
    NegatedUpTo(entries, description, |entries|, c);
  }

  lemma {:induction false} NegatedUpTo(entries: Posting, description: string, n: nat, c: Column)
    requires n <= |entries|
    ensures NetUpTo(ReverseEntries(entries, description), n, c) == -NetUpTo(entries, n, c)
  {
    if n == 0 {
    } else {
      NegatedUpTo(entries, description, n - 1, c);
    }
  }

  // ----- Proportional refunds

  /** One leg of a split: `part` against the exact share `refund * weight / total`. */
  ghost predicate FairPart(refund: int, weight: int, total: int, part: int)
  {
    && 0 <= part
    && -total < refund * weight - total * part < total
    && (refund <= total ==> part <= weight)
    && (refund == total ==> part == weight)
  }

  lemma AllocatedPartIsFair(refund: nat, weights: seq<int>, i: nat)
    requires Splittable(refund, weights) && i < |weights|
    ensures FairPart(refund, weights[i], Sum(weights), Parts(refund, weights, Sum(weights))[i])
  {
    AllocationQuota(refund, weights, i);
    if refund <= Sum(weights) {
      AllocationNeverOvershoots(refund, weights, i);
    }
    if refund == Sum(weights) {
      AllocationOfWhole(weights);
    }
  }

  /** A booking that cost the driver something splits any refund exactly and fairly. */
  lemma SplitIsFair(t: ReceivableTotals, refund: nat)
    requires t.WellFormed() && t.driverTotalPaise > 0
    ensures SplitRefund(t, refund).Ok?
    ensures var s, total := SplitRefund(t, refund).value, t.driverTotalPaise;
      && s.owner + s.fee + s.gst == refund
      && FairPart(refund, t.ownerEarningsPaise - t.commissionWaiverPaise, total, s.owner)
      && FairPart(refund, t.parkeaseFeePaise, total, s.fee)
      && FairPart(refund, t.gstPaise, total, s.gst)
      && FairPart(refund, t.commissionWaiverPaise, total, s.waiver)
  {
    ThreeLegsAreFair(refund, SplitWeights(t), t.driverTotalPaise);
    if t.commissionWaiverPaise > 0 {
      WaiverIsFair(t, refund);
    }
  }

  lemma WaiverIsFair(t: ReceivableTotals, refund: nat)
    requires t.WellFormed() && t.commissionWaiverPaise > 0
    ensures Allocate(refund, WaiverWeights(t)).Ok?
    ensures FairPart(refund, t.commissionWaiverPaise, t.driverTotalPaise, Allocate(refund, WaiverWeights(t)).value[0])
  {
    Sum2(WaiverWeights(t));
    AllocatedPartIsFair(refund, WaiverWeights(t), 0);
  }

  lemma ThreeLegsAreFair(refund: nat, w: seq<int>, total: int)
    requires |w| == 3 && AllNonNegative(w) && w[0] + w[1] + w[2] == total > 0
    ensures Allocate(refund, w).Ok?
    ensures var parts := Allocate(refund, w).value;
      && parts[0] + parts[1] + parts[2] == refund
      && FairPart(refund, w[0], total, parts[0])
      && FairPart(refund, w[1], total, parts[1])
      && FairPart(refund, w[2], total, parts[2])
  {
    Sum3(w);
    AllocatedPartIsFair(refund, w, 0);
    AllocatedPartIsFair(refund, w, 1);
    AllocatedPartIsFair(refund, w, 2);
    AllocationIsExact(refund, w);
    Sum3(Parts(refund, w, total));
  }

  /** A booking that cost nothing splits every refund into nothing. */
  lemma FreeBookingSplitsNothing(t: ReceivableTotals, refund: nat)
    requires t.WellFormed() && t.driverTotalPaise <= 0
    ensures t == ReceivableTotals(0, 0, 0, 0, 0)
    ensures SplitRefund(t, refund) == Ok(RefundSplit(0, 0, 0, 0))
  {
    assert t == ReceivableTotals(0, 0, 0, 0, 0);
    NothingToAllocate(refund, SplitWeights(t));
  }

  lemma NothingToAllocate(refund: nat, w: seq<int>)
    requires w == [0, 0, 0]
    ensures Allocate(refund, w) == Ok([0, 0, 0])
  {
    Sum3(w);
    assert seq(|w|, _ => 0) == [0, 0, 0];
  }

  /** The split is allocated, so a proportional refund balances whatever its size. */
  lemma ProportionalRefundBalances(t: ReceivableTotals, refund: nat, d: string)
    requires t.WellFormed()
    ensures ProportionalRefundEntries(t, refund, d).Ok?
    ensures Postable(ProportionalRefundEntries(t, refund, d).value) <==> t.driverTotalPaise > 0 || refund == 0
    ensures Net(ProportionalRefundEntries(t, refund, d).value, Whole(RefundsPayable)) + refund == 0
  {
    if t.driverTotalPaise > 0 {
      SplitIsFair(t, refund);
      SplitNets(SplitRefund(t, refund).value, refund, d);
    } else {
      FreeBookingSplitsNothing(t, refund);
      SplitNets(RefundSplit(0, 0, 0, 0), refund, d);
    }
  }

  /** A refund within the booking takes from each credit between nothing and all of it. */
  lemma SplitWithin(t: ReceivableTotals, refund: nat)
    requires t.WellFormed() && refund <= t.driverTotalPaise
    ensures SplitRefund(t, refund).Ok?
    ensures var s := SplitRefund(t, refund).value;
      && 0 <= s.owner <= t.ownerEarningsPaise - t.commissionWaiverPaise
      && 0 <= s.waiver <= t.commissionWaiverPaise
      && 0 <= s.fee <= t.parkeaseFeePaise
      && 0 <= s.gst <= t.gstPaise
  {
    if t.driverTotalPaise > 0 {
      SplitIsFair(t, refund);
    } else {
      FreeBookingSplitsNothing(t, refund);
    }
  }

  lemma SplitNets(s: RefundSplit, refund: nat, d: string)
    requires s.owner >= 0 && s.fee >= 0 && s.gst >= 0 && s.waiver >= 0
    ensures var p := Compose(ProportionalRefundLegs(s, refund, d));
      && (Postable(p) <==> s.owner + s.fee + s.gst == refund)
      && Net(p, Whole(OwnerPayable)) == s.owner + s.waiver
      && Net(p, Whole(PlatformRevenue)) == s.fee
      && Net(p, Whole(GstPayable)) == s.gst
      && Net(p, Whole(PromoExpense)) == -s.waiver
      && Net(p, Whole(DriverReceivable)) == 0
      && Net(p, Whole(RefundsPayable)) + refund == 0
  {
    ComposedEntries(ProportionalRefundLegs(s, refund, d));
    ProportionalNet(s, refund, d, Everything);
    ProportionalNet(s, refund, d, Whole(OwnerPayable));
    ProportionalNet(s, refund, d, Whole(PlatformRevenue));
    ProportionalNet(s, refund, d, Whole(GstPayable));
    ProportionalNet(s, refund, d, Whole(PromoExpense));
    ProportionalNet(s, refund, d, Whole(DriverReceivable));
    ProportionalNet(s, refund, d, Whole(RefundsPayable));
  }

  /** The columns a booking credits or, for the promotion expense, debits. */
  ghost predicate WithinBooking(t: ReceivableTotals, refund: nat, d: string)
  {
    var p := ProportionalRefundEntries(t, refund, d);
    && p.Ok?
    && Net(p.value, Whole(OwnerPayable)) <= t.ownerEarningsPaise
    && Net(p.value, Whole(PlatformRevenue)) <= t.parkeaseFeePaise
    && Net(p.value, Whole(GstPayable)) <= t.gstPaise
    && -Net(p.value, Whole(PromoExpense)) <= t.commissionWaiverPaise
  }

  /**
   * A refund takes back no more than the booking credited, account by account, exactly when it is
   * within what the driver paid: the function's documented precondition is the whole story.
   */
  lemma RefundWithinBookingIff(t: ReceivableTotals, refund: nat, d: string)
    requires t.WellFormed() && t.driverTotalPaise > 0
    ensures WithinBooking(t, refund, d) <==> refund <= t.driverTotalPaise
  {
    SplitIsFair(t, refund);
    var s := SplitRefund(t, refund).value;
    SplitNets(s, refund, d);
    if refund > t.driverTotalPaise {
      BigRefundBigPart(refund, t.commissionWaiverPaise, t.driverTotalPaise, s.waiver);
    }
  }

  lemma BigRefundBigPart(refund: int, weight: nat, total: int, part: int)
    requires refund > total > 0 && FairPart(refund, weight, total, part)
    ensures part >= weight
  {
    MulLe(total, refund, weight);
    QuotientAtMost(total, weight, part);
  }

  lemma SplitOfWhole(t: ReceivableTotals)
    requires t.WellFormed()
    ensures SplitRefund(t, t.driverTotalPaise)
      == Ok(RefundSplit(t.ownerEarningsPaise - t.commissionWaiverPaise, t.parkeaseFeePaise,
                        t.gstPaise, t.commissionWaiverPaise))
  {
    if t.driverTotalPaise > 0 {
      SplitIsFair(t, t.driverTotalPaise);
    } else {
      FreeBookingSplitsNothing(t, t.driverTotalPaise);
    }
  }

  lemma ProportionalNet(s: RefundSplit, refund: nat, d: string, c: Column)
    requires s.owner >= 0 && s.fee >= 0 && s.gst >= 0 && s.waiver >= 0
    ensures Net(Compose(ProportionalRefundLegs(s, refund, d)), c)
      == Effect(Leg(OwnerPayable, Debit, s.owner + s.waiver, d), c)
         + Effect(Leg(PlatformRevenue, Debit, s.fee, d), c)
         + Effect(Leg(GstPayable, Debit, s.gst, d), c)
         + Effect(Leg(PromoExpense, Credit, s.waiver, d), c)
         + Effect(Leg(RefundsPayable, Credit, refund, d), c)
  {
    NetOfLegs(ProportionalRefundLegs(s, refund, d), c);
  }

  lemma FullReversalNet(t: ReceivableTotals, refund: nat, retained: nat, d: string, c: Column)
    requires t.WellFormed()
    ensures Net(Compose(FullReversalLegs(t, refund, retained, d)), c)
      == Effect(Leg(OwnerPayable, Debit, t.ownerEarningsPaise, d), c)
         + Effect(Leg(PlatformRevenue, Debit, t.parkeaseFeePaise, d), c)
         + Effect(Leg(GstPayable, Debit, t.gstPaise, d), c)
         + Effect(Leg(RefundsPayable, Credit, refund, d), c)
         + Effect(Leg(PlatformRevenue, Credit, retained, d), c)
         + Effect(Leg(PromoExpense, Credit, t.commissionWaiverPaise, d), c)
  {
    NetOfLegs(FullReversalLegs(t, refund, retained, d), c);
  }

  lemma WithGoodwillNet(t: ReceivableTotals, refund: nat, goodwill: nat, d: string, c: Column)
    requires t.WellFormed()
    ensures Net(Compose(FullReversalLegs(t, refund, 0, d) + GoodwillLegs(goodwill, d)), c)
      == Effect(Leg(OwnerPayable, Debit, t.ownerEarningsPaise, d), c)
         + Effect(Leg(PlatformRevenue, Debit, t.parkeaseFeePaise, d), c)
         + Effect(Leg(GstPayable, Debit, t.gstPaise, d), c)
         + Effect(Leg(RefundsPayable, Credit, refund, d), c)
         + Effect(Leg(PromoExpense, Credit, t.commissionWaiverPaise, d), c)
         + Effect(Leg(PromoExpense, Debit, goodwill, d), c)
         + Effect(Leg(RefundsPayable, Credit, goodwill, d), c)
  {
    NetOfLegs(FullReversalLegs(t, refund, 0, d) + GoodwillLegs(goodwill, d), c);
  }

  /** Refunding everything through the proportional split is the full reversal with nothing kept. */
  lemma WholeRefundIsFullReversal(t: ReceivableTotals, d: string, c: Column)
    requires t.WellFormed()
    ensures ProportionalRefundEntries(t, t.driverTotalPaise, d).Ok?
    ensures Net(ProportionalRefundEntries(t, t.driverTotalPaise, d).value, c)
      == Net(Compose(FullReversalLegs(t, t.driverTotalPaise, 0, d)), c)
  {
    SplitOfWhole(t);
    ProportionalNet(SplitRefund(t, t.driverTotalPaise).value, t.driverTotalPaise, d, c);
    FullReversalNet(t, t.driverTotalPaise, 0, d, c);
  }

  /** The posting for a resolved cancellation is complete and owes the driver refund plus goodwill. */
  lemma CancellationBalances(t: ReceivableTotals, startsAt: int, at: int, cancelledBy: CancelledBy, d: string)
    requires t.WellFormed()
    ensures var o := ResolveRefund(t.driverTotalPaise, startsAt, at, cancelledBy);
      && o.Ok? && RefundEntries(t, o.value, d).Ok?
      && Postable(RefundEntries(t, o.value, d).value)
      && Net(RefundEntries(t, o.value, d).value, Whole(RefundsPayable))
           == -(o.value.refundPaise + o.value.goodwillPaise)
  {
    RefundSplitsTotal(t.driverTotalPaise, startsAt, at, cancelledBy);
    var o := ResolveRefund(t.driverTotalPaise, startsAt, at, cancelledBy).value;
    var full := FullReversalLegs(t, o.refundPaise, o.retainedPaise, d);
    match o.tier
    case NoRefund =>
    case BeforeStart =>
      LegsBalance(full);
      NetOfLegs(full, Whole(RefundsPayable));
    case OwnerCancelled =>
      var legs := full + GoodwillLegs(o.goodwillPaise, d);
      LegsBalance(legs);
      NetOfLegs(legs, Whole(RefundsPayable));
    case ActiveGrace =>
      ProportionalRefundBalances(t, o.refundPaise, d);
  }

  // ----- Services

  lemma ServiceBalances(fee: nat, commissionBp: nat, partner: UserId, d: string)
    requires commissionBp <= RATE_SCALE
    ensures Postable(ServiceEntries(Split(fee, commissionBp), partner, d))
  {
    SplitMonotone(fee, fee, commissionBp);
    LegsBalance(ServiceLegs(Split(fee, commissionBp), partner, d));
  }

  /** The partner's side holds the earnings and nothing else; the other accounts belong to nobody. */
  lemma ServiceSides(fee: ServiceFee, partner: UserId, d: string, a: Account, whose: Option<UserId>)
    requires fee.partnerEarningsPaise >= 0
    ensures Net(ServiceEntries(fee, partner, d), Side(a, whose))
      == if whose == Some(partner) then (if a == OwnerPayable then -fee.partnerEarningsPaise else 0)
         else if whose.Some? then 0
         else if a == DriverReceivable then fee.driverTotalPaise
         else if a == PlatformRevenue then 0 - fee.commissionPaise
         else if a == GstPayable then 0 - fee.gstPaise
         else 0
  {
    NetOfLegs(ServiceLegs(fee, partner, d), Side(a, whose));
  }

  /** A service posts exactly when its commission leaves the partner something that is not negative. */
  lemma ServiceBalancedIff(fee: nat, commissionBp: nat, partner: UserId, d: string)
    requires fee > 0
    ensures Balanced(ServiceEntries(Split(fee, commissionBp), partner, d))
      <==> 2 * (fee * (commissionBp - RATE_SCALE)) < RATE_SCALE
  {
    var f := Split(fee, commissionBp);
    MulRateAtMostWhole(fee, commissionBp);
    if f.partnerEarningsPaise >= 0 {
      LegsBalance(ServiceLegs(f, partner, d));
      NotEmpty(ServiceLegs(f, partner, d), 0);
    } else {
      NegativeEarnings(f, partner, d);
    }
  }

  /** Negative earnings are dropped like a zero leg, and the rest does not balance. */
  lemma NegativeEarnings(fee: ServiceFee, partner: UserId, d: string)
    requires fee.partnerEarningsPaise < 0
    requires fee.partnerEarningsPaise + fee.commissionPaise + fee.gstPaise == fee.driverTotalPaise
    ensures Net(ServiceEntries(fee, partner, d), Everything) < 0
  {
    var without := ServiceLegs(fee.(partnerEarningsPaise := 0), partner, d);
    DroppedLeg(ServiceLegs(fee, partner, d), without);
    NetOfLegs(without, Everything);
  }

  lemma DroppedLeg(a: seq<Entry>, b: seq<Entry>)
    requires |a| == |b| == 4 && a[0] == b[0] && a[2..] == b[2..]
    requires a[1].amountPaise <= 0 && b[1].amountPaise <= 0
    ensures Compose(a) == Compose(b)
  {
    assert a[2] == a[2..][0] && a[3] == a[2..][1] && b[2] == b[2..][0] && b[3] == b[2..][1];
    assert ComposeUpTo(a, 1) == ComposeUpTo(b, 1);
    assert ComposeUpTo(a, 2) == ComposeUpTo(b, 2);
    assert ComposeUpTo(a, 3) == ComposeUpTo(b, 3);
  }

  // ----- Transfers, settlements and payouts

  lemma TransfersBalance(amount: nat, whose: UserId, d: string)
    ensures Postable(RefundSettledEntries(amount, d))
    ensures Postable(RouteDischargeEntries(amount, whose))
    ensures Postable(SettlementClearedEntries(amount))
    ensures Postable(RouteReversalEntries(amount, whose))
    ensures Net(RefundSettledEntries(amount, d), Whole(RefundsPayable)) == amount
    ensures Net(RouteDischargeEntries(amount, whose), Whole(RefundsPayable)) == 0
    ensures Net(SettlementClearedEntries(amount), Whole(RefundsPayable)) == 0
    ensures Net(RouteReversalEntries(amount, whose), Whole(RefundsPayable)) == 0
  {
    LegsBalance(RefundSettledLegs(amount, d));
    LegsBalance(RouteDischargeLegs(amount, whose));
    LegsBalance(SettlementClearedLegs(amount));
    LegsBalance(RouteReversalLegs(amount, whose));
    NetOfLegs(RefundSettledLegs(amount, d), Whole(RefundsPayable));
    NetOfLegs(RouteDischargeLegs(amount, whose), Whole(RefundsPayable));
    NetOfLegs(SettlementClearedLegs(amount), Whole(RefundsPayable));
    NetOfLegs(RouteReversalLegs(amount, whose), Whole(RefundsPayable));
  }

  /** An amount that is not positive composes to no posting at all. */
  lemma NothingToMove(amount: int, whose: UserId, d: string)
    requires amount <= 0
    ensures RefundSettledEntries(amount, d) == []
    ensures RouteDischargeEntries(amount, whose) == []
    ensures SettlementClearedEntries(amount) == []
    ensures RouteReversalEntries(amount, whose) == []
  {
    NoPositiveLegs(RefundSettledLegs(amount, d));
    NoPositiveLegs(RouteDischargeLegs(amount, whose));
    NoPositiveLegs(SettlementClearedLegs(amount));
    NoPositiveLegs(RouteReversalLegs(amount, whose));
  }

  lemma NoPositiveLegs(legs: seq<Entry>)
    requires forall i :: 0 <= i < |legs| ==> legs[i].amountPaise <= 0
    ensures Compose(legs) == []
  {
    NoPositiveLegsUpTo(legs, |legs|);
  }

  lemma {:induction false} NoPositiveLegsUpTo(legs: seq<Entry>, n: nat)
    requires n <= |legs| && forall i :: 0 <= i < |legs| ==> legs[i].amountPaise <= 0
    ensures ComposeUpTo(legs, n) == []
  {
    if n == 0 {
    } else {
      NoPositiveLegsUpTo(legs, n - 1);
    }
  }

  /** A booking's posting is written exactly when the booking cost something. */
  lemma BookingWritten(t: ReceivableTotals, d: string)
    requires t.WellFormed()
    ensures t.driverTotalPaise > 0 ==> Balanced(BookingReceivableEntries(t, d))
    ensures t.driverTotalPaise <= 0 ==> BookingReceivableEntries(t, d) == []
  {
    BookingBalances(t, d);
    if t.driverTotalPaise > 0 {
      NotEmpty(BookingLegs(t, d), 0);
    } else {
      NoPositiveLegs(BookingLegs(t, d));
    }
  }

  /** A composed posting holds every positive leg, so one of them is enough for it to be written. */
  lemma NotEmpty(legs: seq<Entry>, i: nat)
    requires i < |legs| && legs[i].amountPaise > 0
    ensures Compose(legs) != []
  {
    ComposedEntries(legs);
    assert legs[i] in Compose(legs);
  }

  lemma PayoutBalances(gross: nat, payee: UserId, at: int, tcs: seq<DatedRate>, tds: seq<DatedRate>)
    requires PayoutEntries(gross, payee, at, tcs, tds).Ok?
    ensures RateAt(tcs, at).Ok? && RateAt(tds, at).Ok?
    ensures var p := PayoutEntries(gross, payee, at, tcs, tds).value;
      && NearestPaisa(p.tcsPaise, gross, RateAt(tcs, at).value)
      && NearestPaisa(p.tdsPaise, gross, RateAt(tds, at).value)
      && p.tcsPaise + p.tdsPaise + p.netPaise == gross
      && Postable(p.entries)
      && Net(p.entries, Side(OwnerPayable, Some(payee))) == gross
      && forall a :: Net(p.entries, Whole(a)) == PayoutEffectOn(gross, p.tcsPaise, p.tdsPaise, p.netPaise, a)
  {
    var p := PayoutEntries(gross, payee, at, tcs, tds).value;
    MulRateIsNearest(gross, RateAt(tcs, at).value, p.tcsPaise);
    MulRateIsNearest(gross, RateAt(tds, at).value, p.tdsPaise);
    PayoutLegsBalance(gross, p.netPaise, p.tcsPaise, p.tdsPaise, payee);
  }

  /** What a payout does to each account: the payee is paid, the net is on its way, the rest is withheld. */
  function PayoutEffectOn(gross: int, tcs: int, tds: int, net: int, a: Account): int
  {
    match a
    case OwnerPayable => gross
    case SettlementClearing => 0 - net
    case TcsPayable => 0 - tcs
    case TdsPayable => 0 - tds
    case _ => 0
  }

  lemma PayoutLegsBalance(gross: nat, net: nat, tcs: nat, tds: nat, payee: UserId)
    requires tcs + tds + net == gross
    ensures var p := Compose(PayoutLegs(gross, net, tcs, tds, payee));
      && Postable(p) && Net(p, Side(OwnerPayable, Some(payee))) == gross
      && forall a :: Net(p, Whole(a)) == PayoutEffectOn(gross, tcs, tds, net, a)
  {
    var legs := PayoutLegs(gross, net, tcs, tds, payee);
    LegsBalance(legs);
    NetOfLegs(legs, Side(OwnerPayable, Some(payee)));
    forall a
      ensures Net(Compose(legs), Whole(a)) == PayoutEffectOn(gross, tcs, tds, net, a)
    {
      NetOfLegs(legs, Whole(a));
    }
  }

  /** What rounding to the nearest paisa adds (below zero) or drops, in 1/10 000 of a paisa. */
  function Residue(x: nat): int
  {
    if 2 * (x % RATE_SCALE) < RATE_SCALE then x % RATE_SCALE else x % RATE_SCALE - RATE_SCALE
  }

  /**
   * A payout is possible exactly when what the two rates take beyond the gross is rounded away;
   * otherwise the subtraction throws.
   */
  lemma PayoutPossibleIff(gross: nat, payee: UserId, at: int, tcs: seq<DatedRate>, tds: seq<DatedRate>)
    requires RateAt(tcs, at).Ok? && RateAt(tds, at).Ok?
    ensures var r, s := RateAt(tcs, at).value, RateAt(tds, at).value;
      && gross * r >= 0 && gross * s >= 0
      && (PayoutEntries(gross, payee, at, tcs, tds).Ok?
          <==> gross * (r + s - RATE_SCALE) <= Residue(gross * r) + Residue(gross * s))
    ensures PayoutEntries(gross, payee, at, tcs, tds).Thrown?
      ==> PayoutEntries(gross, payee, at, tcs, tds).error == Underflow
  {
    TwoRatesIff(gross, RateAt(tcs, at).value, RateAt(tds, at).value);
  }

  lemma TwoRatesIff(gross: nat, r: nat, s: nat)
    ensures gross * r >= 0 && gross * s >= 0
    ensures MulRate(gross, r) + MulRate(gross, s) <= gross
      <==> gross * (r + s - RATE_SCALE) <= Residue(gross * r) + Residue(gross * s)
  {
    ResidueOf(gross, r);
    ResidueOf(gross, s);
    assert gross * (r + s - RATE_SCALE) == gross * r + gross * s - gross * RATE_SCALE;
  }

  lemma ResidueOf(a: nat, r: nat)
    ensures a * r >= 0 && a * r == RATE_SCALE * MulRate(a, r) + Residue(a * r)
  {
    var x := a * r;
    assert x == RATE_SCALE * (x / RATE_SCALE) + x % RATE_SCALE;
  }

  /** Withholding two rates together under 100% never takes more than the gross. */
  lemma PayoutNeverUnderflows(gross: nat, payee: UserId, at: int, tcs: seq<DatedRate>, tds: seq<DatedRate>)
    requires RateAt(tcs, at).Ok? && RateAt(tds, at).Ok?
    requires RateAt(tcs, at).value + RateAt(tds, at).value < RATE_SCALE
    ensures PayoutEntries(gross, payee, at, tcs, tds).Ok?
  {
    TwoRates(gross, RateAt(tcs, at).value, RateAt(tds, at).value);
  }

  lemma TwoRates(gross: nat, r: nat, s: nat)
    requires r + s < RATE_SCALE
    ensures MulRate(gross, r) + MulRate(gross, s) <= gross
  {
    MulRateError(gross, r);
    MulRateError(gross, s);
    TwoProducts(gross, r, s);
    Withheld(gross, gross * r, gross * s, MulRate(gross, r), MulRate(gross, s));
  }

  lemma TwoProducts(gross: nat, r: nat, s: nat)
    requires r + s < RATE_SCALE
    ensures gross * r + gross * s <= RATE_SCALE * gross - gross
  {
    Distribute(gross, r, s);
    MulLe(r + s, RATE_SCALE - 1, gross);
  }

  lemma Withheld(gross: nat, x: int, y: int, m: int, n: int)
    requires x + y <= RATE_SCALE * gross - gross
    requires -RATE_SCALE <= 2 * (x - RATE_SCALE * m) && -RATE_SCALE <= 2 * (y - RATE_SCALE * n)
    requires gross == 0 ==> m == 0 && n == 0
    ensures m + n <= gross
  {
  }

  /** At exactly 100% it underflows only when both shares sit on the half paisa and round up. */
  lemma PayoutAtWholeRate(gross: nat, payee: UserId, at: int, tcs: seq<DatedRate>, tds: seq<DatedRate>)
    requires RateAt(tcs, at).Ok? && RateAt(tds, at).Ok?
    requires RateAt(tcs, at).value + RateAt(tds, at).value == RATE_SCALE
    ensures PayoutEntries(gross, payee, at, tcs, tds).Ok?
      <==> 2 * (gross * RateAt(tcs, at).value % RATE_SCALE) != RATE_SCALE
    ensures PayoutEntries(gross, payee, at, tcs, tds).Thrown?
      ==> PayoutEntries(gross, payee, at, tcs, tds).error == Underflow
  {
    WholeRate(gross, RateAt(tcs, at).value, RateAt(tds, at).value);
  }

  lemma WholeRate(gross: nat, r: nat, s: nat)
    requires r + s == RATE_SCALE
    ensures MulRate(gross, r) <= gross
    ensures MulRate(gross, r) + MulRate(gross, s) <= gross <==> 2 * (gross * r % RATE_SCALE) != RATE_SCALE
  {
    MulRateLipschitz(0, gross, r);
    Distribute(gross, r, s);
    var x, y := gross * r, gross * s;
    assert y == RATE_SCALE * gross - x;
  }
}
