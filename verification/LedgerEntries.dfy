/**
 * Every posting the platform can write, and the balance check that guards the ledger.
 * The `...Legs` functions list a posting's legs, `Compose` drops the zero ones.
 */
module LedgerEntries {
  import opened Outcomes
  import opened Columns
  import opened Paise
  import opened Rates
  import opened LargestRemainder
  import opened Quotes
  import opened RefundPolicy
  import opened Fees

  /** The numbers a receivable posting needs: a quote's, or the accumulated ones of a booking row. */
  datatype ReceivableTotals = ReceivableTotals(
    driverTotalPaise: int,
    ownerEarningsPaise: int,
    parkeaseFeePaise: int,
    gstPaise: int,
    commissionWaiverPaise: int)
  {
    /** What every quote, and every sum of quotes, satisfies. */
    predicate WellFormed()
    {
      && 0 <= gstPaise
      && 0 <= commissionWaiverPaise <= ownerEarningsPaise
      && commissionWaiverPaise <= parkeaseFeePaise
      && ownerEarningsPaise + parkeaseFeePaise + gstPaise == driverTotalPaise + commissionWaiverPaise
    }

    /** An extension adds its own quote to the booking row. */
    function Plus(more: ReceivableTotals): ReceivableTotals
    {
      ReceivableTotals(
        driverTotalPaise + more.driverTotalPaise,
        ownerEarningsPaise + more.ownerEarningsPaise,
        parkeaseFeePaise + more.parkeaseFeePaise,
        gstPaise + more.gstPaise,
        commissionWaiverPaise + more.commissionWaiverPaise)
    }
  }

  function TotalsOf(q: Quote): ReceivableTotals
  {
    ReceivableTotals(
      q.driverTotalPaise, q.ownerEarningsPaise, q.fee.parkeaseFeePaise, q.gstPaise, q.commissionWaiverPaise)
  }

  /** A leg that belongs to nobody in particular. */
  function Leg(account: Account, direction: Direction, amountPaise: int, description: string): Entry
  {
    Entry(account, direction, amountPaise, description, None)
  }

  /** A leg that belongs to one user's side of the account. */
  function LegOf(
      account: Account, direction: Direction, amountPaise: int, description: string, whose: UserId): Entry
  {
    Entry(account, direction, amountPaise, description, Some(whose))
  }

  // ----- The balance check

  ghost predicate AllPositive(entries: Posting)
  {
    forall e :: e in entries ==> e.amountPaise > 0
  }

  /** What the balance check accepts. */
  ghost predicate Balanced(entries: Posting)
  {
    entries != [] && AllPositive(entries) && Net(entries, Everything) == 0
  }

  method AssertEntriesBalance(entries: Posting) returns (r: Outcome<()>)
    ensures r.Ok? <==> Balanced(entries)
    ensures r.Thrown? ==> r.error == UnbalancedPosting
  {
    if |entries| == 0 {
      return Thrown(UnbalancedPosting);
    }
    var debits, credits := 0, 0;
    for i := 0 to |entries|
      invariant forall k :: 0 <= k < i ==> entries[k].amountPaise > 0
      invariant debits - credits == NetUpTo(entries, i, Everything)
    {
      var entry := entries[i];
      if entry.amountPaise <= 0 {
        assert entry in entries;
        return Thrown(UnbalancedPosting);
      }
      if entry.direction == Debit {
        debits := debits + entry.amountPaise;
      } else {
        credits := credits + entry.amountPaise;
      }
    }
    if debits != credits {
      return Thrown(UnbalancedPosting);
    }
    return Ok(());
  }

  // ----- Bookings

  function BookingLegs(t: ReceivableTotals, description: string): seq<Entry>
  {
    [ Leg(DriverReceivable, Debit, t.driverTotalPaise, description),
      Leg(PromoExpense, Debit, t.commissionWaiverPaise, description),
      Leg(OwnerPayable, Credit, t.ownerEarningsPaise, description),
      Leg(PlatformRevenue, Credit, t.parkeaseFeePaise, description),
      Leg(GstPayable, Credit, t.gstPaise, description) ]
  }

  function BookingReceivableEntries(t: ReceivableTotals, description: string): Posting
  {
    Compose(BookingLegs(t, description))
  }

  function PromoBookingLegs(t: ReceivableTotals, discountPaise: nat, description: string): seq<Entry>
  {
    [ Leg(DriverReceivable, Debit, t.driverTotalPaise - discountPaise, description),
      Leg(PromoExpense, Debit, discountPaise, description),
      Leg(PromoExpense, Debit, t.commissionWaiverPaise, description),
      Leg(OwnerPayable, Credit, t.ownerEarningsPaise, description),
      Leg(PlatformRevenue, Credit, t.parkeaseFeePaise, description),
      Leg(GstPayable, Credit, t.gstPaise, description) ]
  }

  function PromoBookingEntries(t: ReceivableTotals, discountPaise: nat, description: string): Outcome<Posting>
  {
    if discountPaise > t.driverTotalPaise then Thrown(DiscountExceedsTotal)
    else Ok(Compose(PromoBookingLegs(t, discountPaise, description)))
  }

  // ----- Reversal

  function ReverseEntry(e: Entry, description: string): Entry
  {
    e.(direction := if e.direction == Debit then Credit else Debit, description := description)
  }

  function ReverseEntries(entries: Posting, description: string): (p: Posting)
    ensures |p| == |entries|
  {
    seq(|entries|, i requires 0 <= i < |entries| => ReverseEntry(entries[i], description))
  }

  // ----- Refunds

  function FullReversalLegs(
      t: ReceivableTotals, refundPaise: int, retainedPaise: int, description: string): seq<Entry>
  {
    [ Leg(OwnerPayable, Debit, t.ownerEarningsPaise, description),
      Leg(PlatformRevenue, Debit, t.parkeaseFeePaise, description),
      Leg(GstPayable, Debit, t.gstPaise, description),
      Leg(RefundsPayable, Credit, refundPaise, description),
      Leg(PlatformRevenue, Credit, retainedPaise, description),
      Leg(PromoExpense, Credit, t.commissionWaiverPaise, description) ]
  }

  function GoodwillLegs(goodwillPaise: int, description: string): seq<Entry>
  {
    [ Leg(PromoExpense, Debit, goodwillPaise, description),
      Leg(RefundsPayable, Credit, goodwillPaise, description) ]
  }

  /** How one proportional refund is split over the legs the booking credited. */
  datatype RefundSplit = RefundSplit(owner: int, fee: int, gst: int, waiver: int)

  function SplitWeights(t: ReceivableTotals): seq<int>
  {
    [t.ownerEarningsPaise - t.commissionWaiverPaise, t.parkeaseFeePaise, t.gstPaise]
  }

  function WaiverWeights(t: ReceivableTotals): seq<int>
  {
    [t.commissionWaiverPaise, t.driverTotalPaise - t.commissionWaiverPaise]
  }

  function SplitRefund(t: ReceivableTotals, refundPaise: nat): Outcome<RefundSplit>
  {
    var parts :- Allocate(refundPaise, SplitWeights(t));
    var waiverParts :-
      if t.commissionWaiverPaise == 0 then Ok([0]) else Allocate(refundPaise, WaiverWeights(t));
    Ok(RefundSplit(parts[0], parts[1], parts[2], waiverParts[0]))
  }

  function ProportionalRefundLegs(split: RefundSplit, refundPaise: nat, description: string): seq<Entry>
  {
    [ Leg(OwnerPayable, Debit, split.owner + split.waiver, description),
      Leg(PlatformRevenue, Debit, split.fee, description),
      Leg(GstPayable, Debit, split.gst, description),
      Leg(PromoExpense, Credit, split.waiver, description),
      Leg(RefundsPayable, Credit, refundPaise, description) ]
  }

  function ProportionalRefundEntries(
      t: ReceivableTotals, refundPaise: nat, description: string): Outcome<Posting>
  {
    var split :- SplitRefund(t, refundPaise);
    Ok(Compose(ProportionalRefundLegs(split, refundPaise, description)))
  }

  function RefundEntries(t: ReceivableTotals, outcome: RefundOutcome, description: string): Outcome<Posting>
  {
    match outcome.tier
    case NoRefund => Ok([])
    case BeforeStart =>
      Ok(Compose(FullReversalLegs(t, outcome.refundPaise, outcome.retainedPaise, description)))
    case OwnerCancelled =>
      Ok(Compose(
        FullReversalLegs(t, outcome.refundPaise, outcome.retainedPaise, description)
        + GoodwillLegs(outcome.goodwillPaise, description)))
    case ActiveGrace => ProportionalRefundEntries(t, outcome.refundPaise, description)
  }

  function RefundSettledLegs(refundPaise: int, description: string): seq<Entry>
  {
    [ Leg(RefundsPayable, Debit, refundPaise, description),
      Leg(DriverReceivable, Credit, refundPaise, description) ]
  }

  function RefundSettledEntries(refundPaise: int, description: string): Posting
  {
    Compose(RefundSettledLegs(refundPaise, description))
  }

  // ----- Valet legs and washes

  /** A valet leg and a car wash post the same legs; only the earnings carry the partner. */
  function ServiceLegs(fee: ServiceFee, partner: UserId, description: string): seq<Entry>
  {
    [ Leg(DriverReceivable, Debit, fee.driverTotalPaise, description),
      LegOf(OwnerPayable, Credit, fee.partnerEarningsPaise, description, partner),
      Leg(PlatformRevenue, Credit, fee.commissionPaise, description),
      Leg(GstPayable, Credit, fee.gstPaise, description) ]
  }

  function ServiceEntries(fee: ServiceFee, partner: UserId, description: string): Posting
  {
    Compose(ServiceLegs(fee, partner, description))
  }

  function AdjustmentLegs(
      earnings: int, commission: int, gst: int, refund: int, valet: UserId, description: string): seq<Entry>
  {
    [ LegOf(OwnerPayable, Debit, earnings, description, valet),
      Leg(PlatformRevenue, Debit, commission, description),
      Leg(GstPayable, Debit, gst, description),
      Leg(RefundsPayable, Credit, refund, description) ]
  }

  function ValetChargeAdjustmentEntries(
      charged: ServiceFee, retained: ServiceFee, valet: UserId, description: string): Outcome<Posting>
  {
    if retained.driverTotalPaise > charged.driverTotalPaise then Thrown(RetainedExceedsCharge)
    else
      var refund :- SubPaise(charged.driverTotalPaise, retained.driverTotalPaise);
      if refund == 0 then Ok([])
      else
        var earnings :- SubPaise(charged.partnerEarningsPaise, retained.partnerEarningsPaise);
        var commission :- SubPaise(charged.commissionPaise, retained.commissionPaise);
        var gst :- SubPaise(charged.gstPaise, retained.gstPaise);
        Ok(Compose(AdjustmentLegs(earnings, commission, gst, refund, valet, description)))
  }

  // ----- Route transfers, settlements and payouts

  function RouteDischargeLegs(amountPaise: int, whose: UserId): seq<Entry>
  {
    [ LegOf(OwnerPayable, Debit, amountPaise, "route transfer at capture", whose),
      Leg(SettlementClearing, Credit, amountPaise, "route transfer at capture") ]
  }

  function RouteDischargeEntries(amountPaise: int, whose: UserId): Posting
  {
    Compose(RouteDischargeLegs(amountPaise, whose))
  }

  function SettlementClearedLegs(amountPaise: int): seq<Entry>
  {
    [ Leg(SettlementClearing, Debit, amountPaise, "settlement confirmed"),
      Leg(DriverReceivable, Credit, amountPaise, "settlement confirmed") ]
  }

  function SettlementClearedEntries(amountPaise: int): Posting
  {
    Compose(SettlementClearedLegs(amountPaise))
  }

  function RouteReversalLegs(amountPaise: int, whose: UserId): seq<Entry>
  {
    [ LegOf(OwnerPayable, Credit, amountPaise, "route transfer reversed for a refund", whose),
      Leg(DriverReceivable, Debit, amountPaise, "route transfer reversed for a refund") ]
  }

  function RouteReversalEntries(amountPaise: int, whose: UserId): Posting
  {
    Compose(RouteReversalLegs(amountPaise, whose))
  }

  /** The partner's share a refund takes back: the sum of the posting's `owner_payable` debits. */
  function PartnerShareOf(entries: Posting): int
  {
    if entries == [] then 0
    else
      var e := entries[|entries| - 1];
      PartnerShareOf(entries[..|entries| - 1])
      + (if e.account == OwnerPayable && e.direction == Debit then e.amountPaise else 0)
  }

  /** What a refund takes back from the transfer Route made: the partner's share, never more than it carried. */
  function TakenBack(sharePaise: int, transferPaise: nat): nat
  {
    if sharePaise <= 0 then 0 else if sharePaise < transferPaise then sharePaise else transferPaise
  }

  datatype PayoutPosting = PayoutPosting(entries: Posting, tcsPaise: nat, tdsPaise: nat, netPaise: nat)

  function PayoutLegs(gross: int, net: int, tcs: int, tds: int, payee: UserId): seq<Entry>
  {
    [ LegOf(OwnerPayable, Debit, gross, "payout", payee),
      Leg(SettlementClearing, Credit, net, "payout"),
      Leg(TcsPayable, Credit, tcs, "payout"),
      Leg(TdsPayable, Credit, tds, "payout") ]
  }

  function PayoutEntries(
      grossPaise: nat, payee: UserId, at: int, tcs: seq<DatedRate>, tds: seq<DatedRate>): Outcome<PayoutPosting>
  {
    var tcsRate :- RateAt(tcs, at);
    var tdsRate :- RateAt(tds, at);
    var tcsPaise := MulRate(grossPaise, tcsRate);
    var tdsPaise := MulRate(grossPaise, tdsRate);
    var afterTcs :- SubPaise(grossPaise, tcsPaise);
    var net :- SubPaise(afterTcs, tdsPaise);
    Ok(PayoutPosting(
      Compose(PayoutLegs(grossPaise, net, tcsPaise, tdsPaise, payee)), tcsPaise, tdsPaise, net))
  }
}
