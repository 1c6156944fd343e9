/** Where complete life cycles of a booking or a valet leg leave the books. */
module LifeCycles {
  import opened Outcomes
  import opened Paise
  import opened Rates
  import opened RefundPolicy
  import opened Fees
  import opened Columns
  import opened LedgerEntries
  import opened LedgerEffects
  import opened Ledger

  // ----- A booking paid through Route, refunded in full

  /**
   * Booked, transferred to the partner at capture, settled, refunded in full, taken back from the
   * partner's transfer, and sent to the driver. Every row is stamped as the writers stamp it.
   */
  function RouteLife(t: ReceivableTotals, driver: UserId, transfer: nat, refund: Posting, share: nat): seq<Posting>
    requires t.driverTotalPaise >= 0
  {
    [ Stamp(BookingReceivableEntries(t, "booking created"), Some(driver)),
      RouteDischargeEntries(transfer, driver),
      SettlementClearedEntries(transfer),
      Stamp(refund, Some(driver)),
      RouteReversalEntries(share, driver),
      Stamp(RefundSettledEntries(t.driverTotalPaise, "refund processed"), Some(driver)) ]
  }

  /** When a posting only debits the partners' account, their share is its whole effect on it. */
  lemma {:induction false} ShareIsNet(p: Posting)
    requires forall i :: 0 <= i < |p| && p[i].account == OwnerPayable ==> p[i].direction == Debit
    ensures PartnerShareOf(p) == Net(p, Whole(OwnerPayable))
  {
    if p == [] {
    } else {
      ShareIsNet(p[..|p| - 1]);
      NetOfPrefix(p, p[..|p| - 1], |p| - 1, Whole(OwnerPayable));
    }
  }

  /** The share of any refund, of any size, is what its split debits the owner. */
  lemma RefundShare(t: ReceivableTotals, refund: nat, d: string)
    requires t.WellFormed()
    ensures SplitRefund(t, refund).Ok? && ProportionalRefundEntries(t, refund, d).Ok?
    ensures var s := SplitRefund(t, refund).value;
      PartnerShareOf(ProportionalRefundEntries(t, refund, d).value) == s.owner + s.waiver
  {
    if t.driverTotalPaise > 0 {
      SplitIsFair(t, refund);
    } else {
      FreeBookingSplitsNothing(t, refund);
    }
    SplitShare(SplitRefund(t, refund).value, refund, d);
  }

  lemma SplitShare(s: RefundSplit, refund: nat, d: string)
    requires s.owner >= 0 && s.fee >= 0 && s.gst >= 0 && s.waiver >= 0
    ensures PartnerShareOf(Compose(ProportionalRefundLegs(s, refund, d))) == s.owner + s.waiver
  {
    var legs := ProportionalRefundLegs(s, refund, d);
    OnlyDebits(legs);
    ShareIsNet(Compose(legs));
    ProportionalNet(s, refund, d, Whole(OwnerPayable));
  }

  lemma OnlyDebits(legs: seq<Entry>)
    requires forall i :: 0 <= i < |legs| && legs[i].account == OwnerPayable ==> legs[i].direction == Debit
    ensures var p := Compose(legs);
      forall i :: 0 <= i < |p| && p[i].account == OwnerPayable ==> p[i].direction == Debit
  {
    var p := Compose(legs);
    ComposedEntries(legs);
    forall i | 0 <= i < |p| && p[i].account == OwnerPayable
      ensures p[i].direction == Debit
    {
      assert p[i] in p;
    }
  }

  /** The share taken back for a full refund is everything the partner earned. */
  lemma FullRefundShare(t: ReceivableTotals, d: string)
    requires t.WellFormed()
    ensures ProportionalRefundEntries(t, t.driverTotalPaise, d).Ok?
    ensures PartnerShareOf(ProportionalRefundEntries(t, t.driverTotalPaise, d).value) == t.ownerEarningsPaise
  {
    RefundShare(t, t.driverTotalPaise, d);
    SplitOfWhole(t);
  }

  lemma FullRefundNet(t: ReceivableTotals, d: string, c: Column) returns (p: Posting)
    requires t.WellFormed()
    ensures ProportionalRefundEntries(t, t.driverTotalPaise, d) == Ok(p)
    ensures p == Compose(ProportionalRefundLegs(SplitRefund(t, t.driverTotalPaise).value, t.driverTotalPaise, d))
    ensures Net(p, c)
      == Effect(Leg(OwnerPayable, Debit, t.ownerEarningsPaise, d), c)
         + Effect(Leg(PlatformRevenue, Debit, t.parkeaseFeePaise, d), c)
         + Effect(Leg(GstPayable, Debit, t.gstPaise, d), c)
         + Effect(Leg(RefundsPayable, Credit, t.driverTotalPaise, d), c)
         + Effect(Leg(PromoExpense, Credit, t.commissionWaiverPaise, d), c)
  {
    WholeRefundIsFullReversal(t, d, c);
    FullReversalNet(t, t.driverTotalPaise, 0, d, c);
    p := ProportionalRefundEntries(t, t.driverTotalPaise, d).value;
  }

  /** What Route had moved beyond the owner's earnings, and a refund cannot take back. */
  function Overpaid(t: ReceivableTotals, transfer: nat): nat
  {
    if transfer <= t.ownerEarningsPaise then 0 else transfer - t.ownerEarningsPaise
  }

  /**
   * The cycle returns every account to zero exactly when Route had moved no more than the owner
   * earned, extensions after the capture included; then every counterparty's side of the payable is
   * at zero too. What Route had moved beyond that stays with the partner.
   */
  lemma RouteLifeCloses(t: ReceivableTotals, driver: UserId, transfer: nat, d: string)
    requires t.WellFormed()
    ensures var refund := ProportionalRefundEntries(t, t.driverTotalPaise, d);
      && refund.Ok?
      && PartnerShareOf(refund.value) == t.ownerEarningsPaise
      && var share := TakenBack(PartnerShareOf(refund.value), transfer);
      && var life := RouteLife(t, driver, transfer, refund.value, share);
      && ((forall a :: Books(life, Whole(a)) == 0) <==> transfer <= t.ownerEarningsPaise)
      && (transfer <= t.ownerEarningsPaise ==> forall w :: Books(life, Side(OwnerPayable, w)) == 0)
      && Books(life, Side(OwnerPayable, Some(driver))) == Overpaid(t, transfer)
  {
    FullRefundShare(t, d);
    var refund := ProportionalRefundEntries(t, t.driverTotalPaise, d).value;
    var life := RouteLife(t, driver, transfer, refund, TakenBack(t.ownerEarningsPaise, transfer));
    forall a
      ensures Books(life, Whole(a))
        == if a == OwnerPayable then Overpaid(t, transfer)
           else if a == DriverReceivable then 0 - Overpaid(t, transfer)
           else 0
    {
      RouteLifeAccount(t, driver, transfer, refund, d, a);
    }
    assert Books(life, Whole(OwnerPayable)) == Overpaid(t, transfer);
    forall w
      ensures Books(life, Side(OwnerPayable, w)) == if w == Some(driver) then Overpaid(t, transfer) else 0
    {
      RouteLifeSide(t, driver, transfer, refund, d, w);
    }
  }

  lemma RouteLifeBooks(t: ReceivableTotals, driver: UserId, transfer: nat, refund: Posting, share: nat, c: Column)
    requires t.driverTotalPaise >= 0
    ensures Books(RouteLife(t, driver, transfer, refund, share), c)
      == Net(Stamp(BookingReceivableEntries(t, "booking created"), Some(driver)), c)
         + Net(RouteDischargeEntries(transfer, driver), c)
         + Net(SettlementClearedEntries(transfer), c)
         + Net(Stamp(refund, Some(driver)), c)
         + Net(RouteReversalEntries(share, driver), c)
         + Net(Stamp(RefundSettledEntries(t.driverTotalPaise, "refund processed"), Some(driver)), c)
  {
    BooksOf6(Stamp(BookingReceivableEntries(t, "booking created"), Some(driver)),
      RouteDischargeEntries(transfer, driver), SettlementClearedEntries(transfer),
      Stamp(refund, Some(driver)), RouteReversalEntries(share, driver),
      Stamp(RefundSettledEntries(t.driverTotalPaise, "refund processed"), Some(driver)), c);
  }

  lemma TransferNet(amount: nat, whose: UserId, c: Column)
    ensures Net(RouteDischargeEntries(amount, whose), c) + Net(SettlementClearedEntries(amount), c)
      == Effect(LegOf(OwnerPayable, Debit, amount, "", whose), c)
         + Effect(Leg(SettlementClearing, Credit, amount, ""), c)
         + Effect(Leg(SettlementClearing, Debit, amount, ""), c)
         + Effect(Leg(DriverReceivable, Credit, amount, ""), c)
  {
    NetOfLegs(RouteDischargeLegs(amount, whose), c);
    NetOfLegs(SettlementClearedLegs(amount), c);
  }

  lemma TakeBackNet(amount: nat, whose: UserId, c: Column)
    ensures Net(RouteReversalEntries(amount, whose), c)
      == Effect(LegOf(OwnerPayable, Credit, amount, "", whose), c)
         + Effect(Leg(DriverReceivable, Debit, amount, ""), c)
  {
    NetOfLegs(RouteReversalLegs(amount, whose), c);
  }

  /** Booking, full refund and its settlement cancel out, in every account. */
  lemma RefundedBookingNet(t: ReceivableTotals, refund: Posting, d: string, a: Account)
    requires t.WellFormed() && ProportionalRefundEntries(t, t.driverTotalPaise, d) == Ok(refund)
    ensures Net(BookingReceivableEntries(t, "booking created"), Whole(a)) + Net(refund, Whole(a))
      + Net(RefundSettledEntries(t.driverTotalPaise, "refund processed"), Whole(a)) == 0
  {
    var p := FullRefundNet(t, d, Whole(a));
    BookingNet(t, "booking created", Whole(a));
    SettledNet(t.driverTotalPaise, Whole(a));
  }

  /** What the transfer, its clearing and the take-back leave: what was not taken back. */
  lemma MovedAccount(transfer: nat, back: nat, driver: UserId, a: Account)
    ensures Net(RouteDischargeEntries(transfer, driver), Whole(a)) + Net(SettlementClearedEntries(transfer), Whole(a))
      + Net(RouteReversalEntries(back, driver), Whole(a))
      == if a == OwnerPayable then transfer - back else if a == DriverReceivable then back - transfer else 0
  {
    TransferNet(transfer, driver, Whole(a));
    TakeBackNet(back, driver, Whole(a));
  }

  lemma MovedSide(transfer: nat, back: nat, driver: UserId, w: Option<UserId>)
    ensures Net(RouteDischargeEntries(transfer, driver), Side(OwnerPayable, w))
      + Net(SettlementClearedEntries(transfer), Side(OwnerPayable, w))
      + Net(RouteReversalEntries(back, driver), Side(OwnerPayable, w))
      == if w == Some(driver) then transfer - back else 0
  {
    TransferNet(transfer, driver, Side(OwnerPayable, w));
    TakeBackNet(back, driver, Side(OwnerPayable, w));
  }

  lemma RouteLifeAccount(t: ReceivableTotals, driver: UserId, transfer: nat, refund: Posting, d: string, a: Account)
    requires t.WellFormed() && ProportionalRefundEntries(t, t.driverTotalPaise, d) == Ok(refund)
    ensures Books(RouteLife(t, driver, transfer, refund, TakenBack(t.ownerEarningsPaise, transfer)), Whole(a))
        == if a == OwnerPayable then Overpaid(t, transfer)
           else if a == DriverReceivable then 0 - Overpaid(t, transfer)
           else 0
  {
    RefundedBookingAccount(t, driver, refund, d, a);
    MovedAccount(transfer, TakenBack(t.ownerEarningsPaise, transfer), driver, a);
    RouteLifeBooks(t, driver, transfer, refund, TakenBack(t.ownerEarningsPaise, transfer), Whole(a));
  }

  lemma RefundedBookingAccount(t: ReceivableTotals, driver: UserId, refund: Posting, d: string, a: Account)
    requires t.WellFormed() && ProportionalRefundEntries(t, t.driverTotalPaise, d) == Ok(refund)
    ensures Net(Stamp(BookingReceivableEntries(t, "booking created"), Some(driver)), Whole(a))
      + Net(Stamp(refund, Some(driver)), Whole(a))
      + Net(Stamp(RefundSettledEntries(t.driverTotalPaise, "refund processed"), Some(driver)), Whole(a))
      == 0
  {
    RefundedBookingNet(t, refund, d, a);
    StampKeepsAccounts(BookingReceivableEntries(t, "booking created"), Some(driver), Whole(a));
    StampKeepsAccounts(refund, Some(driver), Whole(a));
    StampKeepsAccounts(RefundSettledEntries(t.driverTotalPaise, "refund processed"), Some(driver), Whole(a));
  }

  lemma RouteLifeSide(
      t: ReceivableTotals, driver: UserId, transfer: nat, refund: Posting, d: string, w: Option<UserId>)
    requires t.WellFormed() && ProportionalRefundEntries(t, t.driverTotalPaise, d) == Ok(refund)
    ensures Books(RouteLife(t, driver, transfer, refund, TakenBack(t.ownerEarningsPaise, transfer)),
                  Side(OwnerPayable, w))
      == if w == Some(driver) then Overpaid(t, transfer) else 0
  {
    RefundedBookingSide(t, driver, refund, d, w);
    MovedSide(transfer, TakenBack(t.ownerEarningsPaise, transfer), driver, w);
    RouteLifeBooks(t, driver, transfer, refund, TakenBack(t.ownerEarningsPaise, transfer), Side(OwnerPayable, w));
  }

  lemma RefundedBookingSide(t: ReceivableTotals, driver: UserId, refund: Posting, d: string, w: Option<UserId>)
    requires t.WellFormed() && ProportionalRefundEntries(t, t.driverTotalPaise, d) == Ok(refund)
    ensures Net(Stamp(BookingReceivableEntries(t, "booking created"), Some(driver)), Side(OwnerPayable, w))
      + Net(Stamp(refund, Some(driver)), Side(OwnerPayable, w))
      + Net(Stamp(RefundSettledEntries(t.driverTotalPaise, "refund processed"), Some(driver)), Side(OwnerPayable, w))
      == 0
  {
    RefundedBookingNet(t, refund, d, OwnerPayable);
    StampedSide(BookingLegs(t, "booking created"), driver, OwnerPayable, w);
    StampedSide(ProportionalRefundLegs(SplitRefund(t, t.driverTotalPaise).value, t.driverTotalPaise, d),
      driver, OwnerPayable, w);
    StampedSide(RefundSettledLegs(t.driverTotalPaise, "refund processed"), driver, OwnerPayable, w);
  }

  // ----- A cancelled booking

  /** Booked, cancelled under the published policy, and the refund sent; nothing ever sends the goodwill. */
  function CancelledLife(t: ReceivableTotals, o: RefundOutcome, refund: Posting): seq<Posting>
  {
    [ BookingReceivableEntries(t, "booking created"),
      refund,
      RefundSettledEntries(o.refundPaise, "refund processed") ]
  }

  /** What one account holds at the end of a cancelled booking's life. */
  function Left(t: ReceivableTotals, o: RefundOutcome, refund: Posting, a: Account): int
  {
    Books(CancelledLife(t, o, refund), Whole(a))
  }

  lemma LeftIsNet(t: ReceivableTotals, o: RefundOutcome, refund: Posting, a: Account)
    ensures Left(t, o, refund, a)
      == Net(BookingReceivableEntries(t, "booking created"), Whole(a)) + Net(refund, Whole(a))
         + Net(RefundSettledEntries(o.refundPaise, "refund processed"), Whole(a))
  {
    BooksOf3(BookingReceivableEntries(t, "booking created"), refund,
      RefundSettledEntries(o.refundPaise, "refund processed"), Whole(a));
  }

  /** Cancelled before the start: only the retained fee is left, as revenue the driver paid for. */
  lemma BeforeStartLifeEnds(t: ReceivableTotals, startsAt: int, at: int, d: string, a: Account)
    requires t.WellFormed() && at < startsAt
    ensures var o := ResolveRefund(t.driverTotalPaise, startsAt, at, Driver);
      && o.Ok? && RefundEntries(t, o.value, d).Ok?
      && Left(t, o.value, RefundEntries(t, o.value, d).value, a)
         == if a == DriverReceivable then o.value.retainedPaise
            else if a == PlatformRevenue then -o.value.retainedPaise
            else 0
  {
    RefundSplitsTotal(t.driverTotalPaise, startsAt, at, Driver);
    LeftAfterFullReversal(t, ResolveRefund(t.driverTotalPaise, startsAt, at, Driver).value, d, a);
  }

  lemma LeftAfterFullReversal(t: ReceivableTotals, o: RefundOutcome, d: string, a: Account)
    requires t.WellFormed() && o.goodwillPaise == 0
    requires o.retainedPaise >= 0 && o.refundPaise + o.retainedPaise == t.driverTotalPaise
    ensures Left(t, o, Compose(FullReversalLegs(t, o.refundPaise, o.retainedPaise, d)), a)
      == if a == DriverReceivable then o.retainedPaise
         else if a == PlatformRevenue then -o.retainedPaise
         else 0
  {
    LeftIsNet(t, o, Compose(FullReversalLegs(t, o.refundPaise, o.retainedPaise, d)), a);
    BookingNet(t, "booking created", Whole(a));
    SettledNet(o.refundPaise, Whole(a));
    FullReversalNet(t, o.refundPaise, o.retainedPaise, d, Whole(a));
  }

  /** Cancelled by the owner or an admin: the goodwill is left, expensed and owed to the driver for good. */
  lemma OwnerCancelledLifeEnds(
      t: ReceivableTotals, startsAt: int, at: int, cancelledBy: CancelledBy, d: string, a: Account)
    requires t.WellFormed() && cancelledBy != Driver
    ensures var o := ResolveRefund(t.driverTotalPaise, startsAt, at, cancelledBy);
      && o.Ok? && RefundEntries(t, o.value, d).Ok?
      && Left(t, o.value, RefundEntries(t, o.value, d).value, a)
         == if a == RefundsPayable then -OWNER_CANCEL_GOODWILL_PAISE
            else if a == PromoExpense then OWNER_CANCEL_GOODWILL_PAISE
            else 0
  {
    LeftAfterGoodwill(t, ResolveRefund(t.driverTotalPaise, startsAt, at, cancelledBy).value, d, a);
  }

  lemma LeftAfterGoodwill(t: ReceivableTotals, o: RefundOutcome, d: string, a: Account)
    requires t.WellFormed() && o.refundPaise == t.driverTotalPaise
    ensures Left(t, o, Compose(FullReversalLegs(t, o.refundPaise, 0, d) + GoodwillLegs(o.goodwillPaise, d)), a)
      == if a == RefundsPayable then 0 - o.goodwillPaise
         else if a == PromoExpense then o.goodwillPaise
         else 0
  {
    LeftIsNet(t, o, Compose(FullReversalLegs(t, o.refundPaise, 0, d) + GoodwillLegs(o.goodwillPaise, d)), a);
    BookingNet(t, "booking created", Whole(a));
    SettledNet(o.refundPaise, Whole(a));
    WithGoodwillNet(t, o.refundPaise, o.goodwillPaise, d, Whole(a));
  }

  lemma SettledNet(amount: nat, c: Column)
    ensures Net(RefundSettledEntries(amount, "refund processed"), c)
      == Effect(Leg(RefundsPayable, Debit, amount, "refund processed"), c)
         + Effect(Leg(DriverReceivable, Credit, amount, "refund processed"), c)
  {
    NetOfLegs(RefundSettledLegs(amount, "refund processed"), c);
  }

  /**
   * Cancelled within the grace window: the driver has paid for exactly what was retained, and the
   * owner, the platform and the tax authority each keep part of their credit, never less than nothing.
   */
  lemma GraceLifeEnds(t: ReceivableTotals, startsAt: int, at: int, d: string, a: Account)
    requires t.WellFormed() && startsAt <= at < startsAt + ACTIVE_GRACE_MS
    ensures var o := ResolveRefund(t.driverTotalPaise, startsAt, at, Driver);
      && o.Ok? && RefundEntries(t, o.value, d).Ok?
      && var left := Left(t, o.value, RefundEntries(t, o.value, d).value, a);
      && (a == DriverReceivable ==> left == o.value.retainedPaise)
      && (a == OwnerPayable ==> -t.ownerEarningsPaise <= left <= 0)
      && (a == PlatformRevenue ==> -t.parkeaseFeePaise <= left <= 0)
      && (a == GstPayable ==> -t.gstPaise <= left <= 0)
      && (a == PromoExpense ==> 0 <= left <= t.commissionWaiverPaise)
      && (a == RefundsPayable ==> left == 0)
  {
    RefundSplitsTotal(t.driverTotalPaise, startsAt, at, Driver);
    var o := ResolveRefund(t.driverTotalPaise, startsAt, at, Driver).value;
    SplitWithin(t, o.refundPaise);
    var s := SplitRefund(t, o.refundPaise).value;
    assert RefundEntries(t, o, d) == Ok(Compose(ProportionalRefundLegs(s, o.refundPaise, d)));
    LeftAfterSplit(t, o, s, d, a);
  }

  lemma LeftAfterSplit(t: ReceivableTotals, o: RefundOutcome, s: RefundSplit, d: string, a: Account)
    requires t.WellFormed() && o.goodwillPaise == 0
    requires s.owner >= 0 && s.fee >= 0 && s.gst >= 0 && s.waiver >= 0
    ensures var left := Left(t, o, Compose(ProportionalRefundLegs(s, o.refundPaise, d)), a);
      && (a == DriverReceivable ==> left == t.driverTotalPaise - o.refundPaise)
      && (a == OwnerPayable ==> left == s.owner + s.waiver - t.ownerEarningsPaise)
      && (a == PlatformRevenue ==> left == s.fee - t.parkeaseFeePaise)
      && (a == GstPayable ==> left == s.gst - t.gstPaise)
      && (a == PromoExpense ==> left == t.commissionWaiverPaise - s.waiver)
      && (a == RefundsPayable ==> left == 0)
  {
    SplitNets(s, o.refundPaise, d);
    LeftIsNet(t, o, Compose(ProportionalRefundLegs(s, o.refundPaise, d)), a);
    BookingNet(t, "booking created", Whole(a));
    SettledNet(o.refundPaise, Whole(a));
  }

  /** A cancelled booking's life leaves nothing owed to the driver exactly when the driver cancelled. */
  lemma LiabilityClearedIff(t: ReceivableTotals, startsAt: int, at: int, cancelledBy: CancelledBy, d: string)
    requires t.WellFormed()
    ensures var o := ResolveRefund(t.driverTotalPaise, startsAt, at, cancelledBy);
      && o.Ok? && RefundEntries(t, o.value, d).Ok?
      && (Left(t, o.value, RefundEntries(t, o.value, d).value, RefundsPayable) == 0 <==> cancelledBy == Driver)
  {
    if cancelledBy != Driver {
      OwnerCancelledLifeEnds(t, startsAt, at, cancelledBy, d, RefundsPayable);
    } else if at < startsAt {
      BeforeStartLifeEnds(t, startsAt, at, d, RefundsPayable);
    } else if at < startsAt + ACTIVE_GRACE_MS {
      GraceLifeEnds(t, startsAt, at, d, RefundsPayable);
    } else {
      LateLifeEnds(t, startsAt, at, d, RefundsPayable);
    }
  }

  /** Cancelled after the grace window: the books are the booking's own. */
  lemma LateLifeEnds(t: ReceivableTotals, startsAt: int, at: int, d: string, a: Account)
    requires t.WellFormed() && startsAt + ACTIVE_GRACE_MS <= at
    ensures var o := ResolveRefund(t.driverTotalPaise, startsAt, at, Driver);
      && o.Ok? && RefundEntries(t, o.value, d) == Ok([])
      && Left(t, o.value, [], a) == BookingEffect(t, a)
  {
    var o := ResolveRefund(t.driverTotalPaise, startsAt, at, Driver).value;
    LeftIsNet(t, o, [], a);
    BookingBalances(t, "booking created");
    SettledNet(0, Whole(a));
  }

  // ----- A valet leg charged, then reduced to a shorter one

  lemma ValetFeeMonotone(near: real, far: real, rateBp: nat)
    requires 0.0 <= near && 0.0 <= far && rateBp <= RATE_SCALE
    ensures ComputeValetLegFee(near, rateBp).Ok? && ComputeValetLegFee(far, rateBp).Ok?
    ensures ChargeableKm(near) >= 0 && ChargeableKm(far) >= 0
    ensures near <= far ==> ChargeableKm(near) <= ChargeableKm(far)
    ensures var a, b := ComputeValetLegFee(near, rateBp).value, ComputeValetLegFee(far, rateBp).value;
      && (ChargeableKm(near) <= ChargeableKm(far) ==>
            && 0 <= a.partnerEarningsPaise <= b.partnerEarningsPaise
            && a.commissionPaise <= b.commissionPaise
            && a.gstPaise <= b.gstPaise
            && a.driverTotalPaise <= b.driverTotalPaise)
      && (ChargeableKm(near) > ChargeableKm(far) ==> a.driverTotalPaise > b.driverTotalPaise)
  {
    var feeNear := VALET_BASE_FEE_PAISE + ChargeableKm(near) * VALET_PER_KM_PAISE;
    var feeFar := VALET_BASE_FEE_PAISE + ChargeableKm(far) * VALET_PER_KM_PAISE;
    if ChargeableKm(near) <= ChargeableKm(far) {
      SplitMonotone(feeNear, feeFar, rateBp);
    } else {
      SplitMonotone(feeFar, feeNear, rateBp);
    }
  }

  /**
   * At a commission of at most 100% an adjustment is refused only when it would retain a longer
   * leg than was charged, and the underflow guard inside it never fires.
   */
  lemma AdjustmentAcceptedIff(charged: real, retained: real, rateBp: nat, valet: UserId, d: string)
    requires 0.0 <= charged && 0.0 <= retained && rateBp <= RATE_SCALE
    ensures ComputeValetLegFee(charged, rateBp).Ok? && ComputeValetLegFee(retained, rateBp).Ok?
    ensures var adjustment := ValetChargeAdjustmentEntries(
        ComputeValetLegFee(charged, rateBp).value, ComputeValetLegFee(retained, rateBp).value, valet, d);
      && (adjustment.Ok? <==> ChargeableKm(retained) <= ChargeableKm(charged))
      && (adjustment.Thrown? ==> adjustment.error == RetainedExceedsCharge)
      && (retained <= charged ==> adjustment.Ok?)
  {
    ValetFeeMonotone(retained, charged, rateBp);
  }

  /** Retaining the shorter of two legs is always possible exactly when the rate is at most 100%. */
  lemma AdjustmentAlwaysPossibleIff(rateBp: nat, valet: UserId, d: string)
    ensures (forall retained: real, charged: real :: 0.0 <= retained <= charged ==>
               ValetChargeAdjustmentEntries(
                 ComputeValetLegFee(charged, rateBp).value,
                 ComputeValetLegFee(retained, rateBp).value, valet, d).Ok?)
      <==> rateBp <= RATE_SCALE
  {
    if rateBp <= RATE_SCALE {
      forall retained: real, charged: real | 0.0 <= retained <= charged
        ensures ValetChargeAdjustmentEntries(
            ComputeValetLegFee(charged, rateBp).value,
            ComputeValetLegFee(retained, rateBp).value, valet, d).Ok?
      {
        AdjustmentAcceptedIff(charged, retained, rateBp, valet, d);
      }
    } else {
      TenKilometresUnderflow(rateBp, valet, d);
    }
  }

  /** Above 100%, reducing a ten-kilometre leg to a call-out trips the underflow guard. */
  lemma TenKilometresUnderflow(rateBp: nat, valet: UserId, d: string)
    requires rateBp > RATE_SCALE
    ensures ValetChargeAdjustmentEntries(
        ComputeValetLegFee(10_000.0, rateBp).value,
        ComputeValetLegFee(0.0, rateBp).value, valet, d) == Thrown(Underflow)
  {
    assert ChargeableKm(10_000.0) == 10 && ChargeableKm(0.0) == 0;
    assert ComputeValetLegFee(10_000.0, rateBp) == Ok(Split(15_000, rateBp));
    assert ComputeValetLegFee(0.0, rateBp) == Ok(Split(5_000, rateBp));
    FeesDriftApart(rateBp);
  }

  /** Above 100% the commission grows faster than the fee, so the partner's earnings fall. */
  lemma FeesDriftApart(rateBp: nat)
    requires rateBp > RATE_SCALE
    ensures Split(15_000, rateBp).partnerEarningsPaise < Split(5_000, rateBp).partnerEarningsPaise
    ensures Split(15_000, rateBp).driverTotalPaise > Split(5_000, rateBp).driverTotalPaise
  {
    MulRateError(15_000, rateBp);
    MulRateError(5_000, rateBp);
    MulRateMonotone(5_000, 15_000, rateBp, rateBp);
    MulRateMonotone(MulRate(5_000, rateBp), MulRate(15_000, rateBp), GST_BP, GST_BP);
  }

  /** Charge, adjust and settle: the books are as if only the retained leg had been charged. */
  lemma AdjustedLegIsRetainedLeg(charged: real, retained: real, rateBp: nat, valet: UserId, d: string, c: Column)
    requires 0.0 <= retained && 0.0 <= charged && ChargeableKm(retained) <= ChargeableKm(charged)
    requires rateBp <= RATE_SCALE
    ensures ComputeValetLegFee(charged, rateBp).Ok? && ComputeValetLegFee(retained, rateBp).Ok?
    ensures var feeCharged, feeRetained :=
        ComputeValetLegFee(charged, rateBp).value, ComputeValetLegFee(retained, rateBp).value;
      && ValetChargeAdjustmentEntries(feeCharged, feeRetained, valet, d).Ok?
      && feeRetained.driverTotalPaise <= feeCharged.driverTotalPaise
      && Postable(ValetChargeAdjustmentEntries(feeCharged, feeRetained, valet, d).value)
      && Net(ServiceEntries(feeCharged, valet, d), c)
         + Net(ValetChargeAdjustmentEntries(feeCharged, feeRetained, valet, d).value, c)
         + Net(RefundSettledEntries(feeCharged.driverTotalPaise - feeRetained.driverTotalPaise, "refund processed"), c)
         == Net(ServiceEntries(feeRetained, valet, d), c)
  {
    ValetFeeMonotone(retained, charged, rateBp);
    AdjustedFeeIsRetainedFee(
      ComputeValetLegFee(charged, rateBp).value, ComputeValetLegFee(retained, rateBp).value, valet, d, c);
  }

  lemma AdjustedFeeIsRetainedFee(charged: ServiceFee, retained: ServiceFee, valet: UserId, d: string, c: Column)
    requires Adds(charged) && Adds(retained)
    requires 0 <= retained.partnerEarningsPaise <= charged.partnerEarningsPaise
    requires retained.commissionPaise <= charged.commissionPaise
    requires retained.gstPaise <= charged.gstPaise
    ensures var adjustment := ValetChargeAdjustmentEntries(charged, retained, valet, d);
      && adjustment.Ok? && Postable(adjustment.value)
      && retained.driverTotalPaise <= charged.driverTotalPaise
      && Net(ServiceEntries(charged, valet, d), c)
         + Net(adjustment.value, c)
         + Net(RefundSettledEntries(charged.driverTotalPaise - retained.driverTotalPaise, "refund processed"), c)
         == Net(ServiceEntries(retained, valet, d), c)
  {
    AdjustmentNet(charged, retained, valet, d, c);
    ServiceNet(charged, valet, d, c);
    ServiceNet(retained, valet, d, c);
    SettledNet(charged.driverTotalPaise - retained.driverTotalPaise, c);
  }

  // ----- The leg a cancellation reduces is the one the job row remembers

  /** The job row keeps whole metres, a half rounded up. */
  function StoredMetres(distanceM: real): int
  {
    (distanceM + 0.5).Floor
  }

  /** Less than half a metre into a kilometre, which rounding the metres takes away again. */
  predicate JustIntoKm(distanceM: real)
  {
    0.0 < distanceM - (distanceM / METRES_PER_KM).Floor as real * METRES_PER_KM < 0.5
  }

  lemma StoredKm(distanceM: real)
    requires 0.0 <= distanceM
    ensures StoredMetres(distanceM) >= 0
    ensures ChargeableKm(StoredMetres(distanceM) as real)
      == if JustIntoKm(distanceM) then ChargeableKm(distanceM) - 1 else ChargeableKm(distanceM)
  {
    var n := WholeKm(distanceM);
    StoredWithin(distanceM, 1000 * n);
    if distanceM == (1000 * n) as real {
      KmAt(distanceM, n);
      KmAt(StoredMetres(distanceM) as real, n);
    } else {
      KmAt(distanceM, n + 1);
      KmAt(StoredMetres(distanceM) as real, if distanceM < (1000 * n) as real + 0.5 then n else n + 1);
    }
  }

  lemma WholeKm(distanceM: real) returns (n: int)
    requires 0.0 <= distanceM
    ensures n == (distanceM / METRES_PER_KM).Floor && n >= 0
    ensures n as real * METRES_PER_KM == (1000 * n) as real <= distanceM < (1000 * n) as real + METRES_PER_KM
  {
    n := (distanceM / METRES_PER_KM).Floor;
  }

  lemma StoredWithin(distanceM: real, whole: int)
    requires whole as real <= distanceM < whole as real + METRES_PER_KM
    ensures if distanceM < whole as real + 0.5 then StoredMetres(distanceM) == whole
            else whole < StoredMetres(distanceM) <= whole + 1000
  {
  }

  lemma KmAt(distanceM: real, km: int)
    requires (km - 1) as real * METRES_PER_KM < distanceM <= km as real * METRES_PER_KM
    ensures ChargeableKm(distanceM) == km
  {
  }

  function LegFee(distanceM: real, rateBp: nat): ServiceFee
    requires 0.0 <= distanceM
  {
    ComputeValetLegFee(distanceM, rateBp).value
  }

  function CallOut(rateBp: nat): ServiceFee
  {
    ComputeValetNoShowFee(rateBp).value
  }

  /** A leg charged, cancelled, and its reduction refunded: what the three postings leave in a column. */
  function CancelledLegNet(distanceM: real, rateBp: nat, valet: UserId, d: string, c: Column): int
    requires 0.0 <= distanceM
  {
    StoredKm(distanceM);
    var stored := LegFee(StoredMetres(distanceM) as real, rateBp);
    Net(ServiceEntries(LegFee(distanceM, rateBp), valet, d), c)
    + (match ValetChargeAdjustmentEntries(stored, CallOut(rateBp), valet, d)
       case Ok(p) => Net(p, c)
       case Thrown(_) => 0)
    + Net(RefundSettledEntries(stored.driverTotalPaise - CallOut(rateBp).driverTotalPaise, "refund processed"), c)
  }

  /** The reduction is always accepted, and leaves the call-out and whatever the stored distance forgot. */
  lemma CancelledLegLeaves(distanceM: real, rateBp: nat, valet: UserId, d: string, c: Column)
    requires 0.0 <= distanceM && rateBp <= RATE_SCALE
    ensures StoredMetres(distanceM) >= 0
    ensures var stored := LegFee(StoredMetres(distanceM) as real, rateBp);
      && ValetChargeAdjustmentEntries(stored, CallOut(rateBp), valet, d).Ok?
      && CancelledLegNet(distanceM, rateBp, valet, d, c)
         == Net(ServiceEntries(CallOut(rateBp), valet, d), c)
            + Net(ServiceEntries(LegFee(distanceM, rateBp), valet, d), c) - Net(ServiceEntries(stored, valet, d), c)
  {
    StoredKm(distanceM);
    assert ChargeableKm(0.0) == 0;
    AdjustedLegIsRetainedLeg(StoredMetres(distanceM) as real, 0.0, rateBp, valet, d, c);
  }

  /**
   * A cancelled leg leaves the books of a call-out, in every column, exactly when it did not end
   * within half a metre past a whole kilometre: that kilometre is charged for and not given back.
   */
  lemma CancelledLegIsCallOutIff(distanceM: real, rateBp: nat, valet: UserId, d: string)
    requires 0.0 <= distanceM && rateBp <= RATE_SCALE
    ensures (forall c :: CancelledLegNet(distanceM, rateBp, valet, d, c)
                      == Net(ServiceEntries(CallOut(rateBp), valet, d), c))
      <==> !JustIntoKm(distanceM)
  {
    StoredKm(distanceM);
    forall c {
      CancelledLegLeaves(distanceM, rateBp, valet, d, c);
    }
    if JustIntoKm(distanceM) {
      OneKmMore(distanceM, rateBp, valet, d);
      assert CancelledLegNet(distanceM, rateBp, valet, d, Whole(DriverReceivable))
        > Net(ServiceEntries(CallOut(rateBp), valet, d), Whole(DriverReceivable));
    } else {
      SameKmSameFee(distanceM, StoredMetres(distanceM) as real, rateBp);
    }
  }

  lemma SameKmSameFee(a: real, b: real, rateBp: nat)
    requires 0.0 <= a && 0.0 <= b && ChargeableKm(a) == ChargeableKm(b)
    ensures LegFee(a, rateBp) == LegFee(b, rateBp)
  {
  }

  /** The kilometre that is not given back costs the driver at least its price. */
  lemma OneKmMore(distanceM: real, rateBp: nat, valet: UserId, d: string)
    requires 0.0 <= distanceM && rateBp <= RATE_SCALE && JustIntoKm(distanceM)
    ensures StoredMetres(distanceM) >= 0
    ensures Net(ServiceEntries(LegFee(distanceM, rateBp), valet, d), Whole(DriverReceivable))
      >= Net(ServiceEntries(LegFee(StoredMetres(distanceM) as real, rateBp), valet, d), Whole(DriverReceivable))
         + VALET_PER_KM_PAISE
  {
    StoredKm(distanceM);
    var km := ChargeableKm(StoredMetres(distanceM) as real);
    assert ChargeableKm(distanceM) == km + 1;
    SplitMonotone(VALET_BASE_FEE_PAISE + km * VALET_PER_KM_PAISE,
      VALET_BASE_FEE_PAISE + (km + 1) * VALET_PER_KM_PAISE, rateBp);
    ServiceNet(LegFee(distanceM, rateBp), valet, d, Whole(DriverReceivable));
    ServiceNet(LegFee(StoredMetres(distanceM) as real, rateBp), valet, d, Whole(DriverReceivable));
  }

  /** At 1000.3 m two kilometres are charged and one is given back; at 0.3 m one, and nothing. */
  lemma ForgottenKilometre(rateBp: nat, valet: UserId, d: string)
    requires rateBp <= RATE_SCALE
    ensures JustIntoKm(1000.3) && JustIntoKm(0.3)
    ensures ChargeableKm(1000.3) == 2 && ChargeableKm(StoredMetres(1000.3) as real) == 1
    ensures ChargeableKm(0.3) == 1
    ensures ValetChargeAdjustmentEntries(LegFee(StoredMetres(0.3) as real, rateBp), CallOut(rateBp), valet, d) == Ok([])
  {
    assert StoredMetres(1000.3) == 1000 && StoredMetres(0.3) == 0;
    assert (1000.3 / METRES_PER_KM).Floor == 1 && (0.3 / METRES_PER_KM).Floor == 0;
    KmAt(1000.3, 2);
    KmAt(1000.0, 1);
    KmAt(0.3, 1);
    KmAt(0.0, 0);
  }

  lemma ServiceNet(fee: ServiceFee, partner: UserId, d: string, c: Column)
    requires fee.partnerEarningsPaise >= 0
    ensures Net(ServiceEntries(fee, partner, d), c)
      == Effect(Leg(DriverReceivable, Debit, fee.driverTotalPaise, d), c)
         + Effect(LegOf(OwnerPayable, Credit, fee.partnerEarningsPaise, d, partner), c)
         + Effect(Leg(PlatformRevenue, Credit, fee.commissionPaise, d), c)
         + Effect(Leg(GstPayable, Credit, fee.gstPaise, d), c)
  {
    NetOfLegs(ServiceLegs(fee, partner, d), c);
  }

  /** The parts of a fee: the driver's total is what the three credits add up to. */
  ghost predicate Adds(fee: ServiceFee)
  {
    fee.partnerEarningsPaise + fee.commissionPaise + fee.gstPaise == fee.driverTotalPaise
  }

  lemma AdjustmentNet(charged: ServiceFee, retained: ServiceFee, valet: UserId, d: string, c: Column)
    requires Adds(charged) && Adds(retained)
    requires retained.partnerEarningsPaise <= charged.partnerEarningsPaise
    requires retained.commissionPaise <= charged.commissionPaise
    requires retained.gstPaise <= charged.gstPaise
    ensures var p := ValetChargeAdjustmentEntries(charged, retained, valet, d);
      && p.Ok? && Postable(p.value)
      && Net(p.value, c)
         == Effect(LegOf(OwnerPayable, Debit,
                         charged.partnerEarningsPaise - retained.partnerEarningsPaise, d, valet), c)
            + Effect(Leg(PlatformRevenue, Debit, charged.commissionPaise - retained.commissionPaise, d), c)
            + Effect(Leg(GstPayable, Debit, charged.gstPaise - retained.gstPaise, d), c)
            + Effect(Leg(RefundsPayable, Credit, charged.driverTotalPaise - retained.driverTotalPaise, d), c)
  {
    var legs := AdjustmentLegs(
      charged.partnerEarningsPaise - retained.partnerEarningsPaise,
      charged.commissionPaise - retained.commissionPaise,
      charged.gstPaise - retained.gstPaise,
      charged.driverTotalPaise - retained.driverTotalPaise, valet, d);
    NetOfLegs(legs, c);
    LegsBalance(legs);
  }
}
