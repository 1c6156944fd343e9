/** What taking back, clearing, charging and paying out leave on every account, from any state that holds. */
module LedgerMovements {
  import opened Outcomes
  import opened Paise
  import opened Rates
  import opened Fees
  import opened Columns
  import opened LedgerEntries
  import opened LedgerEffects
  import opened Ledger
  import opened LifeCycles
  import opened BookingRows
  import opened LedgerRecords
  import opened LedgerMachine
  import opened LedgerSteps
  import opened LedgerCases
  import opened LedgerOutcomes

  // ----- Bookings that end without a payment of their own

  /** An expired booking, or one cancelled after its payment went back, owes and credits nothing, on any account. */
  lemma ReleaseClears(s: State, k: nat, writer: Writer)
    requires Holds(s) && IsParking(s, k) && s.records[k].booking.phase.Live?
    requires s.records[k].booking.capturedPaise.Some? ==> s.records[k].booking.orphaned
    ensures var b, r := s.records[k].booking, ReleaseBooking(s, k, writer);
      && r.Ok? && OnlyAt(s, r.value, k, 0) && r.value.records[k].Parking?
      && r.value.records[k].booking.phase.Released? && r.value.records[k].booking.totals == b.totals
      && forall a :: Moved(s, r.value, Whole(a)) == 0 - PriceOn(
           b.totals.driverTotalPaise, b.totals.ownerEarningsPaise, b.totals.parkeaseFeePaise,
           b.totals.gstPaise, b.totals.commissionWaiverPaise, a)
  {
    var b := s.records[k].booking;
    RecordIs(s, k);
    ReleaseKeeps(s, k, writer);
    var r := ReleaseBooking(s, k, writer).value;
    assert r.records == s.records[k := r.records[k]] + [];
    forall a
      ensures Moved(s, r, Whole(a)) == 0 - PriceOn(
        b.totals.driverTotalPaise, b.totals.ownerEarningsPaise, b.totals.parkeaseFeePaise,
        b.totals.gstPaise, b.totals.commissionWaiverPaise, a)
    {
      MovedByRecords(s, r, k, [], Whole(a));
      ReleasedFrom(r, k, b, a);
    }
  }

  lemma ReleasedFrom(r: State, k: nat, b: Booking, a: Account)
    requires Holds(r) && IsParking(r, k) && r.records[k].booking.phase.Released?
    requires BookingHolds(b) && b.phase.Live?
    ensures Books(RowsOf(r.records[k]), Whole(a)) == 0
    ensures Books(b.rows, Whole(a)) == PriceOn(
      b.totals.driverTotalPaise, b.totals.ownerEarningsPaise, b.totals.parkeaseFeePaise,
      b.totals.gstPaise, b.totals.commissionWaiverPaise, a)
  {
    RecordIs(r, k);
    ReleasedRows(r.records[k].booking);
    LiveRow(b, a);
  }

  /** The refund of an orphaned capture asks for all of it, and to take all that was transferred back. */
  lemma OrphanAsksForAll(s: State, k: nat)
    requires Holds(s) && IsOrphan(s, k)
    ensures var b, r := s.records[k].booking, RefundOrphan(s, k);
      && r.Ok? && |s.records| < |r.value.records| && r.value.records[|s.records|].Refund?
      && var f := r.value.records[|s.records|].refund;
      && f.amountPaise == (if b.capturedPaise.Some? then b.capturedPaise.value else b.totals.driverTotalPaise)
      && f.takeBackPaise == (if b.capturedPaise.Some? then b.transferPaise
                             else if b.totals.ownerEarningsPaise > 0 then Some(b.totals.ownerEarningsPaise) else None)
      && f.driver == f.whose == b.driver && f.settledPaise.None? && f.takenBackPaise.None?
  {
    OrphanIsRefunded(s, k);
  }

  // ----- Taking back and clearing

  lemma TakeBackOn(amount: nat, whose: UserId, c: Column)
    ensures Net(RouteReversalEntries(amount, whose), c)
      == Effect(LegOf(OwnerPayable, Credit, amount, "route transfer reversed for a refund", whose), c)
         + Effect(Leg(DriverReceivable, Debit, amount, "route transfer reversed for a refund"), c)
  {
    NetOfLegs(RouteReversalLegs(amount, whose), c);
  }

  /**
   * What is taken back is owed to the partner again and no longer held for the driver: once for each
   * refund that asked for it, and whatever amount the gateway reports.
   */
  lemma TakeBackOwesPartner(s: State, k: nat, amount: nat, again: int)
    requires Holds(s) && IsRefund(s, k)
    ensures var f, r := s.records[k].refund, TakeShareBack(s, k, amount);
      && r.Ok?
      && (if f.takeBackPaise.None? || f.takenBackPaise.Some? then r.value == s
          else
            && OnlyAt(s, r.value, k, 0) && IsRefund(r.value, k)
            && r.value.records[k].refund == f.(takenBackPaise := Some(amount), rows := r.value.records[k].refund.rows)
            && TakesBackOnly(s, r.value, amount, f.whose)
            && TakeShareBack(r.value, k, again) == r)
  {
    var f := s.records[k].refund;
    if f.takeBackPaise.Some? && f.takenBackPaise.None? {
      TakingBackKeeps(s, k, f, amount);
      TakenBackMoves(s, TakeShareBack(s, k, amount).value, f.whose, amount);
    }
  }

  /** The partner is owed `amount` more, as much less is held, and no other account moves. */
  ghost predicate TakesBackOnly(s: State, r: State, amount: int, whose: UserId)
  {
    && Moved(s, r, Side(OwnerPayable, Some(whose))) == 0 - amount
    && forall a :: Moved(s, r, Whole(a))
         == if a == OwnerPayable then 0 - amount else if a == DriverReceivable then amount else 0
  }

  lemma TakenBackMoves(s: State, r: State, whose: UserId, amount: nat)
    requires r.ledger == AddRow(s.ledger, RouteReversalEntries(amount, whose))
    ensures TakesBackOnly(s, r, amount, whose)
  {
    TakenBackFrom(s, r, whose, amount, Side(OwnerPayable, Some(whose)));
    forall a
      ensures Moved(s, r, Whole(a))
        == if a == OwnerPayable then 0 - amount else if a == DriverReceivable then amount else 0
    {
      TakenBackFrom(s, r, whose, amount, Whole(a));
    }
  }

  lemma TakenBackFrom(s: State, r: State, whose: UserId, amount: nat, c: Column)
    requires r.ledger == AddRow(s.ledger, RouteReversalEntries(amount, whose))
    ensures Moved(s, r, c)
      == Effect(LegOf(OwnerPayable, Credit, amount, "route transfer reversed for a refund", whose), c)
      + Effect(Leg(DriverReceivable, Debit, amount, "route transfer reversed for a refund"), c)
  {
    TransfersBalance(amount, whose, "");
    StampNothing(RouteReversalEntries(amount, whose));
    Posted(s.ledger, RouteReversalEntries(amount, whose), None, c);
    TakeBackOn(amount, whose, c);
  }

  /**
   * A transfer that has reached the partner is no longer on its way, nor held: once for each payment,
   * so that another one discharged for it stays on its way for good.
   */
  lemma ClearingSettles(s: State, k: nat, other: nat)
    requires Holds(s) && k < |s.records| && s.records[k].Transfer?
    requires !HasCleared(s, s.records[k].transfer.paidFor)
    ensures var t, r := s.records[k].transfer, ClearMoved(s, k);
      && r.Ok? && OnlyAt(s, r.value, k, 0) && r.value.records[k].Transfer? && r.value.records[k].transfer.cleared
      && (forall a :: Moved(s, r.value, Whole(a))
            == if a == SettlementClearing then t.amountPaise
               else if a == DriverReceivable then 0 - t.amountPaise else 0)
      && (other < |s.records| && s.records[other].Transfer? && s.records[other].transfer.paidFor == t.paidFor ==>
            ClearMoved(r.value, other) == r)
  {
    var t := s.records[k].transfer;
    RecordIs(s, k);
    TransferWritten(t.amountPaise, t.whose);
    StampNothing(SettlementClearedEntries(t.amountPaise));
    var r := ClearMoved(s, k).value;
    forall a
      ensures Moved(s, r, Whole(a))
        == if a == SettlementClearing then t.amountPaise
           else if a == DriverReceivable then 0 - t.amountPaise else 0
    {
      ClearedFrom(s, r, t.amountPaise, a);
    }
  }

  lemma ClearedFrom(s: State, r: State, amount: nat, a: Account)
    requires r.ledger == AddRow(s.ledger, SettlementClearedEntries(amount))
    ensures Moved(s, r, Whole(a))
      == if a == SettlementClearing then amount else if a == DriverReceivable then 0 - amount else 0
  {
    TransfersBalance(amount, "", "");
    StampNothing(SettlementClearedEntries(amount));
    Posted(s.ledger, SettlementClearedEntries(amount), None, Whole(a));
    NetOfLegs(SettlementClearedLegs(amount), Whole(a));
  }

  // ----- Services

  /** A service is filed with the fee it was priced at, which the driver owes and is apportioned by its parts. */
  ghost predicate ChargedAs(s: State, r: State, kind: ServiceKind, fee: ServiceFee, partner: UserId, driver: UserId)
  {
    && |r.records| == |s.records| + 1 && s.records <= r.records && IsCharged(r, |s.records|, kind)
    && var v := r.records[|s.records|].service;
       && v.fee == fee && v.partner == partner && v.driver == driver && !v.captured
       && Moved(s, r, Side(OwnerPayable, Some(partner))) == 0 - fee.partnerEarningsPaise
       && forall a :: Moved(s, r, Whole(a)) == PriceOn(
            fee.driverTotalPaise, fee.partnerEarningsPaise, fee.commissionPaise, fee.gstPaise, 0, a)
  }

  lemma LegIsCharged(s: State, outbound: bool, distance: real, rateBp: nat, partner: UserId, driver: UserId)
    requires Holds(s) && ChargeLeg(s, outbound, distance, rateBp, partner, driver).Ok?
    ensures ComputeValetLegFee(distance, rateBp).Ok?
    ensures var r := ChargeLeg(s, outbound, distance, rateBp, partner, driver).value;
      && ChargedAs(s, r, if outbound then Outbound else Return,
                   ComputeValetLegFee(distance, rateBp).value, partner, driver)
      && r.records[|s.records|].service.chargedM == distance
  {
    ChargeLegKeeps(s, outbound, distance, rateBp, partner, driver);
    ServiceFiled(s, ChargeLeg(s, outbound, distance, rateBp, partner, driver).value);
  }

  lemma WashIsCharged(s: State, price: int, rateBp: nat, partner: UserId, driver: UserId)
    requires Holds(s) && ChargeForWash(s, price, rateBp, partner, driver).Ok?
    ensures ComputeWashFee(price, rateBp).Ok?
    ensures ChargedAs(s, ChargeForWash(s, price, rateBp, partner, driver).value, CarWash,
                      ComputeWashFee(price, rateBp).value, partner, driver)
  {
    ChargeWashKeeps(s, price, rateBp, partner, driver);
    ServiceFiled(s, ChargeForWash(s, price, rateBp, partner, driver).value);
  }

  lemma ServiceFiled(s: State, r: State)
    requires Holds(s) && Holds(r) && |r.records| == |s.records| + 1 && s.records <= r.records
    requires IsJob(r, |s.records|) && r.records[|s.records|].service.standing.Charged?
    ensures var v := r.records[|s.records|].service;
      && Moved(s, r, Side(OwnerPayable, Some(v.partner))) == 0 - v.fee.partnerEarningsPaise
      && forall a :: Moved(s, r, Whole(a)) == PriceOn(
           v.fee.driverTotalPaise, v.fee.partnerEarningsPaise, v.fee.commissionPaise, v.fee.gstPaise, 0, a)
  {
    var v := r.records[|s.records|].service;
    assert r.records == s.records + [Job(v)];
    RecordIs(r, |s.records|);
    ChargedMoves(s, r, v, Side(OwnerPayable, Some(v.partner)));
    forall a
      ensures Moved(s, r, Whole(a)) == PriceOn(
        v.fee.driverTotalPaise, v.fee.partnerEarningsPaise, v.fee.commissionPaise, v.fee.gstPaise, 0, a)
    {
      ChargedMoves(s, r, v, Whole(a));
    }
  }

  lemma ChargedMoves(s: State, r: State, v: Service, c: Column)
    requires Holds(s) && Holds(r) && r.records == s.records + [Job(v)] && ServiceHolds(v) && v.standing.Charged?
    ensures Moved(s, r, c)
      == Effect(Leg(DriverReceivable, Debit, v.fee.driverTotalPaise, "service"), c)
         + Effect(LegOf(OwnerPayable, Credit, v.fee.partnerEarningsPaise, "service", v.partner), c)
         + Effect(Leg(PlatformRevenue, Credit, v.fee.commissionPaise, "service"), c)
         + Effect(Leg(GstPayable, Credit, v.fee.gstPaise, "service"), c)
  {
    MovedByAdding(s, r, Job(v), c);
    NothingSent(c);
    ServiceNet(v.fee, v.partner, "service", c);
    assert Books(v.rows, c) + Net(RefundSettledEntries(GivenBackBy(v), "refund processed"), c) == StandingNet(v, c);
  }

  /**
   * A charged outbound leg can always be reduced: what the stored distance costs beyond a call-out is
   * taken out of every account, and owed to the driver.
   */
  lemma ReductionGivesBack(s: State, k: nat)
    requires Holds(s) && IsCharged(s, k, Outbound)
    ensures s.records[k].service.chargedM >= 0.0
    ensures var v, r := s.records[k].service, ReduceLeg(s, k);
      var stored, callOut := LegFee(StoredMetres(v.chargedM) as real, v.rateBp), CallOut(v.rateBp);
      && r.Ok? && OnlyAt(s, r.value, k, 0) && IsJob(r.value, k)
      && r.value.records[k].service == v.(standing := Reduced(stored.driverTotalPaise - callOut.driverTotalPaise),
                                         rows := r.value.records[k].service.rows)
      && forall a :: Moved(s, r.value, Whole(a)) == ReductionOn(stored, callOut, a)
  {
    var v := s.records[k].service;
    RecordIs(s, k);
    var r, p := ReducedBy(s, k, v);
    ReductionMoves(s, r, v, p);
  }

  lemma ReducedBy(s: State, k: nat, v: Service) returns (r: State, p: Posting)
    requires IsCharged(s, k, Outbound) && s.records[k] == Job(v) && ServiceHolds(v)
    ensures StoredMetres(v.chargedM) >= 0 && ReduceLeg(s, k) == Ok(r) && Postable(p)
    ensures ValetChargeAdjustmentEntries(StoredFee(v), CallOut(v.rateBp), v.partner, "service") == Ok(p)
    ensures r.ledger == AddRow(s.ledger, p) && OnlyAt(s, r, k, 0) && r.records[k].Job?
    ensures r.records[k].service
      == v.(standing := Reduced(StoredFee(v).driverTotalPaise - CallOut(v.rateBp).driverTotalPaise),
            rows := r.records[k].service.rows)
  {
    ReductionAccepted(v);
    p := ValetChargeAdjustmentEntries(StoredFee(v), CallOut(v.rateBp), v.partner, "service").value;
    StampNothing(p);
    r := ReduceLeg(s, k).value;
  }

  lemma ReductionMoves(s: State, r: State, v: Service, p: Posting)
    requires ServiceHolds(v) && v.kind.Outbound? && StoredMetres(v.chargedM) >= 0 && Postable(p)
    requires ValetChargeAdjustmentEntries(StoredFee(v), CallOut(v.rateBp), v.partner, "service") == Ok(p)
    requires r.ledger == AddRow(s.ledger, p)
    ensures forall a :: Moved(s, r, Whole(a)) == ReductionOn(StoredFee(v), CallOut(v.rateBp), a)
  {
    forall a
      ensures Moved(s, r, Whole(a)) == ReductionOn(StoredFee(v), CallOut(v.rateBp), a)
    {
      StampNothing(p);
      Posted(s.ledger, p, None, Whole(a));
      AdjustmentOn(v, p, a);
    }
  }

  function ReductionOn(stored: ServiceFee, callOut: ServiceFee, a: Account): int
  {
    match a
    case OwnerPayable => stored.partnerEarningsPaise - callOut.partnerEarningsPaise
    case PlatformRevenue => stored.commissionPaise - callOut.commissionPaise
    case GstPayable => stored.gstPaise - callOut.gstPaise
    case RefundsPayable => callOut.driverTotalPaise - stored.driverTotalPaise
    case _ => 0
  }

  lemma AdjustmentOn(v: Service, p: Posting, a: Account)
    requires ServiceHolds(v) && v.kind.Outbound? && StoredMetres(v.chargedM) >= 0
    requires ValetChargeAdjustmentEntries(StoredFee(v), CallOut(v.rateBp), v.partner, "service") == Ok(p)
    ensures Net(p, Whole(a)) == ReductionOn(StoredFee(v), CallOut(v.rateBp), a)
  {
    LegAdds(StoredMetres(v.chargedM) as real, v.rateBp);
    LegAdds(0.0, v.rateBp);
    ValetFeeMonotone(0.0, StoredMetres(v.chargedM) as real, v.rateBp);
    assert ChargeableKm(0.0) == 0;
    AdjustmentByFees(StoredFee(v), CallOut(v.rateBp), v.partner, p, a);
  }

  lemma AdjustmentByFees(charged: ServiceFee, retained: ServiceFee, partner: UserId, p: Posting, a: Account)
    requires Adds(charged) && Adds(retained)
    requires retained.partnerEarningsPaise <= charged.partnerEarningsPaise
    requires retained.commissionPaise <= charged.commissionPaise
    requires retained.gstPaise <= charged.gstPaise
    requires ValetChargeAdjustmentEntries(charged, retained, partner, "service") == Ok(p)
    ensures Net(p, Whole(a)) == ReductionOn(charged, retained, a)
  {
    AdjustmentNet(charged, retained, partner, "service", Whole(a));
  }

  // ----- Payouts

  /** A payout as it stands: the payee was paid, the withheld parts are owed, and the net is on its way or gone. */
  lemma PayoutStands(s: State, k: nat, a: Account)
    requires Holds(s) && k < |s.records| && s.records[k].Payout?
    ensures var p := s.records[k].payout;
      Books(RowsOf(s.records[k]), Whole(a))
      == match p.status
         case OnItsWay => PayoutEffectOn(p.grossPaise, p.tcsPaise, p.tdsPaise, p.netPaise, a)
         case Arrived =>
           if a == SettlementClearing then 0
           else if a == DriverReceivable then 0 - p.netPaise
           else PayoutEffectOn(p.grossPaise, p.tcsPaise, p.tdsPaise, p.netPaise, a)
         case Failed => 0
  {
    var p := s.records[k].payout;
    RecordIs(s, k);
    PaidOn(p, a);
    NetOfLegs(SettlementClearedLegs(p.netPaise), Whole(a));
  }

  lemma PaidOn(p: PayoutRow, a: Account)
    ensures Net(PayoutPaid(p), Whole(a)) == PayoutEffectOn(p.grossPaise, p.tcsPaise, p.tdsPaise, p.netPaise, a)
  {
    NetOfLegs(PayoutLegs(p.grossPaise, p.netPaise, p.tcsPaise, p.tdsPaise, p.payee), Whole(a));
  }

  /**
   * The weekly payout of a balance of ₹100 or more: the whole of it leaves the payee's side, each
   * withheld part is the nearest paisa of it at its own rate, and the net is on its way.
   */
  lemma PayoutIsFiled(s: State, payee: UserId, at: int, tcs: seq<DatedRate>, tds: seq<DatedRate>)
    requires Holds(s) && PartnerBalance(s, payee) >= 10_000
    requires PayoutEntries(PartnerBalance(s, payee), payee, at, tcs, tds).Ok?
    ensures RateAt(tcs, at).Ok? && RateAt(tds, at).Ok?
    ensures var r, gross := PayPartner(s, payee, at, tcs, tds), PartnerBalance(s, payee);
      && r.Ok? && |r.value.records| == |s.records| + 1 && s.records <= r.value.records
      && IsPayout(r.value, |s.records|, OnItsWay)
      && var p := r.value.records[|s.records|].payout;
      && p.payee == payee && p.grossPaise == gross && p.tcsPaise + p.tdsPaise + p.netPaise == gross
      && NearestPaisa(p.tcsPaise, gross, RateAt(tcs, at).value)
      && NearestPaisa(p.tdsPaise, gross, RateAt(tds, at).value)
      && forall a :: Moved(s, r.value, Whole(a)) == PayoutEffectOn(gross, p.tcsPaise, p.tdsPaise, p.netPaise, a)
  {
    var gross := PartnerBalance(s, payee);
    PayoutBalances(gross, payee, at, tcs, tds);
    PayPartnerKeeps(s, payee, at, tcs, tds);
    var r := PayPartner(s, payee, at, tcs, tds).value;
    var p := r.records[|s.records|].payout;
    forall a
      ensures Moved(s, r, Whole(a)) == PayoutEffectOn(gross, p.tcsPaise, p.tdsPaise, p.netPaise, a)
    {
      MovedByAdding(s, r, Payout(p), Whole(a));
      PayoutStands(r, |s.records|, a);
    }
  }

  /** A balance below that is kept. */
  lemma SmallBalanceIsKept(s: State, payee: UserId, at: int, tcs: seq<DatedRate>, tds: seq<DatedRate>)
    requires PartnerBalance(s, payee) < 10_000
    ensures PayPartner(s, payee, at, tcs, tds) == Ok(s)
  {
  }

  /** What arrives is no longer on its way: the payout leaves settlement clearing where it found it. */
  lemma ArrivalSettles(s: State, k: nat)
    requires Holds(s) && IsPayout(s, k, OnItsWay)
    ensures var p, r := s.records[k].payout, PayoutArrived(s, k);
      && r.Ok? && OnlyAt(s, r.value, k, 0) && IsPayout(r.value, k, Arrived)
      && r.value.records[k].payout == p.(status := Arrived, rows := r.value.records[k].payout.rows)
      && Books(RowsOf(r.value.records[k]), Whole(SettlementClearing)) == 0
      && forall a :: Moved(s, r.value, Whole(a))
           == if a == SettlementClearing then p.netPaise else if a == DriverReceivable then 0 - p.netPaise else 0
  {
    var p := s.records[k].payout;
    RecordIs(s, k);
    ArrivedHolds(p);
    PayoutArrivedKeeps(s, k);
    var r := PayoutArrived(s, k).value;
    PayoutStands(r, k, SettlementClearing);
    StampNothing(SettlementClearedEntries(p.netPaise));
    forall a
      ensures Moved(s, r, Whole(a))
        == if a == SettlementClearing then p.netPaise else if a == DriverReceivable then 0 - p.netPaise else 0
    {
      ClearedFrom(s, r, p.netPaise, a);
    }
  }
}
