/**
 * What single steps do, and fail to do, from any state that holds: `LedgerRun.EveryRunHolds` shows
 * that every run's state does.
 */
module LedgerCases {
  import opened Outcomes
  import opened Sums
  import opened Rates
  import opened Quotes
  import opened RefundPolicy
  import opened Fees
  import opened Columns
  import opened LedgerEntries
  import opened LedgerEffects
  import opened Ledger
  import opened LifeCycles
  import opened PartialRefunds
  import opened BookingRows
  import opened LedgerRecords
  import opened LedgerMachine
  import opened LedgerSteps

  // ----- The cap on refunds

  /** A live booking whose payment is its own. */
  predicate IsPaid(s: State, k: nat)
  {
    IsLive(s, k, true) && !s.records[k].booking.orphaned
  }

  /** The database refuses to refund more than was captured, and takes the cancellation down with it. */
  lemma CancelPossibleIff(s: State, k: nat, startsAt: int, at: int, cancelledBy: CancelledBy)
    requires Holds(s) && IsPaid(s, k)
    ensures var b, r := s.records[k].booking, CancelBooking(s, k, startsAt, at, cancelledBy);
      var o := ResolveRefund(b.totals.driverTotalPaise, startsAt, at, cancelledBy);
      && o.Ok?
      && (r.Ok? <==> o.value.refundPaise <= b.capturedPaise.value)
      && (!r.Ok? <==> r == Thrown(Refused))
      && (cancelledBy != Driver ==> (r.Ok? <==> b.capturedPaise.value == b.totals.driverTotalPaise))
  {
    var b := s.records[k].booking;
    RecordIs(s, k);
    RefundSplitsTotal(b.totals.driverTotalPaise, startsAt, at, cancelledBy);
    CancellationBalances(b.totals, startsAt, at, cancelledBy, "refund");
  }

  /** So once a booking is extended at a charge, neither its owner nor an admin can cancel it. */
  lemma ExtensionBlocksCancellation(
      s: State, k: nat, input: FeeInput, startsAt: int, at: int, cancelledBy: CancelledBy)
    requires Holds(s) && IsPaid(s, k) && cancelledBy != Driver
    requires MakeQuote(input).Ok? && input.basePaise > 0
    ensures ExtendBooking(s, k, input).Ok?
    ensures CancelBooking(ExtendBooking(s, k, input).value, k, startsAt, at, cancelledBy) == Thrown(Refused)
  {
    ExtensionGrows(s, k, input);
    ExtendKeeps(s, k, input);
    CancelPossibleIff(ExtendBooking(s, k, input).value, k, startsAt, at, cancelledBy);
  }

  lemma ExtensionGrows(s: State, k: nat, input: FeeInput)
    requires Holds(s) && IsPaid(s, k) && MakeQuote(input).Ok? && input.basePaise > 0
    ensures var r := ExtendBooking(s, k, input);
      && r.Ok? && IsPaid(r.value, k)
      && r.value.records[k].booking.capturedPaise.value < r.value.records[k].booking.totals.driverTotalPaise
  {
    RecordIs(s, k);
    QuoteTotalsWellFormed(input);
    QuoteWorth(input);
    BookingWritten(TotalsOf(MakeQuote(input).value), "booking extended");
  }

  // ----- A booking reversed twice

  /**
   * After a cancellation that reversed a booking in full, an admin can refund it, and so reverse its
   * credits a second time, exactly when the driver had cancelled before the start and the flat fee
   * kept the whole of the price: no refund was issued that would close the booking.
   */
  lemma ReversedAgainIff(s: State, k: nat, startsAt: int, at: int, cancelledBy: CancelledBy)
    requires Holds(s) && IsPaid(s, k) && (cancelledBy == Driver ==> at < startsAt)
    requires CancelBooking(s, k, startsAt, at, cancelledBy).Ok?
    ensures var b, r := s.records[k].booking, CancelBooking(s, k, startsAt, at, cancelledBy).value;
      (exists amount :: RefundByAdmin(r, k, amount).Ok?)
      <==> cancelledBy == Driver && b.totals.driverTotalPaise <= REFUND_PROCESSING_FEE_PAISE
  {
    var b, r := s.records[k].booking, CancelBooking(s, k, startsAt, at, cancelledBy).value;
    CancelledState(s, k, startsAt, at, cancelledBy);
    if cancelledBy == Driver && b.totals.driverTotalPaise <= REFUND_PROCESSING_FEE_PAISE {
      RefundAccepted(r, k, 1);
      assert RefundByAdmin(r, k, 1).Ok?;
    } else {
      forall amount
        ensures !RefundByAdmin(r, k, amount).Ok?
      {
        assert !Refundable(r.records[k].booking);
      }
    }
  }

  /** What a cancellation that reverses a booking makes of it. */
  lemma CancelledState(s: State, k: nat, startsAt: int, at: int, cancelledBy: CancelledBy)
    requires Holds(s) && IsPaid(s, k)
    requires cancelledBy == Driver ==> at < startsAt
    requires CancelBooking(s, k, startsAt, at, cancelledBy).Ok?
    ensures var b, r := s.records[k].booking, CancelBooking(s, k, startsAt, at, cancelledBy).value;
      && IsParking(r, k) && BookingHolds(r.records[k].booking)
      && r.records[k].booking.phase.Reversed? && r.records[k].booking.refunds == []
      && r.records[k].booking.totals == b.totals && r.records[k].booking.driver == b.driver
      && r.records[k].booking.capturedPaise == b.capturedPaise && !r.records[k].booking.orphaned
      && (r.records[k].booking.phase.refundPaise == 0
          <==> cancelledBy == Driver && b.totals.driverTotalPaise <= REFUND_PROCESSING_FEE_PAISE)
  {
    var b := s.records[k].booking;
    RecordIs(s, k);
    RefundSplitsTotal(b.totals.driverTotalPaise, startsAt, at, cancelledBy);
    CancelPossibleIff(s, k, startsAt, at, cancelledBy);
    CancelledHolds(b, startsAt, at, cancelledBy);
  }

  lemma RefundAccepted(s: State, k: nat, amount: int)
    requires IsParking(s, k) && BookingHolds(s.records[k].booking) && Refundable(s.records[k].booking)
    requires 0 < amount && Sum(s.records[k].booking.refunds) + amount <= s.records[k].booking.capturedPaise.value
    ensures var b := s.records[k].booking;
      var r, p := RefundByAdmin(s, k, amount), ProportionalRefundEntries(b.totals, amount, "refund: admin");
      p.Ok? && r.Ok? && IsParking(r.value, k) && r.value.records[k].booking == RefundedPartly(b, amount, p.value)
  {
    RefundWritten(s.records[k].booking.totals, amount, "refund: admin");
  }

  /**
   * A booking of at most the flat fee, paid for, cancelled before the start and then refunded by an
   * admin: the owner, who had the credit taken back once, is left owing all of it.
   */
  lemma SecondReversal(s: State, k: nat, startsAt: int, at: int)
    requires Holds(s) && IsPaid(s, k) && at < startsAt
    requires s.records[k].booking.totals.driverTotalPaise <= REFUND_PROCESSING_FEE_PAISE
    requires s.records[k].booking.capturedPaise.value == s.records[k].booking.totals.driverTotalPaise
    ensures var b, t := s.records[k].booking, s.records[k].booking.totals;
      && CancelBooking(s, k, startsAt, at, Driver).Ok?
      && var cancelled := CancelBooking(s, k, startsAt, at, Driver).value;
      && RefundByAdmin(cancelled, k, t.driverTotalPaise).Ok?
      && var r := RefundByAdmin(cancelled, k, t.driverTotalPaise).value;
      && IsParking(r, k)
      && Books(RowsOf(r.records[k]), Side(OwnerPayable, Some(b.driver))) == t.ownerEarningsPaise
      && Books(RowsOf(r.records[k]), Whole(GstPayable)) == t.gstPaise
      && Books(RowsOf(r.records[k]), Whole(RefundsPayable)) + t.driverTotalPaise == 0
  {
    var t := s.records[k].booking.totals;
    RefundSplitsTotal(t.driverTotalPaise, startsAt, at, Driver);
    CancelPossibleIff(s, k, startsAt, at, Driver);
    CancelledState(s, k, startsAt, at, Driver);
    var cancelled := CancelBooking(s, k, startsAt, at, Driver).value;
    RefundAccepted(cancelled, k, t.driverTotalPaise);
    ReversedTwice(cancelled.records[k].booking, t.driverTotalPaise,
      ProportionalRefundEntries(t, t.driverTotalPaise, "refund: admin").value);
  }

  lemma ReversedTwice(b: Booking, refund: nat, p: Posting)
    requires BookingHolds(b) && Refundable(b) && b.phase.Reversed? && b.refunds == []
    requires refund == b.totals.driverTotalPaise && b.capturedPaise == Some(refund)
    requires ProportionalRefundEntries(b.totals, refund, "refund: admin") == Ok(p)
    ensures var t, r := b.totals, RefundedPartly(b, refund, p);
      && Books(r.rows, Side(OwnerPayable, Some(b.driver))) == t.ownerEarningsPaise
      && Books(r.rows, Whole(GstPayable)) == t.gstPaise
      && Books(r.rows, Whole(RefundsPayable)) + refund == 0
  {
    var t, r := b.totals, RefundedPartly(b, refund, p);
    RefundedHolds(b, refund, "refund: admin");
    assert r.refunds == [] + [refund] == [refund];
    WholeTaken(t, refund);
    TwiceReversedRows(r, Taken(t, [refund]));
  }

  lemma WholeTaken(t: ReceivableTotals, refund: nat)
    requires t.WellFormed() && refund == t.driverTotalPaise
    ensures Sum([refund]) == refund
    ensures var s := Taken(t, [refund]); s.owner + s.waiver == t.ownerEarningsPaise && s.gst == t.gstPaise
  {
    SplitOfWhole(t);
    TakenByOne(t, refund, SplitRefund(t, refund).value);
    SumAppend([], refund);
    assert [] + [refund] == [refund];
  }

  lemma TwiceReversedRows(r: Booking, taken: RefundSplit)
    requires RowsOwned(r.rows, r.driver)
    requires RowsGive(r.rows, r.totals, r.phase, taken, r.totals.driverTotalPaise)
    requires r.phase.Reversed? && r.phase.refundPaise == 0 && r.phase.goodwillPaise == 0
    requires taken.owner + taken.waiver == r.totals.ownerEarningsPaise && taken.gst == r.totals.gstPaise
    ensures Books(r.rows, Side(OwnerPayable, Some(r.driver))) == r.totals.ownerEarningsPaise
    ensures Books(r.rows, Whole(GstPayable)) == r.totals.gstPaise
    ensures Books(r.rows, Whole(RefundsPayable)) + r.totals.driverTotalPaise == 0
  {
    assert Books(r.rows, Side(OwnerPayable, Some(r.driver))) == Books(r.rows, Whole(OwnerPayable));
    assert Books(r.rows, Whole(GstPayable))
      == StandingEffect(r.totals, r.phase, GstPayable) + RefundEffect(taken, r.totals.driverTotalPaise, GstPayable);
  }

  // ----- Washes

  /** A cancelled wash leaves no trace of its charge, and once captured is refunded and taken back in full. */
  lemma WashIsUndone(s: State, k: nat)
    requires Holds(s) && IsCharged(s, k, CarWash)
    ensures var v, r := s.records[k].service, UndoWash(s, k);
      && r.Ok? && IsJob(r.value, k) && r.value.records[k].service.standing.Undone?
      && !r.value.records[k].service.captured && (forall c :: Books(RowsOf(r.value.records[k]), c) == 0)
      && v.fee.driverTotalPaise > 0
      && (if v.captured
          then r.value.records == s.records[k := r.value.records[k]]
               + [Refund(RefundRow(v.fee.driverTotalPaise, Origin(Washes, k), v.driver, v.partner,
                                   TransferFor(v.fee.partnerEarningsPaise), None, None, []))]
          else r.value.records == s.records[k := r.value.records[k]])
  {
    var v := s.records[k].service;
    RecordIs(s, k);
    UndoneHolds(v, WashReversal(v));
    ServiceWorth(v);
    WashShare(v.fee, v.partner);
  }

  function WashReversal(v: Service): Posting
  {
    ReverseEntries(Charge(v.fee, v.partner), "car wash cancellation reversal")
  }

  predicate IsJob(s: State, k: nat)
  {
    k < |s.records| && s.records[k].Job?
  }

  lemma ServiceWorth(v: Service)
    requires FeeHolds(v)
    ensures v.fee.driverTotalPaise > 0
  {
    if v.fee.driverTotalPaise <= 0 {
      NoPositiveLegs(ServiceLegs(v.fee, v.partner, "service"));
      assert false;
    }
  }

  /** The share a cancelled wash takes back is all the partner earned. */
  lemma WashShare(fee: ServiceFee, partner: UserId)
    requires fee.partnerEarningsPaise >= 0
    ensures var p := ReverseEntries(Charge(fee, partner), "car wash cancellation reversal");
      && PartnerShareOf(p) == fee.partnerEarningsPaise
      && TakeBackFor(p, TransferFor(fee.partnerEarningsPaise)) == TransferFor(fee.partnerEarningsPaise)
  {
    var charge := Charge(fee, partner);
    var p := ReverseEntries(charge, "car wash cancellation reversal");
    ComposedEntries(ServiceLegs(fee, partner, "service"));
    forall i | 0 <= i < |p| && p[i].account == OwnerPayable
      ensures p[i].direction == Debit
    {
      assert charge[i] in charge;
    }
    ShareIsNet(p);
    ReverseRestores(charge, "car wash cancellation reversal", Whole(OwnerPayable));
    ServiceNet(fee, partner, "service", Whole(OwnerPayable));
  }

  /** A captured wash, cancelled and refunded in full: nothing waits, and the account is in debit by it all. */
  lemma CapturedWashOverdraws(s: State, k: nat)
    requires Holds(s) && IsCharged(s, k, CarWash) && s.records[k].service.captured
    ensures var n, total := |s.records|, s.records[k].service.fee.driverTotalPaise;
      && UndoWash(s, k).Ok?
      && var undone := UndoWash(s, k).value;
      && SettleRefund(undone, n, total).Ok?
      && var r := SettleRefund(undone, n, total).value;
      && Total(r.records, Waiting) == Total(s.records, Waiting)
      && Books(r.ledger, Whole(RefundsPayable)) == Books(s.ledger, Whole(RefundsPayable)) + total
      && total > 0
  {
    WashIsUndone(s, k);
    WashOwesNothing(s, k);
    var undone := UndoWash(s, k).value;
    var total := s.records[k].service.fee.driverTotalPaise;
    SettlementPosts(undone, |s.records|, total);
    WaitingAfterWash(s, k, undone, SettleRefund(undone, |s.records|, total).value);
  }

  lemma WashOwesNothing(s: State, k: nat)
    requires Holds(s) && IsCharged(s, k, CarWash)
    ensures UndoWash(s, k).Ok?
    ensures Books(UndoWash(s, k).value.ledger, Whole(RefundsPayable)) == Books(s.ledger, Whole(RefundsPayable))
  {
    var v := s.records[k].service;
    RecordIs(s, k);
    UndoneHolds(v, WashReversal(v));
    ReversalOwesNothing(s.ledger, v);
  }

  lemma ReversalOwesNothing(ledger: seq<Posting>, v: Service)
    requires v.fee.partnerEarningsPaise >= 0
    ensures Books(ledger + [Stamp(WashReversal(v), None)], Whole(RefundsPayable))
      == Books(ledger, Whole(RefundsPayable))
  {
    StampNothing(WashReversal(v));
    BooksAppend(ledger, WashReversal(v), Whole(RefundsPayable));
    ReverseRestores(Charge(v.fee, v.partner), "car wash cancellation reversal", Whole(RefundsPayable));
    ServiceNetOnRefunds(v.fee, v.partner);
  }

  lemma WaitingAfterWash(s: State, k: nat, undone: State, r: State)
    requires k < |s.records| && s.records[k].Job?
    requires |undone.records| == |r.records| == |s.records| + 1
    requires undone.records[..|s.records|] == s.records[k := undone.records[k]] && undone.records[k].Job?
    requires forall j :: 0 <= j < |s.records| ==> r.records[j] == undone.records[j]
    requires r.records[|s.records|].Refund? && r.records[|s.records|].refund.settledPaise.Some?
    ensures Total(r.records, Waiting) == Total(s.records, Waiting)
  {
    var before := r.records[..|s.records|];
    assert before == s.records[k := undone.records[k]];
    assert r.records == before + [r.records[|s.records|]];
    TotalAppend(before, r.records[|s.records|], Waiting);
    TotalUpdate(s.records, k, undone.records[k], Waiting);
  }

  /**
   * A cancelled wash whose capture arrives late, or is reported again after the refund, is captured
   * all the same: nothing is refunded, its partner's share is discharged, and it cannot be cancelled.
   */
  lemma LateCaptureIsKept(s: State, k: nat)
    requires Holds(s) && IsJob(s, k) && s.records[k].service.kind.CarWash?
    requires s.records[k].service.standing.Undone? && !s.records[k].service.captured
    ensures var r := CapturePaidWash(s, k);
      && r.Ok? && k < |r.value.records| && r.value.records[k].Job? && r.value.records[k].service.captured
      && Total(r.value.records, Issued(Washes)) == Total(s.records, Issued(Washes))
      && Books(r.value.ledger, Side(OwnerPayable, Some(s.records[k].service.partner)))
         == Books(s.ledger, Side(OwnerPayable, Some(s.records[k].service.partner)))
            + s.records[k].service.fee.partnerEarningsPaise
      && UndoWash(r.value, k) == Thrown(Refused)
  {
    WashPaid(s, k);
  }

  lemma WashPaid(s: State, k: nat)
    requires Holds(s) && IsJob(s, k) && s.records[k].service.kind.CarWash? && !s.records[k].service.captured
    ensures var r := CapturePaidWash(s, k);
      && r.Ok? && IsJob(r.value, k) && r.value.records[k].service == s.records[k].service.(captured := true)
      && Total(r.value.records, Issued(Washes)) == Total(s.records, Issued(Washes))
      && Books(r.value.ledger, Side(OwnerPayable, Some(s.records[k].service.partner)))
         == Books(s.ledger, Side(OwnerPayable, Some(s.records[k].service.partner)))
            + s.records[k].service.fee.partnerEarningsPaise
  {
    PaidWashHolds(s, k);
    PaidWashFiled(s, k, s.records[k].service.(captured := true));
  }

  lemma PaidWashFiled(s: State, k: nat, v: Service)
    requires IsJob(s, k) && Holds(State(s.records[k := Job(v)], s.ledger)) && v.fee.partnerEarningsPaise >= 0
    ensures var r := Discharge(State(s.records[k := Job(v)], s.ledger), k,
                               TransferFor(v.fee.partnerEarningsPaise), v.driver, v.partner, Api);
      && r.Ok? && k < |r.value.records| && r.value.records[k] == Job(v)
      && Total(r.value.records, Issued(Washes)) == Total(s.records, Issued(Washes))
      && Books(r.value.ledger, Side(OwnerPayable, Some(v.partner)))
         == Books(s.ledger, Side(OwnerPayable, Some(v.partner))) + v.fee.partnerEarningsPaise
  {
    TotalUpdate(s.records, k, Job(v), Issued(Washes));
    DischargeFiles(State(s.records[k := Job(v)], s.ledger), k, v.fee.partnerEarningsPaise, v.driver, v.partner);
    ShareDischarged(
      State(s.records[k := Job(v)], s.ledger), k, TransferFor(v.fee.partnerEarningsPaise), v.driver, v.partner, Api);
  }

  lemma PaidWashHolds(s: State, k: nat)
    requires Holds(s) && IsJob(s, k)
    ensures s.records[k].service.fee.partnerEarningsPaise >= 0
    ensures Holds(State(s.records[k := Job(s.records[k].service.(captured := true))], s.ledger))
  {
    var v := s.records[k].service;
    RecordIs(s, k);
    PaidServiceHolds(v);
    ServiceChanges(s, k, v, v.(captured := true), []);
  }

  lemma DischargeFiles(s: State, k: nat, earnings: int, driver: UserId, whose: UserId)
    ensures var r := Discharge(s, k, TransferFor(earnings), driver, whose, Api);
      && r.Ok? && s.records <= r.value.records
      && Total(r.value.records, Issued(Washes)) == Total(s.records, Issued(Washes))
  {
    if earnings > 0 {
      var p := RouteDischargeEntries(earnings, whose);
      TransferWritten(earnings, whose);
      TotalAppend(s.records, Transfer(TransferRow(k, driver, whose, earnings, false, AddRow([], p))), Issued(Washes));
    }
  }

  function Transferred(transfer: Option<nat>): nat
  {
    if transfer.Some? then transfer.value else 0
  }

  /** What a discharge takes from its partner's side of the payable. */
  lemma ShareDischarged(s: State, k: nat, transfer: Option<nat>, driver: UserId, whose: UserId, writer: Writer)
    requires transfer.Some? ==> transfer.value > 0
    ensures Discharge(s, k, transfer, driver, whose, writer).Ok?
    ensures Books(Discharge(s, k, transfer, driver, whose, writer).value.ledger, Side(OwnerPayable, Some(whose)))
      == Books(s.ledger, Side(OwnerPayable, Some(whose))) + Transferred(transfer)
  {
    if transfer.Some? {
      var p := RouteDischargeEntries(transfer.value, whose);
      TransferWritten(transfer.value, whose);
      StampNothing(p);
      BooksAppend(s.ledger, p, Side(OwnerPayable, Some(whose)));
      NetOfLegs(RouteDischargeLegs(transfer.value, whose), Side(OwnerPayable, Some(whose)));
    }
  }

  // ----- Stray captures

  /** An orphaned capture re-opens the two accounts for the amount it issues, and discharges the owner's share. */
  lemma OrphanIsRefunded(s: State, k: nat)
    requires Holds(s) && IsOrphan(s, k)
    ensures var b, r := OrphanFor(s.records[k].booking), RefundOrphan(s, k);
      && r.Ok? && |r.value.records| > |s.records|
      && r.value.records[|s.records|] == Refund(OrphanRow(b, k)) && OrphanedBy(b) > 0
      && r.value.records[k] == Parking(b) && RefundOrphan(r.value, k) == r
      && Books(r.value.ledger, Whole(DriverReceivable)) == Books(s.ledger, Whole(DriverReceivable)) + OrphanedBy(b)
      && Books(r.value.ledger, Whole(RefundsPayable)) == Books(s.ledger, Whole(RefundsPayable)) - OrphanedBy(b)
  {
    var b := OrphanFor(s.records[k].booking);
    var reopened := OrphanOpened(s, k);
    OrphanDischarged(s, k, reopened);
    OpenedOn(s.ledger, b.driver, OrphanedBy(b), DriverReceivable);
    OpenedOn(s.ledger, b.driver, OrphanedBy(b), RefundsPayable);
    DischargedOn(reopened, k, b.transferPaise, b.driver, Worker, DriverReceivable);
    DischargedOn(reopened, k, b.transferPaise, b.driver, Worker, RefundsPayable);
  }

  lemma OpenedOn(ledger: seq<Posting>, driver: UserId, captured: nat, a: Account)
    ensures Books(ledger + [Stamp(OrphanLegs(captured), Some(driver))], Whole(a))
      == Books(ledger, Whole(a))
         + (if a == DriverReceivable then captured else if a == RefundsPayable then 0 - captured else 0)
  {
    BooksAppend(ledger, Stamp(OrphanLegs(captured), Some(driver)), Whole(a));
    StampKeepsAccounts(OrphanLegs(captured), Some(driver), Whole(a));
    OrphanNet(captured, Whole(a));
  }

  lemma DischargedOn(s: State, k: nat, transfer: Option<nat>, whose: UserId, writer: Writer, a: Account)
    requires a == DriverReceivable || a == RefundsPayable
    requires transfer.Some? ==> transfer.value > 0
    ensures Discharge(s, k, transfer, whose, whose, writer).Ok?
    ensures Books(Discharge(s, k, transfer, whose, whose, writer).value.ledger, Whole(a)) == Books(s.ledger, Whole(a))
  {
    if transfer.Some? {
      var p := RouteDischargeEntries(transfer.value, whose);
      TransferWritten(transfer.value, whose);
      StampNothing(p);
      BooksAppend(s.ledger, p, Whole(a));
      NetOfLegs(RouteDischargeLegs(transfer.value, whose), Whole(a));
    }
  }

  /**
   * The capture of a live booking reported once more, as the checkout and the webhook both do, is
   * taken for an orphan exactly when the driver has checked in by then. The booking goes on standing,
   * all of its capture goes back, and the owner's share is discharged a second time.
   */
  lemma CaptureReportedTwice(s: State, k: nat)
    requires Holds(s) && IsPaid(s, k)
    ensures var b, r := s.records[k].booking, RefundOrphan(s, k);
      && (r.Ok? <==> b.checkedIn)
      && (r.Ok? ==>
            && r.value.records[k] == Parking(b.(orphaned := true))
            && |r.value.records| > |s.records| && r.value.records[|s.records|].Refund?
            && r.value.records[|s.records|].refund.amountPaise == b.capturedPaise.value > 0
            && Books(r.value.ledger, Side(OwnerPayable, Some(b.driver)))
               == Books(s.ledger, Side(OwnerPayable, Some(b.driver))) + Transferred(b.transferPaise))
  {
    var b := s.records[k].booking;
    RecordIs(s, k);
    if b.checkedIn {
      OrphanIsRefunded(s, k);
      var reopened := OrphanOpened(s, k);
      OrphanDischarged(s, k, reopened);
      OwnerUntouched(s.ledger, b.driver, b.capturedPaise.value);
      ShareDischarged(reopened, k, b.transferPaise, b.driver, b.driver, Worker);
    }
  }

  lemma OwnerUntouched(ledger: seq<Posting>, driver: UserId, captured: nat)
    ensures Books(ledger + [Stamp(OrphanLegs(captured), Some(driver))], Side(OwnerPayable, Some(driver)))
      == Books(ledger, Side(OwnerPayable, Some(driver)))
  {
    BooksAppend(ledger, Stamp(OrphanLegs(captured), Some(driver)), Side(OwnerPayable, Some(driver)));
    StampedOrphan(captured, driver);
  }

  lemma StampedOrphan(captured: nat, driver: UserId)
    ensures Net(Stamp(OrphanLegs(captured), Some(driver)), Side(OwnerPayable, Some(driver))) == 0
  {
    OrphanNet(captured, Whole(OwnerPayable));
    StampedSideUpTo(OrphanLegs(captured), driver, OwnerPayable, Some(driver), |OrphanLegs(captured)|);
  }

  /** Cancelled after that, at whatever time, it is released as if never paid for: nothing is charged for it. */
  lemma OrphanedIsReleased(s: State, k: nat, startsAt: int, at: int, cancelledBy: CancelledBy)
    requires Holds(s) && IsLive(s, k, true) && s.records[k].booking.orphaned
    ensures var r := CancelBooking(s, k, startsAt, at, cancelledBy);
      && r.Ok? && |r.value.records| == |s.records| && IsParking(r.value, k)
      && (forall a :: Books(RowsOf(r.value.records[k]), Whole(a)) == 0)
  {
    RecordIs(s, k);
    ReleaseKeeps(s, k, Api);
    RecordIs(ReleaseBooking(s, k, Api).value, k);
    ReleasedRows(ReleaseBooking(s, k, Api).value.records[k].booking);
  }

  lemma ReleasedRows(b: Booking)
    requires BookingHolds(b) && b.phase.Released?
    ensures forall a :: Books(b.rows, Whole(a)) == 0
  {
    forall a
      ensures Books(b.rows, Whole(a)) == 0
    {
      assert Books(b.rows, Whole(a)) == StandingEffect(b.totals, b.phase, a)
        + RefundEffect(Taken(b.totals, b.refunds), Sum(b.refunds), a);
    }
  }

  // ----- Payouts

  /** A payout brings the payee's balance to zero and leaves every other; there is nothing more to pay. */
  lemma PayoutClearsBalance(
      s: State, payee: UserId, at: int, tcs: seq<DatedRate>, tds: seq<DatedRate>, other: UserId)
    requires PartnerBalance(s, payee) >= MINIMUM_PAYOUT_PAISE
    requires PayoutEntries(PartnerBalance(s, payee), payee, at, tcs, tds).Ok?
    ensures var r := PayPartner(s, payee, at, tcs, tds);
      && r.Ok?
      && PartnerBalance(r.value, payee) == 0
      && (other != payee ==> PartnerBalance(r.value, other) == PartnerBalance(s, other))
      && PayPartner(r.value, payee, at, tcs, tds) == r
  {
    PayoutIsWhole(s, payee, at, tcs, tds, payee);
    PayoutIsWhole(s, payee, at, tcs, tds, other);
  }

  lemma PayoutIsWhole(s: State, payee: UserId, at: int, tcs: seq<DatedRate>, tds: seq<DatedRate>, u: UserId)
    requires PartnerBalance(s, payee) >= MINIMUM_PAYOUT_PAISE
    requires PayoutEntries(PartnerBalance(s, payee), payee, at, tcs, tds).Ok?
    ensures var r := PayPartner(s, payee, at, tcs, tds);
      && r.Ok?
      && PartnerBalance(r.value, u) == PartnerBalance(s, u) - (if u == payee then PartnerBalance(s, payee) else 0)
  {
    var gross := PartnerBalance(s, payee);
    PayoutBalances(gross, payee, at, tcs, tds);
    var p := PayoutEntries(gross, payee, at, tcs, tds).value;
    PaidOutOn(gross, p.netPaise, p.tcsPaise, p.tdsPaise, payee, u);
    PaidOutFiled(s.records, payee, gross, p, u);
  }

  lemma PaidOutFiled(records: seq<Record>, payee: UserId, gross: nat, p: PayoutPosting, u: UserId)
    ensures Total(records + [Payout(PaidOut(payee, gross, p))], PartnerRows(u))
      == Total(records, PartnerRows(u)) + Net(p.entries, Side(OwnerPayable, Some(u)))
  {
    TotalAppend(records, Payout(PaidOut(payee, gross, p)), PartnerRows(u));
    FirstRow(p.entries, Side(OwnerPayable, Some(u)));
  }

  function PaidOut(payee: UserId, gross: nat, p: PayoutPosting): PayoutRow
  {
    PayoutRow(payee, gross, p.tcsPaise, p.tdsPaise, p.netPaise, OnItsWay, AddRow([], p.entries))
  }

  lemma PaidOutOn(gross: nat, net: nat, tcs: nat, tds: nat, payee: UserId, u: UserId)
    requires tcs + tds + net == gross
    ensures Net(Compose(PayoutLegs(gross, net, tcs, tds, payee)), Side(OwnerPayable, Some(u)))
      == if u == payee then gross else 0
  {
    NetOfLegs(PayoutLegs(gross, net, tcs, tds, payee), Side(OwnerPayable, Some(u)));
  }

  /** What a payout, and its clearing once it arrived, did to a column. */
  function PayoutEffect(p: PayoutRow, c: Column): int
  {
    Net(PayoutPaid(p), c) + (if p.status.Arrived? then Net(SettlementClearedEntries(p.netPaise), c) else 0)
  }

  /**
   * Whenever a payout fails, whatever was posted in between, every account and every counterparty's
   * side loses exactly what the payout did to it, clearing included; and it fails only once.
   */
  lemma FailedPayoutRestores(s: State, k: nat, returned: bool, again: bool, c: Column)
    requires Holds(s) && IsPayout(s, k, if returned then Arrived else OnItsWay)
    ensures var p, r := s.records[k].payout, PayoutFailed(s, k, returned);
      && r.Ok?
      && Books(r.value.ledger, c) == Books(s.ledger, c) - PayoutEffect(p, c)
      && PayoutFailed(r.value, k, again) == r
  {
    RecordIs(s, k);
    FailedHolds(s.records[k].payout);
    ReversalTakesBack(s.ledger, s.records[k].payout, c);
  }

  lemma ReversalTakesBack(ledger: seq<Posting>, p: PayoutRow, c: Column)
    requires PayoutHolds(p) && !p.status.Failed?
    ensures Books(ledger + [Stamp(ReverseEntries(Flatten(p.rows), "payout failed"), None)], c)
      == Books(ledger, c) - PayoutEffect(p, c)
  {
    var reversal := ReverseEntries(Flatten(p.rows), "payout failed");
    StampNothing(reversal);
    BooksAppend(ledger, reversal, c);
    FlattenNet(p.rows, c);
    ReverseRestores(Flatten(p.rows), "payout failed", c);
    assert Books(p.rows, c) == PayoutEffect(p, c);
  }
}
