/**
 * What each step leaves in the records and on every account, from any state that holds, said in
 * terms of what was asked for and not of how it is written.
 */
module LedgerOutcomes {
  import opened Outcomes
  import opened Sums
  import opened Quotes
  import opened RefundPolicy
  import opened Columns
  import opened LedgerEntries
  import opened LedgerEffects
  import opened Ledger
  import opened LifeCycles
  import opened PartialRefunds
  import opened BookingRows
  import opened LedgerRecords
  import opened LedgerMachine
  import opened LedgerSteps
  import opened LedgerCases

  /** Every record but the one at `k` is as it was; `added` new ones follow. */
  predicate OnlyAt(s: State, r: State, k: nat, added: nat)
  {
    && k < |s.records| && |r.records| == |s.records| + added
    && forall j :: 0 <= j < |s.records| && j != k ==> r.records[j] == s.records[j]
  }

  /** What a step did to a column. */
  function Moved(s: State, r: State, c: Column): int
  {
    Books(r.ledger, c) - Books(s.ledger, c)
  }

  /** The ledger moves by what the changed record's rows and the added ones say. */
  lemma MovedByRecords(s: State, r: State, k: nat, added: seq<Record>, c: Column)
    requires Holds(s) && Holds(r) && k < |s.records| && k < |r.records| && |added| <= 1
    requires r.records == s.records[k := r.records[k]] + added
    ensures Moved(s, r, c) == Books(RowsOf(r.records[k]), c) - Books(RowsOf(s.records[k]), c)
      + (if |added| == 1 then Books(RowsOf(added[0]), c) else 0)
  {
    TotalUpdate(s.records, k, r.records[k], OnBooks(c));
    if |added| == 1 {
      assert added == [added[0]];
      TotalAppend(s.records[k := r.records[k]], added[0], OnBooks(c));
    } else {
      assert r.records == s.records[k := r.records[k]];
    }
  }

  lemma MovedByAdding(s: State, r: State, x: Record, c: Column)
    requires Holds(s) && Holds(r) && r.records == s.records + [x]
    ensures Moved(s, r, c) == Books(RowsOf(x), c)
  {
    TotalAppend(s.records, x, OnBooks(c));
  }

  // ----- Bookings

  /** What the parts of a price do to an account: the driver's debt, and who it is apportioned to. */
  function PriceOn(driver: int, owner: int, platform: int, gst: int, waiver: int, a: Account): int
  {
    match a
    case DriverReceivable => driver
    case OwnerPayable => 0 - owner
    case PlatformRevenue => 0 - platform
    case GstPayable => 0 - gst
    case PromoExpense => waiver
    case _ => 0
  }

  /** A quoted price is owed by the driver and apportioned as quoted, and the booking waits for its capture. */
  lemma CreationOpens(s: State, driver: UserId, input: FeeInput)
    requires Holds(s) && CreateBooking(s, driver, input).Ok?
    ensures MakeQuote(input).Ok?
    ensures var q, r := MakeQuote(input).value, CreateBooking(s, driver, input).value;
      && |r.records| == |s.records| + 1 && s.records <= r.records && IsLive(r, |s.records|, false)
      && var b := r.records[|s.records|].booking;
      && b.driver == driver && b.totals.driverTotalPaise == q.driverTotalPaise
      && b.totals.ownerEarningsPaise == q.ownerEarningsPaise
      && b.refunds == [] && !b.checkedIn && !b.orphaned
      && forall a :: Moved(s, r, Whole(a)) == PriceOn(
           q.driverTotalPaise, q.ownerEarningsPaise, q.fee.parkeaseFeePaise, q.gstPaise, q.commissionWaiverPaise, a)
  {
    var q, r := MakeQuote(input).value, CreateBooking(s, driver, input).value;
    CreateKeeps(s, driver, input);
    forall a
      ensures Moved(s, r, Whole(a)) == PriceOn(
        q.driverTotalPaise, q.ownerEarningsPaise, q.fee.parkeaseFeePaise, q.gstPaise, q.commissionWaiverPaise, a)
    {
      OpenedMoves(s, r, q, a);
    }
  }

  lemma OpenedMoves(s: State, r: State, q: Quote, a: Account)
    requires Holds(s) && Holds(r) && |r.records| == |s.records| + 1 && s.records <= r.records
    requires IsLive(r, |s.records|, false) && r.records[|s.records|].booking.totals == TotalsOf(q)
    ensures Moved(s, r, Whole(a)) == PriceOn(
      q.driverTotalPaise, q.ownerEarningsPaise, q.fee.parkeaseFeePaise, q.gstPaise, q.commissionWaiverPaise, a)
  {
    var x := r.records[|s.records|];
    assert r.records == s.records + [x];
    MovedByAdding(s, r, x, Whole(a));
    RecordIs(r, |s.records|);
    LiveRow(x.booking, a);
  }

  /** An extension adds its quote to what the booking stands for; what was captured stays. */
  lemma ExtensionAdds(s: State, k: nat, input: FeeInput)
    requires Holds(s) && ExtendBooking(s, k, input).Ok?
    ensures MakeQuote(input).Ok? && IsLive(s, k, true)
    ensures var q, r := MakeQuote(input).value, ExtendBooking(s, k, input).value;
      && OnlyAt(s, r, k, 0) && IsLive(r, k, true)
      && var b, after := s.records[k].booking, r.records[k].booking;
      && after.totals.driverTotalPaise == b.totals.driverTotalPaise + q.driverTotalPaise
      && after.totals.ownerEarningsPaise == b.totals.ownerEarningsPaise + q.ownerEarningsPaise
      && after.capturedPaise == b.capturedPaise && after.transferPaise == b.transferPaise
      && after.refunds == b.refunds
      && forall a :: Moved(s, r, Whole(a)) == PriceOn(
           q.driverTotalPaise, q.ownerEarningsPaise, q.fee.parkeaseFeePaise, q.gstPaise, q.commissionWaiverPaise, a)
  {
    var q, r := MakeQuote(input).value, ExtendBooking(s, k, input).value;
    ExtendedTo(s, k, input);
    ExtendKeeps(s, k, input);
    forall a
      ensures Moved(s, r, Whole(a)) == PriceOn(
        q.driverTotalPaise, q.ownerEarningsPaise, q.fee.parkeaseFeePaise, q.gstPaise, q.commissionWaiverPaise, a)
    {
      LiveMoved(s, r, k, a);
      PriceAdds(s.records[k].booking.totals, q, a);
    }
  }

  lemma PriceAdds(t: ReceivableTotals, q: Quote, a: Account)
    ensures BookingEffect(t.Plus(TotalsOf(q)), a) - BookingEffect(t, a) == PriceOn(
      q.driverTotalPaise, q.ownerEarningsPaise, q.fee.parkeaseFeePaise, q.gstPaise, q.commissionWaiverPaise, a)
  {
  }

  lemma ExtendedTo(s: State, k: nat, input: FeeInput)
    requires Holds(s) && ExtendBooking(s, k, input).Ok?
    ensures MakeQuote(input).Ok? && IsLive(s, k, true)
    ensures var b, r := s.records[k].booking, ExtendBooking(s, k, input).value;
      && OnlyAt(s, r, k, 0) && r.records[k].Parking? && r.records[k].booking.phase == b.phase
      && r.records[k].booking.totals == b.totals.Plus(TotalsOf(MakeQuote(input).value))
      && r.records[k].booking.capturedPaise == b.capturedPaise
      && r.records[k].booking.transferPaise == b.transferPaise && r.records[k].booking.refunds == b.refunds
  {
  }

  lemma LiveMoved(s: State, r: State, k: nat, a: Account)
    requires Holds(s) && Holds(r) && OnlyAt(s, r, k, 0)
    requires IsParking(s, k) && s.records[k].booking.phase.Live?
    requires IsParking(r, k) && r.records[k].booking.phase.Live?
    ensures Moved(s, r, Whole(a))
      == BookingEffect(r.records[k].booking.totals, a) - BookingEffect(s.records[k].booking.totals, a)
  {
    assert r.records == s.records[k := r.records[k]] + [];
    MovedByRecords(s, r, k, [], Whole(a));
    RecordIs(s, k);
    RecordIs(r, k);
    LiveRow(s.records[k].booking, a);
    LiveRow(r.records[k].booking, a);
  }

  /**
   * A capture discharges exactly the owner's earnings: the owner is owed that much less, as much is
   * on its way, and one transfer of it is filed; nothing at all when nothing was earned.
   */
  lemma CaptureDischargesEarnings(s: State, k: nat)
    requires Holds(s) && IsLive(s, k, false)
    ensures var b, r := s.records[k].booking, CaptureBooking(s, k);
      var earned := b.totals.ownerEarningsPaise;
      && r.Ok? && earned >= 0 && OnlyAt(s, r.value, k, if earned > 0 then 1 else 0) && IsPaid(r.value, k)
      && r.value.records[k].booking == b.(capturedPaise := Some(b.totals.driverTotalPaise),
                                         transferPaise := if earned > 0 then Some(earned) else None)
      && (earned > 0 ==> IsTransfer(r.value, |s.records|, k, earned, b.driver, b.driver))
      && DischargesOnly(s, r.value, earned, b.driver)
  {
    var b := s.records[k].booking;
    var earned := b.totals.ownerEarningsPaise;
    RecordIs(s, k);
    PaidKeeps(s, k);
    CaptureKeeps(s, k);
    var paid := State(s.records[k := Parking(PaidFor(b))], s.ledger);
    EarningsDischarged(paid, k, earned, b.driver, b.driver, Api);
  }

  /** A transfer of an amount to `whose`, of one payment and on its way, stands at `k`. */
  predicate IsTransfer(s: State, k: nat, paidFor: nat, amount: int, driver: UserId, whose: UserId)
  {
    && k < |s.records| && s.records[k].Transfer?
    && var t := s.records[k].transfer;
       t.paidFor == paidFor && t.amountPaise == amount && t.driver == driver && t.whose == whose && !t.cleared
  }

  /** What a discharge does, wherever it happens: to the partner's side, to each account, and on file. */
  lemma EarningsDischarged(s: State, k: nat, earned: int, driver: UserId, whose: UserId, writer: Writer)
    requires Holds(s)
    ensures var r := Discharge(s, k, TransferFor(earned), driver, whose, writer);
      && r.Ok? && s.records <= r.value.records
      && |r.value.records| == |s.records| + (if earned > 0 then 1 else 0)
      && (earned > 0 ==> IsTransfer(r.value, |s.records|, k, earned, driver, whose))
      && (earned >= 0 ==> DischargesOnly(s, r.value, earned, whose))
  {
    if earned > 0 {
      TransferWritten(earned, whose);
      StampNothing(RouteDischargeEntries(earned, whose));
      EarningsMoved(s, Discharge(s, k, TransferFor(earned), driver, whose, writer).value, earned, whose);
    }
  }

  /** The partner is owed `earned` less, as much is on its way, and no other account moves. */
  ghost predicate DischargesOnly(s: State, r: State, earned: int, whose: UserId)
  {
    && Moved(s, r, Side(OwnerPayable, Some(whose))) == earned
    && forall a :: Moved(s, r, Whole(a))
         == if a == OwnerPayable then earned else if a == SettlementClearing then 0 - earned else 0
  }

  lemma EarningsMoved(s: State, r: State, earned: nat, whose: UserId)
    requires r.ledger == s.ledger + [RouteDischargeEntries(earned, whose)]
    ensures DischargesOnly(s, r, earned, whose)
  {
    DischargeOn(s.ledger, earned, whose, Side(OwnerPayable, Some(whose)));
    forall a
      ensures Moved(s, r, Whole(a))
        == if a == OwnerPayable then earned else if a == SettlementClearing then 0 - earned else 0
    {
      DischargeOn(s.ledger, earned, whose, Whole(a));
    }
  }

  lemma DischargeOn(ledger: seq<Posting>, earned: nat, whose: UserId, c: Column)
    ensures Books(ledger + [RouteDischargeEntries(earned, whose)], c) == Books(ledger, c)
      + Effect(LegOf(OwnerPayable, Debit, earned, "route transfer at capture", whose), c)
      + Effect(Leg(SettlementClearing, Credit, earned, "route transfer at capture"), c)
  {
    BooksAppend(ledger, RouteDischargeEntries(earned, whose), c);
    NetOfLegs(RouteDischargeLegs(earned, whose), c);
  }

  /**
   * Where a booking stands decides which steps are open to it: waiting, it can be captured or expire;
   * captured, it can be extended and cancelled, checked in once, and completed after that; ended, none.
   */
  lemma StepsByStatus(s: State, k: nat, input: FeeInput, startsAt: int, at: int, cancelledBy: CancelledBy)
    requires Holds(s) && IsParking(s, k) && MakeQuote(input).Ok?
    ensures var b := s.records[k].booking;
      var waiting, active := b.phase.Live? && b.capturedPaise.None?, b.phase.Live? && b.capturedPaise.Some?;
      && (CaptureBooking(s, k).Ok? <==> waiting)
      && (ExpireBooking(s, k).Ok? <==> waiting)
      && (CheckInBooking(s, k).Ok? <==> active && !b.checkedIn)
      && (CompleteBooking(s, k).Ok? <==> active && b.checkedIn)
      && (ExtendBooking(s, k, input).Ok? <==> active)
      && (CancelBooking(s, k, startsAt, at, cancelledBy).Ok? ==> active)
  {
    RecordIs(s, k);
    if IsLive(s, k, false) {
      CaptureDischargesEarnings(s, k);
      ReleaseKeeps(s, k, Worker);
    }
    QuoteTotalsWellFormed(input);
    BookingWritten(TotalsOf(MakeQuote(input).value), "booking extended");
  }

  /** Checking in and completing change the booking's status and nothing else. */
  lemma StatusChangesAlone(s: State, k: nat)
    requires CheckInBooking(s, k).Ok? || CompleteBooking(s, k).Ok?
    ensures var b := s.records[k].booking;
      && (CheckInBooking(s, k).Ok? ==>
            CheckInBooking(s, k).value == State(s.records[k := Parking(b.(checkedIn := true))], s.ledger))
      && (CompleteBooking(s, k).Ok? ==>
            CompleteBooking(s, k).value == State(s.records[k := Parking(b.(phase := Over))], s.ledger))
  {
  }

  // ----- What refunds take back

  /** What a step took from the space owner, whose rows are on the driver's side. */
  function OwnerGave(s: State, r: State, driver: UserId): int
  {
    Moved(s, r, Side(OwnerPayable, Some(driver)))
  }

  /** What is to be taken back of a share: no more than was transferred, and nothing of nothing. */
  function CappedShare(share: int, transfer: Option<nat>): Option<int>
  {
    if transfer.None? || share <= 0 then None
    else Some(if share <= transfer.value then share else transfer.value)
  }

  /** A refund of `amount`, asked for and not yet sent, taking back an amount or nothing, stands at `k`. */
  predicate IsAskedFor(s: State, k: nat, amount: int, origin: Origin, driver: UserId, takeBack: Option<int>)
  {
    && k < |s.records| && s.records[k].Refund?
    && var f := s.records[k].refund;
       && f.amountPaise == amount && f.origin == origin && f.driver == f.whose == driver
       && (if takeBack.None? then f.takeBackPaise.None?
           else f.takeBackPaise.Some? && f.takeBackPaise.value == takeBack.value)
       && f.settledPaise.None? && f.takenBackPaise.None? && f.rows == []
  }

  /**
   * The booking at `k` decided to refund `amount` more, and nothing else changed: exactly one refund
   * was asked for, unless the amount is nothing, to be taken back of what the owner gave.
   */
  predicate RefundsBooking(s: State, r: State, k: nat, amount: int)
  {
    && OnlyAt(s, r, k, if amount > 0 then 1 else 0) && IsParking(s, k) && IsParking(r, k)
    && var b, after := s.records[k].booking, r.records[k].booking;
       && after.totals == b.totals && after.driver == b.driver
       && after.capturedPaise == b.capturedPaise && after.transferPaise == b.transferPaise
       && after.orphaned == b.orphaned && after.checkedIn == b.checkedIn
       && DecidedBy(after) == DecidedBy(b) + amount
       && (amount > 0 ==> IsAskedFor(r, |s.records|, amount, Origin(Bookings, k), b.driver,
                                     CappedShare(OwnerGave(s, r, b.driver), b.transferPaise)))
  }

  lemma ShareOfDebits(legs: seq<Entry>)
    requires Unowned(legs)
    requires forall i :: 0 <= i < |legs| && legs[i].account == OwnerPayable ==> legs[i].direction == Debit
    ensures var p := Compose(legs); Unowned(p) && PartnerShareOf(p) == Net(p, Whole(OwnerPayable))
  {
    UnownedCompose(legs);
    OnlyDebits(legs);
    ShareIsNet(Compose(legs));
  }

  /** What any refund posting debits of the owner is the share it says it takes. */
  lemma RefundSharesAreDebits(t: ReceivableTotals, o: RefundOutcome, d: string)
    requires RefundEntries(t, o, d).Ok?
    ensures var p := RefundEntries(t, o, d).value; Unowned(p) && PartnerShareOf(p) == Net(p, Whole(OwnerPayable))
  {
    match o.tier
    case NoRefund =>
    case BeforeStart => ShareOfDebits(FullReversalLegs(t, o.refundPaise, o.retainedPaise, d));
    case OwnerCancelled =>
      ShareOfDebits(FullReversalLegs(t, o.refundPaise, o.retainedPaise, d) + GoodwillLegs(o.goodwillPaise, d));
    case ActiveGrace => ProportionalShare(t, o.refundPaise, d);
  }

  lemma ProportionalShare(t: ReceivableTotals, refund: nat, d: string)
    requires ProportionalRefundEntries(t, refund, d).Ok?
    ensures var p := ProportionalRefundEntries(t, refund, d).value;
      Unowned(p) && PartnerShareOf(p) == Net(p, Whole(OwnerPayable))
  {
    ShareOfDebits(ProportionalRefundLegs(SplitRefund(t, refund).value, refund, d));
  }

  /** Posting it on the owner's account is what the owner gives. */
  lemma ShareIsGiven(ledger: seq<Posting>, driver: UserId, p: Posting)
    requires Unowned(p) && Postable(p) && PartnerShareOf(p) == Net(p, Whole(OwnerPayable))
    ensures Books(AddRow(ledger, Row(driver, p)), Side(OwnerPayable, Some(driver)))
      == Books(ledger, Side(OwnerPayable, Some(driver))) + PartnerShareOf(p)
  {
    Posted(ledger, p, Some(driver), Side(OwnerPayable, Some(driver)));
    StampedSideUpTo(p, driver, OwnerPayable, Some(driver), |p|);
  }

  /** A booking's records after a refund posting `p`, issued with its share. */
  lemma IssuedRefund(s: State, r: State, k: nat, after: Booking, p: Posting, amount: nat)
    requires IsParking(s, k) && Unowned(p) && Postable(p) && PartnerShareOf(p) == Net(p, Whole(OwnerPayable))
    requires var b := s.records[k].booking;
      && after.totals == b.totals && after.driver == b.driver
      && after.capturedPaise == b.capturedPaise && after.transferPaise == b.transferPaise
      && after.orphaned == b.orphaned && after.checkedIn == b.checkedIn
      && DecidedBy(after) == DecidedBy(b) + amount
      && r.ledger == AddRow(s.ledger, Row(b.driver, p))
      && r.records == Issue(s.records[k := Parking(after)], amount, Origin(Bookings, k), b.driver, b.driver,
                            TakeBackFor(p, b.transferPaise))
    ensures RefundsBooking(s, r, k, amount)
  {
    ShareIsGiven(s.ledger, s.records[k].booking.driver, p);
  }

  // ----- Cancellations

  /**
   * The policy a driver can read: everything when somebody else cancels, all but ₹10 before the start,
   * half rounded up for thirty minutes after it, and then nothing.
   */
  predicate ByPolicy(refund: int, total: int, startsAt: int, at: int, cancelledBy: CancelledBy)
  {
    if cancelledBy != Driver then refund == total
    else if at < startsAt then refund == if total < 1_000 then 0 else total - 1_000
    else if at < startsAt + 1_800_000 then 0 <= 2 * refund - total <= 1
    else refund == 0
  }

  function GoodwillOf(cancelledBy: CancelledBy): nat
  {
    if cancelledBy == Driver then 0 else 5_000
  }

  lemma CancelledTo(s: State, k: nat, startsAt: int, at: int, cancelledBy: CancelledBy)
    returns (o: RefundOutcome, p: Posting)
    requires Holds(s) && IsPaid(s, k) && CancelBooking(s, k, startsAt, at, cancelledBy).Ok?
    ensures var b, r := s.records[k].booking, CancelBooking(s, k, startsAt, at, cancelledBy).value;
      && ResolveRefund(b.totals.driverTotalPaise, startsAt, at, cancelledBy) == Ok(o)
      && RefundEntries(b.totals, o, "refund") == Ok(p) && Postable(p)
      && Net(p, Whole(RefundsPayable)) == -(o.refundPaise + o.goodwillPaise)
      && r.ledger == AddRow(s.ledger, Row(b.driver, p))
      && r.records == Issue(s.records[k := Parking(Cancelled(b, o, p))], o.refundPaise, Origin(Bookings, k),
                            b.driver, b.driver, TakeBackFor(p, b.transferPaise))
  {
    var b := s.records[k].booking;
    RecordIs(s, k);
    CancellationBalances(b.totals, startsAt, at, cancelledBy, "refund");
    o := ResolveRefund(b.totals.driverTotalPaise, startsAt, at, cancelledBy).value;
    p := RefundEntries(b.totals, o, "refund").value;
  }

  lemma OutcomeByPolicy(total: nat, startsAt: int, at: int, cancelledBy: CancelledBy)
    ensures var o := ResolveRefund(total, startsAt, at, cancelledBy);
      && o.Ok? && ByPolicy(o.value.refundPaise, total, startsAt, at, cancelledBy)
      && o.value.goodwillPaise == GoodwillOf(cancelledBy)
  {
    RefundByClock(total, startsAt, at);
  }

  /**
   * Whenever and by whomever a paid booking is cancelled, it decides what the policy gives, asks the
   * gateway for exactly that, if anything, and owes the driver that and the goodwill.
   */
  lemma CancellationRefunds(s: State, k: nat, startsAt: int, at: int, cancelledBy: CancelledBy)
    requires Holds(s) && IsPaid(s, k) && CancelBooking(s, k, startsAt, at, cancelledBy).Ok?
    ensures var b, r := s.records[k].booking, CancelBooking(s, k, startsAt, at, cancelledBy).value;
      && IsParking(r, k)
      && var refund := DecidedBy(r.records[k].booking) - DecidedBy(b);
      && ByPolicy(refund, b.totals.driverTotalPaise, startsAt, at, cancelledBy)
      && RefundsBooking(s, r, k, refund)
      && Moved(s, r, Whole(RefundsPayable)) == 0 - refund - GoodwillOf(cancelledBy)
  {
    var b, r := s.records[k].booking, CancelBooking(s, k, startsAt, at, cancelledBy).value;
    var o, p := CancelledTo(s, k, startsAt, at, cancelledBy);
    RecordIs(s, k);
    OutcomeByPolicy(b.totals.driverTotalPaise, startsAt, at, cancelledBy);
    DecidedByCancelling(b, startsAt, at, cancelledBy, p);
    RefundSharesAreDebits(b.totals, o, "refund");
    IssuedRefund(s, r, k, Cancelled(b, o, p), p, o.refundPaise);
    Posted(s.ledger, p, Some(b.driver), Whole(RefundsPayable));
    StampKeepsAccounts(p, Some(b.driver), Whole(RefundsPayable));
  }

  /** What a reversal in full does to an account: every credit is given back, and a part of the price kept. */
  function ReversalOn(t: ReceivableTotals, refund: int, goodwill: int, a: Account): int
  {
    match a
    case OwnerPayable => t.ownerEarningsPaise
    case PlatformRevenue => t.parkeaseFeePaise - (t.driverTotalPaise - refund)
    case GstPayable => t.gstPaise
    case PromoExpense => goodwill - t.commissionWaiverPaise
    case RefundsPayable => 0 - refund - goodwill
    case _ => 0
  }

  /**
   * What a partial refund does: it is owed to the driver exactly, each credit gives its share to within
   * 2/3 of a paisa, the owner's to within 7/6, and the subsidy is what is left.
   */
  ghost predicate GivesShares(s: State, r: State, t: ReceivableTotals, refund: int)
  {
    var total := t.driverTotalPaise;
    && Moved(s, r, Whole(RefundsPayable)) == 0 - refund
    && DriftWithin(refund, t.parkeaseFeePaise, total, Moved(s, r, Whole(PlatformRevenue)), 1, 2, 3)
    && DriftWithin(refund, t.gstPaise, total, Moved(s, r, Whole(GstPayable)), 1, 2, 3)
    && DriftWithin(refund, t.ownerEarningsPaise, total, Moved(s, r, Whole(OwnerPayable)), 1, 7, 6)
    && Moved(s, r, Whole(OwnerPayable)) + Moved(s, r, Whole(PlatformRevenue)) + Moved(s, r, Whole(GstPayable))
       + Moved(s, r, Whole(PromoExpense)) == refund
    && forall a :: a in {DriverReceivable, TcsPayable, TdsPayable, GatewayFees, SettlementClearing} ==>
         Moved(s, r, Whole(a)) == 0
  }

  /** One more refund's split, and how fair it is. */
  lemma FairSplit(t: ReceivableTotals, refunds: seq<nat>, refund: nat) returns (split: RefundSplit)
    requires t.WellFormed() && t.driverTotalPaise > 0
    ensures Taken(t, refunds + [refund]) == Add(Taken(t, refunds), split)
    ensures split.owner + split.fee + split.gst == refund
    ensures SplitDriftWithin(t, refund, split, 1) && OwnerDriftWithin(t, refund, split, 1)
  {
    split := SplitOrNothing(t, refund);
    TakenAppend(t, refunds, refund);
    OneRefundDrift(t, refund);
    OwnerDrift(t, refund, split, 1);
  }

  /** The rows of a booking that stands for the same, but for one more refund. */
  lemma RowsAfterRefund(b: Booking, after: Booking, refund: nat, split: RefundSplit, a: Account)
    requires BookingHolds(b) && BookingHolds(after) && after.totals == b.totals
    requires after.refunds == b.refunds + [refund]
    requires after.phase == b.phase || (b.phase.Live? && after.phase.Over?)
    requires Taken(b.totals, b.refunds + [refund]) == Add(Taken(b.totals, b.refunds), split)
    ensures Books(after.rows, Whole(a)) - Books(b.rows, Whole(a)) == RefundEffect(split, refund, a)
  {
    SumAppend(b.refunds, refund);
    EffectsAdd(Taken(b.totals, b.refunds), Sum(b.refunds), split, refund, a);
    RowsAre(b, a);
    RowsAre(after, a);
  }

  lemma RowsAre(b: Booking, a: Account)
    requires BookingHolds(b)
    ensures Books(b.rows, Whole(a)) == StandingEffect(b.totals, b.phase, a)
      + RefundEffect(Taken(b.totals, b.refunds), Sum(b.refunds), a)
  {
  }

  lemma MovedByRefund(s: State, r: State, k: nat, amount: nat, c: Column)
    requires Holds(s) && Holds(r) && RefundsBooking(s, r, k, amount)
    ensures Moved(s, r, c) == Books(r.records[k].booking.rows, c) - Books(s.records[k].booking.rows, c)
  {
    var added := r.records[|s.records|..];
    assert r.records == s.records[k := r.records[k]] + added;
    MovedByRecords(s, r, k, added, c);
  }

  lemma ProportionallyGiven(s: State, r: State, k: nat, refund: nat)
    requires Holds(s) && Holds(r) && RefundsBooking(s, r, k, refund)
    requires var b, after := s.records[k].booking, r.records[k].booking;
      && after.refunds == b.refunds + [refund]
      && (after.phase == b.phase || (b.phase.Live? && after.phase.Over?))
    ensures GivesShares(s, r, s.records[k].booking.totals, refund)
  {
    var b, after := s.records[k].booking, r.records[k].booking;
    RecordIs(s, k);
    RecordIs(r, k);
    var split := FairSplit(b.totals, b.refunds, refund);
    forall a
      ensures Moved(s, r, Whole(a)) == RefundEffect(split, refund, a)
    {
      MovedByRefund(s, r, k, refund, Whole(a));
      RowsAfterRefund(b, after, refund, split, a);
    }
    SharesOfSplit(s, r, b.totals, refund, split);
  }

  lemma SharesOfSplit(s: State, r: State, t: ReceivableTotals, refund: nat, split: RefundSplit)
    requires forall a :: Moved(s, r, Whole(a)) == RefundEffect(split, refund, a)
    requires split.owner + split.fee + split.gst == refund
    requires SplitDriftWithin(t, refund, split, 1) && OwnerDriftWithin(t, refund, split, 1)
    ensures GivesShares(s, r, t, refund)
  {
    forall a | a in {DriverReceivable, TcsPayable, TdsPayable, GatewayFees, SettlementClearing}
      ensures Moved(s, r, Whole(a)) == 0
    {
      assert Moved(s, r, Whole(a)) == RefundEffect(split, refund, a);
    }
    assert Moved(s, r, Whole(RefundsPayable)) == RefundEffect(split, refund, RefundsPayable);
    assert Moved(s, r, Whole(PlatformRevenue)) == RefundEffect(split, refund, PlatformRevenue);
    assert Moved(s, r, Whole(GstPayable)) == RefundEffect(split, refund, GstPayable);
    assert Moved(s, r, Whole(OwnerPayable)) == RefundEffect(split, refund, OwnerPayable);
    assert Moved(s, r, Whole(PromoExpense)) == RefundEffect(split, refund, PromoExpense);
  }

  /**
   * What a cancellation moved: before the start, or by the owner or an admin, every credit is given
   * back and what was not refunded is kept; in the grace window shares are given; later, nothing.
   */
  ghost predicate MovedByClock(s: State, r: State, k: nat, startsAt: int, at: int, cancelledBy: CancelledBy)
  {
    && IsParking(s, k) && IsParking(r, k) && !r.records[k].booking.phase.Live?
    && var t := s.records[k].booking.totals;
       var refund := DecidedBy(r.records[k].booking) - DecidedBy(s.records[k].booking);
       if cancelledBy != Driver || at < startsAt then
         forall a :: Moved(s, r, Whole(a)) == ReversalOn(t, refund, GoodwillOf(cancelledBy), a)
       else if at < startsAt + ACTIVE_GRACE_MS then GivesShares(s, r, t, refund)
       else r.ledger == s.ledger
  }

  /** On every account a cancellation moves exactly that. */
  lemma CancellationMoves(s: State, k: nat, startsAt: int, at: int, cancelledBy: CancelledBy)
    requires Holds(s) && IsPaid(s, k) && CancelBooking(s, k, startsAt, at, cancelledBy).Ok?
    ensures MovedByClock(
        s, CancelBooking(s, k, startsAt, at, cancelledBy).value, k, startsAt, at, cancelledBy)
  {
    var r, o, p := CancelledAs(s, k, startsAt, at, cancelledBy);
    CancelledMoves(s, r, k, o, p);
    ByTier(s, r, k, o, p, startsAt, at, cancelledBy);
  }

  lemma ByTier(
      s: State, r: State, k: nat, o: RefundOutcome, p: Posting, startsAt: int, at: int, cancelledBy: CancelledBy)
    requires IsPaid(s, k) && IsParking(r, k) && r.records[k].booking == Cancelled(s.records[k].booking, o, p)
    requires DecidedBy(r.records[k].booking) - DecidedBy(s.records[k].booking) == o.refundPaise
    requires var t := s.records[k].booking.totals;
      match o.tier
      case NoRefund => r.ledger == s.ledger
      case ActiveGrace => GivesShares(s, r, t, o.refundPaise)
      case _ => forall a :: Moved(s, r, Whole(a)) == ReversalOn(t, o.refundPaise, o.goodwillPaise, a)
    requires o.tier.NoRefund? <==> cancelledBy == Driver && startsAt + ACTIVE_GRACE_MS <= at
    requires o.tier.ActiveGrace? <==> cancelledBy == Driver && startsAt <= at < startsAt + ACTIVE_GRACE_MS
    requires o.goodwillPaise == GoodwillOf(cancelledBy)
    ensures MovedByClock(s, r, k, startsAt, at, cancelledBy)
  {
  }

  lemma CancelledAs(s: State, k: nat, startsAt: int, at: int, cancelledBy: CancelledBy)
    returns (r: State, o: RefundOutcome, p: Posting)
    requires Holds(s) && IsPaid(s, k) && CancelBooking(s, k, startsAt, at, cancelledBy).Ok?
    ensures CancelBooking(s, k, startsAt, at, cancelledBy) == Ok(r) && Holds(r) && IsParking(r, k)
    ensures var b := s.records[k].booking;
      && r.records[k].booking == Cancelled(b, o, p) && r.ledger == AddRow(s.ledger, Row(b.driver, p))
      && RefundsBooking(s, r, k, DecidedBy(r.records[k].booking) - DecidedBy(b))
    ensures o.tier.NoRefund? <==> cancelledBy == Driver && startsAt + ACTIVE_GRACE_MS <= at
    ensures o.tier.ActiveGrace? <==> cancelledBy == Driver && startsAt <= at < startsAt + ACTIVE_GRACE_MS
    ensures o.goodwillPaise == GoodwillOf(cancelledBy) && (o.tier.NoRefund? ==> o.refundPaise == 0 && p == [])
  {
    r := CancelBooking(s, k, startsAt, at, cancelledBy).value;
    o, p := CancelledTo(s, k, startsAt, at, cancelledBy);
    CancelKeeps(s, k, startsAt, at, cancelledBy);
    CancellationRefunds(s, k, startsAt, at, cancelledBy);
  }

  lemma CancelledMoves(s: State, r: State, k: nat, o: RefundOutcome, p: Posting)
    requires Holds(s) && Holds(r) && IsPaid(s, k) && IsParking(r, k)
    requires r.records[k].booking == Cancelled(s.records[k].booking, o, p)
    requires RefundsBooking(s, r, k, DecidedBy(r.records[k].booking) - DecidedBy(s.records[k].booking))
    requires o.tier.NoRefund? ==> o.refundPaise == 0 && p == []
    requires r.ledger == AddRow(s.ledger, Row(s.records[k].booking.driver, p))
    ensures var t := s.records[k].booking.totals;
      && DecidedBy(r.records[k].booking) - DecidedBy(s.records[k].booking) == o.refundPaise
      && (match o.tier
          case NoRefund => r.ledger == s.ledger
          case ActiveGrace => GivesShares(s, r, t, o.refundPaise)
          case _ => forall a :: Moved(s, r, Whole(a)) == ReversalOn(t, o.refundPaise, o.goodwillPaise, a))
  {
    var b := s.records[k].booking;
    RecordIs(s, k);
    SumAppend(b.refunds, o.refundPaise);
    match o.tier
    case NoRefund => assert Row(b.driver, p) == [];
    case ActiveGrace => ProportionallyGiven(s, r, k, o.refundPaise);
    case _ =>
      forall a {
        ReversalMoves(s, r, k, o.refundPaise, a);
      }
  }

  lemma ReversalMoves(s: State, r: State, k: nat, refund: nat, a: Account)
    requires Holds(s) && Holds(r) && RefundsBooking(s, r, k, refund)
    requires s.records[k].booking.phase.Live?
    requires r.records[k].booking.phase.Reversed? && r.records[k].booking.refunds == []
    ensures var phase := r.records[k].booking.phase;
      Moved(s, r, Whole(a)) == ReversalOn(s.records[k].booking.totals, phase.refundPaise, phase.goodwillPaise, a)
  {
    RecordIs(s, k);
    RecordIs(r, k);
    MovedByRefund(s, r, k, refund, Whole(a));
    ReversedBy(s.records[k].booking, r.records[k].booking, a);
  }

  lemma ReversedBy(b: Booking, after: Booking, a: Account)
    requires BookingHolds(b) && b.phase.Live? && BookingHolds(after) && after.totals == b.totals
    requires after.phase.Reversed? && after.refunds == []
    ensures Books(after.rows, Whole(a)) - Books(b.rows, Whole(a))
      == ReversalOn(b.totals, after.phase.refundPaise, after.phase.goodwillPaise, a)
  {
    RowsAre(after, a);
    LiveRow(b, a);
  }

  // ----- Refunds by an admin

  /**
   * An admin can refund any positive amount of what is left of a capture that is the booking's own, once
   * the booking has ended and unless a full reversal was refunded.
   */
  lemma AdminRefundPossibleIff(s: State, k: nat, amount: int)
    requires Holds(s) && IsParking(s, k)
    ensures var b := s.records[k].booking;
      RefundByAdmin(s, k, amount).Ok?
      <==> && b.capturedPaise.Some? && !b.orphaned && !b.phase.Live? && !b.phase.Released?
           && (b.phase.Reversed? ==> b.phase.refundPaise == 0)
           && 0 < amount <= b.capturedPaise.value - DecidedBy(b)
  {
    var b := s.records[k].booking;
    RecordIs(s, k);
    if amount > 0 {
      RefundWritten(b.totals, amount, "refund: admin");
    }
  }

  /** The amount is decided, asked for once, owed to the driver, and given in shares. */
  lemma AdminRefundGives(s: State, k: nat, amount: int)
    requires Holds(s) && RefundByAdmin(s, k, amount).Ok?
    ensures var r := RefundByAdmin(s, k, amount).value;
      && RefundsBooking(s, r, k, amount) && r.records[k].booking.phase == s.records[k].booking.phase
      && GivesShares(s, r, s.records[k].booking.totals, amount)
  {
    var b, r := s.records[k].booking, RefundByAdmin(s, k, amount).value;
    RecordIs(s, k);
    RefundWritten(b.totals, amount, "refund: admin");
    var p := ProportionalRefundEntries(b.totals, amount, "refund: admin").value;
    RefundedBooking(b, amount, p);
    ProportionalShare(b.totals, amount, "refund: admin");
    IssuedRefund(s, r, k, RefundedPartly(b, amount, p), p, amount);
    AdminRefundKeeps(s, k, amount);
    ProportionallyGiven(s, r, k, amount);
  }
}
