/**
 * One booking and the rows the ledger holds for it: quotes while it is live, then proportional refunds
 * once it is over, or what a reversal left of it.
 */
module BookingRows {
  import opened Outcomes
  import opened Sums
  import opened RefundPolicy
  import opened Columns
  import opened LedgerEntries
  import opened LedgerEffects
  import opened Ledger
  import opened PartialRefunds

  /**
   * Live until it ends or is cancelled. A reversed one remembers what its cancellation owed, kept
   * and gave on top; a released one had no payment of its own when it ended.
   */
  datatype Phase =
    | Live
    | Over
    | Reversed(refundPaise: int, retainedPaise: int, goodwillPaise: int)
    | Released

  /**
   * `refunds` are those a proportional posting was written for. An orphaned booking's payment was
   * refunded as if no booking stood behind it, and counts as no payment any more.
   */
  datatype Booking = Booking(
    totals: ReceivableTotals,
    driver: UserId,
    capturedPaise: Option<int>,
    transferPaise: Option<nat>,
    checkedIn: bool,
    orphaned: bool,
    phase: Phase,
    refunds: seq<nat>,
    rows: seq<Posting>)

  /** The writer skips an empty posting. */
  function AddRow(rows: seq<Posting>, p: Posting): seq<Posting>
  {
    if p == [] then rows else rows + [p]
  }

  /** Every row of a booking's own postings is stamped with its driver. */
  function Row(driver: UserId, p: Posting): Posting
  {
    Stamp(p, Some(driver))
  }

  function Opened(t: ReceivableTotals, driver: UserId, p: Posting): Booking
  {
    Booking(t, driver, None, None, false, false, Live, [], AddRow([], Row(driver, p)))
  }

  function Extended(b: Booking, more: ReceivableTotals, p: Posting): Booking
  {
    b.(totals := b.totals.Plus(more), rows := AddRow(b.rows, Row(b.driver, p)))
  }

  function RefundedPartly(b: Booking, refund: nat, p: Posting): Booking
  {
    b.(refunds := b.refunds + [refund], rows := AddRow(b.rows, Row(b.driver, p)))
  }

  function Cancelled(b: Booking, o: RefundOutcome, p: Posting): Booking
  {
    var r := b.(rows := AddRow(b.rows, Row(b.driver, p)));
    match o.tier
    case BeforeStart => r.(phase := Reversed(o.refundPaise, o.retainedPaise, o.goodwillPaise))
    case OwnerCancelled => r.(phase := Reversed(o.refundPaise, o.retainedPaise, o.goodwillPaise))
    case ActiveGrace => r.(phase := Over, refunds := b.refunds + [o.refundPaise])
    case NoRefund => r.(phase := Over)
  }

  /** No payment of its own: the booking's posting is reversed, and nothing is owed. */
  function Expired(b: Booking, p: Posting): Booking
  {
    b.(phase := Released, rows := AddRow(b.rows, Row(b.driver, p)))
  }

  /**
   * Whether an admin may refund it: its payment is its own, it is no longer live, and no refund of a
   * full reversal was issued. A reversal that owed nothing issued none, and so does not close the booking.
   */
  predicate Refundable(b: Booking)
  {
    b.capturedPaise.Some? && !b.orphaned && (b.phase.Over? || (b.phase.Reversed? && b.phase.refundPaise == 0))
  }

  /** What the booking's own postings have decided to refund, goodwill aside. */
  function DecidedBy(b: Booking): int
  {
    (if b.phase.Reversed? then b.phase.refundPaise else 0) + Sum(b.refunds)
  }

  /** What went back to the driver as a capture without a booking. */
  function OrphanedBy(b: Booking): int
  {
    if b.orphaned && b.capturedPaise.Some? then b.capturedPaise.value else 0
  }

  // ----- What the rows hold

  /** What a run of partial refunds does to each account. */
  function RefundEffect(s: RefundSplit, refunded: int, a: Account): int
  {
    match a
    case OwnerPayable => s.owner + s.waiver
    case PlatformRevenue => s.fee
    case GstPayable => s.gst
    case PromoExpense => -s.waiver
    case RefundsPayable => -refunded
    case _ => 0
  }

  /** What is left of a reversed booking: what the driver is owed, what was kept, and the goodwill. */
  function ReversedEffect(refund: int, retained: int, goodwill: int, a: Account): int
  {
    match a
    case DriverReceivable => refund + retained
    case PlatformRevenue => 0 - retained
    case PromoExpense => goodwill
    case RefundsPayable => 0 - (refund + goodwill)
    case _ => 0
  }

  /** What a booking stands for, proportional refunds aside: its quotes, or what its reversal left. */
  function StandingEffect(t: ReceivableTotals, phase: Phase, a: Account): int
  {
    match phase
    case Live => BookingEffect(t, a)
    case Over => BookingEffect(t, a)
    case Reversed(refund, retained, goodwill) => ReversedEffect(refund, retained, goodwill, a)
    case Released => 0
  }

  /** The rows are what the booking stands for, less what refunds of `refunded` in all have taken. */
  ghost predicate RowsGive(
    rows: seq<Posting>, t: ReceivableTotals, phase: Phase, taken: RefundSplit, refunded: int)
  {
    forall a :: Books(rows, Whole(a)) == StandingEffect(t, phase, a) + RefundEffect(taken, refunded, a)
  }

  /** Every row is on the driver's side, which is how the owner's credits are told from a partner's. */
  ghost predicate RowsOwned(rows: seq<Posting>, driver: UserId)
  {
    forall a, w :: Books(rows, Side(a, w)) == if w == Some(driver) then Books(rows, Whole(a)) else 0
  }

  /** The phase agrees with what was captured and refunded: never more than the capture. */
  ghost predicate PhaseHolds(b: Booking)
  {
    && (b.capturedPaise.Some? ==> 0 < b.capturedPaise.value <= b.totals.driverTotalPaise)
    && (b.transferPaise.Some? ==> b.transferPaise.value > 0)
    && (b.orphaned ==> b.capturedPaise.Some? && DecidedBy(b) == 0)
    && 0 <= Sum(b.refunds)
    && match b.phase
       case Live => b.refunds == []
       case Over => b.capturedPaise.Some? && Sum(b.refunds) <= b.capturedPaise.value
       case Reversed(refund, retained, goodwill) =>
         && b.capturedPaise.Some? && refund >= 0 && refund + retained == b.totals.driverTotalPaise
         && refund + Sum(b.refunds) <= b.capturedPaise.value
         && (refund > 0 ==> b.refunds == [])
         && (refund == 0 ==> goodwill == 0 && retained <= REFUND_PROCESSING_FEE_PAISE)
       case Released => b.refunds == [] && (b.capturedPaise.Some? ==> b.orphaned)
  }

  /**
   * The rows are the booking's quotes, or what a reversal left of them, less what its refunds took;
   * all on the driver's side; and no more was refunded than was captured.
   */
  ghost predicate BookingHolds(b: Booking)
  {
    && b.totals.WellFormed() && b.totals.driverTotalPaise > 0
    && PhaseHolds(b)
    && RowsOwned(b.rows, b.driver)
    && RowsGive(b.rows, b.totals, b.phase, Taken(b.totals, b.refunds), Sum(b.refunds))
  }

  lemma RowAdded(rows: seq<Posting>, driver: UserId, p: Posting, a: Account)
    ensures Books(AddRow(rows, Row(driver, p)), Whole(a)) == Books(rows, Whole(a)) + Net(p, Whole(a))
  {
    StampKeepsAccounts(p, Some(driver), Whole(a));
    if p == [] {
      assert Row(driver, p) == [];
    } else {
      BooksAppend(rows, Row(driver, p), Whole(a));
    }
  }

  lemma OwnedAdded(rows: seq<Posting>, driver: UserId, p: Posting)
    requires RowsOwned(rows, driver) && Unowned(p)
    ensures RowsOwned(AddRow(rows, Row(driver, p)), driver)
  {
    forall a, w
      ensures Books(AddRow(rows, Row(driver, p)), Side(a, w))
        == if w == Some(driver) then Books(AddRow(rows, Row(driver, p)), Whole(a)) else 0
    {
      SideAdded(rows, driver, p, a, w);
    }
  }

  lemma SideAdded(rows: seq<Posting>, driver: UserId, p: Posting, a: Account, w: Option<UserId>)
    requires RowsOwned(rows, driver) && Unowned(p)
    ensures Books(AddRow(rows, Row(driver, p)), Side(a, w))
      == if w == Some(driver) then Books(AddRow(rows, Row(driver, p)), Whole(a)) else 0
  {
    RowAdded(rows, driver, p, a);
    assert Books(rows, Side(a, w)) == if w == Some(driver) then Books(rows, Whole(a)) else 0;
    if p == [] {
      assert Row(driver, p) == [];
    } else {
      StampedSideUpTo(p, driver, a, w, |p|);
      BooksAppend(rows, Row(driver, p), Side(a, w));
    }
  }

  lemma UnownedPostings(t: ReceivableTotals, refund: int, retained: int, goodwill: int, d: string)
    ensures Unowned(BookingReceivableEntries(t, d))
    ensures Unowned(ReverseEntries(BookingReceivableEntries(t, d), "cancelled before capture"))
    ensures Unowned(Compose(FullReversalLegs(t, refund, retained, d)))
    ensures Unowned(Compose(FullReversalLegs(t, refund, retained, d) + GoodwillLegs(goodwill, d)))
  {
    UnownedCompose(BookingLegs(t, d));
    UnownedCompose(FullReversalLegs(t, refund, retained, d));
    UnownedCompose(FullReversalLegs(t, refund, retained, d) + GoodwillLegs(goodwill, d));
  }

  lemma OpenedHolds(t: ReceivableTotals, driver: UserId)
    requires t.WellFormed() && t.driverTotalPaise > 0
    ensures BookingHolds(Opened(t, driver, BookingReceivableEntries(t, "booking created")))
  {
    var p := BookingReceivableEntries(t, "booking created");
    BookingBalances(t, "booking created");
    UnownedPostings(t, 0, 0, 0, "booking created");
    OwnedAdded([], driver, p);
    forall a
      ensures Books(Opened(t, driver, p).rows, Whole(a)) == BookingEffect(t, a)
    {
      RowAdded([], driver, p, a);
      assert Net(p, Whole(a)) == BookingEffect(t, a);
    }
  }

  lemma ExtendedHolds(b: Booking, more: ReceivableTotals)
    requires BookingHolds(b) && b.phase == Live && more.WellFormed()
    ensures BookingHolds(Extended(b, more, BookingReceivableEntries(more, "booking extended")))
  {
    var p := BookingReceivableEntries(more, "booking extended");
    var r := Extended(b, more, p);
    BookingBalances(more, "booking extended");
    UnownedPostings(more, 0, 0, 0, "booking extended");
    OwnedAdded(b.rows, b.driver, p);
    forall a
      ensures Books(r.rows, Whole(a)) == BookingEffect(r.totals, a)
    {
      RowAdded(b.rows, b.driver, p, a);
      assert Net(p, Whole(a)) == BookingEffect(more, a);
      LiveRow(b, a);
    }
  }

  /** A booking paid for is live as before; only what was captured and transferred is known now. */
  lemma PaidHolds(b: Booking, transfer: Option<nat>)
    requires BookingHolds(b) && b.phase.Live? && !b.orphaned
    requires transfer.Some? ==> transfer.value > 0
    ensures BookingHolds(b.(capturedPaise := Some(b.totals.driverTotalPaise), transferPaise := transfer))
  {
  }

  /** A payment refunded as an orphan's leaves the booking's own rows as they are. */
  lemma OrphanedHolds(b: Booking, captured: int, transfer: Option<nat>)
    requires BookingHolds(b) && DecidedBy(b) == 0 && 0 < captured <= b.totals.driverTotalPaise
    requires transfer.Some? ==> transfer.value > 0
    ensures BookingHolds(b.(capturedPaise := Some(captured), transferPaise := transfer, orphaned := true))
  {
  }

  /** A posting that gives back one more refund. */
  ghost predicate GivesBack(p: Posting, s: RefundSplit, refund: int)
  {
    Unowned(p) && forall a :: Net(p, Whole(a)) == RefundEffect(s, refund, a)
  }

  lemma RefundGivesBack(t: ReceivableTotals, refund: nat, d: string)
    requires t.WellFormed() && refund <= t.driverTotalPaise
    ensures ProportionalRefundEntries(t, refund, d).Ok?
    ensures GivesBack(ProportionalRefundEntries(t, refund, d).value, SplitOrNothing(t, refund), refund)
  {
    SplitWithin(t, refund);
    SplitGivesBack(SplitOrNothing(t, refund), refund, d);
  }

  lemma SplitGivesBack(s: RefundSplit, refund: nat, d: string)
    requires s.owner >= 0 && s.fee >= 0 && s.gst >= 0 && s.waiver >= 0
    ensures GivesBack(Compose(ProportionalRefundLegs(s, refund, d)), s, refund)
  {
    UnownedCompose(ProportionalRefundLegs(s, refund, d));
    forall a
      ensures Net(Compose(ProportionalRefundLegs(s, refund, d)), Whole(a)) == RefundEffect(s, refund, a)
    {
      ProportionalNet(s, refund, d, Whole(a));
    }
  }

  lemma EffectsAdd(s1: RefundSplit, r1: int, s2: RefundSplit, r2: int, a: Account)
    ensures RefundEffect(Add(s1, s2), r1 + r2, a) == RefundEffect(s1, r1, a) + RefundEffect(s2, r2, a)
  {
  }

  lemma GivenBack(
      rows: seq<Posting>, t: ReceivableTotals, phase: Phase, driver: UserId, p: Posting,
      taken: RefundSplit, refunded: int, s: RefundSplit, refund: int)
    requires RowsGive(rows, t, phase, taken, refunded) && RowsOwned(rows, driver) && GivesBack(p, s, refund)
    ensures RowsGive(AddRow(rows, Row(driver, p)), t, phase, Add(taken, s), refunded + refund)
    ensures RowsOwned(AddRow(rows, Row(driver, p)), driver)
  {
    OwnedAdded(rows, driver, p);
    forall a
      ensures Books(AddRow(rows, Row(driver, p)), Whole(a))
        == StandingEffect(t, phase, a) + RefundEffect(Add(taken, s), refunded + refund, a)
    {
      RowAdded(rows, driver, p, a);
      EffectsAdd(taken, refunded, s, refund, a);
      assert Net(p, Whole(a)) == RefundEffect(s, refund, a);
    }
  }

  /** One more refund within what was captured keeps the rows at what the booking stands for less all its splits. */
  lemma RefundedHolds(b: Booking, refund: nat, d: string)
    requires BookingHolds(b) && Refundable(b)
    requires Sum(b.refunds) + refund <= b.capturedPaise.value
    ensures ProportionalRefundEntries(b.totals, refund, d).Ok?
    ensures BookingHolds(RefundedPartly(b, refund, ProportionalRefundEntries(b.totals, refund, d).value))
  {
    var p, split := OneMoreRefund(b.totals, b.refunds, refund, d);
    RefundAdded(b, refund, p, Taken(b.totals, b.refunds), split);
  }

  lemma RefundAdded(b: Booking, refund: nat, p: Posting, taken: RefundSplit, s: RefundSplit)
    requires b.totals.WellFormed() && b.totals.driverTotalPaise > 0
    requires PhaseHolds(b) && Refundable(b) && Sum(b.refunds) + refund <= b.capturedPaise.value
    requires RowsOwned(b.rows, b.driver) && RowsGive(b.rows, b.totals, b.phase, taken, Sum(b.refunds))
    requires GivesBack(p, s, refund) && Add(taken, s) == Taken(b.totals, b.refunds + [refund])
    ensures BookingHolds(RefundedPartly(b, refund, p))
  {
    GivenBack(b.rows, b.totals, b.phase, b.driver, p, taken, Sum(b.refunds), s, refund);
    SumAppend(b.refunds, refund);
    RefundedPhase(b, refund, p);
  }

  lemma OneMoreRefund(t: ReceivableTotals, refunds: seq<nat>, refund: nat, d: string)
    returns (p: Posting, s: RefundSplit)
    requires t.WellFormed() && refund <= t.driverTotalPaise
    ensures ProportionalRefundEntries(t, refund, d) == Ok(p) && GivesBack(p, s, refund)
    ensures Taken(t, refunds + [refund]) == Add(Taken(t, refunds), s)
  {
    RefundGivesBack(t, refund, d);
    TakenAppend(t, refunds, refund);
    p := ProportionalRefundEntries(t, refund, d).value;
    s := SplitOrNothing(t, refund);
  }

  lemma RefundedPhase(b: Booking, refund: nat, p: Posting)
    requires PhaseHolds(b) && Refundable(b) && Sum(b.refunds) + refund <= b.capturedPaise.value
    ensures PhaseHolds(RefundedPartly(b, refund, p))
  {
    SumAppend(b.refunds, refund);
  }

  /** A live booking's rows are its quotes. */
  lemma LiveRow(b: Booking, a: Account)
    requires BookingHolds(b) && b.phase == Live
    ensures Books(b.rows, Whole(a)) == BookingEffect(b.totals, a)
  {
  }

  lemma EndedHolds(b: Booking)
    requires BookingHolds(b) && b.phase == Live && b.capturedPaise.Some?
    ensures BookingHolds(b.(phase := Over))
  {
  }

  lemma CancelledHolds(b: Booking, startsAt: int, at: int, cancelledBy: CancelledBy)
    requires BookingHolds(b) && b.phase == Live && b.capturedPaise.Some? && !b.orphaned
    ensures var o := ResolveRefund(b.totals.driverTotalPaise, startsAt, at, cancelledBy);
      && o.Ok? && RefundEntries(b.totals, o.value, "refund").Ok?
      && (o.value.refundPaise <= b.capturedPaise.value ==>
            BookingHolds(Cancelled(b, o.value, RefundEntries(b.totals, o.value, "refund").value)))
  {
    var t := b.totals;
    CancellationBalances(t, startsAt, at, cancelledBy, "refund");
    RefundSplitsTotal(t.driverTotalPaise, startsAt, at, cancelledBy);
    var o := ResolveRefund(t.driverTotalPaise, startsAt, at, cancelledBy).value;
    var p := RefundEntries(t, o, "refund").value;
    if o.refundPaise <= b.capturedPaise.value {
      match o.tier
      case NoRefund =>
        assert Row(b.driver, p) == [];
        EndedHolds(b);
      case ActiveGrace =>
        EndedHolds(b);
        RefundedHolds(b.(phase := Over), o.refundPaise, "refund");
      case BeforeStart =>
        ReversedRows(b, p, o.refundPaise, o.retainedPaise, 0);
      case OwnerCancelled =>
        ReversedRows(b, p, o.refundPaise, 0, o.goodwillPaise);
    }
  }

  lemma ReversedRows(b: Booking, p: Posting, refund: nat, retained: nat, goodwill: nat)
    requires BookingHolds(b) && b.phase == Live && b.capturedPaise.Some? && !b.orphaned
    requires refund + retained == b.totals.driverTotalPaise && refund <= b.capturedPaise.value
    requires refund == 0 ==> goodwill == 0 && retained <= REFUND_PROCESSING_FEE_PAISE
    requires IsReversal(p, b.totals, refund, retained, goodwill)
    ensures BookingHolds(b.(phase := Reversed(refund, retained, goodwill), rows := AddRow(b.rows, Row(b.driver, p))))
  {
    var r := b.(phase := Reversed(refund, retained, goodwill), rows := AddRow(b.rows, Row(b.driver, p)));
    UnownedPostings(b.totals, refund, retained, goodwill, "refund");
    OwnedAdded(b.rows, b.driver, p);
    forall a
      ensures Books(r.rows, Whole(a)) == ReversedEffect(refund, retained, goodwill, a)
    {
      RowAdded(b.rows, b.driver, p, a);
      ReversalNet(p, b.totals, refund, retained, goodwill, a);
      LiveRow(b, a);
    }
  }

  ghost predicate IsReversal(p: Posting, t: ReceivableTotals, refund: nat, retained: nat, goodwill: nat)
  {
    || (goodwill == 0 && p == Compose(FullReversalLegs(t, refund, retained, "refund")))
    || (retained == 0
        && p == Compose(FullReversalLegs(t, refund, retained, "refund") + GoodwillLegs(goodwill, "refund")))
  }

  lemma ReversalNet(p: Posting, t: ReceivableTotals, refund: nat, retained: nat, goodwill: nat, a: Account)
    requires t.WellFormed() && refund + retained == t.driverTotalPaise
    requires IsReversal(p, t, refund, retained, goodwill)
    ensures BookingEffect(t, a) + Net(p, Whole(a)) == ReversedEffect(refund, retained, goodwill, a)
  {
    if retained == 0 {
      WithGoodwillNet(t, refund, goodwill, "refund", Whole(a));
    }
    FullReversalNet(t, refund, retained, "refund", Whole(a));
  }

  lemma ExpiredHolds(b: Booking)
    requires BookingHolds(b) && b.phase == Live && (b.capturedPaise.Some? ==> b.orphaned)
    ensures BookingHolds(
        Expired(b, ReverseEntries(BookingReceivableEntries(b.totals, "booking created"), "cancelled before capture")))
  {
    var booked := BookingReceivableEntries(b.totals, "booking created");
    var p := ReverseEntries(booked, "cancelled before capture");
    BookingBalances(b.totals, "booking created");
    UnownedPostings(b.totals, 0, 0, 0, "booking created");
    OwnedAdded(b.rows, b.driver, p);
    forall a
      ensures Books(Expired(b, p).rows, Whole(a)) == 0
    {
      RowAdded(b.rows, b.driver, p, a);
      ReverseRestores(booked, "cancelled before capture", Whole(a));
      assert Net(booked, Whole(a)) == BookingEffect(b.totals, a);
      LiveRow(b, a);
    }
  }

  /** A booking that was not reversed stands for its quotes. */
  predicate Stands(b: Booking)
  {
    b.phase.Live? || b.phase.Over?
  }

  /**
   * The driver's debt and the refunds are exact, and after `k` refunds each credit given back is
   * within 2k/3 of a paisa of the refunded share, 7k/6 for the owner.
   */
  ghost predicate RowsWithinDrift(b: Booking)
  {
    var t, r, k, total := b.totals, Sum(b.refunds), |b.refunds|, b.totals.driverTotalPaise;
    && Books(b.rows, Whole(DriverReceivable)) == total
    && Books(b.rows, Whole(RefundsPayable)) + r == 0
    && DriftWithin(r, t.parkeaseFeePaise, total, t.parkeaseFeePaise + Books(b.rows, Whole(PlatformRevenue)), k, 2, 3)
    && DriftWithin(r, t.gstPaise, total, t.gstPaise + Books(b.rows, Whole(GstPayable)), k, 2, 3)
    && DriftWithin(r, t.ownerEarningsPaise, total, t.ownerEarningsPaise + Books(b.rows, Whole(OwnerPayable)), k, 7, 6)
  }

  lemma RowsDrift(b: Booking)
    requires BookingHolds(b) && Stands(b)
    ensures RowsWithinDrift(b)
  {
    FeeAndGstDrift(b.totals, b.refunds);
    OwnerDriftBound(b.totals, b.refunds);
    RowsGivenBack(b, Taken(b.totals, b.refunds));
    DriftOfRows(b, Taken(b.totals, b.refunds), Sum(b.refunds), |b.refunds|);
  }

  lemma DriftOfRows(b: Booking, s: RefundSplit, r: int, k: nat)
    requires r == Sum(b.refunds) && k == |b.refunds|
    requires Books(b.rows, Whole(DriverReceivable)) == b.totals.driverTotalPaise
    requires Books(b.rows, Whole(RefundsPayable)) + r == 0
    requires b.totals.parkeaseFeePaise + Books(b.rows, Whole(PlatformRevenue)) == s.fee
    requires b.totals.gstPaise + Books(b.rows, Whole(GstPayable)) == s.gst
    requires b.totals.ownerEarningsPaise + Books(b.rows, Whole(OwnerPayable)) == s.owner + s.waiver
    requires DriftWithin(r, b.totals.parkeaseFeePaise, b.totals.driverTotalPaise, s.fee, k, 2, 3)
    requires DriftWithin(r, b.totals.gstPaise, b.totals.driverTotalPaise, s.gst, k, 2, 3)
    requires OwnerDriftWithin(b.totals, r, s, k)
    ensures RowsWithinDrift(b)
  {
  }

  lemma FeeAndGstDrift(t: ReceivableTotals, refunds: seq<nat>)
    requires t.WellFormed() && t.driverTotalPaise > 0
    ensures DriftWithin(
        Sum(refunds), t.parkeaseFeePaise, t.driverTotalPaise, Taken(t, refunds).fee, |refunds|, 2, 3)
    ensures DriftWithin(Sum(refunds), t.gstPaise, t.driverTotalPaise, Taken(t, refunds).gst, |refunds|, 2, 3)
  {
    DriftBound(t, refunds);
  }

  /** What the rows have given back of each credit is what the refunds took. */
  lemma RowsGivenBack(b: Booking, s: RefundSplit)
    requires BookingHolds(b) && Stands(b) && s == Taken(b.totals, b.refunds)
    ensures Books(b.rows, Whole(DriverReceivable)) == b.totals.driverTotalPaise
    ensures Books(b.rows, Whole(RefundsPayable)) + Sum(b.refunds) == 0
    ensures b.totals.parkeaseFeePaise + Books(b.rows, Whole(PlatformRevenue)) == s.fee
    ensures b.totals.gstPaise + Books(b.rows, Whole(GstPayable)) == s.gst
    ensures b.totals.ownerEarningsPaise + Books(b.rows, Whole(OwnerPayable)) == s.owner + s.waiver
  {
    RowsGiveEach(b.rows, b.totals, b.phase, s, Sum(b.refunds));
  }

  lemma RowsGiveEach(rows: seq<Posting>, t: ReceivableTotals, phase: Phase, s: RefundSplit, refunded: int)
    requires RowsGive(rows, t, phase, s, refunded) && (phase.Live? || phase.Over?)
    ensures Books(rows, Whole(DriverReceivable)) == t.driverTotalPaise
    ensures Books(rows, Whole(RefundsPayable)) + refunded == 0
    ensures t.parkeaseFeePaise + Books(rows, Whole(PlatformRevenue)) == s.fee
    ensures t.gstPaise + Books(rows, Whole(GstPayable)) == s.gst
    ensures t.ownerEarningsPaise + Books(rows, Whole(OwnerPayable)) == s.owner + s.waiver
  {
    assert Books(rows, Whole(DriverReceivable)) == t.driverTotalPaise + RefundEffect(s, refunded, DriverReceivable);
  }
}
