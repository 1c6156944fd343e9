/** What every run of the ledger machine keeps, and where `refunds_payable` parts from what is owed. */
module LedgerRun {
  import opened Outcomes
  import opened Quotes
  import opened Paise
  import opened Rates
  import opened Fees
  import opened Columns
  import opened LedgerEntries
  import opened LedgerEffects
  import opened Ledger
  import opened LifeCycles
  import opened RefundLimits
  import opened BookingRows
  import opened LedgerRecords
  import opened LedgerMachine
  import opened LedgerSteps
  import opened LedgerCases

  /**
   * What the balance check refuses: a booking worth nothing, a settlement of nothing, and a service
   * whose commission takes more than its price.
   */
  ghost predicate Unpostable(s: State, e: Event)
  {
    match e
    case Create(_, input) => MakeQuote(input).Ok? && input.basePaise == 0
    case Settle(k, amount) => IsRefund(s, k) && s.records[k].refund.settledPaise.None? && amount <= 0
    case ChargeValet(_, distance, rateBp, _, _) => distance >= 0.0 && rateBp > RATE_SCALE
    case ChargeWash(price, rateBp, _, _) => price > 0 && 2 * (price * (rateBp - RATE_SCALE)) >= RATE_SCALE
    case _ => false
  }

  predicate OfBooking(e: Event)
  {
    e.Create? || e.Capture? || e.Extend? || e.CheckIn? || e.Complete?
  }

  predicate OfBookingEnd(e: Event)
  {
    e.AdminRefund? || e.Cancel? || e.Expire? || e.OrphanCapture?
  }

  predicate OfRefund(e: Event)
  {
    e.Settle? || e.TakeBack? || e.ClearTransfer?
  }

  lemma BookingStepKeeps(s: State, e: Event)
    requires Holds(s) && OfBooking(e)
    ensures Keeps(s, Step(s, e), Unpostable(s, e))
  {
    match e
    case Create(driver, input) => CreateKeeps(s, driver, input);
    case Capture(k) => CaptureKeeps(s, k);
    case Extend(k, input) => ExtendKeeps(s, k, input);
    case CheckIn(k) => CheckInKeeps(s, k);
    case Complete(k) => CompleteKeeps(s, k);
  }

  lemma BookingEndKeeps(s: State, e: Event)
    requires Holds(s) && OfBookingEnd(e)
    ensures Keeps(s, Step(s, e), Unpostable(s, e))
  {
    match e
    case AdminRefund(k, amount) => AdminRefundKeeps(s, k, amount);
    case Cancel(k, startsAt, at, cancelledBy) => CancelKeeps(s, k, startsAt, at, cancelledBy);
    case Expire(k) => ExpireKeeps(s, k);
    case OrphanCapture(k) => OrphanKeeps(s, k);
  }

  lemma RefundStepKeeps(s: State, e: Event)
    requires Holds(s) && OfRefund(e)
    ensures Keeps(s, Step(s, e), Unpostable(s, e))
  {
    match e
    case Settle(k, amount) => SettleKeeps(s, k, amount);
    case TakeBack(k, amount) => TakeBackKeeps(s, k, amount);
    case ClearTransfer(k) => ClearKeeps(s, k);
  }

  lemma LegStepKeeps(s: State, e: Event)
    requires Holds(s) && (e.ChargeValet? || e.ReduceValet?)
    ensures Keeps(s, Step(s, e), Unpostable(s, e))
  {
    match e
    case ChargeValet(outbound, distance, rateBp, partner, driver) =>
      ChargeLegKeeps(s, outbound, distance, rateBp, partner, driver);
    case ReduceValet(k) => ReduceKeeps(s, k);
  }

  lemma WashChargeKeeps(s: State, e: Event)
    requires Holds(s) && e.ChargeWash?
    ensures Keeps(s, Step(s, e), Unpostable(s, e))
  {
    ChargeWashKeeps(s, e.pricePaise, e.rateBp, e.partner, e.driver);
  }

  lemma WashStepKeeps(s: State, e: Event)
    requires Holds(s) && (e.CaptureWash? || e.CancelWash?)
    ensures Keeps(s, Step(s, e), Unpostable(s, e))
  {
    match e
    case CaptureWash(k) => CaptureWashKeeps(s, k);
    case CancelWash(k) => UndoWashKeeps(s, k);
  }

  lemma PayOutKeeps(s: State, e: Event)
    requires Holds(s) && e.PayOut?
    ensures Keeps(s, Step(s, e), Unpostable(s, e))
  {
    PayPartnerKeeps(s, e.payee, e.paidAt, e.tcs, e.tds);
  }

  lemma PayoutStepKeeps(s: State, e: Event)
    requires Holds(s) && (e.ConfirmPayout? || e.FailPayout?)
    ensures Keeps(s, Step(s, e), Unpostable(s, e))
  {
    match e
    case ConfirmPayout(k) => PayoutArrivedKeeps(s, k);
    case FailPayout(k, returned) => PayoutFailedKeeps(s, k, returned);
  }

  lemma StepKeeps(s: State, e: Event)
    requires Holds(s)
    ensures Keeps(s, Step(s, e), Unpostable(s, e))
  {
    if OfBooking(e) {
      BookingStepKeeps(s, e);
    } else if OfBookingEnd(e) {
      BookingEndKeeps(s, e);
    } else if OfRefund(e) {
      RefundStepKeeps(s, e);
    } else if e.ChargeValet? || e.ReduceValet? {
      LegStepKeeps(s, e);
    } else if e.ChargeWash? {
      WashChargeKeeps(s, e);
    } else if e.CaptureWash? || e.CancelWash? {
      WashStepKeeps(s, e);
    } else if e.PayOut? {
      PayOutKeeps(s, e);
    } else {
      PayoutStepKeeps(s, e);
    }
  }

  lemma RunAppend(events: seq<Event>, e: Event)
    ensures Run(events + [e]) == match Step(Run(events), e) case Ok(r) => r case Thrown(_) => Run(events)
  {
    assert (events + [e])[..|events|] == events;
  }

  /**
   * In every run, every stored posting balances, the whole ledger balances, and it is exactly what
   * was written for the records, posting by posting and column by column; every record's rows are
   * what its state says, a booking's its quotes, or what a reversal left of them, less what its
   * refunds took, and no more was refunded than was captured; and every booking has issued exactly
   * the refunds it decided.
   */
  lemma {:induction false} EveryRunHolds(events: seq<Event>)
    ensures Holds(Run(events))
  {
    if events == [] {
      EmptyHolds();
    } else {
      EveryRunHolds(events[..|events| - 1]);
      StepKeeps(Run(events[..|events| - 1]), events[|events| - 1]);
    }
  }

  lemma EmptyHolds()
    ensures Holds(INITIAL)
  {
  }

  /**
   * In every run, a booking's rows hold the driver's whole debt and the refunds exactly, and each
   * credit to within 2k/3 of a paisa (7k/6 for the owner) of its share after `k` refunds; and the
   * ledger holds every one of those rows.
   */
  lemma EveryRunDriftsWithin(events: seq<Event>, k: nat)
    requires k < |Run(events).records| && Run(events).records[k].Parking?
    requires Stands(Run(events).records[k].booking)
    ensures var s, b := Run(events), Run(events).records[k].booking;
      RowsWithinDrift(b) && forall p :: multiset(b.rows)[p] <= multiset(s.ledger)[p]
  {
    RecordStands(events, k);
    RowsDrift(Run(events).records[k].booking);
    RowsAreStored(events, k);
  }

  lemma RowsAreStored(events: seq<Event>, k: nat)
    requires k < |Run(events).records|
    ensures forall p :: multiset(RowsOf(Run(events).records[k]))[p] <= multiset(Run(events).ledger)[p]
  {
    EveryRunHolds(events);
    var s := Run(events);
    forall p
      ensures multiset(RowsOf(s.records[k]))[p] <= multiset(s.ledger)[p]
    {
      CopiesWithinTotal(s.records, k, p);
    }
  }

  /** After any run, the balance check refuses a step exactly when there is nothing sound to post. */
  lemma BalanceCheckFiresIff(events: seq<Event>, e: Event)
    ensures Step(Run(events), e) == Thrown(UnbalancedPosting) <==> Unpostable(Run(events), e)
  {
    EveryRunHolds(events);
    StepKeeps(Run(events), e);
  }

  /** No step edits or removes a stored posting. */
  lemma {:induction false} LedgerIsAppendOnly(events: seq<Event>, n: nat)
    requires n <= |events|
    ensures Run(events[..n]).ledger <= Run(events).ledger
  {
    if n == |events| {
      assert events[..n] == events;
    } else {
      var last := |events| - 1;
      assert events[..last][..n] == events[..n];
      LedgerIsAppendOnly(events[..last], n);
      LastEventAppends(events);
    }
  }

  lemma LastEventAppends(events: seq<Event>)
    requires events != []
    ensures Run(events[..|events| - 1]).ledger <= Run(events).ledger
  {
    EveryRunHolds(events[..|events| - 1]);
    StepKeeps(Run(events[..|events| - 1]), events[|events| - 1]);
  }

  // ----- What is owed to drivers

  /**
   * `refunds_payable` in every run: what bookings and orphaned captures issued, the goodwill and
   * what reduced valet legs gave back are owed; what the gateway sent is not, washes' refunds included.
   */
  lemma RefundsPayableIs(events: seq<Event>)
    ensures var s := Run(events);
      Books(s.ledger, Whole(RefundsPayable)) + Total(s.records, Issued(Bookings))
      + Total(s.records, Issued(Orphans)) + Total(s.records, Goodwill) + Total(s.records, GivenBack)
      == Total(s.records, Settled)
  {
    EveryRunHolds(events);
    RecordsOwe(Run(events).records);
  }

  /**
   * The account shows exactly the refunds still waiting for the gateway when, and only when, the
   * goodwill and the valets' reductions, neither of which is ever sent, and what the gateway kept
   * back happen to equal the washes' refunds, which nothing credited.
   */
  lemma RefundsPayableIsWaitingIff(events: seq<Event>)
    ensures var s := Run(events);
      Books(s.ledger, Whole(RefundsPayable)) + Total(s.records, Waiting) == 0
      <==> Total(s.records, Goodwill) + Total(s.records, GivenBack) + Total(s.records, Short)
           == Total(s.records, Issued(Washes))
  {
    RefundsPayableIs(events);
    EveryRunHolds(events);
    RecordsOwe(Run(events).records);
  }

  // ----- Each booking's refunds

  /**
   * Each booking's refund rows add up to what it decided to refund, and the orphan's to its capture
   * if that went back as one; together they are never beyond the capture.
   */
  lemma BookingRefundsAreIssued(events: seq<Event>, k: nat)
    requires IsParking(Run(events), k)
    ensures var s, b := Run(events), Run(events).records[k].booking;
      && Total(s.records, IssuedTo(Origin(Bookings, k))) == DecidedBy(b)
      && Total(s.records, IssuedTo(Origin(Orphans, k))) == OrphanedBy(b)
      && (if b.capturedPaise.Some?
          then DecidedBy(b) + OrphanedBy(b) <= b.capturedPaise.value <= b.totals.driverTotalPaise
          else DecidedBy(b) == OrphanedBy(b) == 0)
  {
    EveryRunHolds(events);
    RecordStands(events, k);
    DecidedIsIssued(Run(events).records, k);
    DecidedWithinCapture(Run(events).records[k].booking);
  }

  lemma DecidedIsIssued(records: seq<Record>, k: nat)
    requires Owing(records, 0, 0) && k < |records| && records[k].Parking?
    ensures Total(records, IssuedTo(Origin(Bookings, k))) == DecidedBy(records[k].booking)
    ensures Total(records, IssuedTo(Origin(Orphans, k))) == OrphanedBy(records[k].booking)
  {
    assert Unissued(records, Origin(Bookings, k)) == 0;
    assert Unissued(records, Origin(Orphans, k)) == 0;
  }

  lemma DecidedWithinCapture(b: Booking)
    requires BookingHolds(b)
    ensures if b.capturedPaise.Some?
            then DecidedBy(b) + OrphanedBy(b) <= b.capturedPaise.value <= b.totals.driverTotalPaise
            else DecidedBy(b) == OrphanedBy(b) == 0
  {
  }

  // ----- A booking that can be reversed twice

  /** ₹5 at no surge, once it is paid for, is a booking `LedgerCases.SecondReversal` speaks of. */
  lemma FiveRupeeBooking(driver: UserId)
    ensures var s := Run([Create(driver, FeeInput(500, SURGE_MULTIPLIER_MIN_BP, None, None, false)), Capture(0)]);
      && IsPaid(s, 0)
      && s.records[0].booking.totals == ReceivableTotals(514, 425, 75, 14, 0)
      && s.records[0].booking.capturedPaise == Some(514)
  {
    var input := FeeInput(500, SURGE_MULTIPLIER_MIN_BP, None, None, false);
    FiveRupeeQuote(input);
    PaidBooking(driver, input);
  }

  lemma PaidBooking(driver: UserId, input: FeeInput)
    requires MakeQuote(input).Ok? && input.basePaise > 0
    ensures var s, t := Run([Create(driver, input), Capture(0)]), TotalsOf(MakeQuote(input).value);
      && IsPaid(s, 0) && s.records[0].booking.totals == t
      && s.records[0].booking.capturedPaise == Some(t.driverTotalPaise)
  {
    var create := Create(driver, input);
    assert [] + [create] == [create] && [create] + [Capture(0)] == [create, Capture(0)];
    RunAppend([], create);
    RunAppend([create], Capture(0));
    BookingOpens(driver, input);
    EveryRunHolds([create]);
    CaptureIsPaid(Run([create]), 0);
  }

  lemma BookingOpens(driver: UserId, input: FeeInput)
    requires MakeQuote(input).Ok? && input.basePaise > 0
    ensures var r := CreateBooking(INITIAL, driver, input);
      && r.Ok? && IsLive(r.value, 0, false)
      && r.value.records[0].booking.totals == TotalsOf(MakeQuote(input).value)
  {
    QuoteTotalsWellFormed(input);
    QuoteWorth(input);
    BookingWritten(TotalsOf(MakeQuote(input).value), "booking created");
  }

  lemma CaptureIsPaid(s: State, k: nat)
    requires Holds(s) && IsLive(s, k, false)
    ensures var b, r := s.records[k].booking, CaptureBooking(s, k);
      r.Ok? && IsPaid(r.value, k) && r.value.records[k].booking == PaidFor(b)
  {
    var b := s.records[k].booking;
    RecordIs(s, k);
    PaidKeeps(s, k);
    DischargeKeeps(State(s.records[k := Parking(PaidFor(b))], s.ledger), k,
      b.totals.ownerEarningsPaise, b.driver, b.driver, Api);
  }

  // ----- Reduced legs

  /**
   * A leg reduced in any run, its refund sent, stands for a call-out exactly when the distance it was
   * charged for was not within half a metre past a whole kilometre.
   */
  lemma ReducedIsCallOutIff(events: seq<Event>, k: nat)
    requires k < |Run(events).records| && Run(events).records[k].Job?
    requires Run(events).records[k].service.standing.Reduced?
    ensures var v := Run(events).records[k].service;
      && v.chargedM >= 0.0
      && ((forall c :: Books(v.rows, c) + Net(RefundSettledEntries(GivenBackBy(v), "refund processed"), c)
                       == Net(Charge(CallOut(v.rateBp), v.partner), c))
          <==> !JustIntoKm(v.chargedM))
  {
    RecordStands(events, k);
    ReducedStands(Run(events).records[k].service);
  }

  lemma ReducedStands(v: Service)
    requires ServiceHolds(v) && v.standing.Reduced?
    ensures (forall c :: Books(v.rows, c) + Net(RefundSettledEntries(GivenBackBy(v), "refund processed"), c)
                         == Net(Charge(CallOut(v.rateBp), v.partner), c))
            <==> !JustIntoKm(v.chargedM)
  {
    CancelledLegIsCallOutIff(v.chargedM, v.rateBp, v.partner, "service");
    forall c
      ensures Books(v.rows, c) + Net(RefundSettledEntries(GivenBackBy(v), "refund processed"), c)
        == CancelledLegNet(v.chargedM, v.rateBp, v.partner, "service", c)
    {
      CancelledLegLeaves(v.chargedM, v.rateBp, v.partner, "service", c);
      assert Books(v.rows, c) + Net(RefundSettledEntries(GivenBackBy(v), "refund processed"), c) == StandingNet(v, c);
    }
  }

  // ----- A captured wash

  /** A wash can be charged and captured at every price, so every price can be left in debit. */
  lemma WashIsCaptured(price: nat, rateBp: nat, partner: UserId, driver: UserId)
    requires price > 0 && rateBp <= RATE_SCALE
    ensures var s := Run([ChargeWash(price, rateBp, partner, driver), CaptureWash(0)]);
      && IsCharged(s, 0, CarWash) && s.records[0].service.captured
      && s.records[0].service.fee == Split(price, rateBp)
  {
    var charge := ChargeWash(price, rateBp, partner, driver);
    assert [charge] + [CaptureWash(0)] == [charge, CaptureWash(0)];
    WashRun(price, rateBp, partner, driver);
    RunAppend([charge], CaptureWash(0));
    EveryRunHolds([charge]);
    WashCaptured(Run([charge]), 0);
  }

  lemma WashCaptured(s: State, k: nat)
    requires Holds(s) && IsCharged(s, k, CarWash) && !s.records[k].service.captured
    ensures var v, r := s.records[k].service, Step(s, CaptureWash(k));
      && r.Ok? && IsCharged(r.value, k, CarWash) && r.value.records[k].service == v.(captured := true)
  {
    WashPaid(s, k);
    CaptureWashStep(s, k);
  }

  lemma CaptureWashStep(s: State, k: nat)
    ensures Step(s, CaptureWash(k)) == CapturePaidWash(s, k)
  {
  }

  lemma WashRun(price: nat, rateBp: nat, partner: UserId, driver: UserId)
    requires price > 0 && rateBp <= RATE_SCALE
    ensures var s := Run([ChargeWash(price, rateBp, partner, driver)]);
      && IsCharged(s, 0, CarWash) && !s.records[0].service.captured
      && s.records[0].service.fee == Split(price, rateBp)
  {
    var charge := ChargeWash(price, rateBp, partner, driver);
    assert [] + [charge] == [charge];
    RunAppend([], charge);
    WashOpens(price, rateBp, partner, driver);
  }

  lemma WashOpens(price: nat, rateBp: nat, partner: UserId, driver: UserId)
    requires price > 0 && rateBp <= RATE_SCALE
    ensures var r := ChargeForWash(INITIAL, price, rateBp, partner, driver);
      && r.Ok? && IsCharged(r.value, 0, CarWash) && !r.value.records[0].service.captured
      && r.value.records[0].service.fee == Split(price, rateBp)
  {
    ServiceBalances(price, rateBp, partner, "service");
    NotEmpty(ServiceLegs(Split(price, rateBp), partner, "service"), 0);
  }

  // ----- What is owed to owners and partners

  /**
   * Each side of `owner_payable` in every run: an owner's standing credits less what refunds took of
   * them and what was transferred, a partner's earnings less transfers and payouts, and what was
   * taken back of either.
   */
  lemma PayableSideIs(events: seq<Event>, w: Option<UserId>)
    ensures Books(Run(events).ledger, Side(OwnerPayable, w)) == Total(Run(events).records, Payable(w))
  {
    EveryRunHolds(events);
    RecordsPay(Run(events).records, w);
  }

  /** What a partner may be paid in every run: earned and taken back, less transferred and paid out. */
  lemma PartnerBalanceIs(events: seq<Event>, u: UserId)
    ensures PartnerBalance(Run(events), u) + Total(Run(events).records, PartnerDue(u)) == 0
  {
    EveryRunHolds(events);
    PartnersAreDue(Run(events).records, u);
  }

  lemma RecordStands(events: seq<Event>, k: nat)
    requires k < |Run(events).records|
    ensures RecordHolds(Run(events).records[k])
  {
    EveryRunHolds(events);
    assert Run(events).records[k] in Run(events).records;
  }
}
