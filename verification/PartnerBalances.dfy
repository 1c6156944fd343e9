/**
 * How every step moves what a partner may be paid: a booking never does, a service does by what its
 * partner earns, unless the partner is the driver the booking is for, whose rows are the space owner's.
 */
module PartnerBalances {
  import opened Outcomes
  import opened Rates
  import opened Quotes
  import opened RefundPolicy
  import opened Fees
  import opened Columns
  import opened LifeCycles
  import opened BookingRows
  import opened LedgerRecords
  import opened LedgerMachine
  import opened LedgerSteps
  import opened LedgerCases
  import opened LedgerOutcomes
  import opened LedgerMovements
  import opened LedgerRun

  /** A partner's amount counts for the partner, and for nobody when it is stamped with the booking's driver. */
  function Due(amount: int, partner: UserId, driver: UserId, u: UserId): int
  {
    if u == partner && partner != driver then amount else 0
  }

  lemma BalanceIsDue(s: State, u: UserId)
    requires Holds(s)
    ensures PartnerBalance(s, u) == 0 - Total(s.records, PartnerDue(u))
  {
    PartnersAreDue(s.records, u);
  }

  /** The balance moves by what the changed record and the added ones are due. */
  lemma BalanceMovedAt(s: State, r: State, k: nat, added: seq<Record>, u: UserId)
    requires Holds(s) && Holds(r) && k < |s.records| && k < |r.records|
    requires r.records == s.records[k := r.records[k]] + added
    ensures PartnerBalance(r, u) == PartnerBalance(s, u)
      + Amount(s.records[k], PartnerDue(u)) - Amount(r.records[k], PartnerDue(u)) - Total(added, PartnerDue(u))
  {
    BalanceIsDue(s, u);
    BalanceIsDue(r, u);
    TotalUpdate(s.records, k, r.records[k], PartnerDue(u));
    TotalConcat(s.records[k := r.records[k]], added, PartnerDue(u));
  }

  lemma BalanceMovedBy(s: State, r: State, x: Record, u: UserId)
    requires Holds(s) && Holds(r) && r.records == s.records + [x]
    ensures PartnerBalance(r, u) == PartnerBalance(s, u) - Amount(x, PartnerDue(u))
  {
    BalanceIsDue(s, u);
    BalanceIsDue(r, u);
    TotalAppend(s.records, x, PartnerDue(u));
  }

  lemma {:induction false} TotalConcat(a: seq<Record>, b: seq<Record>, q: Quantity)
    ensures Total(a + b, q) == Total(a, q) + Total(b, q)
  {
    if b == [] {
      assert a + b == a;
    } else {
      var n := |b| - 1;
      TotalConcat(a, b[..n], q);
      assert a + b == (a + b[..n]) + [b[n]] && b == b[..n] + [b[n]];
      TotalAppend(a + b[..n], b[n], q);
      TotalAppend(b[..n], b[n], q);
    }
  }

  // ----- Steps that move no balance

  /** The record at `k` is due what it was, and what was added is due nothing. */
  lemma Unmoved(s: State, r: State, k: nat, added: nat, u: UserId)
    requires Holds(s) && Holds(r) && OnlyAt(s, r, k, added)
    requires Amount(r.records[k], PartnerDue(u)) == Amount(s.records[k], PartnerDue(u))
    requires forall j :: |s.records| <= j < |r.records| ==> Amount(r.records[j], PartnerDue(u)) == 0
    ensures PartnerBalance(r, u) == PartnerBalance(s, u)
  {
    var more := r.records[|s.records|..];
    assert r.records == s.records[k := r.records[k]] + more;
    BalanceMovedAt(s, r, k, more, u);
    NothingDue(more, u);
  }

  lemma {:induction false} NothingDue(records: seq<Record>, u: UserId)
    requires forall r :: r in records ==> Amount(r, PartnerDue(u)) == 0
    ensures Total(records, PartnerDue(u)) == 0
  {
    if records == [] {
    } else {
      NothingDue(records[..|records| - 1], u);
    }
  }

  /** A discharge files at most one transfer. */
  lemma DischargedTo(s: State, k: nat, transfer: Option<nat>, driver: UserId, whose: UserId, writer: Writer)
    requires Discharge(s, k, transfer, driver, whose, writer).Ok?
    ensures var r := Discharge(s, k, transfer, driver, whose, writer).value;
      && s.records <= r.records
      && |r.records| == |s.records| + (if transfer.Some? then 1 else 0)
      && (transfer.Some? ==> IsTransfer(r, |s.records|, k, transfer.value, driver, whose))
  {
  }

  /** Whatever is written for a booking goes to its space owner. */
  lemma BookingsPayNoPartner(s: State, e: Event, u: UserId)
    requires Holds(s) && (OfBooking(e) || OfBookingEnd(e)) && Step(s, e).Ok?
    ensures PartnerBalance(Step(s, e).value, u) == PartnerBalance(s, u)
  {
    match e
    case Create(driver, input) => CreatePaysNoPartner(s, driver, input, u);
    case Capture(k) => CapturePaysNoPartner(s, k, u);
    case Extend(k, input) => ExtendPaysNoPartner(s, k, input, u);
    case CheckIn(k) => CheckInPaysNoPartner(s, k, u);
    case Complete(k) => CompletePaysNoPartner(s, k, u);
    case AdminRefund(k, amount) => AdminRefundPaysNoPartner(s, k, amount, u);
    case Cancel(k, startsAt, at, cancelledBy) => CancelPaysNoPartner(s, k, startsAt, at, cancelledBy, u);
    case Expire(k) => ExpirePaysNoPartner(s, k, u);
    case OrphanCapture(k) => OrphanPaysNoPartner(s, k, u);
  }

  lemma CreatePaysNoPartner(s: State, driver: UserId, input: FeeInput, u: UserId)
    requires Holds(s) && CreateBooking(s, driver, input).Ok?
    ensures PartnerBalance(CreateBooking(s, driver, input).value, u) == PartnerBalance(s, u)
  {
    CreateKeeps(s, driver, input);
    CreationOpens(s, driver, input);
    var r := CreateBooking(s, driver, input).value;
    assert r.records == s.records + [r.records[|s.records|]];
    BalanceMovedBy(s, r, r.records[|s.records|], u);
  }

  lemma ExtendPaysNoPartner(s: State, k: nat, input: FeeInput, u: UserId)
    requires Holds(s) && ExtendBooking(s, k, input).Ok?
    ensures PartnerBalance(ExtendBooking(s, k, input).value, u) == PartnerBalance(s, u)
  {
    ExtendKeeps(s, k, input);
    ExtendedTo(s, k, input);
    Unmoved(s, ExtendBooking(s, k, input).value, k, 0, u);
  }

  lemma CheckInPaysNoPartner(s: State, k: nat, u: UserId)
    requires Holds(s) && CheckInBooking(s, k).Ok?
    ensures PartnerBalance(CheckInBooking(s, k).value, u) == PartnerBalance(s, u)
  {
    CheckInKeeps(s, k);
    Unmoved(s, CheckInBooking(s, k).value, k, 0, u);
  }

  lemma CompletePaysNoPartner(s: State, k: nat, u: UserId)
    requires Holds(s) && CompleteBooking(s, k).Ok?
    ensures PartnerBalance(CompleteBooking(s, k).value, u) == PartnerBalance(s, u)
  {
    CompleteKeeps(s, k);
    Unmoved(s, CompleteBooking(s, k).value, k, 0, u);
  }

  lemma AdminRefundPaysNoPartner(s: State, k: nat, amount: int, u: UserId)
    requires Holds(s) && RefundByAdmin(s, k, amount).Ok?
    ensures PartnerBalance(RefundByAdmin(s, k, amount).value, u) == PartnerBalance(s, u)
  {
    AdminRefundKeeps(s, k, amount);
    AdminRefundGives(s, k, amount);
    RefundPaysNoPartner(s, RefundByAdmin(s, k, amount).value, k, amount, u);
  }

  lemma ExpirePaysNoPartner(s: State, k: nat, u: UserId)
    requires Holds(s) && ExpireBooking(s, k).Ok?
    ensures PartnerBalance(ExpireBooking(s, k).value, u) == PartnerBalance(s, u)
  {
    RecordIs(s, k);
    ReleaseKeeps(s, k, Worker);
    Unmoved(s, ReleaseBooking(s, k, Worker).value, k, 0, u);
  }

  lemma CapturePaysNoPartner(s: State, k: nat, u: UserId)
    requires Holds(s) && CaptureBooking(s, k).Ok?
    ensures PartnerBalance(CaptureBooking(s, k).value, u) == PartnerBalance(s, u)
  {
    CaptureKeeps(s, k);
    CaptureDischargesEarnings(s, k);
    Unmoved(s, CaptureBooking(s, k).value, k, if s.records[k].booking.totals.ownerEarningsPaise > 0 then 1 else 0, u);
  }

  lemma CancelPaysNoPartner(s: State, k: nat, startsAt: int, at: int, cancelledBy: CancelledBy, u: UserId)
    requires Holds(s) && CancelBooking(s, k, startsAt, at, cancelledBy).Ok?
    ensures PartnerBalance(CancelBooking(s, k, startsAt, at, cancelledBy).value, u) == PartnerBalance(s, u)
  {
    if IsPaid(s, k) {
      var r, _, _ := CancelledAs(s, k, startsAt, at, cancelledBy);
      RefundPaysNoPartner(s, r, k, DecidedBy(r.records[k].booking) - DecidedBy(s.records[k].booking), u);
    } else {
      RecordIs(s, k);
      ReleaseKeeps(s, k, Api);
      Unmoved(s, ReleaseBooking(s, k, Api).value, k, 0, u);
    }
  }

  lemma RefundPaysNoPartner(s: State, r: State, k: nat, amount: int, u: UserId)
    requires Holds(s) && Holds(r) && RefundsBooking(s, r, k, amount)
    ensures PartnerBalance(r, u) == PartnerBalance(s, u)
  {
    Unmoved(s, r, k, if amount > 0 then 1 else 0, u);
  }

  lemma OrphanPaysNoPartner(s: State, k: nat, u: UserId)
    requires Holds(s) && RefundOrphan(s, k).Ok?
    ensures PartnerBalance(RefundOrphan(s, k).value, u) == PartnerBalance(s, u)
  {
    if !s.records[k].booking.orphaned {
      RecordIs(s, k);
      var b := OrphanFor(s.records[k].booking);
      var reopened := OrphanOpened(s, k);
      OrphanDischarged(s, k, reopened);
      DischargedTo(reopened, k, b.transferPaise, b.driver, b.driver, Worker);
      OrphanUnmoved(s, RefundOrphan(s, k).value, k, b, u);
    }
  }

  lemma OrphanUnmoved(s: State, r: State, k: nat, b: Booking, u: UserId)
    requires Holds(s) && Holds(r) && IsParking(s, k)
    requires |r.records| == |s.records| + (if b.transferPaise.Some? then 2 else 1)
    requires s.records[k := Parking(b)] + [Refund(OrphanRow(b, k))] <= r.records
    requires b.transferPaise.Some? ==> IsTransfer(r, |s.records| + 1, k, b.transferPaise.value, b.driver, b.driver)
    ensures PartnerBalance(r, u) == PartnerBalance(s, u)
  {
    var head := s.records[k := Parking(b)] + [Refund(OrphanRow(b, k))];
    assert forall j :: 0 <= j < |head| ==> r.records[j] == head[j];
    Unmoved(s, r, k, if b.transferPaise.Some? then 2 else 1, u);
  }

  // ----- Steps that do

  /** What an event moves a partner's balance by. */
  function Owed(s: State, e: Event, u: UserId): int
    requires Step(s, e).Ok?
  {
    match e
    case ChargeValet(_, distance, rateBp, partner, driver) =>
      Due(ComputeValetLegFee(distance, rateBp).value.partnerEarningsPaise, partner, driver, u)
    case ChargeWash(price, rateBp, partner, driver) =>
      Due(ComputeWashFee(price, rateBp).value.partnerEarningsPaise, partner, driver, u)
    case ReduceValet(k) =>
      var v := s.records[k].service;
      Due(ComputeValetNoShowFee(v.rateBp).value.partnerEarningsPaise
          - ComputeValetLegFee(StoredMetres(v.chargedM) as real, v.rateBp).value.partnerEarningsPaise,
          v.partner, v.driver, u)
    case CaptureWash(k) =>
      var v := s.records[k].service;
      if v.captured then 0 else Due(0 - v.fee.partnerEarningsPaise, v.partner, v.driver, u)
    case CancelWash(k) =>
      var v := s.records[k].service;
      Due(0 - v.fee.partnerEarningsPaise, v.partner, v.driver, u)
    case TakeBack(k, amount) =>
      var f := s.records[k].refund;
      if f.takeBackPaise.Some? && f.takenBackPaise.None? && amount > 0 then Due(amount, f.whose, f.driver, u) else 0
    case PayOut(payee, _, _, _) =>
      if u == payee && PartnerBalance(s, u) >= 10_000 then 0 - PartnerBalance(s, u) else 0
    case FailPayout(k, returned) =>
      if IsPayout(s, k, if returned then Arrived else OnItsWay) && u == s.records[k].payout.payee
      then s.records[k].payout.grossPaise else 0
    case _ => 0
  }

  lemma ServicePays(s: State, r: State, u: UserId)
    requires Holds(s) && Holds(r) && |r.records| == |s.records| + 1 && s.records <= r.records
    requires IsJob(r, |s.records|) && r.records[|s.records|].service.standing.Charged?
    ensures var v := r.records[|s.records|].service;
      PartnerBalance(r, u) == PartnerBalance(s, u) + Due(v.fee.partnerEarningsPaise, v.partner, v.driver, u)
  {
    assert r.records == s.records + [r.records[|s.records|]];
    BalanceMovedBy(s, r, r.records[|s.records|], u);
  }

  lemma ChargePays(s: State, e: Event, u: UserId)
    requires Holds(s) && (e.ChargeValet? || e.ChargeWash?) && Step(s, e).Ok?
    ensures PartnerBalance(Step(s, e).value, u) == PartnerBalance(s, u) + Owed(s, e, u)
  {
    StepKeeps(s, e);
    ServicePays(s, Step(s, e).value, u);
  }

  /** A service that changes moves the balance by what it earns more, and by what an added record is due. */
  lemma ChangedServicePays(s: State, r: State, k: nat, u: UserId)
    requires Holds(s) && Holds(r) && (OnlyAt(s, r, k, 0) || OnlyAt(s, r, k, 1)) && IsJob(s, k) && IsJob(r, k)
    requires var v, after := s.records[k].service, r.records[k].service;
      after.partner == v.partner && after.driver == v.driver
    ensures var v, after := s.records[k].service, r.records[k].service;
      PartnerBalance(r, u) == PartnerBalance(s, u) + Due(EarnedBy(after) - EarnedBy(v), v.partner, v.driver, u)
        - (if OnlyAt(s, r, k, 1) then Amount(r.records[|s.records|], PartnerDue(u)) else 0)
  {
    JobDue(s.records[k].service, u);
    JobDue(r.records[k].service, u);
    if OnlyAt(s, r, k, 1) {
      BalanceMovedWith(s, r, k, r.records[|s.records|], u);
    } else {
      assert r.records == s.records[k := r.records[k]] + [];
      BalanceMovedAt(s, r, k, [], u);
    }
  }

  lemma JobDue(v: Service, u: UserId)
    ensures Amount(Job(v), PartnerDue(u)) == Due(0 - EarnedBy(v), v.partner, v.driver, u)
  {
  }

  lemma BalanceMovedWith(s: State, r: State, k: nat, x: Record, u: UserId)
    requires Holds(s) && Holds(r) && OnlyAt(s, r, k, 1) && r.records[|s.records|] == x
    ensures PartnerBalance(r, u) == PartnerBalance(s, u)
      + Amount(s.records[k], PartnerDue(u)) - Amount(r.records[k], PartnerDue(u)) - Amount(x, PartnerDue(u))
  {
    assert r.records == s.records[k := r.records[k]] + [x];
    BalanceMovedAt(s, r, k, [x], u);
    assert [] + [x] == [x];
    TotalAppend([], x, PartnerDue(u));
  }

  /** A reduced leg's partner gives up what was charged beyond the call-out, as the stored distance has it. */
  lemma ReductionPays(s: State, k: nat, u: UserId)
    requires Holds(s) && ReduceLeg(s, k).Ok?
    ensures s.records[k].service.chargedM >= 0.0
    ensures var v := s.records[k].service;
      PartnerBalance(ReduceLeg(s, k).value, u) == PartnerBalance(s, u)
        + Due(CallOut(v.rateBp).partnerEarningsPaise - StoredFee(v).partnerEarningsPaise, v.partner, v.driver, u)
  {
    var v := s.records[k].service;
    RecordIs(s, k);
    ReduceKeeps(s, k);
    ReductionAccepted(v);
    ChangedServicePays(s, ReduceLeg(s, k).value, k, u);
  }

  lemma WashCapturePays(s: State, k: nat, u: UserId)
    requires Holds(s) && CapturePaidWash(s, k).Ok? && !s.records[k].service.captured
    ensures var v := s.records[k].service;
      PartnerBalance(CapturePaidWash(s, k).value, u) == PartnerBalance(s, u)
        + Due(0 - v.fee.partnerEarningsPaise, v.partner, v.driver, u)
  {
    var v := s.records[k].service;
    RecordIs(s, k);
    CaptureWashKeeps(s, k);
    WashCaptureFiles(s, k, v);
    ChangedServicePays(s, CapturePaidWash(s, k).value, k, u);
  }

  lemma WashCaptureFiles(s: State, k: nat, v: Service)
    requires IsJob(s, k) && s.records[k] == Job(v) && v.kind.CarWash? && !v.captured
    requires CapturePaidWash(s, k).Ok?
    ensures var r, earned := CapturePaidWash(s, k).value, v.fee.partnerEarningsPaise;
      && OnlyAt(s, r, k, if earned > 0 then 1 else 0) && r.records[k] == Job(v.(captured := true))
      && (earned > 0 ==> IsTransfer(r, |s.records|, k, earned, v.driver, v.partner))
  {
    var paid := State(s.records[k := Job(v.(captured := true))], s.ledger);
    DischargedTo(paid, k, TransferFor(v.fee.partnerEarningsPaise), v.driver, v.partner, Api);
  }

  lemma UndonePays(s: State, k: nat, u: UserId)
    requires Holds(s) && UndoWash(s, k).Ok?
    ensures var v := s.records[k].service;
      PartnerBalance(UndoWash(s, k).value, u) == PartnerBalance(s, u)
        + Due(0 - v.fee.partnerEarningsPaise, v.partner, v.driver, u)
  {
    UndoWashKeeps(s, k);
    WashIsUndone(s, k);
    ChangedServicePays(s, UndoWash(s, k).value, k, u);
  }

  lemma TakenBackPays(s: State, k: nat, amount: int, u: UserId)
    requires Holds(s) && TakeShareBack(s, k, amount).Ok?
    ensures var f := s.records[k].refund;
      PartnerBalance(TakeShareBack(s, k, amount).value, u) == PartnerBalance(s, u)
        + (if f.takeBackPaise.Some? && f.takenBackPaise.None? && amount > 0
           then Due(amount, f.whose, f.driver, u) else 0)
  {
    var r := TakeShareBack(s, k, amount).value;
    TakeBackKeeps(s, k, amount);
    if s.records[k].refund.takeBackPaise.Some? && s.records[k].refund.takenBackPaise.None? {
      assert r.records == s.records[k := r.records[k]] + [];
      BalanceMovedAt(s, r, k, [], u);
    }
  }

  lemma FailurePays(s: State, k: nat, returned: bool, u: UserId)
    requires Holds(s)
    ensures PayoutFailed(s, k, returned).Ok?
    ensures PartnerBalance(PayoutFailed(s, k, returned).value, u) == PartnerBalance(s, u)
      + (if IsPayout(s, k, if returned then Arrived else OnItsWay) && u == s.records[k].payout.payee
         then s.records[k].payout.grossPaise else 0)
  {
    if IsPayout(s, k, if returned then Arrived else OnItsWay) {
      RecordIs(s, k);
      FailedHolds(s.records[k].payout);
      PayoutFailedKeeps(s, k, returned);
      var r := PayoutFailed(s, k, returned).value;
      assert r.records == s.records[k := r.records[k]] + [];
      BalanceMovedAt(s, r, k, [], u);
    }
  }

  lemma PayoutPays(s: State, payee: UserId, at: int, tcs: seq<DatedRate>, tds: seq<DatedRate>, u: UserId)
    requires Holds(s) && PayPartner(s, payee, at, tcs, tds).Ok?
    ensures PartnerBalance(PayPartner(s, payee, at, tcs, tds).value, u) == PartnerBalance(s, u)
      - (if u == payee && PartnerBalance(s, u) >= 10_000 then PartnerBalance(s, u) else 0)
  {
    if PartnerBalance(s, payee) >= 10_000 {
      PayoutClearsBalance(s, payee, at, tcs, tds, u);
    }
  }

  /** Settling, clearing and the arrival of a payout touch no partner's side. */
  lemma SettlingPaysNobody(s: State, k: nat, amount: int, u: UserId)
    requires Holds(s) && SettleRefund(s, k, amount).Ok?
    ensures PartnerBalance(SettleRefund(s, k, amount).value, u) == PartnerBalance(s, u)
  {
    SettleKeeps(s, k, amount);
    if s.records[k].refund.settledPaise.None? {
      Unmoved(s, SettleRefund(s, k, amount).value, k, 0, u);
    }
  }

  lemma ClearingPaysNobody(s: State, k: nat, u: UserId)
    requires Holds(s)
    ensures ClearMoved(s, k).Ok?
    ensures PartnerBalance(ClearMoved(s, k).value, u) == PartnerBalance(s, u)
  {
    ClearKeeps(s, k);
    if k < |s.records| && s.records[k].Transfer? && !HasCleared(s, s.records[k].transfer.paidFor) {
      ClearingSettles(s, k, k);
      Unmoved(s, ClearMoved(s, k).value, k, 0, u);
    }
  }

  lemma ArrivalPaysNobody(s: State, k: nat, u: UserId)
    requires Holds(s)
    ensures PayoutArrived(s, k).Ok?
    ensures PartnerBalance(PayoutArrived(s, k).value, u) == PartnerBalance(s, u)
  {
    PayoutArrivedKeeps(s, k);
    if IsPayout(s, k, OnItsWay) {
      ArrivalSettles(s, k);
      Unmoved(s, PayoutArrived(s, k).value, k, 0, u);
    }
  }

  /**
   * Every step of every run moves a partner's balance by exactly what its event owes: nothing for a
   * booking, its earnings for a service, what is taken back of a refund, the whole of it for a payout.
   */
  lemma StepMovesBalance(events: seq<Event>, e: Event, u: UserId)
    requires Step(Run(events), e).Ok?
    ensures PartnerBalance(Step(Run(events), e).value, u) == PartnerBalance(Run(events), u) + Owed(Run(events), e, u)
  {
    EveryRunHolds(events);
    BalanceMoves(Run(events), e, u);
  }

  lemma BalanceMoves(s: State, e: Event, u: UserId)
    requires Holds(s) && Step(s, e).Ok?
    ensures PartnerBalance(Step(s, e).value, u) == PartnerBalance(s, u) + Owed(s, e, u)
  {
    if OfBooking(e) || OfBookingEnd(e) {
      BookingsPayNoPartner(s, e, u);
    } else if e.ChargeValet? || e.ChargeWash? {
      ChargePays(s, e, u);
    } else if e.Settle? {
      SettlingPaysNobody(s, e.k, e.amountPaise, u);
    } else if e.ClearTransfer? {
      ClearingPaysNobody(s, e.k, u);
    } else if e.ConfirmPayout? {
      ArrivalPaysNobody(s, e.k, u);
    } else if e.ReduceValet? {
      ReductionPays(s, e.k, u);
    } else if e.CaptureWash? {
      if !s.records[e.k].service.captured {
        WashCapturePays(s, e.k, u);
      }
    } else if e.CancelWash? {
      UndonePays(s, e.k, u);
    } else if e.TakeBack? {
      TakenBackPays(s, e.k, e.amountPaise, u);
    } else if e.FailPayout? {
      FailurePays(s, e.k, e.returned, u);
    } else {
      PayoutPays(s, e.payee, e.paidAt, e.tcs, e.tds, u);
    }
  }
}
