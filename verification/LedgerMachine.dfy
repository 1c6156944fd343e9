/**
 * The ledger as a state machine: bookings, refunds, transfers, services and payouts write postings
 * in any order. A step that throws aborts its transaction and changes nothing.
 */
module LedgerMachine {
  import opened Outcomes
  import opened Sums
  import opened Rates
  import opened Quotes
  import opened RefundPolicy
  import opened Fees
  import opened Columns
  import opened LedgerEntries
  import opened Ledger
  import opened LifeCycles
  import opened BookingRows
  import opened LedgerRecords

  datatype State = State(records: seq<Record>, ledger: seq<Posting>)

  const INITIAL: State := State([], [])

  const MINIMUM_PAYOUT_PAISE: nat := 10_000

  /** A record is named by its place in `records`. */
  datatype Event =
    | Create(driver: UserId, input: FeeInput)
    | Capture(k: nat)
    | Extend(k: nat, input: FeeInput)
    | CheckIn(k: nat)
    | Complete(k: nat)
    | AdminRefund(k: nat, amountPaise: int)
    | Cancel(k: nat, startsAt: int, at: int, cancelledBy: CancelledBy)
    | Expire(k: nat)
    | OrphanCapture(k: nat)
    | Settle(k: nat, amountPaise: int)
    | TakeBack(k: nat, amountPaise: int)
    | ClearTransfer(k: nat)
    | ChargeValet(outbound: bool, distanceM: real, rateBp: nat, partner: UserId, driver: UserId)
    | ReduceValet(k: nat)
    | ChargeWash(pricePaise: int, rateBp: nat, partner: UserId, driver: UserId)
    | CaptureWash(k: nat)
    | CancelWash(k: nat)
    | PayOut(payee: UserId, paidAt: int, tcs: seq<DatedRate>, tds: seq<DatedRate>)
    | ConfirmPayout(k: nat)
    | FailPayout(k: nat, returned: bool)

  /** Both write balanced postings only; an empty one the API refuses and the worker skips. */
  datatype Writer = Api | Worker

  ghost function Post(ledger: seq<Posting>, p: Posting, whose: Option<UserId>, writer: Writer): Outcome<seq<Posting>>
  {
    if p == [] && writer == Worker then Ok(ledger)
    else if !Balanced(p) then Thrown(UnbalancedPosting)
    else Ok(ledger + [Stamp(p, whose)])
  }

  // ----- Bookings

  ghost function CreateBooking(s: State, driver: UserId, input: FeeInput): Outcome<State>
  {
    var q :- MakeQuote(input);
    var p := BookingReceivableEntries(TotalsOf(q), "booking created");
    var l :- Post(s.ledger, p, Some(driver), Api);
    Ok(State(s.records + [Parking(Opened(TotalsOf(q), driver, p))], l))
  }

  /** A live booking: waiting to be paid for, or confirmed once captured. */
  predicate IsLive(s: State, k: nat, captured: bool)
  {
    k < |s.records| && s.records[k].Parking? && s.records[k].booking.phase.Live?
    && s.records[k].booking.capturedPaise.Some? == captured
  }

  /** The order carries the partner's earnings as a transfer, unless there are none. */
  function TransferFor(earningsPaise: int): Option<nat>
  {
    if earningsPaise <= 0 then None else Some(earningsPaise)
  }

  /** A capture of the payment for `k` discharges its transfer and files it; the rest is where the money sits. */
  ghost function Discharge(
      s: State, k: nat, transfer: Option<nat>, driver: UserId, whose: UserId, writer: Writer): Outcome<State>
  {
    match transfer
    case None => Ok(s)
    case Some(amount) =>
      var p := RouteDischargeEntries(amount, whose);
      var l :- Post(s.ledger, p, None, writer);
      Ok(State(s.records + [Transfer(TransferRow(k, driver, whose, amount, false, AddRow([], p)))], l))
  }

  function PaidFor(b: Booking): Booking
  {
    b.(capturedPaise := Some(b.totals.driverTotalPaise), transferPaise := TransferFor(b.totals.ownerEarningsPaise))
  }

  /** Checked against the booking's total to the paisa; nothing can have been extended before it. */
  ghost function CaptureBooking(s: State, k: nat): Outcome<State>
  {
    if !IsLive(s, k, false) then Thrown(Refused) else
    var b := PaidFor(s.records[k].booking);
    Discharge(State(s.records[k := Parking(b)], s.ledger), k, b.transferPaise, b.driver, b.driver, Api)
  }

  /** An extension that costs nothing posts nothing; what it costs is not captured. */
  ghost function ExtendBooking(s: State, k: nat, input: FeeInput): Outcome<State>
  {
    if !IsLive(s, k, true) then Thrown(Refused) else
    var b := s.records[k].booking;
    var q :- MakeQuote(input);
    var p := BookingReceivableEntries(TotalsOf(q), "booking extended");
    var l :- if q.driverTotalPaise > 0 then Post(s.ledger, p, Some(b.driver), Api) else Ok(s.ledger);
    Ok(State(s.records[k := Parking(Extended(b, TotalsOf(q), p))], l))
  }

  ghost function CheckInBooking(s: State, k: nat): Outcome<State>
  {
    if !IsLive(s, k, true) || s.records[k].booking.checkedIn then Thrown(Refused)
    else Ok(State(s.records[k := Parking(s.records[k].booking.(checkedIn := true))], s.ledger))
  }

  ghost function CompleteBooking(s: State, k: nat): Outcome<State>
  {
    if !IsLive(s, k, true) || !s.records[k].booking.checkedIn then Thrown(Refused)
    else Ok(State(s.records[k := Parking(s.records[k].booking.(phase := Over))], s.ledger))
  }

  /** The partner's share of a posting, to be taken back from the transfer that paid it. */
  function TakeBackFor(p: Posting, transfer: Option<nat>): Option<nat>
  {
    if transfer.None? || PartnerShareOf(p) <= 0 then None
    else Some(TakenBack(PartnerShareOf(p), transfer.value))
  }

  /** The refund row the gateway is asked for, when there is anything to send. */
  function Issue(
      records: seq<Record>, amount: int, origin: Origin, driver: UserId, whose: UserId, takeBack: Option<nat>)
    : seq<Record>
  {
    if amount <= 0 then records
    else records + [Refund(RefundRow(amount, origin, driver, whose, takeBack, None, None, []))]
  }

  predicate IsParking(s: State, k: nat)
  {
    k < |s.records| && s.records[k].Parking?
  }

  /** Within the capture less every refund issued; a reversal that issued none leaves the whole of it. */
  ghost function RefundByAdmin(s: State, k: nat, amount: int): Outcome<State>
  {
    if !IsParking(s, k) || !Refundable(s.records[k].booking) then Thrown(Refused) else
    var b := s.records[k].booking;
    if amount <= 0 || Sum(b.refunds) + amount > b.capturedPaise.value then Thrown(Refused) else
    var p :- ProportionalRefundEntries(b.totals, amount, "refund: admin");
    var l :- Post(s.ledger, p, Some(b.driver), Api);
    var records := s.records[k := Parking(RefundedPartly(b, amount, p))];
    Ok(State(Issue(records, amount, Origin(Bookings, k), b.driver, b.driver, TakeBackFor(p, b.transferPaise)), l))
  }

  /**
   * A cancellation that moves nothing posts nothing; the goodwill is posted, and never issued. The
   * database refuses a refund beyond the capture, and with it the whole cancellation. A booking whose
   * payment went back as an orphan's is taken for one that was never paid for.
   */
  ghost function CancelBooking(s: State, k: nat, startsAt: int, at: int, cancelledBy: CancelledBy): Outcome<State>
  {
    if !IsLive(s, k, true) then Thrown(Refused) else
    var b := s.records[k].booking;
    if b.orphaned then ReleaseBooking(s, k, Api) else
    var o :- ResolveRefund(b.totals.driverTotalPaise, startsAt, at, cancelledBy);
    var p :- RefundEntries(b.totals, o, "refund");
    var l :- if p != [] then Post(s.ledger, p, Some(b.driver), Api) else Ok(s.ledger);
    if o.refundPaise > b.capturedPaise.value then Thrown(Refused) else
    var records := s.records[k := Parking(Cancelled(b, o, p))];
    var takeBack := TakeBackFor(p, b.transferPaise);
    Ok(State(Issue(records, o.refundPaise, Origin(Bookings, k), b.driver, b.driver, takeBack), l))
  }

  /** The payment window closed before anything was captured. */
  ghost function ExpireBooking(s: State, k: nat): Outcome<State>
  {
    if !IsLive(s, k, false) then Thrown(Refused) else ReleaseBooking(s, k, Worker)
  }

  ghost function ReleaseBooking(s: State, k: nat, writer: Writer): Outcome<State>
    requires IsParking(s, k)
  {
    var b := s.records[k].booking;
    var p := ReverseEntries(BookingReceivableEntries(b.totals, "booking created"), "cancelled before capture");
    var l :- Post(s.ledger, p, Some(b.driver), writer);
    Ok(State(s.records[k := Parking(Expired(b, p))], l))
  }

  // ----- Refunds and transfers

  /**
   * A capture is reported for a booking that is neither waiting for it nor just confirmed by it: one
   * that was released, but also one already checked in, whose capture is reported a second time.
   */
  predicate IsStrayCapture(s: State, k: nat)
  {
    IsParking(s, k) && !IsLive(s, k, false) && (IsLive(s, k, true) ==> s.records[k].booking.checkedIn)
  }

  function OrphanFor(b: Booking): Booking
  {
    (if b.capturedPaise.Some? then b else PaidFor(b)).(orphaned := true)
  }

  function OrphanRow(b: Booking, k: nat): RefundRow
  {
    RefundRow(OrphanedBy(b), Origin(Orphans, k), b.driver, b.driver, b.transferPaise, None, None,
      [Stamp(OrphanLegs(OrphanedBy(b)), Some(b.driver))])
  }

  /**
   * It re-opens what is held and what is owed and is refunded in full, once, unless the database
   * finds an earlier refund of the same capture; the owner's share is discharged, and all of it is
   * taken back.
   */
  ghost function RefundOrphan(s: State, k: nat): Outcome<State>
  {
    if !IsStrayCapture(s, k) then Thrown(Refused)
    else if s.records[k].booking.orphaned then Ok(s)
    else if DecidedBy(s.records[k].booking) > 0 then Thrown(Refused) else
    var b := OrphanFor(s.records[k].booking);
    var l :- Post(s.ledger, OrphanLegs(OrphanedBy(b)), Some(b.driver), Worker);
    var records := s.records[k := Parking(b)] + [Refund(OrphanRow(b, k))];
    Discharge(State(records, l), k, b.transferPaise, b.driver, b.driver, Worker)
  }

  predicate IsRefund(s: State, k: nat)
  {
    k < |s.records| && s.records[k].Refund?
  }

  /** The gateway's amount is posted, whatever was asked for; a second report changes nothing. */
  ghost function SettleRefund(s: State, k: nat, amount: int): Outcome<State>
  {
    if !IsRefund(s, k) then Thrown(Refused) else
    var f := s.records[k].refund;
    if f.settledPaise.Some? then Ok(s) else
    var p := RefundSettledEntries(amount, "refund processed");
    var l :- Post(s.ledger, p, Some(f.driver), Api);
    Ok(State(s.records[k := Refund(SettledRow(f, amount, p))], l))
  }

  function SettledRow(f: RefundRow, amount: int, p: Posting): RefundRow
  {
    f.(settledPaise := Some(amount), rows := AddRow(f.rows, Stamp(p, Some(f.driver))))
  }

  /** Once per refund, if there is a share to take back; again the gateway's amount. */
  ghost function TakeShareBack(s: State, k: nat, amount: int): Outcome<State>
  {
    if !IsRefund(s, k) then Thrown(Refused) else
    var f := s.records[k].refund;
    if f.takeBackPaise.None? || f.takenBackPaise.Some? then Ok(s) else
    var p := RouteReversalEntries(amount, f.whose);
    var l :- Post(s.ledger, p, None, Worker);
    Ok(State(s.records[k := Refund(TakenBackRow(f, amount, p))], l))
  }

  function TakenBackRow(f: RefundRow, amount: int, p: Posting): RefundRow
  {
    f.(takenBackPaise := Some(amount), rows := AddRow(f.rows, p))
  }

  /** Some transfer of the payment for `k` has reached its partner. */
  predicate HasCleared(s: State, k: nat)
  {
    exists j :: 0 <= j < |s.records| && s.records[j].Transfer?
      && s.records[j].transfer.paidFor == k && s.records[j].transfer.cleared
  }

  /** Clearing is looked up by payment: once for each, however many transfers were discharged for it. */
  ghost function ClearMoved(s: State, k: nat): Outcome<State>
  {
    if k >= |s.records| || !s.records[k].Transfer? || HasCleared(s, s.records[k].transfer.paidFor) then Ok(s) else
    var t := s.records[k].transfer;
    var p := SettlementClearedEntries(t.amountPaise);
    var l :- Post(s.ledger, p, None, Worker);
    Ok(State(s.records[k := Transfer(t.(cleared := true, rows := AddRow(t.rows, p)))], l))
  }

  // ----- Services

  ghost function ChargeService(s: State, v: Service): Outcome<State>
  {
    var p := Charge(v.fee, v.partner);
    var l :- Post(s.ledger, p, None, Api);
    Ok(State(s.records + [Job(v.(rows := AddRow([], p)))], l))
  }

  ghost function ChargeLeg(
      s: State, outbound: bool, distance: real, rateBp: nat, partner: UserId, driver: UserId): Outcome<State>
  {
    var fee :- ComputeValetLegFee(distance, rateBp);
    ChargeService(s, Service(if outbound then Outbound else Return, rateBp, distance, fee, partner, driver,
                             false, Charged, []))
  }

  predicate IsCharged(s: State, k: nat, kind: ServiceKind)
  {
    k < |s.records| && s.records[k].Job? && s.records[k].service.kind == kind
    && s.records[k].service.standing.Charged?
  }

  /**
   * Cancelled after dispatch, or a no-show. The fee to reduce is priced again from the whole metres
   * the row kept. What the driver gets back is posted; the refund message for it is malformed, so no
   * row is issued.
   */
  ghost function ReduceLeg(s: State, k: nat): Outcome<State>
  {
    if !IsCharged(s, k, Outbound) then Thrown(Refused) else
    var v := s.records[k].service;
    var charged :- ComputeValetLegFee(StoredMetres(v.chargedM) as real, v.rateBp);
    var retained :- ComputeValetNoShowFee(v.rateBp);
    var p :- ValetChargeAdjustmentEntries(charged, retained, v.partner, "service");
    var l :- if p != [] then Post(s.ledger, p, None, Api) else Ok(s.ledger);
    Ok(State(s.records[k := Job(ReducedTo(v, charged.driverTotalPaise - retained.driverTotalPaise, p))], l))
  }

  function ReducedTo(v: Service, back: nat, p: Posting): Service
  {
    v.(standing := Reduced(back), rows := AddRow(v.rows, p))
  }

  ghost function ChargeForWash(s: State, price: int, rateBp: nat, partner: UserId, driver: UserId): Outcome<State>
  {
    var fee :- ComputeWashFee(price, rateBp);
    ChargeService(s, Service(CarWash, rateBp, 0.0, fee, partner, driver, false, Charged, []))
  }

  /** A wash's capture asks only whether its payment is captured now, not whether the wash still stands. */
  ghost function CapturePaidWash(s: State, k: nat): Outcome<State>
  {
    if k >= |s.records| || !s.records[k].Job? || !s.records[k].service.kind.CarWash? then Thrown(Refused) else
    var v := s.records[k].service;
    if v.captured then Ok(s) else
    Discharge(State(s.records[k := Job(v.(captured := true))], s.ledger),
      k, TransferFor(v.fee.partnerEarningsPaise), v.driver, v.partner, Api)
  }

  /** Reversed in full; once captured, the price is refunded, though nothing credited `refunds_payable`. */
  ghost function UndoWash(s: State, k: nat): Outcome<State>
  {
    if !IsCharged(s, k, CarWash) then Thrown(Refused) else
    var v := s.records[k].service;
    var p := ReverseEntries(Charge(v.fee, v.partner), "car wash cancellation reversal");
    var l :- Post(s.ledger, p, None, Api);
    var records := s.records[k := Job(v.(standing := Undone, captured := false, rows := AddRow(v.rows, p)))];
    var takeBack := TakeBackFor(p, TransferFor(v.fee.partnerEarningsPaise));
    Ok(State(
        if v.captured
        then Issue(records, v.fee.driverTotalPaise, Origin(Washes, k), v.driver, v.partner, takeBack)
        else records, l))
  }

  // ----- Payouts

  /** What a partner may be paid: credits less debits of their side of `owner_payable`, owners' rows left out. */
  function PartnerBalance(s: State, u: UserId): int
  {
    0 - Total(s.records, PartnerRows(u))
  }

  /** The whole balance, once it reaches the minimum. */
  ghost function PayPartner(s: State, payee: UserId, at: int, tcs: seq<DatedRate>, tds: seq<DatedRate>): Outcome<State>
  {
    var gross := PartnerBalance(s, payee);
    if gross < MINIMUM_PAYOUT_PAISE then Ok(s) else
    var p :- PayoutEntries(gross, payee, at, tcs, tds);
    var l :- Post(s.ledger, p.entries, None, Worker);
    var row := PayoutRow(payee, gross, p.tcsPaise, p.tdsPaise, p.netPaise, OnItsWay, AddRow([], p.entries));
    Ok(State(s.records + [Payout(row)], l))
  }

  predicate IsPayout(s: State, k: nat, status: PayoutStatus)
  {
    k < |s.records| && s.records[k].Payout? && s.records[k].payout.status == status
  }

  ghost function PayoutArrived(s: State, k: nat): Outcome<State>
  {
    if !IsPayout(s, k, OnItsWay) then Ok(s) else
    var p := s.records[k].payout;
    var cleared := SettlementClearedEntries(p.netPaise);
    var l :- Post(s.ledger, cleared, None, Worker);
    Ok(State(s.records[k := Payout(p.(status := Arrived, rows := AddRow(p.rows, cleared)))], l))
  }

  /** Cancelled, failed, or returned by the bank after it arrived: all that was posted is reversed. */
  ghost function PayoutFailed(s: State, k: nat, returned: bool): Outcome<State>
  {
    if !IsPayout(s, k, if returned then Arrived else OnItsWay) then Ok(s) else
    var p := s.records[k].payout;
    var reversal := ReverseEntries(Flatten(p.rows), "payout failed");
    var l :- Post(s.ledger, reversal, None, Worker);
    Ok(State(s.records[k := Payout(p.(status := Failed, rows := AddRow(p.rows, reversal)))], l))
  }

  // ----- Runs

  ghost function Step(s: State, e: Event): Outcome<State>
  {
    match e
    case Create(driver, input) => CreateBooking(s, driver, input)
    case Capture(k) => CaptureBooking(s, k)
    case Extend(k, input) => ExtendBooking(s, k, input)
    case CheckIn(k) => CheckInBooking(s, k)
    case Complete(k) => CompleteBooking(s, k)
    case AdminRefund(k, amount) => RefundByAdmin(s, k, amount)
    case Cancel(k, startsAt, at, cancelledBy) => CancelBooking(s, k, startsAt, at, cancelledBy)
    case Expire(k) => ExpireBooking(s, k)
    case OrphanCapture(k) => RefundOrphan(s, k)
    case Settle(k, amount) => SettleRefund(s, k, amount)
    case TakeBack(k, amount) => TakeShareBack(s, k, amount)
    case ClearTransfer(k) => ClearMoved(s, k)
    case ChargeValet(outbound, distance, rateBp, partner, driver) =>
      ChargeLeg(s, outbound, distance, rateBp, partner, driver)
    case ReduceValet(k) => ReduceLeg(s, k)
    case ChargeWash(price, rateBp, partner, driver) => ChargeForWash(s, price, rateBp, partner, driver)
    case CaptureWash(k) => CapturePaidWash(s, k)
    case CancelWash(k) => UndoWash(s, k)
    case PayOut(payee, at, tcs, tds) => PayPartner(s, payee, at, tcs, tds)
    case ConfirmPayout(k) => PayoutArrived(s, k)
    case FailPayout(k, returned) => PayoutFailed(s, k, returned)
  }

  /** A run: every event in turn, an aborted one leaving the state as it was. */
  ghost function Run(events: seq<Event>): State
  {
    if events == [] then INITIAL
    else
      var s := Run(events[..|events| - 1]);
      match Step(s, events[|events| - 1])
      case Ok(r) => r
      case Thrown(_) => s
  }
}
