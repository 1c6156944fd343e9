/**
 * What the platform keeps beside the ledger: bookings, services, refunds, payouts and transfers, each
 * with the postings written for it. `RecordHolds` says what those postings have done to the books.
 */
module LedgerRecords {
  import opened Outcomes
  import opened Sums
  import opened Paise
  import opened Fees
  import opened Columns
  import opened LedgerEntries
  import opened LedgerEffects
  import opened Ledger
  import opened LifeCycles
  import opened PartialRefunds
  import opened BookingRows

  // ----- Services

  datatype ServiceKind = Outbound | Return | CarWash

  /** An outbound leg may be reduced to the call-out, a wash reversed. */
  datatype Standing = Charged | Reduced(givenBackPaise: nat) | Undone

  /**
   * `chargedM` is the distance a leg was charged for, of which its row keeps only the whole metres.
   * `driver` is the driver of the parking booking the service hangs on.
   */
  datatype Service = Service(
    kind: ServiceKind,
    rateBp: nat,
    chargedM: real,
    fee: ServiceFee,
    partner: UserId,
    driver: UserId,
    captured: bool,
    standing: Standing,
    rows: seq<Posting>)

  predicate IsLeg(v: Service)
  {
    v.kind.Outbound? || v.kind.Return?
  }

  function Charge(fee: ServiceFee, partner: UserId): Posting
  {
    ServiceEntries(fee, partner, "service")
  }

  /** The fee a reduction starts from: that of the distance the row kept. */
  function StoredFee(v: Service): ServiceFee
    requires v.chargedM >= 0.0
  {
    StoredKm(v.chargedM);
    LegFee(StoredMetres(v.chargedM) as real, v.rateBp)
  }

  /** The price a service was charged at. */
  ghost predicate FeeHolds(v: Service)
  {
    && Adds(v.fee) && v.fee.partnerEarningsPaise >= 0
    && Balanced(Charge(v.fee, v.partner))
    && v.chargedM >= 0.0
    && (IsLeg(v) ==> v.rateBp <= RATE_SCALE && v.fee == LegFee(v.chargedM, v.rateBp))
  }

  /** What a service stands for in a column, once the refund its reduction decided is sent. */
  function StandingNet(v: Service, c: Column): int
    requires v.chargedM >= 0.0
  {
    match v.standing
    case Charged => Net(Charge(v.fee, v.partner), c)
    case Reduced(back) =>
      Net(Charge(CallOut(v.rateBp), v.partner), c)
      + Net(Charge(v.fee, v.partner), c) - Net(Charge(StoredFee(v), v.partner), c)
    case Undone => 0
  }

  function GivenBackBy(v: Service): nat
  {
    if v.standing.Reduced? then v.standing.givenBackPaise else 0
  }

  /**
   * A reduced leg stands for a call-out and for the difference between the fee charged and the fee
   * of the distance its row kept, which `CancelledLegIsCallOutIff` says when is nothing.
   */
  ghost predicate ServiceHolds(v: Service)
  {
    && FeeHolds(v)
    && (v.standing.Reduced? ==> v.kind.Outbound?)
    && forall c ::
         Books(v.rows, c) + Net(RefundSettledEntries(GivenBackBy(v), "refund processed"), c) == StandingNet(v, c)
  }

  // ----- Refunds

  datatype Source = Bookings | Washes | Orphans

  /** What a refund is for: the record at that place. */
  datatype Origin = Origin(source: Source, record: nat)

  /**
   * A refund to send, the share of it to take back from the transfer Route made to `whose`, and what
   * the gateway reported of each.
   */
  datatype RefundRow = RefundRow(
    amountPaise: int,
    origin: Origin,
    driver: UserId,
    whose: UserId,
    takeBackPaise: Option<nat>,
    settledPaise: Option<int>,
    takenBackPaise: Option<int>,
    rows: seq<Posting>)

  function OrphanLegs(captured: int): seq<Entry>
  {
    [ Leg(DriverReceivable, Debit, captured, "capture against a booking that no longer exists"),
      Leg(RefundsPayable, Credit, captured, "capture against a booking that no longer exists") ]
  }

  /** Only an orphaned capture posts its own liability; the others were posted by what they refund. */
  function OpeningNet(f: RefundRow, c: Column): int
  {
    if f.origin.source.Orphans? then Net(Stamp(OrphanLegs(f.amountPaise), Some(f.driver)), c) else 0
  }

  function SettledNetOf(f: RefundRow, c: Column): int
  {
    match f.settledPaise
    case None => 0
    case Some(sent) => Net(Stamp(RefundSettledEntries(sent, "refund processed"), Some(f.driver)), c)
  }

  function TakenBackNet(f: RefundRow, c: Column): int
  {
    match f.takenBackPaise
    case None => 0
    case Some(taken) => Net(RouteReversalEntries(taken, f.whose), c)
  }

  ghost predicate RefundRowHolds(f: RefundRow)
  {
    && f.amountPaise > 0 && (f.settledPaise.Some? ==> f.settledPaise.value > 0)
    && forall c :: Books(f.rows, c) == OpeningNet(f, c) + SettledNetOf(f, c) + TakenBackNet(f, c)
  }

  function Sent(f: RefundRow): int
  {
    if f.settledPaise.Some? then f.settledPaise.value else 0
  }

  // ----- Payouts

  datatype PayoutStatus = OnItsWay | Arrived | Failed

  datatype PayoutRow = PayoutRow(
    payee: UserId,
    grossPaise: nat,
    tcsPaise: nat,
    tdsPaise: nat,
    netPaise: nat,
    status: PayoutStatus,
    rows: seq<Posting>)

  function PayoutPaid(p: PayoutRow): Posting
  {
    Compose(PayoutLegs(p.grossPaise, p.netPaise, p.tcsPaise, p.tdsPaise, p.payee))
  }

  ghost predicate PayoutHolds(p: PayoutRow)
  {
    && p.rows != [] && (forall q :: q in p.rows ==> Balanced(q))
    && match p.status
       case OnItsWay => forall c :: Books(p.rows, c) == Net(PayoutPaid(p), c)
       case Arrived =>
         forall c :: Books(p.rows, c) == Net(PayoutPaid(p), c) + Net(SettlementClearedEntries(p.netPaise), c)
       case Failed => forall c :: Books(p.rows, c) == 0
  }

  /** Everything posted against a payout, as one list of entries. */
  function Flatten(rows: seq<Posting>): Posting
  {
    if rows == [] then [] else Flatten(rows[..|rows| - 1]) + rows[|rows| - 1]
  }

  lemma {:induction false} FlattenNet(rows: seq<Posting>, c: Column)
    ensures Net(Flatten(rows), c) == Books(rows, c)
  {
    if rows == [] {
    } else {
      var n := |rows| - 1;
      FlattenNet(rows[..n], c);
      NetConcat(Flatten(rows[..n]), rows[n], c);
      BooksAppend(rows[..n], rows[n], c);
      assert rows == rows[..n] + [rows[n]];
    }
  }

  lemma {:induction false} FlattenBalanced(rows: seq<Posting>)
    requires rows != [] && forall p :: p in rows ==> Balanced(p)
    ensures Balanced(Flatten(rows))
  {
    var n := |rows| - 1;
    assert rows[n] in rows;
    NetConcat(Flatten(rows[..n]), rows[n], Everything);
    if n == 0 {
      assert Flatten(rows[..n]) == [];
    } else {
      FlattenBalanced(rows[..n]);
    }
  }

  // ----- Transfers

  /**
   * What the capture of the payment for the record at `paidFor` was said to move to `whose`: a booking
   * of `driver`, or a service hanging on one.
   */
  datatype TransferRow = TransferRow(
    paidFor: nat, driver: UserId, whose: UserId, amountPaise: nat, cleared: bool, rows: seq<Posting>)

  ghost predicate TransferHolds(t: TransferRow)
  {
    && t.amountPaise > 0
    && forall c ::
         Books(t.rows, c)
         == Net(RouteDischargeEntries(t.amountPaise, t.whose), c)
            + (if t.cleared then Net(SettlementClearedEntries(t.amountPaise), c) else 0)
  }

  // ----- Records

  datatype Record =
    | Parking(booking: Booking)
    | Job(service: Service)
    | Refund(refund: RefundRow)
    | Payout(payout: PayoutRow)
    | Transfer(transfer: TransferRow)

  function RowsOf(r: Record): seq<Posting>
  {
    match r
    case Parking(b) => b.rows
    case Job(v) => v.rows
    case Refund(f) => f.rows
    case Payout(p) => p.rows
    case Transfer(t) => t.rows
  }

  ghost predicate RecordHolds(r: Record)
  {
    match r
    case Parking(b) => BookingHolds(b)
    case Job(v) => ServiceHolds(v)
    case Refund(f) => RefundRowHolds(f)
    case Payout(p) => PayoutHolds(p)
    case Transfer(t) => TransferHolds(t)
  }

  /** Rows stamped with the driver of the booking they are under belong to the space owner. */
  predicate OwnerSide(r: Record)
  {
    match r
    case Parking(_) => true
    case Job(v) => v.partner == v.driver
    case Refund(f) => f.whose == f.driver
    case Payout(_) => false
    case Transfer(t) => t.whose == t.driver
  }

  /** What a record has decided to send back: a booking by its own postings, or as an orphaned capture. */
  function DecidedFor(r: Record, source: Source): int
  {
    if !r.Parking? then 0
    else match source
         case Bookings => DecidedBy(r.booking)
         case Orphans => OrphanedBy(r.booking)
         case Washes => 0
  }

  // ----- Totals over the records

  /** What a record can be asked for: its effect on a column, its postings, or the refunds it stands for. */
  datatype Quantity =
    | OnBooks(column: Column)
    | CopiesOf(posting: Posting)
    | PartnerRows(partner: UserId)   // a partner's side of `owner_payable`, owners' rows left out
    | Payable(whose: Option<UserId>) // what a side of `owner_payable` should hold
    | PartnerDue(partner: UserId)    // the same, owners' rows left out
    | Decided                        // what bookings' own postings owe back
    | Goodwill
    | GivenBack                      // by legs reduced to the call-out
    | Issued(source: Source)
    | IssuedTo(origin: Origin)
    | Settled                        // as the gateway reported it
    | Waiting                        // issued, and not settled yet
    | Short                          // asked for, less what the gateway sent

  /** What a record holds on one side of `owner_payable`, from its state alone; debits are positive. */
  function PayableOf(r: Record, w: Option<UserId>): int
  {
    match r
    case Parking(b) => if w == Some(b.driver) then OwnerHolds(b) else 0
    case Job(v) => if w == Some(v.partner) then 0 - EarnedBy(v) else 0
    case Refund(f) => if w == Some(f.whose) then 0 - TakenBackBy(f) else 0
    case Payout(p) => if w == Some(p.payee) && !p.status.Failed? then p.grossPaise else 0
    case Transfer(t) => if w == Some(t.whose) then t.amountPaise else 0
  }

  /** An owner's credit while the booking stands, less what refunds took of it. */
  function OwnerHolds(b: Booking): int
  {
    var taken := Taken(b.totals, b.refunds);
    taken.owner + taken.waiver - (if Stands(b) then b.totals.ownerEarningsPaise else 0)
  }

  function EarnedBy(v: Service): int
  {
    match v.standing
    case Charged => v.fee.partnerEarningsPaise
    case Undone => 0
    case Reduced(_) =>
      if v.chargedM >= 0.0
      then CallOut(v.rateBp).partnerEarningsPaise + v.fee.partnerEarningsPaise - StoredFee(v).partnerEarningsPaise
      else 0
  }

  function TakenBackBy(f: RefundRow): int
  {
    if f.takenBackPaise.Some? && f.takenBackPaise.value > 0 then f.takenBackPaise.value else 0
  }

  function Amount(r: Record, q: Quantity): int
  {
    match q
    case OnBooks(c) => Books(RowsOf(r), c)
    case CopiesOf(p) => multiset(RowsOf(r))[p]
    case PartnerRows(u) => if OwnerSide(r) then 0 else Books(RowsOf(r), Side(OwnerPayable, Some(u)))
    case Payable(w) => PayableOf(r, w)
    case PartnerDue(u) => if OwnerSide(r) then 0 else PayableOf(r, Some(u))
    case Decided => DecidedFor(r, Bookings)
    case Goodwill => if r.Parking? && r.booking.phase.Reversed? then r.booking.phase.goodwillPaise else 0
    case GivenBack => if r.Job? then GivenBackBy(r.service) else 0
    case Issued(source) => if r.Refund? && r.refund.origin.source == source then r.refund.amountPaise else 0
    case IssuedTo(o) => if r.Refund? && r.refund.origin == o then r.refund.amountPaise else 0
    case Settled => if r.Refund? then Sent(r.refund) else 0
    case Waiting => if r.Refund? && r.refund.settledPaise.None? then r.refund.amountPaise else 0
    case Short =>
      if r.Refund? && r.refund.settledPaise.Some? then r.refund.amountPaise - r.refund.settledPaise.value else 0
  }

  function Total(records: seq<Record>, q: Quantity): int
  {
    if records == [] then 0
    else Total(records[..|records| - 1], q) + Amount(records[|records| - 1], q)
  }

  lemma TotalAppend(records: seq<Record>, r: Record, q: Quantity)
    ensures Total(records + [r], q) == Total(records, q) + Amount(r, q)
  {
    assert (records + [r])[..|records|] == records;
  }

  lemma {:induction false} TotalUpdate(records: seq<Record>, k: nat, r: Record, q: Quantity)
    requires k < |records|
    ensures Total(records[k := r], q) == Total(records, q) - Amount(records[k], q) + Amount(r, q)
  {
    var n := |records| - 1;
    if k == n {
      assert records[k := r][..n] == records[..n];
    } else {
      assert records[k := r][..n] == records[..n][k := r];
      TotalUpdate(records[..n], k, r, q);
    }
  }

  /** A record accounts for no more copies of a posting than all of them do. */
  lemma {:induction false} CopiesWithinTotal(records: seq<Record>, k: nat, p: Posting)
    requires k < |records|
    ensures Amount(records[k], CopiesOf(p)) <= Total(records, CopiesOf(p))
  {
    var n := |records| - 1;
    CopiesNotNegative(records[..n], p);
    if k == n {
    } else {
      CopiesWithinTotal(records[..n], k, p);
    }
  }

  lemma {:induction false} CopiesNotNegative(records: seq<Record>, p: Posting)
    ensures Total(records, CopiesOf(p)) >= 0
  {
    if records == [] {
    } else {
      CopiesNotNegative(records[..|records| - 1], p);
    }
  }

  // ----- What the records owe the drivers

  lemma OrphanNet(captured: nat, c: Column)
    ensures Net(OrphanLegs(captured), c)
      == Effect(OrphanLegs(captured)[0], c) + Effect(OrphanLegs(captured)[1], c)
  {
    assert NetUpTo(OrphanLegs(captured), 1, c) == Effect(OrphanLegs(captured)[0], c);
  }

  lemma LegAdds(distanceM: real, rateBp: nat)
    requires 0.0 <= distanceM && rateBp <= RATE_SCALE
    ensures Adds(LegFee(distanceM, rateBp)) && LegFee(distanceM, rateBp).partnerEarningsPaise >= 0
    ensures LegFee(distanceM, rateBp).driverTotalPaise > 0
  {
    ValetFeeMonotone(distanceM, distanceM, rateBp);
  }

  lemma ServiceNetOnRefunds(fee: ServiceFee, partner: UserId)
    requires fee.partnerEarningsPaise >= 0
    ensures Net(Charge(fee, partner), Whole(RefundsPayable)) == 0
  {
    ServiceNet(fee, partner, "service", Whole(RefundsPayable));
  }

  lemma StandingOwesNothing(v: Service)
    requires FeeHolds(v) && (v.standing.Reduced? ==> v.kind.Outbound?)
    ensures StandingNet(v, Whole(RefundsPayable)) == 0
  {
    ServiceNetOnRefunds(v.fee, v.partner);
    if v.standing.Reduced? {
      StoredKm(v.chargedM);
      LegAdds(StoredMetres(v.chargedM) as real, v.rateBp);
      LegAdds(0.0, v.rateBp);
      ServiceNetOnRefunds(StoredFee(v), v.partner);
      ServiceNetOnRefunds(CallOut(v.rateBp), v.partner);
    }
  }

  lemma ServiceOwes(v: Service)
    requires ServiceHolds(v)
    ensures OwesItsShare(Job(v))
  {
    SettledNet(GivenBackBy(v), Whole(RefundsPayable));
    StandingOwesNothing(v);
    assert Books(v.rows, Whole(RefundsPayable))
      + Net(RefundSettledEntries(GivenBackBy(v), "refund processed"), Whole(RefundsPayable))
      == StandingNet(v, Whole(RefundsPayable));
  }

  lemma PayoutOwes(p: PayoutRow)
    requires PayoutHolds(p)
    ensures OwesItsShare(Payout(p))
  {
    PayoutNetOnRefunds(p);
    ClearedNetOnRefunds(p.netPaise);
  }

  lemma PayoutNetOnRefunds(p: PayoutRow)
    ensures Net(PayoutPaid(p), Whole(RefundsPayable)) == 0
  {
    NetOfLegs(PayoutLegs(p.grossPaise, p.netPaise, p.tcsPaise, p.tdsPaise, p.payee), Whole(RefundsPayable));
  }

  lemma ClearedNetOnRefunds(amount: nat)
    ensures Net(SettlementClearedEntries(amount), Whole(RefundsPayable)) == 0
  {
    NetOfLegs(SettlementClearedLegs(amount), Whole(RefundsPayable));
  }

  lemma TransferOwes(t: TransferRow)
    requires TransferHolds(t)
    ensures OwesItsShare(Transfer(t))
  {
    TransfersBalance(t.amountPaise, t.whose, "");
  }

  lemma BookingOwes(b: Booking)
    requires BookingHolds(b)
    ensures OwesItsShare(Parking(b))
  {
    RowsOwe(b.rows, b.totals, b.phase, Taken(b.totals, b.refunds), Sum(b.refunds));
  }

  lemma RowsOwe(rows: seq<Posting>, t: ReceivableTotals, phase: Phase, taken: RefundSplit, refunded: int)
    requires RowsGive(rows, t, phase, taken, refunded)
    ensures Books(rows, Whole(RefundsPayable)) + refunded
      + (if phase.Reversed? then phase.refundPaise + phase.goodwillPaise else 0) == 0
  {
    assert Books(rows, Whole(RefundsPayable))
      == StandingEffect(t, phase, RefundsPayable) + RefundEffect(taken, refunded, RefundsPayable);
  }

  lemma SentOnRefunds(f: RefundRow)
    requires f.settledPaise.Some? ==> f.settledPaise.value > 0
    ensures SettledNetOf(f, Whole(RefundsPayable)) == Sent(f)
  {
    if f.settledPaise.Some? {
      StampKeepsAccounts(RefundSettledEntries(f.settledPaise.value, "refund processed"), Some(f.driver),
        Whole(RefundsPayable));
      SettledNet(f.settledPaise.value, Whole(RefundsPayable));
    }
  }

  lemma OpenedOnRefunds(f: RefundRow)
    requires f.amountPaise > 0
    ensures OpeningNet(f, Whole(RefundsPayable)) + (if f.origin.source.Orphans? then f.amountPaise else 0) == 0
  {
    StampKeepsAccounts(OrphanLegs(f.amountPaise), Some(f.driver), Whole(RefundsPayable));
    OrphanNet(f.amountPaise, Whole(RefundsPayable));
  }

  lemma TakenBackOnRefunds(f: RefundRow)
    ensures TakenBackNet(f, Whole(RefundsPayable)) == 0
  {
    if f.takenBackPaise.Some? {
      if f.takenBackPaise.value <= 0 {
        NothingToMove(f.takenBackPaise.value, f.whose, "");
      } else {
        TransfersBalance(f.takenBackPaise.value, f.whose, "");
      }
    }
  }

  lemma RefundOwes(f: RefundRow)
    requires RefundRowHolds(f)
    ensures OwesItsShare(Refund(f))
  {
    OpenedOnRefunds(f);
    SentOnRefunds(f);
    TakenBackOnRefunds(f);
    assert Books(f.rows, Whole(RefundsPayable)) == OpeningNet(f, Whole(RefundsPayable))
      + SettledNetOf(f, Whole(RefundsPayable)) + TakenBackNet(f, Whole(RefundsPayable));
  }

  /** A record's share of `refunds_payable`: what it decided, gave or opened, less what was sent. */
  ghost predicate OwesItsShare(r: Record)
  {
    Amount(r, OnBooks(Whole(RefundsPayable))) + Amount(r, Decided) + Amount(r, Goodwill)
    + Amount(r, GivenBack) + Amount(r, Issued(Orphans)) == Amount(r, Settled)
  }

  lemma RecordOwes(r: Record)
    requires RecordHolds(r)
    ensures OwesItsShare(r)
  {
    match r
    case Parking(b) => BookingOwes(b);
    case Job(v) => ServiceOwes(v);
    case Refund(f) => RefundOwes(f);
    case Payout(p) => PayoutOwes(p);
    case Transfer(t) => TransferOwes(t);
  }

  /** An issued refund is waiting, or settled with what the gateway sent. */
  lemma RecordIssues(r: Record)
    ensures Amount(r, Issued(Bookings)) + Amount(r, Issued(Washes)) + Amount(r, Issued(Orphans))
      == Amount(r, Settled) + Amount(r, Short) + Amount(r, Waiting)
  {
  }

  lemma {:induction false} RecordsOwe(records: seq<Record>)
    requires forall r :: r in records ==> RecordHolds(r)
    ensures Total(records, OnBooks(Whole(RefundsPayable))) + Total(records, Decided) + Total(records, Goodwill)
      + Total(records, GivenBack) + Total(records, Issued(Orphans)) == Total(records, Settled)
    ensures Total(records, Issued(Bookings)) + Total(records, Issued(Washes)) + Total(records, Issued(Orphans))
      == Total(records, Settled) + Total(records, Short) + Total(records, Waiting)
  {
    if records == [] {
    } else {
      var n := |records| - 1;
      RecordsOwe(records[..n]);
      RecordOwes(records[n]);
      RecordIssues(records[n]);
    }
  }

  // ----- What the records owe owners and partners

  lemma BookingPays(b: Booking, w: Option<UserId>)
    requires BookingHolds(b)
    ensures Books(b.rows, Side(OwnerPayable, w)) == PayableOf(Parking(b), w)
  {
    RowsPay(b.rows, b.totals, b.phase, Taken(b.totals, b.refunds), Sum(b.refunds));
    assert Books(b.rows, Side(OwnerPayable, w))
      == if w == Some(b.driver) then Books(b.rows, Whole(OwnerPayable)) else 0;
  }

  lemma RowsPay(rows: seq<Posting>, t: ReceivableTotals, phase: Phase, taken: RefundSplit, refunded: int)
    requires RowsGive(rows, t, phase, taken, refunded)
    ensures Books(rows, Whole(OwnerPayable))
      == taken.owner + taken.waiver - (if phase.Live? || phase.Over? then t.ownerEarningsPaise else 0)
  {
    assert Books(rows, Whole(OwnerPayable))
      == StandingEffect(t, phase, OwnerPayable) + RefundEffect(taken, refunded, OwnerPayable);
  }

  lemma ChargePays(fee: ServiceFee, partner: UserId, w: Option<UserId>)
    requires fee.partnerEarningsPaise >= 0
    ensures Net(Charge(fee, partner), Side(OwnerPayable, w))
      == if w == Some(partner) then -fee.partnerEarningsPaise else 0
  {
    ServiceSides(fee, partner, "service", OwnerPayable, w);
  }

  lemma ServicePays(v: Service, w: Option<UserId>)
    requires ServiceHolds(v)
    ensures Books(v.rows, Side(OwnerPayable, w)) == PayableOf(Job(v), w)
  {
    SettledNet(GivenBackBy(v), Side(OwnerPayable, w));
    ChargePays(v.fee, v.partner, w);
    if v.standing.Reduced? {
      StoredKm(v.chargedM);
      LegAdds(StoredMetres(v.chargedM) as real, v.rateBp);
      LegAdds(0.0, v.rateBp);
      ChargePays(StoredFee(v), v.partner, w);
      ChargePays(CallOut(v.rateBp), v.partner, w);
    }
    assert Books(v.rows, Side(OwnerPayable, w))
      + Net(RefundSettledEntries(GivenBackBy(v), "refund processed"), Side(OwnerPayable, w))
      == StandingNet(v, Side(OwnerPayable, w));
  }

  lemma StampedPays(f: RefundRow, w: Option<UserId>)
    requires f.amountPaise > 0
    requires f.settledPaise.Some? ==> f.settledPaise.value > 0
    ensures OpeningNet(f, Side(OwnerPayable, w)) == 0
    ensures SettledNetOf(f, Side(OwnerPayable, w)) == 0
  {
    StampedSideUpTo(OrphanLegs(f.amountPaise), f.driver, OwnerPayable, w, 2);
    OrphanNet(f.amountPaise, Whole(OwnerPayable));
    if f.settledPaise.Some? {
      StampedSide(RefundSettledLegs(f.settledPaise.value, "refund processed"), f.driver, OwnerPayable, w);
      SettledNet(f.settledPaise.value, Whole(OwnerPayable));
    }
  }

  lemma TakenBackPays(f: RefundRow, w: Option<UserId>)
    ensures TakenBackNet(f, Side(OwnerPayable, w)) == if w == Some(f.whose) then 0 - TakenBackBy(f) else 0
  {
    if f.takenBackPaise.Some? {
      if f.takenBackPaise.value <= 0 {
        NothingToMove(f.takenBackPaise.value, f.whose, "");
      } else {
        TakeBackNet(f.takenBackPaise.value, f.whose, Side(OwnerPayable, w));
      }
    }
  }

  lemma RefundPays(f: RefundRow, w: Option<UserId>)
    requires RefundRowHolds(f)
    ensures Books(f.rows, Side(OwnerPayable, w)) == PayableOf(Refund(f), w)
  {
    StampedPays(f, w);
    TakenBackPays(f, w);
    assert Books(f.rows, Side(OwnerPayable, w)) == OpeningNet(f, Side(OwnerPayable, w))
      + SettledNetOf(f, Side(OwnerPayable, w)) + TakenBackNet(f, Side(OwnerPayable, w));
  }

  lemma PayoutPays(p: PayoutRow, w: Option<UserId>)
    requires PayoutHolds(p)
    ensures Books(p.rows, Side(OwnerPayable, w)) == PayableOf(Payout(p), w)
  {
    NetOfLegs(PayoutLegs(p.grossPaise, p.netPaise, p.tcsPaise, p.tdsPaise, p.payee), Side(OwnerPayable, w));
    NetOfLegs(SettlementClearedLegs(p.netPaise), Side(OwnerPayable, w));
  }

  lemma TransferPays(t: TransferRow, w: Option<UserId>)
    requires TransferHolds(t)
    ensures Books(t.rows, Side(OwnerPayable, w)) == PayableOf(Transfer(t), w)
  {
    NetOfLegs(RouteDischargeLegs(t.amountPaise, t.whose), Side(OwnerPayable, w));
    NetOfLegs(SettlementClearedLegs(t.amountPaise), Side(OwnerPayable, w));
  }

  /** What each record holds on each side of `owner_payable`. */
  lemma RecordPays(r: Record, w: Option<UserId>)
    requires RecordHolds(r)
    ensures Books(RowsOf(r), Side(OwnerPayable, w)) == PayableOf(r, w)
  {
    match r
    case Parking(b) => BookingPays(b, w);
    case Job(v) => ServicePays(v, w);
    case Refund(f) => RefundPays(f, w);
    case Payout(p) => PayoutPays(p, w);
    case Transfer(t) => TransferPays(t, w);
  }

  lemma {:induction false} RecordsPay(records: seq<Record>, w: Option<UserId>)
    requires forall r :: r in records ==> RecordHolds(r)
    ensures Total(records, OnBooks(Side(OwnerPayable, w))) == Total(records, Payable(w))
  {
    if records == [] {
    } else {
      var n := |records| - 1;
      RecordsPay(records[..n], w);
      RecordPays(records[n], w);
    }
  }

  lemma {:induction false} PartnersAreDue(records: seq<Record>, u: UserId)
    requires forall r :: r in records ==> RecordHolds(r)
    ensures Total(records, PartnerRows(u)) == Total(records, PartnerDue(u))
  {
    if records == [] {
    } else {
      var n := |records| - 1;
      PartnersAreDue(records[..n], u);
      RecordPays(records[n], Some(u));
    }
  }
}
