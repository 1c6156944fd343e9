/** Why each step of the ledger machine keeps the books: what it writes is filed with the record it is for. */
module LedgerSteps {
  import opened Outcomes
  import opened Rounding
  import opened Sums
  import opened Paise
  import opened Rates
  import opened Quotes
  import opened RefundPolicy
  import opened Fees
  import opened Columns
  import opened LedgerEntries
  import opened LedgerEffects
  import opened Ledger
  import opened LifeCycles
  import opened BookingRows
  import opened LedgerRecords
  import opened LedgerMachine

  // ----- What every run keeps

  /** The ledger is exactly what was written for the records, posting by posting and column by column. */
  ghost predicate Accounted(s: State)
  {
    && (forall p :: multiset(s.ledger)[p] == Total(s.records, CopiesOf(p)))
    && (forall c :: Books(s.ledger, c) == Total(s.records, OnBooks(c)))
  }

  function DecidedAt(records: seq<Record>, o: Origin): int
  {
    if o.record < |records| then DecidedFor(records[o.record], o.source) else 0
  }

  /** What a booking has decided to refund, less what has been issued for it. */
  function Unissued(records: seq<Record>, o: Origin): int
  {
    DecidedAt(records, o) - Total(records, IssuedTo(o))
  }

  /** Every booking has issued what it decided, but for `amount` still to be issued by one of them. */
  ghost predicate Owing(records: seq<Record>, k: nat, amount: int)
  {
    && Total(records, Decided) - Total(records, Issued(Bookings)) == amount
    && forall o: Origin :: !o.source.Washes? ==>
         Unissued(records, o) == if o == Origin(Bookings, k) then amount else 0
  }

  ghost predicate Stored(s: State)
  {
    && (forall p :: p in s.ledger ==> Balanced(p))
    && Books(s.ledger, Everything) == 0
    && (forall r :: r in s.records ==> RecordHolds(r))
    && Accounted(s)
  }

  ghost predicate Holds(s: State)
  {
    Stored(s) && Owing(s.records, 0, 0)
  }

  /** A step grows the ledger and keeps everything, or aborts: `fires` says whether the balance check did it. */
  ghost predicate Keeps(s: State, r: Outcome<State>, fires: bool)
  {
    && (r.Ok? ==> Holds(r.value) && s.ledger <= r.value.ledger)
    && (r == Thrown(UnbalancedPosting) <==> fires)
  }

  /** A posting written for a record: the ledger and the record's rows grow by the same. */
  lemma Posted(ledger: seq<Posting>, p: Posting, whose: Option<UserId>, c: Column)
    requires Postable(p)
    ensures Books(AddRow(ledger, Stamp(p, whose)), c) == Books(ledger, c) + Net(Stamp(p, whose), c)
    ensures p != [] ==> Balanced(Stamp(p, whose))
  {
    if p == [] {
      assert Stamp(p, whose) == [];
    } else {
      StampKeepsAccounts(p, whose, Everything);
      BooksAppend(ledger, Stamp(p, whose), c);
    }
  }

  function RowCount(stamped: Posting, p: Posting): nat
  {
    if stamped != [] && stamped == p then 1 else 0
  }

  lemma CopiesAdded(rows: seq<Posting>, stamped: Posting, p: Posting)
    ensures multiset(AddRow(rows, stamped))[p] == multiset(rows)[p] + RowCount(stamped, p)
  {
  }

  ghost predicate LedgerGrown(s: State, ledger: seq<Posting>, p: Posting, whose: Option<UserId>)
  {
    && (forall q :: q in ledger ==> Balanced(q))
    && Books(ledger, Everything) == 0
    && s.ledger <= ledger
    && (forall q :: multiset(ledger)[q] == multiset(s.ledger)[q] + RowCount(Stamp(p, whose), q))
    && (forall c :: Books(ledger, c) == Books(s.ledger, c) + Net(Stamp(p, whose), c))
  }

  lemma LedgerGrows(s: State, p: Posting, whose: Option<UserId>)
    requires Stored(s) && Postable(p)
    ensures LedgerGrown(s, AddRow(s.ledger, Stamp(p, whose)), p, whose)
  {
    var ledger := AddRow(s.ledger, Stamp(p, whose));
    forall q
      ensures multiset(ledger)[q] == multiset(s.ledger)[q] + RowCount(Stamp(p, whose), q)
    {
      CopiesAdded(s.ledger, Stamp(p, whose), q);
    }
    forall c
      ensures Books(ledger, c) == Books(s.ledger, c) + Net(Stamp(p, whose), c)
    {
      Posted(s.ledger, p, whose, c);
    }
    StampKeepsAccounts(p, whose, Everything);
    Posted(s.ledger, p, whose, Everything);
  }

  ghost predicate RowsGrown(before: seq<Posting>, rows: seq<Posting>, p: Posting, whose: Option<UserId>)
  {
    && (forall q :: multiset(rows)[q] == multiset(before)[q] + RowCount(Stamp(p, whose), q))
    && (forall c :: Books(rows, c) == Books(before, c) + Net(Stamp(p, whose), c))
  }

  lemma RowsGrow(rows: seq<Posting>, p: Posting, whose: Option<UserId>)
    requires Postable(p)
    ensures RowsGrown(rows, AddRow(rows, Stamp(p, whose)), p, whose)
  {
    forall q
      ensures multiset(AddRow(rows, Stamp(p, whose)))[q] == multiset(rows)[q] + RowCount(Stamp(p, whose), q)
    {
      CopiesAdded(rows, Stamp(p, whose), q);
    }
    forall c
      ensures Books(AddRow(rows, Stamp(p, whose)), c) == Books(rows, c) + Net(Stamp(p, whose), c)
    {
      Posted(rows, p, whose, c);
    }
  }

  /** A new record, with its first posting. */
  lemma RecordAdded(s: State, r: Record, p: Posting, whose: Option<UserId>)
    requires Stored(s) && Postable(p) && RecordHolds(r) && RowsOf(r) == AddRow([], Stamp(p, whose))
    ensures Stored(State(s.records + [r], AddRow(s.ledger, Stamp(p, whose))))
    ensures s.ledger <= AddRow(s.ledger, Stamp(p, whose))
  {
    LedgerGrows(s, p, whose);
    RowsGrow([], p, whose);
    AddedIsAccounted(s, r, AddRow(s.ledger, Stamp(p, whose)), p, whose);
  }

  lemma AddedIsAccounted(s: State, r: Record, ledger: seq<Posting>, p: Posting, whose: Option<UserId>)
    requires Accounted(s) && LedgerGrown(s, ledger, p, whose) && RowsGrown([], RowsOf(r), p, whose)
    ensures Accounted(State(s.records + [r], ledger))
  {
    forall q
      ensures multiset(ledger)[q] == Total(s.records + [r], CopiesOf(q))
    {
      TotalAppend(s.records, r, CopiesOf(q));
    }
    forall c
      ensures Books(ledger, c) == Total(s.records + [r], OnBooks(c))
    {
      TotalAppend(s.records, r, OnBooks(c));
    }
  }

  /** A record replaced by itself with one more posting. */
  lemma RecordChanged(s: State, k: nat, r: Record, p: Posting, whose: Option<UserId>)
    requires Stored(s) && k < |s.records| && Postable(p) && RecordHolds(r)
    requires RowsOf(r) == AddRow(RowsOf(s.records[k]), Stamp(p, whose))
    ensures Stored(State(s.records[k := r], AddRow(s.ledger, Stamp(p, whose))))
    ensures s.ledger <= AddRow(s.ledger, Stamp(p, whose))
  {
    LedgerGrows(s, p, whose);
    RowsGrow(RowsOf(s.records[k]), p, whose);
    ChangedIsAccounted(s, k, r, AddRow(s.ledger, Stamp(p, whose)), p, whose);
  }

  lemma ChangedIsAccounted(s: State, k: nat, r: Record, ledger: seq<Posting>, p: Posting, whose: Option<UserId>)
    requires k < |s.records| && Accounted(s)
    requires LedgerGrown(s, ledger, p, whose) && RowsGrown(RowsOf(s.records[k]), RowsOf(r), p, whose)
    ensures Accounted(State(s.records[k := r], ledger))
  {
    forall q
      ensures multiset(ledger)[q] == Total(s.records[k := r], CopiesOf(q))
    {
      TotalUpdate(s.records, k, r, CopiesOf(q));
    }
    forall c
      ensures Books(ledger, c) == Total(s.records[k := r], OnBooks(c))
    {
      TotalUpdate(s.records, k, r, OnBooks(c));
    }
  }

  // ----- What bookings decide and issue

  ghost predicate DecidesAs(a: Record, b: Record)
  {
    && DecidedFor(a, Bookings) == DecidedFor(b, Bookings)
    && DecidedFor(a, Orphans) == DecidedFor(b, Orphans)
    && a.Refund? == b.Refund?
    && (a.Refund? ==> a.refund.origin == b.refund.origin && a.refund.amountPaise == b.refund.amountPaise)
  }

  ghost predicate DecidesNothing(r: Record)
  {
    DecidedFor(r, Bookings) == 0 && DecidedFor(r, Orphans) == 0 && (r.Refund? ==> r.refund.origin.source.Washes?)
  }

  /** A record that decides nothing, and is not a booking's refund, disturbs no booking. */
  lemma OwingAdd(records: seq<Record>, r: Record, k: nat, amount: int)
    requires Owing(records, k, amount) && DecidesNothing(r)
    ensures Owing(records + [r], k, amount)
  {
    TotalAppend(records, r, Decided);
    TotalAppend(records, r, Issued(Bookings));
    forall o: Origin | !o.source.Washes?
      ensures Unissued(records + [r], o) == if o == Origin(Bookings, k) then amount else 0
    {
      TotalAppend(records, r, IssuedTo(o));
      assert Unissued(records, o) == if o == Origin(Bookings, k) then amount else 0;
    }
  }

  /** A booking's refund settles what it had decided. */
  lemma OwingIssued(records: seq<Record>, f: RefundRow, k: nat)
    requires Owing(records, k, f.amountPaise) && f.origin == Origin(Bookings, k)
    ensures Owing(records + [Refund(f)], 0, 0)
  {
    TotalAppend(records, Refund(f), Decided);
    TotalAppend(records, Refund(f), Issued(Bookings));
    forall o: Origin | !o.source.Washes?
      ensures Unissued(records + [Refund(f)], o) == 0
    {
      TotalAppend(records, Refund(f), IssuedTo(o));
      assert Unissued(records, o) == if o == Origin(Bookings, k) then f.amountPaise else 0;
    }
  }

  /** A record that stands for the same decision and the same refund as before. */
  lemma OwingKept(records: seq<Record>, j: nat, r: Record, k: nat, amount: int)
    requires Owing(records, k, amount) && j < |records| && DecidesAs(records[j], r)
    ensures Owing(records[j := r], k, amount)
  {
    var after := records[j := r];
    TotalUpdate(records, j, r, Decided);
    TotalUpdate(records, j, r, Issued(Bookings));
    forall o: Origin | !o.source.Washes?
      ensures Unissued(after, o) == if o == Origin(Bookings, k) then amount else 0
    {
      TotalUpdate(records, j, r, IssuedTo(o));
      assert Unissued(records, o) == if o == Origin(Bookings, k) then amount else 0;
    }
  }

  /** A booking that decides `amount` more owes it until it is issued. */
  lemma OwingDecided(records: seq<Record>, k: nat, r: Booking, amount: int)
    requires Owing(records, 0, 0) && k < |records| && records[k].Parking?
    requires DecidedBy(r) == DecidedBy(records[k].booking) + amount
    requires OrphanedBy(r) == OrphanedBy(records[k].booking)
    ensures Owing(records[k := Parking(r)], k, amount)
  {
    var after := records[k := Parking(r)];
    TotalUpdate(records, k, Parking(r), Decided);
    TotalUpdate(records, k, Parking(r), Issued(Bookings));
    forall o: Origin | !o.source.Washes?
      ensures Unissued(after, o) == if o == Origin(Bookings, k) then amount else 0
    {
      TotalUpdate(records, k, Parking(r), IssuedTo(o));
      assert Unissued(records, o) == 0;
    }
  }

  /** A booking's payment that goes back as an orphan's is issued as it is decided. */
  lemma OwingOrphaned(records: seq<Record>, k: nat, r: Booking, f: RefundRow)
    requires Owing(records, 0, 0) && k < |records| && records[k].Parking?
    requires DecidedBy(r) == DecidedBy(records[k].booking) && f.origin == Origin(Orphans, k)
    requires OrphanedBy(r) == OrphanedBy(records[k].booking) + f.amountPaise
    ensures Owing(records[k := Parking(r)] + [Refund(f)], 0, 0)
  {
    var changed := records[k := Parking(r)];
    var after := changed + [Refund(f)];
    TotalUpdate(records, k, Parking(r), Decided);
    TotalUpdate(records, k, Parking(r), Issued(Bookings));
    TotalAppend(changed, Refund(f), Decided);
    TotalAppend(changed, Refund(f), Issued(Bookings));
    forall o: Origin | !o.source.Washes?
      ensures Unissued(after, o) == 0
    {
      TotalUpdate(records, k, Parking(r), IssuedTo(o));
      TotalAppend(changed, Refund(f), IssuedTo(o));
      assert Unissued(records, o) == 0;
    }
  }

  /** Adding, or changing, a record that decides nothing keeps everything. */
  lemma AddingKeeps(s: State, r: Record, p: Posting, whose: Option<UserId>)
    requires Holds(s) && Postable(p) && RecordHolds(r) && RowsOf(r) == AddRow([], Stamp(p, whose))
    requires DecidesNothing(r)
    ensures Holds(State(s.records + [r], AddRow(s.ledger, Stamp(p, whose))))
    ensures s.ledger <= AddRow(s.ledger, Stamp(p, whose))
  {
    RecordAdded(s, r, p, whose);
    OwingAdd(s.records, r, 0, 0);
  }

  lemma ChangingKeeps(s: State, k: nat, r: Record, p: Posting, whose: Option<UserId>)
    requires Holds(s) && k < |s.records| && Postable(p) && RecordHolds(r)
    requires RowsOf(r) == AddRow(RowsOf(s.records[k]), Stamp(p, whose))
    requires DecidesAs(s.records[k], r)
    ensures Holds(State(s.records[k := r], AddRow(s.ledger, Stamp(p, whose))))
    ensures s.ledger <= AddRow(s.ledger, Stamp(p, whose))
  {
    RecordChanged(s, k, r, p, whose);
    OwingKept(s.records, k, r, 0, 0);
  }

  lemma RecordIs(s: State, k: nat)
    requires Holds(s) && k < |s.records|
    ensures RecordHolds(s.records[k])
  {
    assert s.records[k] in s.records;
  }

  /** A refund row as it is issued: nothing posted for it yet. */
  lemma IssuedHolds(amount: int, origin: Origin, driver: UserId, whose: UserId, takeBack: Option<nat>)
    requires amount > 0 && !origin.source.Orphans?
    ensures RecordHolds(Refund(RefundRow(amount, origin, driver, whose, takeBack, None, None, [])))
  {
  }

  // ----- Bookings

  lemma QuoteWorth(input: FeeInput)
    requires MakeQuote(input).Ok?
    ensures MakeQuote(input).value.driverTotalPaise > 0 <==> input.basePaise > 0
  {
    if input.basePaise == 0 {
      MulRateIsNearest(0, input.surgeBp - SURGE_MULTIPLIER_MIN_BP, 0);
      MulRateIsNearest(0, CommissionBp(input), 0);
      MulRateIsNearest(0, OrElse(input.gstBp, GST_BP), 0);
    }
  }

  lemma CreateKeeps(s: State, driver: UserId, input: FeeInput)
    requires Holds(s)
    ensures Keeps(s, CreateBooking(s, driver, input), MakeQuote(input).Ok? && input.basePaise == 0)
  {
    QuoteFailsExactly(input);
    if MakeQuote(input).Ok? {
      QuoteTotalsWellFormed(input);
      QuoteWorth(input);
      var t := TotalsOf(MakeQuote(input).value);
      BookingWritten(t, "booking created");
      if t.driverTotalPaise > 0 {
        OpeningKeeps(s, driver, t);
      }
    }
  }

  lemma OpeningKeeps(s: State, driver: UserId, t: ReceivableTotals)
    requires Holds(s) && t.WellFormed() && t.driverTotalPaise > 0
    ensures var p := BookingReceivableEntries(t, "booking created");
      && s.ledger <= AddRow(s.ledger, Row(driver, p))
      && Holds(State(s.records + [Parking(Opened(t, driver, p))], AddRow(s.ledger, Row(driver, p))))
  {
    BookingWritten(t, "booking created");
    OpenedHolds(t, driver);
    BookingAdded(s, Opened(t, driver, BookingReceivableEntries(t, "booking created")),
      BookingReceivableEntries(t, "booking created"));
  }

  lemma BookingAdded(s: State, b: Booking, p: Posting)
    requires Holds(s) && Postable(p) && BookingHolds(b) && b.rows == AddRow([], Row(b.driver, p))
    requires DecidedBy(b) == 0 && OrphanedBy(b) == 0
    ensures s.ledger <= AddRow(s.ledger, Row(b.driver, p))
    ensures Holds(State(s.records + [Parking(b)], AddRow(s.ledger, Row(b.driver, p))))
  {
    AddingKeeps(s, Parking(b), p, Some(b.driver));
  }

  lemma TransferWritten(amount: nat, whose: UserId)
    requires amount > 0
    ensures Balanced(RouteDischargeEntries(amount, whose))
    ensures Balanced(SettlementClearedEntries(amount))
    ensures Balanced(RouteReversalEntries(amount, whose))
  {
    TransfersBalance(amount, whose, "");
    NotEmpty(RouteDischargeLegs(amount, whose), 0);
    NotEmpty(SettlementClearedLegs(amount), 0);
    NotEmpty(RouteReversalLegs(amount, whose), 0);
  }

  lemma FirstRow(p: Posting, c: Column)
    ensures Books(AddRow([], p), c) == Net(p, c)
  {
    if p != [] {
      BooksAppend([], p, c);
    }
  }

  /** Discharging a transfer never fails, and files it. */
  lemma DischargeKeeps(s: State, k: nat, earnings: int, driver: UserId, whose: UserId, writer: Writer)
    requires Holds(s)
    ensures Discharge(s, k, TransferFor(earnings), driver, whose, writer).Ok?
    ensures var r := Discharge(s, k, TransferFor(earnings), driver, whose, writer).value;
      Holds(r) && s.ledger <= r.ledger && s.records <= r.records
  {
    if earnings > 0 {
      TransferWritten(earnings, whose);
      FiledKeeps(s, TransferRow(k, driver, whose, earnings, false, AddRow([], RouteDischargeEntries(earnings, whose))));
    }
  }

  lemma FiledKeeps(s: State, t: TransferRow)
    requires Holds(s) && t.amountPaise > 0 && !t.cleared
    requires t.rows == AddRow([], RouteDischargeEntries(t.amountPaise, t.whose))
    ensures Holds(State(
        s.records + [Transfer(t)],
        s.ledger + [Stamp(RouteDischargeEntries(t.amountPaise, t.whose), None)]))
  {
    var p := RouteDischargeEntries(t.amountPaise, t.whose);
    TransferWritten(t.amountPaise, t.whose);
    StampNothing(p);
    forall c
      ensures Books(t.rows, c) == Net(p, c)
    {
      FirstRow(p, c);
    }
    AddingKeeps(s, Transfer(t), p, None);
  }

  /** Without a posting-level counterparty the rows are stored as they are. */
  lemma StampNothing(p: Posting)
    ensures Stamp(p, None) == p
  {
  }

  lemma PaidKeeps(s: State, k: nat)
    requires Holds(s) && k < |s.records| && s.records[k].Parking?
    requires s.records[k].booking.phase.Live? && s.records[k].booking.capturedPaise.None?
    ensures Holds(State(s.records[k := Parking(PaidFor(s.records[k].booking))], s.ledger))
  {
    var b := s.records[k].booking;
    RecordIs(s, k);
    PaidHolds(b, TransferFor(b.totals.ownerEarningsPaise));
    ChangingKeeps(s, k, Parking(PaidFor(b)), [], None);
  }

  lemma CaptureKeeps(s: State, k: nat)
    requires Holds(s)
    ensures Keeps(s, CaptureBooking(s, k), false)
  {
    if IsLive(s, k, false) {
      PaidKeeps(s, k);
      var b := s.records[k].booking;
      DischargeKeeps(State(s.records[k := Parking(PaidFor(b))], s.ledger), k,
        b.totals.ownerEarningsPaise, b.driver, b.driver, Api);
    }
  }

  lemma ExtendKeeps(s: State, k: nat, input: FeeInput)
    requires Holds(s)
    ensures Keeps(s, ExtendBooking(s, k, input), false)
  {
    QuoteFailsExactly(input);
    if IsLive(s, k, true) && MakeQuote(input).Ok? {
      QuoteTotalsWellFormed(input);
      BookingWritten(TotalsOf(MakeQuote(input).value), "booking extended");
      ExtendingKeeps(s, k, s.records[k].booking, TotalsOf(MakeQuote(input).value));
    }
  }

  lemma ExtendingKeeps(s: State, k: nat, b: Booking, more: ReceivableTotals)
    requires Holds(s) && k < |s.records| && s.records[k] == Parking(b) && b.phase.Live? && more.WellFormed()
    ensures var p := BookingReceivableEntries(more, "booking extended");
      && s.ledger <= AddRow(s.ledger, Row(b.driver, p))
      && Holds(State(s.records[k := Parking(Extended(b, more, p))], AddRow(s.ledger, Row(b.driver, p))))
  {
    RecordIs(s, k);
    BookingWritten(more, "booking extended");
    ExtendedHolds(b, more);
    var p := BookingReceivableEntries(more, "booking extended");
    ChangingKeeps(s, k, Parking(Extended(b, more, p)), p, Some(b.driver));
  }

  lemma CheckInKeeps(s: State, k: nat)
    requires Holds(s)
    ensures Keeps(s, CheckInBooking(s, k), false)
  {
    if IsLive(s, k, true) {
      RecordIs(s, k);
      ChangingKeeps(s, k, Parking(s.records[k].booking.(checkedIn := true)), [], None);
    }
  }

  lemma CompleteKeeps(s: State, k: nat)
    requires Holds(s)
    ensures Keeps(s, CompleteBooking(s, k), false)
  {
    if IsLive(s, k, true) {
      var b := s.records[k].booking;
      RecordIs(s, k);
      EndedHolds(b);
      ChangingKeeps(s, k, Parking(b.(phase := Over)), [], None);
    }
  }

  lemma RefundWritten(t: ReceivableTotals, refund: nat, d: string)
    requires t.WellFormed() && t.driverTotalPaise > 0 && refund > 0
    ensures ProportionalRefundEntries(t, refund, d).Ok? && Balanced(ProportionalRefundEntries(t, refund, d).value)
  {
    ProportionalRefundBalances(t, refund, d);
    NotEmpty(ProportionalRefundLegs(SplitRefund(t, refund).value, refund, d), 4);
  }

  /** A booking's refund is posted, and issued for the same amount. */
  lemma GivingBackKeeps(
      s: State, k: nat, b: Booking, r: Booking, p: Posting, amount: int, takeBack: Option<nat>)
    requires Holds(s) && k < |s.records| && s.records[k] == Parking(b) && Postable(p)
    requires BookingHolds(r) && r.rows == AddRow(b.rows, Row(b.driver, p))
    requires amount >= 0 && DecidedBy(r) == DecidedBy(b) + amount && OrphanedBy(r) == OrphanedBy(b)
    ensures var ledger := AddRow(s.ledger, Row(b.driver, p));
      && s.ledger <= ledger
      && Holds(State(
           Issue(s.records[k := Parking(r)], amount, Origin(Bookings, k), b.driver, b.driver, takeBack), ledger))
  {
    var changed := State(s.records[k := Parking(r)], AddRow(s.ledger, Row(b.driver, p)));
    RecordChanged(s, k, Parking(r), p, Some(b.driver));
    OwingDecided(s.records, k, r, amount);
    IssuingKeeps(changed, k, amount, b.driver, takeBack);
  }

  lemma IssuingKeeps(s: State, k: nat, amount: int, driver: UserId, takeBack: Option<nat>)
    requires Stored(s) && Owing(s.records, k, amount) && amount >= 0
    ensures Holds(State(Issue(s.records, amount, Origin(Bookings, k), driver, driver, takeBack), s.ledger))
  {
    if amount > 0 {
      var f := RefundRow(amount, Origin(Bookings, k), driver, driver, takeBack, None, None, []);
      IssuedHolds(amount, Origin(Bookings, k), driver, driver, takeBack);
      RecordAdded(s, Refund(f), [], None);
      OwingIssued(s.records, f, k);
    }
  }

  lemma AdminRefundKeeps(s: State, k: nat, amount: int)
    requires Holds(s)
    ensures Keeps(s, RefundByAdmin(s, k, amount), false)
  {
    if IsParking(s, k) && Refundable(s.records[k].booking) {
      var b := s.records[k].booking;
      RecordIs(s, k);
      if 0 < amount && Sum(b.refunds) + amount <= b.capturedPaise.value {
        RefundWritten(b.totals, amount, "refund: admin");
        var p := ProportionalRefundEntries(b.totals, amount, "refund: admin").value;
        RefundedBooking(b, amount, p);
        GivingBackKeeps(s, k, b, RefundedPartly(b, amount, p), p, amount, TakeBackFor(p, b.transferPaise));
      }
    }
  }

  lemma RefundedBooking(b: Booking, amount: nat, p: Posting)
    requires BookingHolds(b) && Refundable(b) && Sum(b.refunds) + amount <= b.capturedPaise.value
    requires ProportionalRefundEntries(b.totals, amount, "refund: admin") == Ok(p)
    ensures BookingHolds(RefundedPartly(b, amount, p))
    ensures DecidedBy(RefundedPartly(b, amount, p)) == DecidedBy(b) + amount
  {
    RefundedHolds(b, amount, "refund: admin");
    SumAppend(b.refunds, amount);
  }

  lemma DecidedByCancelling(b: Booking, startsAt: int, at: int, cancelledBy: CancelledBy, p: Posting)
    requires b.refunds == [] && b.phase == Live && b.totals.driverTotalPaise > 0
    ensures ResolveRefund(b.totals.driverTotalPaise, startsAt, at, cancelledBy).Ok?
    ensures var o := ResolveRefund(b.totals.driverTotalPaise, startsAt, at, cancelledBy).value;
      && DecidedBy(Cancelled(b, o, p)) == DecidedBy(b) + o.refundPaise
      && Cancelled(b, o, p).rows == AddRow(b.rows, Row(b.driver, p))
  {
    var o := ResolveRefund(b.totals.driverTotalPaise, startsAt, at, cancelledBy).value;
    SumAppend([], o.refundPaise);
    assert b.refunds + [o.refundPaise] == [] + [o.refundPaise];
  }

  lemma CancelKeeps(s: State, k: nat, startsAt: int, at: int, cancelledBy: CancelledBy)
    requires Holds(s)
    ensures Keeps(s, CancelBooking(s, k, startsAt, at, cancelledBy), false)
  {
    if IsLive(s, k, true) {
      RecordIs(s, k);
      if s.records[k].booking.orphaned {
        ReleaseKeeps(s, k, Api);
      } else {
        CancelPaidKeeps(s, k, s.records[k].booking, startsAt, at, cancelledBy);
      }
    }
  }

  lemma CancelPaidKeeps(s: State, k: nat, b: Booking, startsAt: int, at: int, cancelledBy: CancelledBy)
    requires Holds(s) && IsLive(s, k, true) && s.records[k] == Parking(b) && BookingHolds(b) && !b.orphaned
    ensures Keeps(s, CancelBooking(s, k, startsAt, at, cancelledBy), false)
  {
    CancellationBalances(b.totals, startsAt, at, cancelledBy, "refund");
    var o := ResolveRefund(b.totals.driverTotalPaise, startsAt, at, cancelledBy).value;
    var p := RefundEntries(b.totals, o, "refund").value;
    if o.refundPaise <= b.capturedPaise.value {
      CancelledHolds(b, startsAt, at, cancelledBy);
      DecidedByCancelling(b, startsAt, at, cancelledBy, p);
      GivingBackKeeps(s, k, b, Cancelled(b, o, p), p, o.refundPaise, TakeBackFor(p, b.transferPaise));
    }
  }

  lemma ExpireKeeps(s: State, k: nat)
    requires Holds(s)
    ensures Keeps(s, ExpireBooking(s, k), false)
  {
    if IsLive(s, k, false) {
      RecordIs(s, k);
      ReleaseKeeps(s, k, Worker);
    }
  }

  lemma ReleaseKeeps(s: State, k: nat, writer: Writer)
    requires Holds(s) && IsParking(s, k) && BookingHolds(s.records[k].booking)
    requires var b := s.records[k].booking; b.phase.Live? && (b.capturedPaise.Some? ==> b.orphaned)
    ensures ReleaseBooking(s, k, writer).Ok? && Keeps(s, ReleaseBooking(s, k, writer), false)
  {
    var b := s.records[k].booking;
    var booked := BookingReceivableEntries(b.totals, "booking created");
    var p := ReverseEntries(booked, "cancelled before capture");
    BookingWritten(b.totals, "booking created");
    ReverseRestores(booked, "cancelled before capture", Everything);
    ExpiredHolds(b);
    ChangingKeeps(s, k, Parking(Expired(b, p)), p, Some(b.driver));
  }

  // ----- Refunds and transfers

  /** A stray capture that has not been refunded, and of which nothing else has been. */
  predicate IsOrphan(s: State, k: nat)
  {
    IsStrayCapture(s, k) && !s.records[k].booking.orphaned && DecidedBy(s.records[k].booking) == 0
  }

  lemma OrphanKeeps(s: State, k: nat)
    requires Holds(s)
    ensures Keeps(s, RefundOrphan(s, k), false)
  {
    if IsStrayCapture(s, k) {
      RecordIs(s, k);
      if IsOrphan(s, k) {
        var r := OrphanOpened(s, k);
        OrphanDischarged(s, k, r);
      }
    }
  }

  /** The capture is re-opened and its refund issued, before the owner's share is discharged. */
  lemma OrphanOpened(s: State, k: nat) returns (r: State)
    requires Holds(s) && IsOrphan(s, k)
    ensures var b := OrphanFor(s.records[k].booking);
      && BookingHolds(b) && OrphanedBy(b) > 0 && Balanced(OrphanLegs(OrphanedBy(b)))
      && Holds(r) && r.records == s.records[k := Parking(b)] + [Refund(OrphanRow(b, k))]
      && r.ledger == s.ledger + [Stamp(OrphanLegs(OrphanedBy(b)), Some(b.driver))]
  {
    var was := s.records[k].booking;
    var b := OrphanFor(was);
    RecordIs(s, k);
    OrphanForHolds(was);
    RecordChanged(s, k, Parking(b), [], None);
    var changed := State(s.records[k := Parking(b)], s.ledger);
    OrphanRowHolds(b, k);
    var p := OrphanLegs(OrphanedBy(b));
    RecordAdded(changed, Refund(OrphanRow(b, k)), p, Some(b.driver));
    OwingOrphaned(s.records, k, b, OrphanRow(b, k));
    r := State(changed.records + [Refund(OrphanRow(b, k))], s.ledger + [Stamp(p, Some(b.driver))]);
  }

  lemma OrphanForHolds(b: Booking)
    requires BookingHolds(b) && !b.orphaned && DecidedBy(b) == 0
    ensures var r := OrphanFor(b);
      BookingHolds(r) && OrphanedBy(r) > 0 && DecidedBy(r) == 0 && r.rows == b.rows
  {
    var r := OrphanFor(b);
    OrphanedHolds(b, r.capturedPaise.value, r.transferPaise);
  }

  lemma OrphanRowHolds(b: Booking, k: nat)
    requires OrphanedBy(b) > 0
    ensures var p := OrphanLegs(OrphanedBy(b));
      && Balanced(p) && RefundRowHolds(OrphanRow(b, k))
      && OrphanRow(b, k).rows == AddRow([], Stamp(p, Some(b.driver)))
  {
    var p := OrphanLegs(OrphanedBy(b));
    OrphanNet(OrphanedBy(b), Everything);
    assert OrphanRow(b, k).rows == AddRow([], Stamp(p, Some(b.driver)));
    forall c
      ensures Books(OrphanRow(b, k).rows, c) == Net(Stamp(p, Some(b.driver)), c)
    {
      FirstRow(Stamp(p, Some(b.driver)), c);
    }
  }

  lemma OrphanDischarged(s: State, k: nat, r: State)
    requires IsOrphan(s, k) && Holds(r) && s.ledger <= r.ledger
    requires var b := OrphanFor(s.records[k].booking);
      && BookingHolds(b) && Balanced(OrphanLegs(OrphanedBy(b)))
      && r.records == s.records[k := Parking(b)] + [Refund(OrphanRow(b, k))]
      && r.ledger == s.ledger + [Stamp(OrphanLegs(OrphanedBy(b)), Some(b.driver))]
    ensures RefundOrphan(s, k).Ok? && Holds(RefundOrphan(s, k).value)
    ensures var b := OrphanFor(s.records[k].booking);
      && RefundOrphan(s, k) == Discharge(r, k, b.transferPaise, b.driver, b.driver, Worker)
      && r.records <= RefundOrphan(s, k).value.records && r.ledger <= RefundOrphan(s, k).value.ledger
  {
    var b := OrphanFor(s.records[k].booking);
    DischargeKeeps(r, k, if b.transferPaise.Some? then b.transferPaise.value else 0, b.driver, b.driver, Worker);
  }

  lemma SettledRowHolds(f: RefundRow, amount: nat)
    requires RefundRowHolds(f) && f.settledPaise.None? && amount > 0
    ensures Balanced(RefundSettledEntries(amount, "refund processed"))
    ensures RefundRowHolds(SettledRow(f, amount, RefundSettledEntries(amount, "refund processed")))
  {
    var p := RefundSettledEntries(amount, "refund processed");
    TransfersBalance(amount, "", "refund processed");
    NotEmpty(RefundSettledLegs(amount, "refund processed"), 0);
    forall c
      ensures Books(AddRow(f.rows, Stamp(p, Some(f.driver))), c)
        == OpeningNet(f, c) + Net(Stamp(p, Some(f.driver)), c) + TakenBackNet(f, c)
    {
      Posted(f.rows, p, Some(f.driver), c);
      assert Books(f.rows, c) == OpeningNet(f, c) + SettledNetOf(f, c) + TakenBackNet(f, c);
    }
  }

  /** A settlement of nothing at all is the one the balance check refuses. */
  lemma SettleKeeps(s: State, k: nat, amount: int)
    requires Holds(s)
    ensures Keeps(s, SettleRefund(s, k, amount),
                  IsRefund(s, k) && s.records[k].refund.settledPaise.None? && amount <= 0)
  {
    if amount <= 0 {
      NothingToMove(amount, "", "refund processed");
    } else if IsRefund(s, k) && s.records[k].refund.settledPaise.None? {
      SettlingKeeps(s, k, s.records[k].refund, amount);
    }
  }

  lemma SettlingKeeps(s: State, k: nat, f: RefundRow, amount: nat)
    requires Holds(s) && k < |s.records| && s.records[k] == Refund(f) && f.settledPaise.None? && amount > 0
    ensures var p := RefundSettledEntries(amount, "refund processed");
      var ledger := s.ledger + [Stamp(p, Some(f.driver))];
      && Balanced(p)
      && s.ledger <= ledger && Holds(State(s.records[k := Refund(SettledRow(f, amount, p))], ledger))
  {
    var p := RefundSettledEntries(amount, "refund processed");
    RecordIs(s, k);
    SettledRowHolds(f, amount);
    ChangingKeeps(s, k, Refund(SettledRow(f, amount, p)), p, Some(f.driver));
  }

  /** Every refund of a run settles once, for the gateway's own amount, on the account it was owed from. */
  lemma SettlementPosts(s: State, k: nat, amount: int)
    requires IsRefund(s, k)
    ensures s.records[k].refund.settledPaise.Some? ==> SettleRefund(s, k, amount) == Ok(s)
    ensures s.records[k].refund.settledPaise.None? && amount > 0 ==>
      var r := SettleRefund(s, k, amount);
      && r.Ok? && |r.value.records| == |s.records| && IsRefund(r.value, k)
      && r.value.records[k].refund.settledPaise == Some(amount)
      && r.value.records[k].refund.amountPaise == s.records[k].refund.amountPaise
      && (forall j :: 0 <= j < |s.records| && j != k ==> r.value.records[j] == s.records[j])
      && Books(r.value.ledger, Whole(RefundsPayable)) == Books(s.ledger, Whole(RefundsPayable)) + amount
      && Books(r.value.ledger, Whole(DriverReceivable)) == Books(s.ledger, Whole(DriverReceivable)) - amount
  {
    if amount > 0 {
      var f, p := s.records[k].refund, RefundSettledEntries(amount, "refund processed");
      TransfersBalance(amount, "", "refund processed");
      NotEmpty(RefundSettledLegs(amount, "refund processed"), 0);
      SettledOn(s.ledger, f.driver, amount, RefundsPayable);
      SettledOn(s.ledger, f.driver, amount, DriverReceivable);
    }
  }

  lemma SettledOn(ledger: seq<Posting>, driver: UserId, amount: nat, a: Account)
    ensures Books(ledger + [Stamp(RefundSettledEntries(amount, "refund processed"), Some(driver))], Whole(a))
      == Books(ledger, Whole(a))
         + (if a == RefundsPayable then amount else if a == DriverReceivable then 0 - amount else 0)
  {
    var p := RefundSettledEntries(amount, "refund processed");
    BooksAppend(ledger, Stamp(p, Some(driver)), Whole(a));
    StampKeepsAccounts(p, Some(driver), Whole(a));
    SettledNet(amount, Whole(a));
  }

  lemma TakenBackRowHolds(f: RefundRow, amount: int)
    requires RefundRowHolds(f) && f.takenBackPaise.None?
    ensures Postable(RouteReversalEntries(amount, f.whose))
    ensures RefundRowHolds(TakenBackRow(f, amount, RouteReversalEntries(amount, f.whose)))
  {
    var p := RouteReversalEntries(amount, f.whose);
    if amount <= 0 {
      NothingToMove(amount, f.whose, "");
    } else {
      TransfersBalance(amount, f.whose, "");
    }
    StampNothing(p);
    forall c
      ensures Books(AddRow(f.rows, p), c) == OpeningNet(f, c) + SettledNetOf(f, c) + Net(p, c)
    {
      Posted(f.rows, p, None, c);
      assert Books(f.rows, c) == OpeningNet(f, c) + SettledNetOf(f, c) + TakenBackNet(f, c);
    }
  }

  lemma TakeBackKeeps(s: State, k: nat, amount: int)
    requires Holds(s)
    ensures Keeps(s, TakeShareBack(s, k, amount), false)
  {
    if IsRefund(s, k) && s.records[k].refund.takenBackPaise.None? {
      TakingBackKeeps(s, k, s.records[k].refund, amount);
    }
  }

  lemma TakingBackKeeps(s: State, k: nat, f: RefundRow, amount: int)
    requires Holds(s) && k < |s.records| && s.records[k] == Refund(f) && f.takenBackPaise.None?
    ensures var p := RouteReversalEntries(amount, f.whose);
      && Postable(p) && Stamp(p, None) == p && s.ledger <= AddRow(s.ledger, p)
      && Holds(State(s.records[k := Refund(TakenBackRow(f, amount, p))], AddRow(s.ledger, p)))
  {
    var p := RouteReversalEntries(amount, f.whose);
    RecordIs(s, k);
    TakenBackRowHolds(f, amount);
    StampNothing(p);
    ChangingKeeps(s, k, Refund(TakenBackRow(f, amount, p)), p, None);
  }

  lemma ClearedHolds(t: TransferRow)
    requires TransferHolds(t) && !t.cleared
    ensures TransferHolds(t.(cleared := true, rows := AddRow(t.rows, SettlementClearedEntries(t.amountPaise))))
  {
    var p := SettlementClearedEntries(t.amountPaise);
    TransferWritten(t.amountPaise, t.whose);
    StampNothing(p);
    forall c
      ensures Books(AddRow(t.rows, p), c) == Net(RouteDischargeEntries(t.amountPaise, t.whose), c) + Net(p, c)
    {
      Posted(t.rows, p, None, c);
      assert Books(t.rows, c) == Net(RouteDischargeEntries(t.amountPaise, t.whose), c);
    }
  }

  lemma ClearKeeps(s: State, k: nat)
    requires Holds(s)
    ensures Keeps(s, ClearMoved(s, k), false)
  {
    if k < |s.records| && s.records[k].Transfer? && !HasCleared(s, s.records[k].transfer.paidFor) {
      var t := s.records[k].transfer;
      var p := SettlementClearedEntries(t.amountPaise);
      RecordIs(s, k);
      TransferWritten(t.amountPaise, t.whose);
      ClearedHolds(t);
      StampNothing(p);
      ChangingKeeps(s, k, Transfer(t.(cleared := true, rows := AddRow(t.rows, p))), p, None);
    }
  }

  // ----- Services

  lemma ValetRateWithinWhole(fee: nat, rateBp: nat)
    requires fee >= VALET_BASE_FEE_PAISE
    ensures 2 * (fee * (rateBp - RATE_SCALE)) < RATE_SCALE <==> rateBp <= RATE_SCALE
  {
    if rateBp <= RATE_SCALE {
      MulLe(rateBp - RATE_SCALE, 0, fee);
    } else {
      MulLe(1, rateBp - RATE_SCALE, fee);
    }
  }

  lemma ChargeKeeps(s: State, v: Service)
    requires Holds(s) && v.standing.Charged?
    requires Balanced(Charge(v.fee, v.partner)) ==> FeeHolds(v)
    ensures Keeps(s, ChargeService(s, v), !Balanced(Charge(v.fee, v.partner)))
  {
    var p := Charge(v.fee, v.partner);
    if Balanced(p) {
      ChargedHolds(v.(rows := AddRow([], p)));
      StampNothing(p);
      AddingKeeps(s, Job(v.(rows := AddRow([], p))), p, None);
    }
  }

  lemma NothingSent(c: Column)
    ensures Net(RefundSettledEntries(0, "refund processed"), c) == 0
  {
    SettledNet(0, c);
  }

  lemma ChargedHolds(v: Service)
    requires FeeHolds(v) && v.standing.Charged? && v.rows == AddRow([], Charge(v.fee, v.partner))
    ensures ServiceHolds(v)
  {
    forall c
      ensures Books(v.rows, c) + Net(RefundSettledEntries(0, "refund processed"), c) == Net(Charge(v.fee, v.partner), c)
    {
      NothingSent(c);
      FirstRow(Charge(v.fee, v.partner), c);
    }
  }

  lemma ChargeLegKeeps(
      s: State, outbound: bool, distance: real, rateBp: nat, partner: UserId, driver: UserId)
    requires Holds(s)
    ensures Keeps(s, ChargeLeg(s, outbound, distance, rateBp, partner, driver),
                  distance >= 0.0 && rateBp > RATE_SCALE)
  {
    if distance >= 0.0 {
      var fee := VALET_BASE_FEE_PAISE + ChargeableKm(distance) * VALET_PER_KM_PAISE;
      assert ComputeValetLegFee(distance, rateBp) == Ok(Split(fee, rateBp));
      ValetRateWithinWhole(fee, rateBp);
      ServiceBalancedIff(fee, rateBp, partner, "service");
      MulRateAtMostWhole(fee, rateBp);
      ChargeKeeps(s, Service(if outbound then Outbound else Return, rateBp, distance, Split(fee, rateBp), partner,
                             driver, false, Charged, []));
    }
  }

  lemma ChargeWashKeeps(s: State, price: int, rateBp: nat, partner: UserId, driver: UserId)
    requires Holds(s)
    ensures Keeps(s, ChargeForWash(s, price, rateBp, partner, driver),
                  price > 0 && 2 * (price * (rateBp - RATE_SCALE)) >= RATE_SCALE)
  {
    if price > 0 {
      ServiceBalancedIff(price, rateBp, partner, "service");
      MulRateAtMostWhole(price, rateBp);
      ChargeKeeps(s, Service(CarWash, rateBp, 0.0, Split(price, rateBp), partner, driver, false, Charged, []));
    }
  }

  /** What a reduction gives back is never negative, so the adjustment is always accepted. */
  lemma ReductionAccepted(v: Service)
    requires ServiceHolds(v) && v.kind.Outbound? && v.standing.Charged?
    ensures StoredMetres(v.chargedM) >= 0
    ensures ComputeValetLegFee(StoredMetres(v.chargedM) as real, v.rateBp) == Ok(StoredFee(v))
    ensures ComputeValetNoShowFee(v.rateBp) == Ok(CallOut(v.rateBp))
    ensures CallOut(v.rateBp).driverTotalPaise <= StoredFee(v).driverTotalPaise
    ensures var p := ValetChargeAdjustmentEntries(StoredFee(v), CallOut(v.rateBp), v.partner, "service");
      p.Ok? && Postable(p.value)
  {
    StoredKm(v.chargedM);
    AdjustedLegIsRetainedLeg(StoredMetres(v.chargedM) as real, 0.0, v.rateBp, v.partner, "service", Everything)
      by { assert ChargeableKm(0.0) == 0; }
  }

  /** A reduced leg stands for a call-out and for what the stored distance forgot. */
  lemma ReducedHolds(v: Service)
    requires ServiceHolds(v) && v.kind.Outbound? && v.standing.Charged?
    ensures StoredMetres(v.chargedM) >= 0
    ensures var back := StoredFee(v).driverTotalPaise - CallOut(v.rateBp).driverTotalPaise;
      var p := ValetChargeAdjustmentEntries(StoredFee(v), CallOut(v.rateBp), v.partner, "service");
      back >= 0 && p.Ok? && ServiceHolds(ReducedTo(v, back, p.value))
  {
    ReductionAccepted(v);
    var back := StoredFee(v).driverTotalPaise - CallOut(v.rateBp).driverTotalPaise;
    var p := ValetChargeAdjustmentEntries(StoredFee(v), CallOut(v.rateBp), v.partner, "service").value;
    forall c
      ensures Books(AddRow(v.rows, p), c) + Net(RefundSettledEntries(back, "refund processed"), c)
        == StandingNet(ReducedTo(v, back, p), c)
    {
      ReducedRow(v, back, p, c);
    }
  }

  lemma ReducedRow(v: Service, back: nat, p: Posting, c: Column)
    requires ServiceHolds(v) && v.kind.Outbound? && v.standing.Charged? && Postable(p)
    requires StoredMetres(v.chargedM) >= 0
    requires back == StoredFee(v).driverTotalPaise - CallOut(v.rateBp).driverTotalPaise
    requires ValetChargeAdjustmentEntries(StoredFee(v), CallOut(v.rateBp), v.partner, "service") == Ok(p)
    ensures Books(AddRow(v.rows, p), c) + Net(RefundSettledEntries(back, "refund processed"), c)
      == StandingNet(ReducedTo(v, back, p), c)
  {
    CancelledLegLeaves(v.chargedM, v.rateBp, v.partner, "service", c);
    ChargedRow(v, p, c);
  }

  lemma ChargedRow(v: Service, p: Posting, c: Column)
    requires ServiceHolds(v) && v.standing.Charged? && Postable(p)
    ensures Books(AddRow(v.rows, p), c) == Net(Charge(v.fee, v.partner), c) + Net(p, c)
  {
    StampNothing(p);
    NothingSent(c);
    Posted(v.rows, p, None, c);
    assert Books(v.rows, c) + Net(RefundSettledEntries(0, "refund processed"), c) == Net(Charge(v.fee, v.partner), c);
  }

  lemma ReduceKeeps(s: State, k: nat)
    requires Holds(s)
    ensures Keeps(s, ReduceLeg(s, k), false)
  {
    if IsCharged(s, k, Outbound) {
      RecordIs(s, k);
      var r, p := LegReduced(s, k);
      ServiceChanges(s, k, s.records[k].service, r, p);
    }
  }

  lemma LegReduced(s: State, k: nat) returns (r: Service, p: Posting)
    requires IsCharged(s, k, Outbound) && ServiceHolds(s.records[k].service)
    ensures ServiceHolds(r) && Postable(p) && r.rows == AddRow(s.records[k].service.rows, p)
    ensures ReduceLeg(s, k) == Ok(State(s.records[k := Job(r)], AddRow(s.ledger, p)))
  {
    var v := s.records[k].service;
    ReductionAccepted(v);
    ReducedHolds(v);
    p := ValetChargeAdjustmentEntries(StoredFee(v), CallOut(v.rateBp), v.partner, "service").value;
    r := ReducedTo(v, StoredFee(v).driverTotalPaise - CallOut(v.rateBp).driverTotalPaise, p);
    StampNothing(p);
  }

  lemma ServiceChanges(s: State, k: nat, v: Service, r: Service, p: Posting)
    requires Holds(s) && k < |s.records| && s.records[k] == Job(v) && Postable(p)
    requires ServiceHolds(r) && r.rows == AddRow(v.rows, p)
    ensures s.ledger <= AddRow(s.ledger, p) && AddRow(s.ledger, p) == AddRow(s.ledger, Stamp(p, None))
    ensures Holds(State(s.records[k := Job(r)], AddRow(s.ledger, p)))
  {
    StampNothing(p);
    ChangingKeeps(s, k, Job(r), p, None);
  }

  lemma UndoneHolds(v: Service, p: Posting)
    requires ServiceHolds(v) && v.standing.Charged?
    requires p == ReverseEntries(Charge(v.fee, v.partner), "car wash cancellation reversal")
    ensures Balanced(p) && ServiceHolds(v.(standing := Undone, captured := false, rows := AddRow(v.rows, p)))
    ensures forall c :: Books(AddRow(v.rows, p), c) == 0
  {
    ReverseRestores(Charge(v.fee, v.partner), "car wash cancellation reversal", Everything);
    StampNothing(p);
    forall c
      ensures Books(AddRow(v.rows, p), c) == 0 && Net(RefundSettledEntries(0, "refund processed"), c) == 0
    {
      NothingSent(c);
      ReverseRestores(Charge(v.fee, v.partner), "car wash cancellation reversal", c);
      ChargedRow(v, p, c);
    }
  }

  lemma CaptureWashKeeps(s: State, k: nat)
    requires Holds(s)
    ensures Keeps(s, CapturePaidWash(s, k), false)
  {
    if k < |s.records| && s.records[k].Job? && s.records[k].service.kind.CarWash? && !s.records[k].service.captured {
      var v := s.records[k].service;
      RecordIs(s, k);
      PaidServiceHolds(v);
      ServiceChanges(s, k, v, v.(captured := true), []);
      DischargeKeeps(State(s.records[k := Job(v.(captured := true))], s.ledger), k,
        v.fee.partnerEarningsPaise, v.driver, v.partner, Api);
    }
  }

  lemma PaidServiceHolds(v: Service)
    requires ServiceHolds(v)
    ensures ServiceHolds(v.(captured := true))
  {
    forall c
      ensures Books(v.rows, c) + Net(RefundSettledEntries(GivenBackBy(v), "refund processed"), c)
        == StandingNet(v.(captured := true), c)
    {
      assert StandingNet(v.(captured := true), c) == StandingNet(v, c);
    }
  }

  lemma UndoWashKeeps(s: State, k: nat)
    requires Holds(s)
    ensures Keeps(s, UndoWash(s, k), false)
  {
    if IsCharged(s, k, CarWash) {
      var v := s.records[k].service;
      RecordIs(s, k);
      var p := ReverseEntries(Charge(v.fee, v.partner), "car wash cancellation reversal");
      UndoneHolds(v, p);
      var r := v.(standing := Undone, captured := false, rows := AddRow(v.rows, p));
      ServiceChanges(s, k, v, r, p);
      if v.captured {
        WashRefundKeeps(State(s.records[k := Job(r)], AddRow(s.ledger, p)), k, v,
          TakeBackFor(p, TransferFor(v.fee.partnerEarningsPaise)));
      }
    }
  }

  lemma WashRefundKeeps(s: State, k: nat, v: Service, takeBack: Option<nat>)
    requires Holds(s)
    ensures Holds(State(
        Issue(s.records, v.fee.driverTotalPaise, Origin(Washes, k), v.driver, v.partner, takeBack), s.ledger))
  {
    var amount := v.fee.driverTotalPaise;
    if amount > 0 {
      IssuedHolds(amount, Origin(Washes, k), v.driver, v.partner, takeBack);
      AddingKeeps(s, Refund(RefundRow(amount, Origin(Washes, k), v.driver, v.partner, takeBack, None, None, [])), [],
        None);
    }
  }

  // ----- Payouts

  lemma PayPartnerKeeps(s: State, payee: UserId, at: int, tcs: seq<DatedRate>, tds: seq<DatedRate>)
    requires Holds(s)
    ensures Keeps(s, PayPartner(s, payee, at, tcs, tds), false)
  {
    var gross := PartnerBalance(s, payee);
    if gross >= MINIMUM_PAYOUT_PAISE && PayoutEntries(gross, payee, at, tcs, tds).Ok? {
      PayoutBalances(gross, payee, at, tcs, tds);
      var p := PayoutEntries(gross, payee, at, tcs, tds).value;
      NotEmpty(PayoutLegs(gross, p.netPaise, p.tcsPaise, p.tdsPaise, payee), 0);
      var row := PayoutRow(payee, gross, p.tcsPaise, p.tdsPaise, p.netPaise, OnItsWay, AddRow([], p.entries));
      PayingKeeps(s, row, p.entries);
    }
  }

  lemma PayingKeeps(s: State, row: PayoutRow, p: Posting)
    requires Holds(s) && Balanced(p) && p == PayoutPaid(row) && row.status.OnItsWay? && row.rows == AddRow([], p)
    ensures s.ledger <= s.ledger + [Stamp(p, None)]
    ensures Holds(State(s.records + [Payout(row)], s.ledger + [Stamp(p, None)]))
  {
    StampNothing(p);
    forall c
      ensures Books(row.rows, c) == Net(PayoutPaid(row), c)
    {
      FirstRow(p, c);
    }
    AddingKeeps(s, Payout(row), p, None);
  }

  lemma ArrivedHolds(p: PayoutRow)
    requires PayoutHolds(p) && p.status.OnItsWay?
    ensures Postable(SettlementClearedEntries(p.netPaise))
    ensures PayoutHolds(p.(status := Arrived, rows := AddRow(p.rows, SettlementClearedEntries(p.netPaise))))
  {
    var cleared := SettlementClearedEntries(p.netPaise);
    TransfersBalance(p.netPaise, "", "");
    StampNothing(cleared);
    forall c
      ensures Books(AddRow(p.rows, cleared), c) == Net(PayoutPaid(p), c) + Net(cleared, c)
    {
      Posted(p.rows, cleared, None, c);
      assert Books(p.rows, c) == Net(PayoutPaid(p), c);
    }
  }

  lemma FailedHolds(p: PayoutRow)
    requires PayoutHolds(p)
    ensures var reversal := ReverseEntries(Flatten(p.rows), "payout failed");
      Balanced(reversal) && PayoutHolds(p.(status := Failed, rows := AddRow(p.rows, reversal)))
  {
    var reversal := ReverseEntries(Flatten(p.rows), "payout failed");
    FlattenBalanced(p.rows);
    ReverseRestores(Flatten(p.rows), "payout failed", Everything);
    StampNothing(reversal);
    forall c
      ensures Books(AddRow(p.rows, reversal), c) == 0
    {
      FlattenNet(p.rows, c);
      ReverseRestores(Flatten(p.rows), "payout failed", c);
      Posted(p.rows, reversal, None, c);
    }
  }

  lemma PayoutArrivedKeeps(s: State, k: nat)
    requires Holds(s)
    ensures Keeps(s, PayoutArrived(s, k), false)
  {
    if IsPayout(s, k, OnItsWay) {
      var p := s.records[k].payout;
      RecordIs(s, k);
      var cleared := SettlementClearedEntries(p.netPaise);
      ArrivedHolds(p);
      StampNothing(cleared);
      ChangingKeeps(s, k, Payout(p.(status := Arrived, rows := AddRow(p.rows, cleared))), cleared, None);
    }
  }

  lemma PayoutFailedKeeps(s: State, k: nat, returned: bool)
    requires Holds(s)
    ensures Keeps(s, PayoutFailed(s, k, returned), false)
  {
    if IsPayout(s, k, if returned then Arrived else OnItsWay) {
      var p := s.records[k].payout;
      RecordIs(s, k);
      var reversal := ReverseEntries(Flatten(p.rows), "payout failed");
      FailedHolds(p);
      StampNothing(reversal);
      ChangingKeeps(s, k, Payout(p.(status := Failed, rows := AddRow(p.rows, reversal))), reversal, None);
    }
  }
}
