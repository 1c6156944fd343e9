/** How far several partial refunds of one booking drift from the exact shares. */
module PartialRefunds {
  import opened Outcomes
  import opened Sums
  import opened LargestRemainder
  import opened Columns
  import opened LedgerEntries
  import opened LedgerEffects
  import opened Ledger

  function Add(a: RefundSplit, b: RefundSplit): RefundSplit
  {
    RefundSplit(a.owner + b.owner, a.fee + b.fee, a.gst + b.gst, a.waiver + b.waiver)
  }

  function SplitOrNothing(t: ReceivableTotals, refund: nat): RefundSplit
  {
    match SplitRefund(t, refund)
    case Ok(s) => s
    case Thrown(_) => RefundSplit(0, 0, 0, 0)
  }

  /** What a run of partial refunds has taken from each leg; every call splits the original totals. */
  function Taken(t: ReceivableTotals, refunds: seq<nat>): RefundSplit
  {
    if refunds == [] then RefundSplit(0, 0, 0, 0)
    else Add(Taken(t, refunds[..|refunds| - 1]), SplitOrNothing(t, refunds[|refunds| - 1]))
  }

  lemma TakenAppend(t: ReceivableTotals, refunds: seq<nat>, refund: nat)
    ensures Taken(t, refunds + [refund]) == Add(Taken(t, refunds), SplitOrNothing(t, refund))
  {
    assert (refunds + [refund])[..|refunds|] == refunds;
  }

  lemma TakenByOne(t: ReceivableTotals, refund: nat, s: RefundSplit)
    requires SplitRefund(t, refund) == Ok(s)
    ensures Taken(t, [refund]) == s
  {
    TakenAppend(t, [], refund);
    assert [] + [refund] == [refund];
  }

  lemma TakenByTwo(t: ReceivableTotals, first: nat, s1: RefundSplit, second: nat, s2: RefundSplit)
    requires SplitRefund(t, first) == Ok(s1) && SplitRefund(t, second) == Ok(s2)
    ensures Taken(t, [first, second]) == Add(s1, s2)
  {
    TakenByOne(t, first, s1);
    TakenAppend(t, [first], second);
    assert [first] + [second] == [first, second];
  }

  /** `k` refunds took `part` from a leg; `num/den` of a paisa each is the most it may be off by. */
  ghost predicate DriftWithin(refunded: int, weight: int, total: int, part: int, k: nat, num: nat, den: nat)
  {
    den * Abs(refunded * weight - total * part) <= num * (k * total)
  }

  lemma DriftAdds(r1: int, p1: int, k: nat, r2: int, p2: int, weight: int, total: nat, num: nat, den: nat)
    requires DriftWithin(r1, weight, total, p1, k, num, den)
    requires DriftWithin(r2, weight, total, p2, 1, num, den)
    ensures DriftWithin(r1 + r2, weight, total, p1 + p2, k + 1, num, den)
  {
    var x, y := r1 * weight - total * p1, r2 * weight - total * p2;
    assert (r1 + r2) * weight - total * (p1 + p2) == x + y by {
      DistributeRight(r1, r2, weight);
      Distribute(total, p1, p2);
    }
    ScaledTriangle(den, x, y);
    DistributeRight(k, 1, total);
    Distribute(num, k * total, total);
  }

  lemma DistributeRight(a: int, b: int, c: int)
    ensures (a + b) * c == a * c + b * c
  {
  }

  lemma ScaledTriangle(den: nat, x: int, y: int)
    ensures den * Abs(x + y) <= den * Abs(x) + den * Abs(y)
  {
    Distribute(den, Abs(x), Abs(y));
    assert Abs(x + y) <= Abs(x) + Abs(y);
    ScaleLe(den, Abs(x + y), Abs(x) + Abs(y));
  }

  lemma ScaleLe(den: nat, a: int, b: int)
    requires a <= b
    ensures den * a <= den * b
  {
  }

  lemma AllocatedPartDrift(refund: nat, weights: seq<int>, i: nat, total: int)
    requires Splittable(refund, weights) && i < |weights| && total == Sum(weights)
    ensures DriftWithin(refund, weights[i], total, Parts(refund, weights, total)[i], 1, |weights| - 1, |weights|)
  {
    AllocationDeviation(refund, weights, i);
    DeviationIsDrift(|weights|, total, refund, weights[i], Parts(refund, weights, total)[i]);
  }

  lemma DeviationIsDrift(n: nat, total: int, refund: int, weight: int, part: int)
    requires n > 0 && DeviationWithin(n, total, refund * weight, part)
    ensures DriftWithin(refund, weight, total, part, 1, n - 1, n)
  {
  }

  lemma SplitSums(t: ReceivableTotals, refund: nat)
    requires t.WellFormed() && t.driverTotalPaise > 0
    ensures SplitRefund(t, refund) == Ok(SplitOrNothing(t, refund))
    ensures var s := SplitOrNothing(t, refund);
      s.owner + s.fee + s.gst == refund && s.owner >= 0 && s.fee >= 0 && s.gst >= 0 && s.waiver >= 0
  {
    SplitIsFair(t, refund);
  }

  lemma SplitPartsDrift(t: ReceivableTotals, refund: nat)
    requires t.WellFormed() && t.driverTotalPaise > 0
    ensures var s, total := SplitOrNothing(t, refund), t.driverTotalPaise;
      && DriftWithin(refund, t.ownerEarningsPaise - t.commissionWaiverPaise, total, s.owner, 1, 2, 3)
      && DriftWithin(refund, t.parkeaseFeePaise, total, s.fee, 1, 2, 3)
      && DriftWithin(refund, t.gstPaise, total, s.gst, 1, 2, 3)
  {
    var w, total := SplitWeights(t), t.driverTotalPaise;
    SplitSums(t, refund);
    Sum3(w);
    AllocatedPartDrift(refund, w, 0, total);
    AllocatedPartDrift(refund, w, 1, total);
    AllocatedPartDrift(refund, w, 2, total);
  }

  lemma WaiverPartDrift(t: ReceivableTotals, refund: nat)
    requires t.WellFormed() && t.driverTotalPaise > 0
    ensures DriftWithin(refund, t.commissionWaiverPaise, t.driverTotalPaise, SplitOrNothing(t, refund).waiver, 1, 1, 2)
  {
    SplitSums(t, refund);
    if t.commissionWaiverPaise > 0 {
      Sum2(WaiverWeights(t));
      AllocatedPartDrift(refund, WaiverWeights(t), 0, t.driverTotalPaise);
    }
  }

  /** `k` refunds totalling `r` have taken `s`: how far each leg may be from its exact share. */
  ghost predicate SplitDriftWithin(t: ReceivableTotals, r: int, s: RefundSplit, k: nat)
  {
    var total := t.driverTotalPaise;
    && s.owner + s.fee + s.gst == r
    && DriftWithin(r, t.ownerEarningsPaise - t.commissionWaiverPaise, total, s.owner, k, 2, 3)
    && DriftWithin(r, t.parkeaseFeePaise, total, s.fee, k, 2, 3)
    && DriftWithin(r, t.gstPaise, total, s.gst, k, 2, 3)
    && DriftWithin(r, t.commissionWaiverPaise, total, s.waiver, k, 1, 2)
  }

  /** One refund: a leg is off by at most 2/3 of a paisa, the waiver by at most 1/2. */
  lemma OneRefundDrift(t: ReceivableTotals, refund: nat)
    requires t.WellFormed() && t.driverTotalPaise > 0
    ensures SplitDriftWithin(t, refund, SplitOrNothing(t, refund), 1)
  {
    SplitSums(t, refund);
    SplitPartsDrift(t, refund);
    WaiverPartDrift(t, refund);
  }

  lemma SplitDriftAdds(t: ReceivableTotals, r1: int, s1: RefundSplit, k: nat, r2: int, s2: RefundSplit)
    requires t.driverTotalPaise > 0
    requires SplitDriftWithin(t, r1, s1, k) && SplitDriftWithin(t, r2, s2, 1)
    ensures SplitDriftWithin(t, r1 + r2, Add(s1, s2), k + 1)
  {
    var total := t.driverTotalPaise;
    DriftAdds(r1, s1.owner, k, r2, s2.owner, t.ownerEarningsPaise - t.commissionWaiverPaise, total, 2, 3);
    DriftAdds(r1, s1.fee, k, r2, s2.fee, t.parkeaseFeePaise, total, 2, 3);
    DriftAdds(r1, s1.gst, k, r2, s2.gst, t.gstPaise, total, 2, 3);
    DriftAdds(r1, s1.waiver, k, r2, s2.waiver, t.commissionWaiverPaise, total, 1, 2);
  }

  /**
   * After `k` partial refunds the refund total is exact and each allocated leg is off by at most
   * 2k/3 of a paisa, the waiver by k/2.
   */
  lemma {:induction false} DriftBound(t: ReceivableTotals, refunds: seq<nat>)
    requires t.WellFormed() && t.driverTotalPaise > 0
    ensures SplitDriftWithin(t, Sum(refunds), Taken(t, refunds), |refunds|)
  {
    if refunds == [] {
    } else {
      var n := |refunds| - 1;
      DriftBound(t, refunds[..n]);
      OneRefundDrift(t, refunds[n]);
      SplitDriftAdds(t, Sum(refunds[..n]), Taken(t, refunds[..n]), n, refunds[n], SplitOrNothing(t, refunds[n]));
    }
  }

  /** The owner is debited their own leg and the subsidised one together. */
  ghost predicate OwnerDriftWithin(t: ReceivableTotals, r: int, s: RefundSplit, k: nat)
  {
    DriftWithin(r, t.ownerEarningsPaise, t.driverTotalPaise, s.owner + s.waiver, k, 7, 6)
  }

  /** A commission-free owner's whole debit is off by at most 7k/6 of a paisa. */
  lemma OwnerDriftBound(t: ReceivableTotals, refunds: seq<nat>)
    requires t.WellFormed() && t.driverTotalPaise > 0
    ensures OwnerDriftWithin(t, Sum(refunds), Taken(t, refunds), |refunds|)
  {
    DriftBound(t, refunds);
    OwnerDrift(t, Sum(refunds), Taken(t, refunds), |refunds|);
  }

  lemma OwnerDrift(t: ReceivableTotals, r: int, s: RefundSplit, k: nat)
    requires SplitDriftWithin(t, r, s, k) && t.driverTotalPaise > 0
    ensures OwnerDriftWithin(t, r, s, k)
  {
    CombinedDrift(r, t.ownerEarningsPaise - t.commissionWaiverPaise, s.owner,
      t.commissionWaiverPaise, s.waiver, t.driverTotalPaise, k, t.ownerEarningsPaise, s.owner + s.waiver);
  }

  lemma CombinedDrift(r: int, w1: int, p1: int, w2: int, p2: int, total: nat, k: nat, w: int, p: int)
    requires DriftWithin(r, w1, total, p1, k, 2, 3) && DriftWithin(r, w2, total, p2, k, 1, 2)
    requires w == w1 + w2 && p == p1 + p2
    ensures DriftWithin(r, w, total, p, k, 7, 6)
  {
    var x, y := r * w1 - total * p1, r * w2 - total * p2;
    Distribute(r, w1, w2);
    Distribute(total, p1, p2);
    assert Abs(x + y) <= Abs(x) + Abs(y);
  }

  function RefundPosting(t: ReceivableTotals, refund: nat, d: string): Posting
  {
    match ProportionalRefundEntries(t, refund, d)
    case Ok(p) => p
    case Thrown(_) => []
  }

  /** The postings of a run of partial refunds. */
  function RefundPostings(t: ReceivableTotals, refunds: seq<nat>, d: string): (l: seq<Posting>)
    ensures |l| == |refunds|
  {
    if refunds == [] then []
    else
      var n := |refunds| - 1;
      RefundPostings(t, refunds[..n], d) + [RefundPosting(t, refunds[n], d)]
  }

  /** On the books, the drift is what the legs took, and the driver is owed exactly the total. */
  lemma {:induction false} RefundPostingsNet(t: ReceivableTotals, refunds: seq<nat>, d: string)
    requires t.WellFormed() && t.driverTotalPaise > 0
    ensures var l, s := RefundPostings(t, refunds, d), Taken(t, refunds);
      && Books(l, Whole(OwnerPayable)) == s.owner + s.waiver
      && Books(l, Whole(PlatformRevenue)) == s.fee
      && Books(l, Whole(GstPayable)) == s.gst
      && Books(l, Whole(PromoExpense)) == -s.waiver
      && Books(l, Whole(RefundsPayable)) + Sum(refunds) == 0
  {
    if refunds == [] {
    } else {
      var n := |refunds| - 1;
      RefundPostingsNet(t, refunds[..n], d);
      AppendedRefund(RefundPostings(t, refunds[..n], d), t, refunds[n], d);
    }
  }

  lemma AppendedRefund(l: seq<Posting>, t: ReceivableTotals, refund: nat, d: string)
    requires t.WellFormed() && t.driverTotalPaise > 0
    ensures var s := SplitOrNothing(t, refund);
      var p := RefundPosting(t, refund, d);
      && Books(l + [p], Whole(OwnerPayable)) == Books(l, Whole(OwnerPayable)) + s.owner + s.waiver
      && Books(l + [p], Whole(PlatformRevenue)) == Books(l, Whole(PlatformRevenue)) + s.fee
      && Books(l + [p], Whole(GstPayable)) == Books(l, Whole(GstPayable)) + s.gst
      && Books(l + [p], Whole(PromoExpense)) == Books(l, Whole(PromoExpense)) - s.waiver
      && Books(l + [p], Whole(RefundsPayable)) + refund == Books(l, Whole(RefundsPayable))
  {
    SplitSums(t, refund);
    var s := SplitOrNothing(t, refund);
    var p := RefundPosting(t, refund, d);
    assert p == Compose(ProportionalRefundLegs(s, refund, d));
    SplitNets(s, refund, d);
    BooksAppend(l, p, Whole(OwnerPayable));
    BooksAppend(l, p, Whole(PlatformRevenue));
    BooksAppend(l, p, Whole(GstPayable));
    BooksAppend(l, p, Whole(PromoExpense));
    BooksAppend(l, p, Whole(RefundsPayable));
  }
}
