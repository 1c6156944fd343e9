/**
 * Largest-remainder allocation: splits a total over weights so that the parts sum to exactly
 * the total. `Allocate` says declaratively who gets a spare paisa (a leg does when fewer legs
 * outrank it than there are spare paise); `AllocateProportionally` is the imperative algorithm.
 */
module LargestRemainder {
  import opened Outcomes
  import opened Rounding
  import opened Sums

  function Abs(x: int): nat
  {
    if x < 0 then -x else x
  }

  predicate AllNonNegative(s: seq<int>)
  {
    forall i :: 0 <= i < |s| ==> s[i] >= 0
  }

  /** What the function demands of the numbers it splits, once its own guards have passed. */
  ghost predicate Splittable(total: int, weights: seq<int>)
  {
    weights != [] && total >= 0 && AllNonNegative(weights) && Sum(weights) > 0
  }

  /** The remainder order: larger remainder first, ties to the smaller index. */
  predicate Before(remainders: seq<int>, a: nat, b: nat)
    requires a < |remainders| && b < |remainders|
  {
    remainders[a] > remainders[b] || (remainders[a] == remainders[b] && a < b)
  }

  /** How many legs outrank leg `i`. */
  function Rank(remainders: seq<int>, i: nat): nat
    requires i < |remainders|
  {
    |set j: nat | j < |remainders| && Before(remainders, j, i)|
  }

  function Floors(total: nat, weights: seq<int>, divisor: int): (s: seq<int>)
    requires divisor > 0
    ensures |s| == |weights|
  {
    seq(|weights|, i requires 0 <= i < |weights| => total * weights[i] / divisor)
  }

  function Remainders(total: nat, weights: seq<int>, divisor: int): (s: seq<int>)
    requires divisor > 0
    ensures |s| == |weights|
  {
    seq(|weights|, i requires 0 <= i < |weights| => total * weights[i] % divisor)
  }

  function Spare(total: nat, weights: seq<int>, divisor: int): int
    requires divisor > 0
  {
    total - Sum(Floors(total, weights, divisor))
  }

  function Parts(total: nat, weights: seq<int>, divisor: int): (parts: seq<int>)
    requires divisor > 0
    ensures |parts| == |weights|
  {
    var floors := Floors(total, weights, divisor);
    var remainders := Remainders(total, weights, divisor);
    var spare := Spare(total, weights, divisor);
    seq(|weights|, i requires 0 <= i < |weights| =>
      if Rank(remainders, i) < spare then floors[i] + 1 else floors[i])
  }

  /** The call, guards first; past them the weight sum is never negative, so `<= 0` means no leg has weight. */
  function Allocate(total: int, weights: seq<int>): (r: Outcome<seq<int>>)
    ensures r.Ok? ==> |r.value| == |weights|
  {
    if |weights| == 0 then Thrown(NoLegs)
    else if total < 0 then Thrown(NegativeTotal)
    else if !AllNonNegative(weights) then Thrown(NegativeWeight)
    else if Sum(weights) <= 0 then Ok(seq(|weights|, _ => 0))
    else Ok(Parts(total, weights, Sum(weights)))
  }

  // ----- The order of the legs

  /** `order` lists every index once, sorted by the comparator. */
  ghost predicate IsOrder(remainders: seq<int>, order: seq<nat>)
  {
    && |order| == |remainders|
    && (forall k :: 0 <= k < |order| ==> order[k] < |remainders|)
    && (forall j, k :: 0 <= j < k < |order| ==> Before(remainders, order[j], order[k]))
  }

  lemma OrderIsDistinct(remainders: seq<int>, order: seq<nat>)
    requires IsOrder(remainders, order)
    ensures Distinct(order)
  {
    forall j, k | 0 <= j < k < |order|
      ensures order[j] != order[k]
    {
      assert Before(remainders, order[j], order[k]);
    }
  }

  /** In any sorted order, the leg at position `k` is outranked by exactly `k` legs. */
  lemma RankInOrder(remainders: seq<int>, order: seq<nat>, k: nat)
    requires IsOrder(remainders, order) && k < |order|
    ensures Rank(remainders, order[k]) == k
  {
    OrderIsDistinct(remainders, order);
    var outranking := set j: nat | j < |remainders| && Before(remainders, j, order[k]);
    forall j: nat
      ensures j in outranking <==> j in order[..k]
    {
      if j < |remainders| {
        Pigeonhole(order, j);
        var p :| 0 <= p < |order| && order[p] == j;
        if p < k {
          assert order[..k][p] == j;
        }
      }
    }
    assert outranking == Elements(order[..k]);
    DistinctSize(order[..k]);
  }

  /** Every sort that honours the comparator gives the same order, so the split is deterministic. */
  lemma OrderIsUnique(remainders: seq<int>, o1: seq<nat>, o2: seq<nat>)
    requires IsOrder(remainders, o1) && IsOrder(remainders, o2)
    ensures o1 == o2
  {
    forall k | 0 <= k < |o1|
      ensures o1[k] == o2[k]
    {
      OrderIsDistinct(remainders, o2);
      Pigeonhole(o2, o1[k]);
      var p :| 0 <= p < |o2| && o2[p] == o1[k];
      RankInOrder(remainders, o1, k);
      RankInOrder(remainders, o2, p);
    }
  }

  /** Puts index `|order|`, the largest so far, in its place in a sorted order. */
  function Insert(remainders: seq<int>, order: seq<nat>): (r: seq<nat>)
    requires |order| < |remainders|
    requires IsOrder(remainders[..|order|], order)
    ensures IsOrder(remainders[..|order| + 1], r)
  {
    var n := |order|;
    var p := InsertionPoint(remainders, order, n);
    order[..p] + [n] + order[p..]
  }

  function InsertionPoint(remainders: seq<int>, order: seq<nat>, p: nat): (r: nat)
    requires |order| < |remainders|
    requires IsOrder(remainders[..|order|], order)
    requires p <= |order|
    requires p < |order| ==> remainders[order[p]] < remainders[|order|]
    ensures r <= p
    ensures forall k :: 0 <= k < r ==> remainders[order[k]] >= remainders[|order|]
    ensures r < |order| ==> remainders[order[r]] < remainders[|order|]
  {
    if p == 0 || remainders[order[p - 1]] >= remainders[|order|] then
      assert forall k :: 0 <= k < p - 1 ==> Before(remainders[..|order|], order[k], order[p - 1]);
      p
    else InsertionPoint(remainders, order, p - 1)
  }

  /** The legs in remainder order; by `OrderIsUnique`, what any sort by that comparator returns. */
  function ByRemainder(remainders: seq<int>): (order: seq<nat>)
    ensures IsOrder(remainders, order)
  {
    assert remainders[..|remainders|] == remainders;
    ByRemainderUpTo(remainders, |remainders|)
  }

  function ByRemainderUpTo(remainders: seq<int>, n: nat): (order: seq<nat>)
    requires n <= |remainders|
    ensures IsOrder(remainders[..n], order)
  {
    if n == 0 then [] else Insert(remainders, ByRemainderUpTo(remainders, n - 1))
  }

  // ----- The spare paise

  lemma ShareOf(x: nat, w: int)
    requires w > 0
    ensures x == w * (x / w) + x % w && 0 <= x % w < w && 0 <= x / w
  {
    FloorIff(x, w, x / w);
  }

  lemma ProductNonNegative(a: nat, b: nat)
    ensures a * b >= 0
  {
  }

  lemma Share(total: nat, weights: seq<int>, i: nat)
    requires Splittable(total, weights) && i < |weights|
    ensures var w := Sum(weights);
      total * weights[i] == w * Floors(total, weights, w)[i] + Remainders(total, weights, w)[i]
      && 0 <= Remainders(total, weights, w)[i] < w && 0 <= Floors(total, weights, w)[i]
  {
    ProductNonNegative(total, weights[i]);
    ShareOf(total * weights[i], Sum(weights));
  }

  lemma Shares(total: nat, weights: seq<int>)
    requires Splittable(total, weights)
    ensures forall i :: 0 <= i < |weights| ==>
      var w := Sum(weights);
      total * weights[i] == w * Floors(total, weights, w)[i] + Remainders(total, weights, w)[i]
      && 0 <= Remainders(total, weights, w)[i] < w && 0 <= Floors(total, weights, w)[i]
  {
    forall i | 0 <= i < |weights| {
      Share(total, weights, i);
    }
  }

  /** The remainders add up to the spare paise, in units of one weight sum. */
  lemma SpareIsRemainderSum(total: nat, weights: seq<int>)
    requires Splittable(total, weights)
    ensures var w := Sum(weights); Sum(Remainders(total, weights, w)) == w * Spare(total, weights, w)
  {
    var w := Sum(weights);
    Shares(total, weights);
    SumLinear(total, weights, w, Floors(total, weights, w), Remainders(total, weights, w));
    Distribute(w, Spare(total, weights, w), Sum(Floors(total, weights, w)));
  }

  function NonZeros(s: seq<int>): set<nat>
  {
    set i: nat | i < |s| && s[i] != 0
  }

  /** Fewer spare paise than non-zero remainders (unless both are none). */
  lemma SpareBelowNonZeroRemainders(total: nat, weights: seq<int>)
    requires Splittable(total, weights)
    ensures var w := Sum(weights);
      var spare := Spare(total, weights, w);
      var claims := |NonZeros(Remainders(total, weights, w))|;
      0 <= spare && (spare < claims || spare == claims == 0) && claims <= |weights|
  {
    var w := Sum(weights);
    var rem := Remainders(total, weights, w);
    Shares(total, weights);
    SpareIsRemainderSum(total, weights);
    SumBelowCount(rem, w);
    SubsetSize(NonZeros(rem), Indices(|rem|));
    CountBound(w, |NonZeros(rem)|, Spare(total, weights, w), Sum(rem));
  }

  lemma CountBound(w: int, claims: nat, spare: int, sum: int)
    requires w > 0 && sum == w * spare && 0 <= sum
    requires if claims > 0 then sum < w * claims else sum <= 0
    ensures 0 <= spare && (spare < claims || spare == claims == 0)
  {
    if spare < 0 {
      MulLe(spare, -1, w);
    } else if claims > 0 {
      if spare >= claims {
        MulLe(claims, spare, w);
      }
    } else if spare > 0 {
      ProductPositive(w, spare);
    }
  }

  lemma ProductPositive(a: int, b: int)
    requires a > 0 && b > 0
    ensures a * b > 0
  {
  }

  /** Terms in `[0, w)` sum to less than `w` each for the non-zero ones. */
  lemma {:induction false} SumBelowCount(s: seq<int>, w: int)
    requires w > 0 && forall i :: 0 <= i < |s| ==> 0 <= s[i] < w
    ensures 0 <= Sum(s)
    ensures if NonZeros(s) == {} then Sum(s) == 0 else Sum(s) < w * |NonZeros(s)|
  {
    if s == [] {
    } else {
      var n := |s| - 1;
      SumBelowCount(s[..n], w);
      var before := NonZeros(s[..n]);
      if s[n] == 0 {
        assert NonZeros(s) == before;
      } else {
        assert NonZeros(s) == before + {n};
        Distribute(w, |before|, 1);
      }
    }
  }

  /** Only a leg with a fractional share is ever rounded up. */
  lemma BumpedHasRemainder(total: nat, weights: seq<int>, i: nat)
    requires Splittable(total, weights) && i < |weights|
    requires Rank(Remainders(total, weights, Sum(weights)), i) < Spare(total, weights, Sum(weights))
    ensures Remainders(total, weights, Sum(weights))[i] > 0
  {
    var w := Sum(weights);
    var rem := Remainders(total, weights, w);
    Shares(total, weights);
    SpareBelowNonZeroRemainders(total, weights);
    if rem[i] == 0 {
      var outranking := set j: nat | j < |rem| && Before(rem, j, i);
      SubsetSize(NonZeros(rem), outranking);
      assert false;
    }
  }

  // ----- What the split promises

  lemma {:induction false} BumpedSum(floors: seq<int>, order: seq<nat>, bumped: seq<int>)
    requires Distinct(order) && |bumped| == |floors|
    requires forall k :: 0 <= k < |order| ==> order[k] < |floors|
    requires forall i :: 0 <= i < |floors| ==> bumped[i] == floors[i] + (if i in order then 1 else 0)
    ensures Sum(bumped) == Sum(floors) + |order|
  {
    if order == [] {
      assert bumped == floors;
    } else {
      var n := |order| - 1;
      var last := order[n];
      assert order == order[..n] + [last];
      assert last !in order[..n];
      var rest := bumped[last := floors[last]];
      BumpedSum(floors, order[..n], rest);
      SumUpdate(bumped, last, floors[last]);
    }
  }

  lemma PartsByOrder(total: nat, weights: seq<int>, order: seq<nat>)
    requires Splittable(total, weights)
    requires IsOrder(Remainders(total, weights, Sum(weights)), order)
    ensures 0 <= Spare(total, weights, Sum(weights)) <= |order|
    ensures forall i :: 0 <= i < |weights| ==>
      Parts(total, weights, Sum(weights))[i]
      == Floors(total, weights, Sum(weights))[i]
         + (if i in order[..Spare(total, weights, Sum(weights))] then 1 else 0)
  {
    var rem := Remainders(total, weights, Sum(weights));
    var spare := Spare(total, weights, Sum(weights));
    SpareBelowNonZeroRemainders(total, weights);
    OrderIsDistinct(rem, order);
    forall i | 0 <= i < |weights|
      ensures (i in order[..spare]) == (Rank(rem, i) < spare)
    {
      Pigeonhole(order, i);
      var p :| 0 <= p < |order| && order[p] == i;
      RankInOrder(rem, order, p);
      if p < spare {
        assert order[..spare][p] == i;
      }
    }
  }

  /** No paisa is lost or invented. */
  lemma AllocationIsExact(total: nat, weights: seq<int>)
    requires Splittable(total, weights)
    ensures Sum(Parts(total, weights, Sum(weights))) == total
  {
    var w := Sum(weights);
    var order := ByRemainder(Remainders(total, weights, w));
    var spare := Spare(total, weights, w);
    PartsByOrder(total, weights, order);
    OrderIsDistinct(Remainders(total, weights, w), order);
    BumpedSum(Floors(total, weights, w), order[..spare], Parts(total, weights, w));
  }

  /** Each part is the floor or the ceiling of its exact share, and whole shares are untouched. */
  lemma AllocationQuota(total: nat, weights: seq<int>, i: nat)
    requires Splittable(total, weights) && i < |weights|
    ensures var w := Sum(weights);
      var part := Parts(total, weights, w)[i];
      part >= 0 && -w < total * weights[i] - w * part < w
  {
    var w := Sum(weights);
    Share(total, weights, i);
    if Rank(Remainders(total, weights, w), i) < Spare(total, weights, w) {
      BumpedHasRemainder(total, weights, i);
    }
    LegQuota(w, total * weights[i], Floors(total, weights, w)[i], Remainders(total, weights, w)[i],
      Parts(total, weights, w)[i]);
  }

  /** A leg without weight gets nothing, however large the total. */
  lemma ZeroWeightGetsNothing(total: nat, weights: seq<int>, i: nat)
    requires Splittable(total, weights) && i < |weights| && weights[i] == 0
    ensures Parts(total, weights, Sum(weights))[i] == 0
  {
    AllocationQuota(total, weights, i);
    QuotientAtMost(Sum(weights), Parts(total, weights, Sum(weights))[i], 0);
  }

  lemma LegQuota(w: int, x: int, f: int, r: int, part: int)
    requires 0 <= r < w && 0 <= f && x == w * f + r
    requires part == f || (part == f + 1 && r > 0)
    ensures part >= 0 && -w < x - w * part < w
  {
    Distribute(w, f, 1);
  }

  /** A total within the weight sum never takes more from a leg than its weight. */
  lemma AllocationNeverOvershoots(total: nat, weights: seq<int>, i: nat)
    requires Splittable(total, weights) && i < |weights|
    requires total <= Sum(weights)
    ensures Parts(total, weights, Sum(weights))[i] <= weights[i]
  {
    var w := Sum(weights);
    AllocationQuota(total, weights, i);
    MulLe(total, w, weights[i]);
    QuotientAtMost(w, Parts(total, weights, w)[i], weights[i]);
  }

  lemma QuotientAtMost(w: int, part: int, limit: int)
    requires w > 0 && w * part - w < w * limit
    ensures part <= limit
  {
    if part > limit {
      MulLe(limit + 1, part, w);
    }
  }

  /** Splitting the whole weight sum gives every leg exactly its weight. */
  lemma AllocationOfWhole(weights: seq<int>)
    requires Splittable(Sum(weights), weights)
    ensures Parts(Sum(weights), weights, Sum(weights)) == weights
  {
    var w := Sum(weights);
    var parts := Parts(w, weights, w);
    forall i | 0 <= i < |weights|
      ensures parts[i] == weights[i]
    {
      AllocationQuota(w, weights, i);
      QuotientAtMost(w, parts[i], weights[i]);
      QuotientAtMost(w, weights[i], parts[i]);
    }
  }

  // ----- Optimality

  /** How far a split is from the exact shares, leg by leg, in units of 1/weight-sum of a paisa. */
  function Deviations(total: nat, weights: seq<int>, split: seq<int>): (s: seq<int>)
    requires |split| == |weights|
    ensures |s| == |weights|
  {
    seq(|weights|, i requires 0 <= i < |weights| => Abs(total * weights[i] - Sum(weights) * split[i]))
  }

  /** A remainder that separates the legs rounded up from the legs rounded down. */
  ghost predicate Threshold(total: nat, weights: seq<int>, theta: int)
    requires Sum(weights) > 0
  {
    var w := Sum(weights);
    0 <= theta <= w &&
    forall i :: 0 <= i < |weights| ==>
      if Rank(Remainders(total, weights, w), i) < Spare(total, weights, w)
      then Remainders(total, weights, w)[i] >= theta
      else Remainders(total, weights, w)[i] <= theta
  }

  lemma ThresholdExists(total: nat, weights: seq<int>) returns (theta: int)
    requires Splittable(total, weights)
    ensures Threshold(total, weights, theta)
  {
    var w := Sum(weights);
    var rem := Remainders(total, weights, w);
    var spare := Spare(total, weights, w);
    Shares(total, weights);
    var order := ByRemainder(rem);
    PartsByOrder(total, weights, order);
    OrderIsDistinct(rem, order);
    theta := if spare == 0 then w else rem[order[spare - 1]];
    forall i | 0 <= i < |weights|
      ensures if Rank(rem, i) < spare then rem[i] >= theta else rem[i] <= theta
    {
      Pigeonhole(order, i);
      var p :| 0 <= p < |order| && order[p] == i;
      RankInOrder(rem, order, p);
      if 0 < spare && p < spare - 1 {
        assert Before(rem, order[p], order[spare - 1]);
      } else if 0 < spare <= p {
        assert Before(rem, order[spare - 1], order[p]);
      }
    }
  }

  /**
   * One leg of the optimality argument: with the multiplier `lambda`, no integer does better
   * than the chosen one. `r` is the leg's remainder, `d` a competitor's distance from the floor.
   */
  lemma LegIsOptimal(w: int, r: int, lambda: int, bump: bool, d: int)
    requires 0 <= r < w && -w <= lambda <= w
    requires if bump then w - 2 * r <= lambda else lambda <= w - 2 * r
    ensures (if bump then w - r - lambda else r) <= Abs(r - w * d) - lambda * d
  {
    Slopes(w, lambda, d);
  }

  lemma Slopes(w: int, lambda: int, d: int)
    requires -w <= lambda <= w
    ensures d <= 0 ==> w * d + lambda * d <= 0
    ensures d >= 1 ==> w * d - lambda * d >= w - lambda
    ensures d <= 0 ==> w * d <= 0
    ensures d >= 1 ==> w * d >= w
  {
    if d <= 0 {
      MulLe(lambda, w, -d);
      MulLe(-w, lambda, -d);
      MulLe(0, w, -d);
    } else {
      MulLe(lambda, w, d - 1);
      MulLe(0, w, d - 1);
    }
  }

  /** Among all integer splits of the total, this one is closest to the exact shares. */
  lemma AllocationIsOptimal(total: nat, weights: seq<int>, other: seq<int>)
    requires Splittable(total, weights)
    requires |other| == |weights| && Sum(other) == total
    ensures Sum(Deviations(total, weights, Parts(total, weights, Sum(weights))))
         <= Sum(Deviations(total, weights, other))
  {
    var theta := ThresholdExists(total, weights);
    OptimalAt(total, weights, theta, Sum(weights) - 2 * theta, other);
  }

  lemma OptimalAt(total: nat, weights: seq<int>, theta: int, lambda: int, other: seq<int>)
    requires Splittable(total, weights) && Threshold(total, weights, theta)
    requires |other| == |weights| && Sum(other) == total
    requires lambda == Sum(weights) - 2 * theta
    ensures Sum(Deviations(total, weights, Parts(total, weights, Sum(weights))))
         <= Sum(Deviations(total, weights, other))
  {
    var parts := Parts(total, weights, Sum(weights));
    var d1, d2 := Deviations(total, weights, parts), Deviations(total, weights, other);
    forall i | 0 <= i < |weights|
      ensures d1[i] - lambda * parts[i] <= d2[i] - lambda * other[i]
    {
      CostComparison(total, weights, theta, Sum(weights), lambda, i, other[i]);
    }
    AllocationIsExact(total, weights);
    CostSums(d1, parts, d2, other, lambda);
  }

  lemma {:induction false} CostSums(d1: seq<int>, s1: seq<int>, d2: seq<int>, s2: seq<int>, lambda: int)
    requires |d1| == |s1| == |d2| == |s2|
    requires forall i :: 0 <= i < |d1| ==> d1[i] - lambda * s1[i] <= d2[i] - lambda * s2[i]
    ensures Sum(d1) - lambda * Sum(s1) <= Sum(d2) - lambda * Sum(s2)
  {
    if d1 == [] {
    } else {
      var n := |d1| - 1;
      CostSums(d1[..n], s1[..n], d2[..n], s2[..n], lambda);
      Distribute(lambda, Sum(s1[..n]), s1[n]);
      Distribute(lambda, Sum(s2[..n]), s2[n]);
    }
  }

  lemma CostComparison(total: nat, weights: seq<int>, theta: int, w: int, lambda: int, i: nat, y: int)
    requires Splittable(total, weights) && Threshold(total, weights, theta) && i < |weights|
    requires w == Sum(weights) && lambda == w - 2 * theta
    ensures var part := Parts(total, weights, w)[i];
      Abs(total * weights[i] - w * part) - lambda * part <= Abs(total * weights[i] - w * y) - lambda * y
  {
    Share(total, weights, i);
    var f, r := Floors(total, weights, w)[i], Remainders(total, weights, w)[i];
    var bump := Rank(Remainders(total, weights, w), i) < Spare(total, weights, w);
    LegCost(w, total * weights[i], f, r, lambda, bump, if bump then f + 1 else f, y);
  }

  lemma LegCost(w: int, x: int, f: int, r: int, lambda: int, bump: bool, part: int, y: int)
    requires 0 <= r < w && -w <= lambda <= w && x == w * f + r
    requires if bump then w - 2 * r <= lambda else lambda <= w - 2 * r
    requires part == if bump then f + 1 else f
    ensures Abs(x - w * part) - lambda * part <= Abs(x - w * y) - lambda * y
  {
    LegIsOptimal(w, r, lambda, bump, y - f);
    Distribute(w, f, y - f);
    Distribute(lambda, f, y - f);
    Distribute(w, f, 1);
    Distribute(lambda, f, 1);
  }

  /** Neither what rounding down drops nor what rounding up adds is more than (n - 1)/n of a paisa. */
  ghost predicate RemainderWithin(n: nat, w: int, r: int, bump: bool)
  {
    if bump then n * (w - r) <= (n - 1) * w else n * r <= (n - 1) * w
  }

  /** A part of an exact share of `x / w` paise is off by at most (n - 1)/n of a paisa. */
  ghost predicate DeviationWithin(n: nat, w: int, x: int, part: int)
  {
    n * Abs(x - w * part) <= (n - 1) * w
  }

  /** With `n` legs, no part is off by more than (n - 1)/n of a paisa. */
  lemma AllocationDeviation(total: nat, weights: seq<int>, i: nat)
    requires Splittable(total, weights) && i < |weights|
    ensures DeviationWithin(
        |weights|, Sum(weights), total * weights[i], Parts(total, weights, Sum(weights))[i])
  {
    var w := Sum(weights);
    RemainderBoundOf(total, weights, i);
    Share(total, weights, i);
    LegDeviation(|weights|, w, total * weights[i], Floors(total, weights, w)[i], Remainders(total, weights, w)[i],
      Rank(Remainders(total, weights, w), i) < Spare(total, weights, w), Parts(total, weights, w)[i]);
  }

  lemma RemainderBoundOf(total: nat, weights: seq<int>, i: nat)
    requires Splittable(total, weights) && i < |weights|
    ensures var n, w := |weights|, Sum(weights);
      var rem := Remainders(total, weights, w);
      RemainderWithin(n, w, rem[i], Rank(rem, i) < Spare(total, weights, w))
  {
    var w := Sum(weights);
    var rem := Remainders(total, weights, w);
    SpareIsRemainderSum(total, weights);
    SpareBelowNonZeroRemainders(total, weights);
    RemaindersBounded(total, weights);
    RemainderBound(rem, |weights|, w, Spare(total, weights, w), ByRemainder(rem), i);
  }

  lemma RemainderBound(rem: seq<int>, n: nat, w: int, spare: int, order: seq<nat>, i: nat)
    requires IsOrder(rem, order) && i < |rem| && n == |rem|
    requires forall j :: 0 <= j < |rem| ==> 0 <= rem[j] < w
    requires 0 <= spare < |rem| && Sum(rem) == w * spare
    ensures RemainderWithin(n, w, rem[i], Rank(rem, i) < spare)
  {
    OrderIsDistinct(rem, order);
    Pigeonhole(order, i);
    var p :| 0 <= p < |order| && order[p] == i;
    RankInOrder(rem, order, p);
    if p < spare {
      RoundedUpBound(rem, order, w, p, spare, rem[i]);
    } else {
      RoundedDownBound(rem, order, w, p, spare, rem[i]);
    }
  }

  lemma RoundedUpBound(rem: seq<int>, order: seq<nat>, w: int, p: nat, spare: int, r: int)
    requires IsOrder(rem, order) && p < |order| && r == rem[order[p]]
    requires forall j :: 0 <= j < |rem| ==> 0 <= rem[j] < w
    requires p < spare < |rem| && Sum(rem) == w * spare
    ensures |rem| * (w - r) <= (|rem| - 1) * w
  {
    RemainderOfRoundedUp(rem, order, w, p, r, w - r);
    StepBoundUp(|rem|, w, r, p, spare);
  }

  lemma RoundedDownBound(rem: seq<int>, order: seq<nat>, w: int, p: nat, spare: int, r: int)
    requires IsOrder(rem, order) && p < |order| && r == rem[order[p]]
    requires forall j :: 0 <= j < |rem| ==> 0 <= rem[j] < w
    requires 0 <= spare <= p && Sum(rem) == w * spare
    ensures |rem| * r <= (|rem| - 1) * w
  {
    RemainderOfRoundedDown(rem, order, p, r);
    StepBoundDown(|rem|, w, r, p, spare);
  }

  lemma RemaindersBounded(total: nat, weights: seq<int>)
    requires Splittable(total, weights)
    ensures forall i :: 0 <= i < |weights| ==> 0 <= Remainders(total, weights, Sum(weights))[i] < Sum(weights)
  {
  }

  lemma LegDeviation(n: nat, w: int, x: int, f: int, r: int, bump: bool, part: int)
    requires n > 0 && 0 <= r < w && x == w * f + r
    requires part == if bump then f + 1 else f
    requires RemainderWithin(n, w, r, bump)
    ensures DeviationWithin(n, w, x, part)
  {
    Distribute(w, f, 1);
  }

  /** The legs ranked above position `p` hold less than `w` each, the others at most its remainder. */
  lemma RemainderOfRoundedUp(rem: seq<int>, order: seq<nat>, w: int, p: nat, r: int, gap: int)
    requires IsOrder(rem, order) && p < |order| && r == rem[order[p]] && gap == w - r
    requires forall j :: 0 <= j < |rem| ==> 0 <= rem[j] < w
    ensures Sum(rem) <= |rem| * r + p * gap
  {
    var bound := Stepped(order[..p], |rem|, r, gap);
    forall j | 0 <= j < |rem|
      ensures rem[j] <= bound[j]
    {
      RankedBelow(rem, order, p, j);
    }
    SumMonotone(rem, bound);
    OrderIsDistinct(rem, order);
    SumOfStep(order[..p], |rem|, r, gap);
  }

  /** The legs ranked down to position `p` hold at least its remainder each. */
  lemma RemainderOfRoundedDown(rem: seq<int>, order: seq<nat>, p: nat, r: int)
    requires IsOrder(rem, order) && p < |order| && r == rem[order[p]]
    requires forall j :: 0 <= j < |rem| ==> 0 <= rem[j]
    ensures (p + 1) * r <= Sum(rem)
  {
    var bound := Stepped(order[..p + 1], |rem|, 0, r);
    forall j | 0 <= j < |rem|
      ensures bound[j] <= rem[j]
    {
      RankedAbove(rem, order, p, j);
    }
    SumMonotone(bound, rem);
    OrderIsDistinct(rem, order);
    SumOfStep(order[..p + 1], |rem|, 0, r);
  }

  lemma RankedBelow(rem: seq<int>, order: seq<nat>, p: nat, j: nat)
    requires IsOrder(rem, order) && p < |order| && j < |rem|
    ensures j in order[..p] || rem[j] <= rem[order[p]]
  {
    OrderIsDistinct(rem, order);
    Pigeonhole(order, j);
    var k :| 0 <= k < |order| && order[k] == j;
    if k < p {
      assert order[..p][k] == j;
    } else if k > p {
      assert Before(rem, order[p], order[k]);
    }
  }

  lemma RankedAbove(rem: seq<int>, order: seq<nat>, p: nat, j: nat)
    requires IsOrder(rem, order) && p < |order| && j < |rem|
    requires forall i :: 0 <= i < |rem| ==> rem[i] >= 0
    ensures rem[j] >= if j in order[..p + 1] then rem[order[p]] else 0
  {
    if j in order[..p + 1] {
      var k :| 0 <= k <= p && order[..p + 1][k] == j;
      if k < p {
        assert Before(rem, order[k], order[p]);
      }
    }
  }

  /** `base` everywhere, and `step` more at the chosen places. */
  function Stepped(chosen: seq<nat>, n: nat, base: int, step: int): (s: seq<int>)
    ensures |s| == n
  {
    seq(n, j => if j in chosen then base + step else base)
  }

  lemma {:induction false} SumOfStep(chosen: seq<nat>, n: nat, base: int, step: int)
    requires Distinct(chosen)
    requires forall k :: 0 <= k < |chosen| ==> chosen[k] < n
    ensures Sum(Stepped(chosen, n, base, step)) == n * base + |chosen| * step
  {
    var s := Stepped(chosen, n, base, step);
    if chosen == [] {
      SumConstant(s, base);
    } else {
      var rest, last := chosen[..|chosen| - 1], chosen[|chosen| - 1];
      assert chosen == rest + [last];
      assert last !in rest;
      SumOfStep(rest, n, base, step);
      assert s == Stepped(rest, n, base, step)[last := base + step];
      SumUpdate(Stepped(rest, n, base, step), last, base + step);
      Succ(|rest|, step);
    }
  }

  lemma Succ(n: int, step: int)
    ensures (n + 1) * step == n * step + step
  {
  }

  lemma StepBoundUp(n: int, w: int, r: int, p: int, spare: int)
    requires 0 <= p < spare < n && 0 <= r < w
    requires w * spare <= n * r + p * (w - r)
    ensures n * (w - r) <= (n - 1) * w
  {
    MulLe(p + 1, spare, w);
    assert w * spare >= w * p + w;
    assert p * (w - r) == p * w - p * r;
    assert p * r >= 0;
    assert n * (w - r) == n * w - n * r;
  }

  lemma StepBoundDown(n: int, w: int, r: int, p: int, spare: int)
    requires 0 <= spare <= p < n && 0 <= r < w
    requires (p + 1) * r <= w * spare
    ensures n * r <= (n - 1) * w
  {
    MulLe(p + 1, n, w - r);
    assert n * (w - r) == n * w - n * r;
    assert (p + 1) * (w - r) == (p + 1) * w - (p + 1) * r;
    MulLe(spare, p, w);
    assert (p + 1) * w == p * w + w;
  }

  /** The whole contract of a call: when it throws, and that otherwise it neither loses nor invents a paisa. */
  lemma AllocateOutcome(total: int, weights: seq<int>)
    ensures Allocate(total, weights).Ok? <==> weights != [] && total >= 0 && AllNonNegative(weights)
    ensures Allocate(total, weights).Ok? ==>
      var parts := Allocate(total, weights).value;
      AllNonNegative(parts) && Sum(parts) == if Sum(weights) == 0 then 0 else total
  {
    if weights != [] && total >= 0 && AllNonNegative(weights) {
      SumAtLeastTerm(weights, 0);
      if Sum(weights) == 0 {
        SumConstant(seq(|weights|, _ => 0), 0);
      } else {
        AllocationIsExact(total, weights);
        forall i | 0 <= i < |weights|
          ensures Parts(total, weights, Sum(weights))[i] >= 0
        {
          AllocationQuota(total, weights, i);
        }
      }
    }
  }

  // ----- A larger total can give a leg less

  /** Whatever is split, no leg ever gets less of a larger total. */
  ghost predicate MonotoneInTotal(weights: seq<int>)
    requires Sum(weights) > 0
  {
    forall low: nat, high: nat, i :: low <= high && 0 <= i < |weights| ==>
      Parts(low, weights, Sum(weights))[i] <= Parts(high, weights, Sum(weights))[i]
  }

  /** Every list of `n` weights that can be split at all is monotone in the total. */
  ghost predicate AlwaysMonotone(n: nat)
  {
    forall weights: seq<int> :: |weights| == n && AllNonNegative(weights) && Sum(weights) > 0 ==>
      MonotoneInTotal(weights)
  }

  /** Two legs never take turns in getting less; with three or more legs they can. */
  lemma MonotoneIffTwoLegs(n: nat)
    ensures AlwaysMonotone(n) <==> n <= 2
  {
    if n <= 2 {
      forall weights: seq<int> | |weights| == n && AllNonNegative(weights) && Sum(weights) > 0
        ensures MonotoneInTotal(weights)
      {
        forall low: nat, high: nat, i | low <= high && 0 <= i < n
          ensures Parts(low, weights, Sum(weights))[i] <= Parts(high, weights, Sum(weights))[i]
        {
          PartGrows(low, high, weights, i);
        }
      }
    } else {
      var weights := Padded([6, 6, 2], n);
      LargerTotalSmallerPart(n);
      assert Parts(10, weights, Sum(weights))[2] > Parts(11, weights, Sum(weights))[2];
      assert !MonotoneInTotal(weights);
    }
  }

  lemma PartGrows(low: nat, high: nat, weights: seq<int>, i: nat)
    requires |weights| <= 2 && AllNonNegative(weights) && Sum(weights) > 0
    requires low <= high && i < |weights|
    ensures Parts(low, weights, Sum(weights))[i] <= Parts(high, weights, Sum(weights))[i]
  {
    if weights[i] == 0 {
      ZeroWeightGetsNothing(low, weights, i);
      ZeroWeightGetsNothing(high, weights, i);
    } else if low < high {
      WithinHalf(low, weights, i);
      WithinHalf(high, weights, i);
      LargerShare(low, high, weights[i]);
      HalfPaisaApart(Sum(weights), low * weights[i], high * weights[i],
        Parts(low, weights, Sum(weights))[i], Parts(high, weights, Sum(weights))[i]);
    }
  }

  lemma LargerShare(low: nat, high: nat, weight: int)
    requires low < high && weight > 0
    ensures low * weight < high * weight
  {
  }

  /** With one leg or two, a part is never off by more than half a paisa. */
  lemma WithinHalf(total: nat, weights: seq<int>, i: nat)
    requires Splittable(total, weights) && |weights| <= 2 && i < |weights|
    ensures 2 * Abs(total * weights[i] - Sum(weights) * Parts(total, weights, Sum(weights))[i]) <= Sum(weights)
  {
    AllocationDeviation(total, weights, i);
    AtMostHalf(|weights|, Sum(weights), total * weights[i], Parts(total, weights, Sum(weights))[i]);
  }

  lemma AtMostHalf(n: nat, w: int, x: int, part: int)
    requires 1 <= n <= 2 && w > 0 && DeviationWithin(n, w, x, part)
    ensures 2 * Abs(x - w * part) <= w
  {
    if n == 1 {
      assert Abs(x - w * part) == 0;
    }
  }

  /** `x` and `y` are what the two totals give the leg, `w` each paisa, off by at most half a paisa. */
  lemma HalfPaisaApart(w: int, x: int, y: int, p: int, q: int)
    requires w > 0 && x < y
    requires 2 * Abs(x - w * p) <= w && 2 * Abs(y - w * q) <= w
    ensures p <= q
  {
    if q < p {
      MulLe(q + 1, p, w);
    }
  }

  function Padded(weights: seq<int>, n: nat): (s: seq<int>)
    requires |weights| <= n
    ensures |s| == n
  {
    weights + seq(n - |weights|, _ => 0)
  }

  lemma {:induction false} PaddedSum(weights: seq<int>, n: nat)
    requires |weights| <= n
    ensures Sum(Padded(weights, n)) == Sum(weights)
  {
    if n == |weights| {
      assert Padded(weights, n) == weights;
    } else {
      PaddedSum(weights, n - 1);
      assert Padded(weights, n) == Padded(weights, n - 1) + [0];
      SumAppend(Padded(weights, n - 1), 0);
    }
  }

  /** One paisa more to split, and the third leg's part falls from two to one, however many legs follow. */
  lemma LargerTotalSmallerPart(n: nat)
    requires n >= 3
    ensures var weights := Padded([6, 6, 2], n);
      && AllNonNegative(weights) && Sum(weights) == 14
      && Parts(10, weights, 14)[2] == 2 && Parts(11, weights, 14)[2] == 1
  {
    var w := Padded([6, 6, 2], n);
    PaddedSum([6, 6, 2], n);
    Sum3([6, 6, 2]);
    PaddedFloors(10, n, [4, 4, 1], [4, 4, 6]);
    PaddedFloors(11, n, [4, 4, 1], [10, 10, 8]);
    assert Rank(Remainders(10, w, 14), 2) == 0 by {
      assert (set j: nat | j < n && Before(Remainders(10, w, 14), j, 2)) == {};
    }
    assert Rank(Remainders(11, w, 14), 2) == 2 by {
      assert (set j: nat | j < n && Before(Remainders(11, w, 14), j, 2)) == {0, 1};
    }
  }

  lemma PaddedFloors(total: nat, n: nat, floors: seq<int>, remainders: seq<int>)
    requires n >= 3 && |floors| == |remainders| == 3
    requires Floors(total, [6, 6, 2], 14) == floors && Remainders(total, [6, 6, 2], 14) == remainders
    ensures var w := Padded([6, 6, 2], n);
      && Floors(total, w, 14) == Padded(floors, n)
      && Remainders(total, w, 14) == Padded(remainders, n)
      && Spare(total, w, 14) == total - (floors[0] + floors[1] + floors[2])
  {
    var w := Padded([6, 6, 2], n);
    forall i | 0 <= i < n
      ensures Floors(total, w, 14)[i] == Padded(floors, n)[i]
      ensures Remainders(total, w, 14)[i] == Padded(remainders, n)[i]
    {
      if i < 3 {
        assert w[i] == [6, 6, 2][i];
        assert Floors(total, [6, 6, 2], 14)[i] == floors[i];
        assert Remainders(total, [6, 6, 2], 14)[i] == remainders[i];
      } else {
        assert w[i] == 0;
      }
    }
    PaddedSum(floors, n);
    Sum3(floors);
  }

  // ----- Splits worked out by hand

  /** Over three legs, the parts are the floors, one more for the first legs in remainder order. */
  lemma PartsOfThree(total: nat, weights: seq<int>, floors: seq<int>, remainders: seq<int>, order: seq<nat>)
    requires Splittable(total, weights) && |weights| == |floors| == |remainders| == 3
    requires forall i :: 0 <= i < 3 ==>
      total * weights[i] == Sum(weights) * floors[i] + remainders[i] && 0 <= remainders[i] < Sum(weights)
    requires IsOrder(remainders, order)
    ensures forall k :: 0 <= k < 3 ==>
      Parts(total, weights, Sum(weights))[order[k]]
      == floors[order[k]] + (if k < total - (floors[0] + floors[1] + floors[2]) then 1 else 0)
  {
    var w := Sum(weights);
    forall i | 0 <= i < 3
      ensures Floors(total, weights, w)[i] == floors[i] && Remainders(total, weights, w)[i] == remainders[i]
    {
      QuotientIs(total * weights[i], w, floors[i], remainders[i]);
    }
    assert Floors(total, weights, w) == floors && Remainders(total, weights, w) == remainders;
    Sum3(floors);
    RankInOrder(remainders, order, 0);
    RankInOrder(remainders, order, 1);
    RankInOrder(remainders, order, 2);
  }

  lemma QuotientIs(x: int, w: int, f: int, r: int)
    requires w > 0 && x == w * f + r && 0 <= r < w
    ensures x / w == f && x % w == r
  {
    FloorIff(x, w, f);
  }

  // ----- The imperative algorithm

  /** The floors, with one more for each index in `done`. */
  ghost predicate BumpedBy(parts: seq<int>, floors: seq<int>, done: seq<nat>)
  {
    |parts| == |floors| &&
    forall i :: 0 <= i < |parts| ==> parts[i] == floors[i] + (if i in done then 1 else 0)
  }

  lemma SpareWithinOrder(total: nat, weights: seq<int>, order: seq<nat>)
    requires Splittable(total, weights)
    requires IsOrder(Remainders(total, weights, Sum(weights)), order)
    ensures 0 <= Spare(total, weights, Sum(weights)) <= |order| && Distinct(order)
  {
    PartsByOrder(total, weights, order);
    OrderIsDistinct(Remainders(total, weights, Sum(weights)), order);
  }

  lemma BumpedIsAllocated(total: nat, weights: seq<int>, order: seq<nat>, parts: seq<int>)
    requires Splittable(total, weights)
    requires IsOrder(Remainders(total, weights, Sum(weights)), order)
    requires 0 <= Spare(total, weights, Sum(weights)) <= |order|
    requires BumpedBy(parts, Floors(total, weights, Sum(weights)), order[..Spare(total, weights, Sum(weights))])
    ensures parts == Parts(total, weights, Sum(weights))
  {
    PartsByOrder(total, weights, order);
  }

  method AllocateProportionally(total: int, weights: seq<int>) returns (r: Outcome<seq<int>>)
    ensures r == Allocate(total, weights)
  {
    if |weights| == 0 {
      return Thrown(NoLegs);
    }
    if total < 0 {
      return Thrown(NegativeTotal);
    }
    if exists i :: 0 <= i < |weights| && weights[i] < 0 {
      return Thrown(NegativeWeight);
    }
    var weightSum := Sum(weights);
    SumAtLeastTerm(weights, 0);
    if weightSum == 0 {
      return Ok(seq(|weights|, _ => 0));
    }

    var floors := Floors(total, weights, weightSum);
    var parts := new int[|weights|](i requires 0 <= i < |weights| => floors[i]);
    var spare := total - Sum(floors);
    var byRemainder := ByRemainder(Remainders(total, weights, weightSum));
    SpareWithinOrder(total, weights, byRemainder);
    GiveSpare(parts, byRemainder, spare);
    BumpedIsAllocated(total, weights, byRemainder, parts[..]);
    return Ok(parts[..]);
  }

  /** One more paisa for each of the first `spare` legs in remainder order. */
  method GiveSpare(parts: array<int>, byRemainder: seq<nat>, spare: nat)
    requires Distinct(byRemainder) && spare <= |byRemainder|
    requires forall k :: 0 <= k < |byRemainder| ==> byRemainder[k] < parts.Length
    modifies parts
    ensures BumpedBy(parts[..], old(parts[..]), byRemainder[..spare])
  {
    var left := spare;
    var k := 0;
    while k < |byRemainder| && left != 0
      invariant 0 <= k <= spare && left == spare - k
      invariant BumpedBy(parts[..], old(parts[..]), byRemainder[..k])
    {
      var index := byRemainder[k];
      assert byRemainder[..k + 1] == byRemainder[..k] + [index];
      assert index !in byRemainder[..k];
      parts[index] := parts[index] + 1;
      left := left - 1;
      k := k + 1;
    }
  }
}
