/** Recency-weighted star ratings, in integer basis points. */
module Rating {
  import opened Outcomes
  import opened Rounding
  import opened Sums

  const BP_PER_STAR: nat := 10_000
  const DISPLAY_STEP_BP: nat := 1_000
  const RECENCY_WINDOW_MS: int := 30 * 24 * 60 * 60 * 1000
  const RECENT_WEIGHT: nat := 2
  const OLDER_WEIGHT: nat := 1

  datatype Review = Review(stars: nat, createdAt: int)

  function DivRoundHalfUp(numerator: nat, denominator: int): Outcome<nat>
  {
    if denominator <= 0 then Thrown(NonPositiveDenominator) else Ok(RoundHalfUp(numerator, denominator))
  }

  function Weight(r: Review, now: int): nat
  {
    if r.createdAt >= now - RECENCY_WINDOW_MS then RECENT_WEIGHT else OLDER_WEIGHT
  }

  function WeightedSumUpTo(reviews: seq<Review>, now: int, n: nat): nat
    requires n <= |reviews|
  {
    if n == 0 then 0
    else WeightedSumUpTo(reviews, now, n - 1) + Weight(reviews[n - 1], now) * reviews[n - 1].stars * BP_PER_STAR
  }

  function WeightUpTo(reviews: seq<Review>, now: int, n: nat): (w: nat)
    requires n <= |reviews|
    ensures w >= n
  {
    if n == 0 then 0 else WeightUpTo(reviews, now, n - 1) + Weight(reviews[n - 1], now)
  }

  function WeightedSum(reviews: seq<Review>, now: int): nat
  {
    WeightedSumUpTo(reviews, now, |reviews|)
  }

  function WeightTotal(reviews: seq<Review>, now: int): (w: nat)
    ensures w >= |reviews|
  {
    WeightUpTo(reviews, now, |reviews|)
  }

  /** The average, or nothing when there is no review. */
  function Average(reviews: seq<Review>, now: int): Option<nat>
  {
    if reviews == [] then None
    else Some(DivRoundHalfUp(WeightedSum(reviews, now), WeightTotal(reviews, now)).value)
  }

  method WeightedAverageBp(reviews: seq<Review>, now: int) returns (r: Option<nat>)
    ensures r == Average(reviews, now)
  {
    if |reviews| == 0 {
      return None;
    }
    var cutoff := now - RECENCY_WINDOW_MS;
    var weightedSumBp, weightTotal := 0, 0;
    for i := 0 to |reviews|
      invariant weightedSumBp == WeightedSumUpTo(reviews, now, i)
      invariant weightTotal == WeightUpTo(reviews, now, i)
    {
      var weight := if reviews[i].createdAt >= cutoff then RECENT_WEIGHT else OLDER_WEIGHT;
      weightedSumBp := weightedSumBp + weight * reviews[i].stars * BP_PER_STAR;
      weightTotal := weightTotal + weight;
    }
    return Some(DivRoundHalfUp(weightedSumBp, weightTotal).value);
  }

  // ----- Recent reviews count twice

  /** The stars given, with every review inside the window listed twice. */
  function Doubled(reviews: seq<Review>, now: int, n: nat): seq<nat>
    requires n <= |reviews|
  {
    if n == 0 then []
    else
      var r := reviews[n - 1];
      Doubled(reviews, now, n - 1)
      + (if now - r.createdAt <= RECENCY_WINDOW_MS then [r.stars, r.stars] else [r.stars])
  }

  lemma {:induction false} DoubledSums(reviews: seq<Review>, now: int, n: nat)
    requires n <= |reviews|
    ensures |Doubled(reviews, now, n)| == WeightUpTo(reviews, now, n)
    ensures Sum(Doubled(reviews, now, n)) * BP_PER_STAR == WeightedSumUpTo(reviews, now, n)
  {
    if n == 0 {
    } else {
      DoubledSums(reviews, now, n - 1);
      ListedByWeight(reviews, now, n);
      Scaled(Sum(Doubled(reviews, now, n - 1)), Weight(reviews[n - 1], now) * reviews[n - 1].stars);
    }
  }

  /** One more review adds as many entries as its weight, each of its stars. */
  lemma ListedByWeight(reviews: seq<Review>, now: int, n: nat)
    requires 0 < n <= |reviews|
    ensures var before, after, r := Doubled(reviews, now, n - 1), Doubled(reviews, now, n), reviews[n - 1];
      && |after| == |before| + Weight(r, now)
      && Sum(after) == Sum(before) + Weight(r, now) * r.stars
  {
    var before, stars := Doubled(reviews, now, n - 1), reviews[n - 1].stars;
    SumAppend(before, stars);
    SumAppend(before + [stars], stars);
    assert before + [stars, stars] == (before + [stars]) + [stars];
  }

  lemma Scaled(sum: int, more: int)
    ensures (sum + more) * BP_PER_STAR == sum * BP_PER_STAR + more * BP_PER_STAR
  {
  }

  /** The average is the plain mean of the stars once recent reviews are listed twice. */
  lemma AverageIsMeanOfDoubled(reviews: seq<Review>, now: int)
    requires reviews != []
    ensures var s := Doubled(reviews, now, |reviews|);
      |s| > 0 && Sum(s) >= 0 && Average(reviews, now) == Some(RoundHalfUp(Sum(s) * BP_PER_STAR, |s|))
  {
    DoubledSums(reviews, now, |reviews|);
  }

  // ----- Order does not matter

  lemma {:induction false} SumsOfPrefix(a: seq<Review>, b: seq<Review>, now: int, n: nat)
    requires n <= |a| && n <= |b| && forall i :: 0 <= i < n ==> a[i] == b[i]
    ensures WeightedSumUpTo(a, now, n) == WeightedSumUpTo(b, now, n)
    ensures WeightUpTo(a, now, n) == WeightUpTo(b, now, n)
  {
    if n == 0 {
    } else {
      SumsOfPrefix(a, b, now, n - 1);
    }
  }

  lemma SumsAppend(a: seq<Review>, r: Review, now: int)
    ensures WeightedSum(a + [r], now) == WeightedSum(a, now) + Weight(r, now) * r.stars * BP_PER_STAR
    ensures WeightTotal(a + [r], now) == WeightTotal(a, now) + Weight(r, now)
  {
    SumsOfPrefix(a + [r], a, now, |a|);
  }

  lemma {:induction false} SumsConcat(a: seq<Review>, b: seq<Review>, now: int)
    ensures WeightedSum(a + b, now) == WeightedSum(a, now) + WeightedSum(b, now)
    ensures WeightTotal(a + b, now) == WeightTotal(a, now) + WeightTotal(b, now)
  {
    if b == [] {
      assert a + b == a;
    } else {
      var n := |b| - 1;
      assert a + b == (a + b[..n]) + [b[n]];
      assert b == b[..n] + [b[n]];
      SumsConcat(a, b[..n], now);
      SumsAppend(a + b[..n], b[n], now);
      SumsAppend(b[..n], b[n], now);
    }
  }

  /** Taking one review out of the middle lowers both sums by what it contributed. */
  lemma SumsWithout(a: seq<Review>, i: nat, now: int)
    requires i < |a|
    ensures WeightedSum(a, now)
      == WeightedSum(a[..i] + a[i + 1..], now) + Weight(a[i], now) * a[i].stars * BP_PER_STAR
    ensures WeightTotal(a, now) == WeightTotal(a[..i] + a[i + 1..], now) + Weight(a[i], now)
  {
    assert a == (a[..i] + [a[i]]) + a[i + 1..];
    SumsConcat(a[..i] + [a[i]], a[i + 1..], now);
    SumsAppend(a[..i], a[i], now);
    SumsConcat(a[..i], a[i + 1..], now);
  }

  lemma {:induction false} SumsOfMultiset(a: seq<Review>, b: seq<Review>, now: int)
    requires multiset(a) == multiset(b)
    ensures WeightedSum(a, now) == WeightedSum(b, now) && WeightTotal(a, now) == WeightTotal(b, now)
  {
    if a == [] {
      assert |multiset(b)| == 0;
      assert b == [];
    } else {
      var n := |a| - 1;
      assert a[n] in multiset(b);
      var i :| 0 <= i < |b| && b[i] == a[n];
      WithoutOne(a, n);
      WithoutOne(b, i);
      assert a[..n] + a[n + 1..] == a[..n];
      SumsOfMultiset(a[..n], b[..i] + b[i + 1..], now);
      SumsWithout(a, n, now);
      SumsWithout(b, i, now);
    }
  }

  lemma WithoutOne(a: seq<Review>, i: nat)
    requires i < |a|
    ensures multiset(a[..i] + a[i + 1..]) == multiset(a) - multiset{a[i]}
  {
    assert a == a[..i] + [a[i]] + a[i + 1..];
  }

  /** The same reviews in any order have the same average. */
  lemma OrderDoesNotMatter(a: seq<Review>, b: seq<Review>, now: int)
    requires multiset(a) == multiset(b)
    ensures Average(a, now) == Average(b, now)
  {
    SumsOfMultiset(a, b, now);
    assert |multiset(a)| == |a| && |multiset(b)| == |b|;
  }

  // ----- Bounds

  lemma {:induction false} SumsBetween(reviews: seq<Review>, now: int, n: nat, low: nat, high: nat)
    requires n <= |reviews|
    requires forall i :: 0 <= i < n ==> low <= reviews[i].stars <= high
    ensures WeightUpTo(reviews, now, n) * (low * BP_PER_STAR) <= WeightedSumUpTo(reviews, now, n)
      <= WeightUpTo(reviews, now, n) * (high * BP_PER_STAR)
  {
    if n == 0 {
    } else {
      SumsBetween(reviews, now, n - 1, low, high);
      OneBetween(WeightUpTo(reviews, now, n - 1), Weight(reviews[n - 1], now), reviews[n - 1].stars, low, high);
    }
  }

  lemma OneBetween(w: nat, k: nat, stars: nat, low: nat, high: nat)
    requires low <= stars <= high
    ensures (w + k) * (low * BP_PER_STAR) <= w * (low * BP_PER_STAR) + k * stars * BP_PER_STAR
    ensures w * (high * BP_PER_STAR) + k * stars * BP_PER_STAR <= (w + k) * (high * BP_PER_STAR)
  {
    MulLe(low, stars, k);
    MulLe(stars, high, k);
    Split(w, k, low);
    Split(w, k, high);
  }

  lemma Split(w: int, k: int, stars: int)
    ensures (w + k) * (stars * BP_PER_STAR) == w * (stars * BP_PER_STAR) + stars * k * BP_PER_STAR
  {
  }

  /** The average lies between the lowest and the highest stars given, rounding included. */
  lemma AverageIsBetween(reviews: seq<Review>, now: int, low: nat, high: nat)
    requires reviews != []
    requires forall i :: 0 <= i < |reviews| ==> low <= reviews[i].stars <= high
    ensures low * BP_PER_STAR <= Average(reviews, now).value <= high * BP_PER_STAR
  {
    var n, w := WeightedSum(reviews, now), WeightTotal(reviews, now);
    SumsBetween(reviews, now, |reviews|, low, high);
    BetweenWhole(n, w, low * BP_PER_STAR, high * BP_PER_STAR);
  }

  /** A fraction between two whole numbers rounds to a value between them. */
  lemma BetweenWhole(n: nat, w: nat, low: nat, high: nat)
    requires w > 0 && w * low <= n <= w * high
    ensures low <= RoundHalfUp(n, w) <= high
  {
    RoundHalfUpAtLeast(n, w, low);
    RoundHalfUpAtMost(n, w, high);
  }

  /** One more review moves the rounded average towards its own stars and never past them. */
  lemma NewReviewPullsTowardsItself(reviews: seq<Review>, r: Review, now: int)
    requires reviews != []
    ensures var before, after, stars :=
        Average(reviews, now).value, Average(reviews + [r], now).value, r.stars * BP_PER_STAR;
      (before <= after <= stars) || (stars <= after <= before)
  {
    var n, w, k := WeightedSum(reviews, now), WeightTotal(reviews, now), Weight(r, now);
    SumsAppend(reviews, r, now);
    Pull(n, w, r.stars * BP_PER_STAR, k);
  }

  lemma Pull(n: nat, w: nat, stars: nat, k: nat)
    requires w > 0 && k > 0
    ensures var before, after := RoundHalfUp(n, w), RoundHalfUp(n + k * stars, w + k);
      (before <= after <= stars) || (stars <= after <= before)
  {
    PullProducts(n, w, stars, k);
    if n <= w * stars {
      RoundHalfUpMonotone(n, w, n + k * stars, w + k);
      RoundHalfUpAtMost(n + k * stars, w + k, stars);
    } else {
      RoundHalfUpMonotone(n + k * stars, w + k, n, w);
      RoundHalfUpAtLeast(n + k * stars, w + k, stars);
    }
  }

  lemma PullProducts(n: nat, w: nat, stars: nat, k: nat)
    ensures (w + k) * stars == w * stars + k * stars
    ensures n <= w * stars ==> n * (w + k) <= (n + k * stars) * w
    ensures n >= w * stars ==> (n + k * stars) * w <= n * (w + k)
  {
    Expand(n, k, stars, w);
    if n <= w * stars {
      MulLe(n, w * stars, k);
    }
    if n >= w * stars {
      MulLe(w * stars, n, k);
    }
  }

  lemma Expand(n: int, k: int, stars: int, w: int)
    ensures (w + k) * stars == w * stars + k * stars
    ensures (n + k * stars) * w == n * w + (w * stars) * k
    ensures n * (w + k) == n * w + n * k
  {
  }

  // ----- The displayed value

  function ToDisplayBp(bp: nat): nat
  {
    RoundHalfUp(bp, DISPLAY_STEP_BP) * DISPLAY_STEP_BP
  }

  /** The display rounds to the nearest tenth of a star, keeps order, and is stable. */
  lemma DisplayIsNearestTenth(a: nat, b: nat)
    ensures -(DISPLAY_STEP_BP as int) <= 2 * (a - ToDisplayBp(a)) < DISPLAY_STEP_BP
    ensures ToDisplayBp(ToDisplayBp(a)) == ToDisplayBp(a)
    ensures a <= b ==> ToDisplayBp(a) <= ToDisplayBp(b)
  {
    RoundHalfUpIff(a, DISPLAY_STEP_BP, RoundHalfUp(a, DISPLAY_STEP_BP));
    RoundHalfUpExact(RoundHalfUp(a, DISPLAY_STEP_BP), DISPLAY_STEP_BP);
    if a <= b {
      RoundHalfUpMonotone(a, DISPLAY_STEP_BP, b, DISPLAY_STEP_BP);
    }
  }
}
