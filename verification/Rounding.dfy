/** Half-up division of non-negative integers, the one rounding rule of the platform. */
module Rounding {

  function RoundHalfUp(n: nat, d: nat): nat
    requires d > 0
  {
    (2 * n + d) / (2 * d)
  }

  /** The quotient is the only integer within half of the exact fraction, ties going up. */
  lemma RoundHalfUpIff(n: nat, d: nat, q: int)
    requires d > 0
    ensures q == RoundHalfUp(n, d) <==> 2 * (d * q) <= 2 * n + d < 2 * (d * q) + 2 * d
  {
    FloorIff(2 * n + d, 2 * d, q);
    Regroup(d, q);
  }

  lemma FloorIff(x: int, y: int, q: int)
    requires y > 0
    ensures q == x / y <==> y * q <= x < y * q + y
  {
    var r := x / y;
    assert x == y * r + x % y;
    if q < r {
      MulLe(q + 1, r, y);
    } else if r < q {
      MulLe(r + 1, q, y);
    }
  }

  lemma Regroup(d: int, q: int)
    ensures 2 * d * q == 2 * (d * q)
  {
  }

  lemma MulLe(a: int, b: int, c: nat)
    requires a <= b
    ensures a * c <= b * c
  {
  }

  /** Rounding respects the order of the exact fractions, whatever their denominators. */
  lemma RoundHalfUpMonotone(n1: nat, d1: nat, n2: nat, d2: nat)
    requires d1 > 0 && d2 > 0
    requires n1 * d2 <= n2 * d1
    ensures RoundHalfUp(n1, d1) <= RoundHalfUp(n2, d2)
  {
    var q1, q2 := RoundHalfUp(n1, d1), RoundHalfUp(n2, d2);
    RoundHalfUpIff(n1, d1, q1);
    RoundHalfUpIff(n2, d2, q2);
    QuotientsInOrder(n1, d1, q1, n2, d2, q2);
  }

  lemma QuotientsInOrder(n1: nat, d1: nat, q1: int, n2: nat, d2: nat, q2: int)
    requires d1 > 0 && n1 * d2 <= n2 * d1
    requires 2 * (d1 * q1) <= 2 * n1 + d1 && 2 * n2 + d2 < 2 * (d2 * q2) + 2 * d2
    ensures q1 <= q2
  {
    if q2 < q1 {
      MulLe(q2 + 1, q1, d2);                         // 2 n2 + d2 < 2 (d2 q1)
      MulLe(2 * (d1 * q1), 2 * n1 + d1, d2);
      MulLe(2 * n2 + d2 + 1, 2 * (d2 * q1), d1);
      CrossProducts(n1, d1, n2, d2, q1);
      assert false;
    }
  }

  lemma CrossProducts(n1: int, d1: int, n2: int, d2: int, q: int)
    ensures 2 * (d1 * q) * d2 == 2 * (d2 * q) * d1
    ensures (2 * n1 + d1) * d2 == 2 * (n1 * d2) + d1 * d2
    ensures (2 * n2 + d2 + 1) * d1 == 2 * (n2 * d1) + d1 * d2 + d1
  {
  }

  /** Rounding stays on the same side of every whole number. */
  lemma RoundHalfUpAtMost(n: nat, d: nat, q: nat)
    requires d > 0 && n <= d * q
    ensures RoundHalfUp(n, d) <= q
  {
    var r := RoundHalfUp(n, d);
    RoundHalfUpIff(n, d, r);
    if r > q {
      MulLe(q + 1, r, d);
    }
  }

  lemma RoundHalfUpAtLeast(n: nat, d: nat, q: nat)
    requires d > 0 && d * q <= n
    ensures q <= RoundHalfUp(n, d)
  {
    var r := RoundHalfUp(n, d);
    RoundHalfUpIff(n, d, r);
    if r < q {
      MulLe(r + 1, q, d);
    }
  }

  /** A whole number of units is left alone by rounding. */
  lemma RoundHalfUpExact(k: nat, d: nat)
    requires d > 0
    ensures RoundHalfUp(k * d, d) == k
  {
    RoundHalfUpIff(k * d, d, k);
  }
}
