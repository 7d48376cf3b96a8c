/**
 Slippage bounds of a path payment, in exact stroop arithmetic. `ReduceByBps` gives the least amount to
 accept, `IncreaseByBps` the most to send.
 */
module Slippage {
  const BPS_DENOMINATOR: nat := 10_000

  /** `toFixed(7)` of a(1 - b/10000): nearest stroop, the larger one of two equally near. */
  function ReduceByBps(a: nat, bps: nat): nat
    requires bps <= BPS_DENOMINATOR
  {
    (2 * (a * (BPS_DENOMINATOR - bps)) + BPS_DENOMINATOR) / (2 * BPS_DENOMINATOR)
  }

  /** `Math.ceil` of a(1 + b/10000) in stroops. */
  function IncreaseByBps(a: nat, bps: nat): nat {
    (a * (BPS_DENOMINATOR + bps) + BPS_DENOMINATOR - 1) / BPS_DENOMINATOR
  }

  /** The least stroop count at or above a(1 + b). */
  lemma IncreaseIsLeast(a: nat, bps: nat, n: nat)
    ensures n >= IncreaseByBps(a, bps) <==> n * BPS_DENOMINATOR >= a * (BPS_DENOMINATOR + bps)
  {
  }

  /** The stroop count nearest to a(1 - b), ties up: not the floor that the function's comment promises. */
  lemma ReduceIsNearest(a: nat, bps: nat, n: nat)
    requires bps <= BPS_DENOMINATOR
    ensures n == ReduceByBps(a, bps) <==>
            -(BPS_DENOMINATOR as int) < 2 * (n * BPS_DENOMINATOR - a * (BPS_DENOMINATOR - bps)) <= BPS_DENOMINATOR
  {
  }

  /** It is the floor exactly when the discarded fraction is below one half. */
  lemma ReduceIsFloorExactly(a: nat, bps: nat)
    requires bps <= BPS_DENOMINATOR
    ensures ReduceByBps(a, bps) == a * (BPS_DENOMINATOR - bps) / BPS_DENOMINATOR <==>
            2 * (a * (BPS_DENOMINATOR - bps) % BPS_DENOMINATOR) < BPS_DENOMINATOR
  {
  }

  lemma ReduceMonotone(a: nat, b: nat, bps: nat)
    requires a <= b && bps <= BPS_DENOMINATOR
    ensures ReduceByBps(a, bps) <= ReduceByBps(b, bps)
  {
    assert a * (BPS_DENOMINATOR - bps) <= b * (BPS_DENOMINATOR - bps);
  }

  lemma IncreaseMonotone(a: nat, b: nat, bps: nat)
    requires a <= b
    ensures IncreaseByBps(a, bps) <= IncreaseByBps(b, bps)
  {
    assert a * (BPS_DENOMINATOR + bps) <= b * (BPS_DENOMINATOR + bps);
  }

  /** A larger tolerance never tightens either bound. */
  lemma ToleranceLoosens(a: nat, bps: nat, more: nat)
    requires bps <= more <= BPS_DENOMINATOR
    ensures ReduceByBps(a, more) <= ReduceByBps(a, bps) <= a <= IncreaseByBps(a, bps) <= IncreaseByBps(a, more)
  {
    assert a * (BPS_DENOMINATOR - more) <= a * (BPS_DENOMINATOR - bps) <= a * BPS_DENOMINATOR;
    assert a * BPS_DENOMINATOR <= a * (BPS_DENOMINATOR + bps) <= a * (BPS_DENOMINATOR + more);
  }

  lemma Scale(x: int, y: int, u: int)
    requires u >= 0 && x >= y
    ensures x * u >= y * u
  {
  }

  lemma DifferenceOfSquares(a: int, d: int, b: int)
    ensures a * (d + b) * (d - b) == a * (d * d - b * b)
  {
    assert (d + b) * (d - b) == d * d - b * b;
  }

  /** With n between a(1 + b) and one stroop above it, n(1 - b) lies between a(1 - b^2) and a + 1. */
  lemma ThereAndBack(a: nat, b: nat, n: nat)
    requires b <= BPS_DENOMINATOR
    requires a * (BPS_DENOMINATOR + b) <= n * BPS_DENOMINATOR < a * (BPS_DENOMINATOR + b) + BPS_DENOMINATOR
    ensures BPS_DENOMINATOR * (n * (BPS_DENOMINATOR - b)) >= a * (BPS_DENOMINATOR * BPS_DENOMINATOR - b * b)
    ensures n * (BPS_DENOMINATOR - b) < (a + 1) * BPS_DENOMINATOR
  {
    var d: int, u: int, v: int := BPS_DENOMINATOR, BPS_DENOMINATOR - b, BPS_DENOMINATOR + b;
    Scale(n * d, a * v, u);
    Scale(a * v + d - 1, n * d, u);
    assert (n * d) * u == d * (n * u);
    assert (a * v + d - 1) * u == a * v * u + (d - 1) * u;
    DifferenceOfSquares(a, d, b);
    assert a * (b * b) >= 0;
    assert a * (d * d - b * b) == a * (d * d) - a * (b * b);
  }

  /**
   Reducing an increased amount comes back to a(1 - b^2), never more than half a stroop below it and
   never more than one stroop above a.
   */
  lemma ReduceAfterIncrease(a: nat, bps: nat)
    requires bps <= BPS_DENOMINATOR
    ensures var r := ReduceByBps(IncreaseByBps(a, bps), bps);
            && 2 * (r * (BPS_DENOMINATOR * BPS_DENOMINATOR) - a * (BPS_DENOMINATOR * BPS_DENOMINATOR - bps * bps))
               >= -((BPS_DENOMINATOR * BPS_DENOMINATOR) as int)
            && r <= a + 1
  {
    var n := IncreaseByBps(a, bps);
    IncreaseIsLeast(a, bps, n);
    ThereAndBack(a, bps, n);
    ReduceIsNearest(n, bps, ReduceByBps(n, bps));
  }
}
