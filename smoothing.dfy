/**
  The exponential smoothing every animated value of the site uses: each frame a
  value covers 5% of its remaining distance to a target (`v += (t - v) * 0.05`).
  Arithmetic is over the reals; IEEE rounding is not modelled.
 */
module Smoothing {

  /** The fraction of the remaining distance covered per step. */
  const Factor: real := 0.05

  /** The fraction of the distance that remains after one step. */
  const Remaining: real := 1.0 - Factor

  /** One smoothing step of `v` toward `target`. */
  function Lerp(v: real, target: real): (r: real)
    ensures r - target == Remaining * (v - target)
  {
    v + (target - v) * Factor
  }

  function Min(a: real, b: real): real { if a <= b then a else b }
  function Max(a: real, b: real): real { if a <= b then b else a }

  /** One step never overshoots: the new value lies between the old value and the target. */
  lemma LerpBetween(v: real, target: real)
    ensures Min(v, target) <= Lerp(v, target) <= Max(v, target)
    ensures v < target ==> v < Lerp(v, target) < target
    ensures target < v ==> target < Lerp(v, target) < v
  {
  }

  /** The gap to the target shrinks by exactly the factor 0.95. */
  lemma LerpGap(v: real, target: real)
    ensures Lerp(v, target) - target == Remaining * (v - target)
  {
  }

  /** The target is the only fixed point of a step. */
  lemma LerpFixedPoint(v: real, target: real)
    ensures Lerp(v, target) == v <==> v == target
  {
  }

  /** `b` raised to the power `n`. */
  function Pow(b: real, n: nat): real
  {
    if n == 0 then 1.0 else b * Pow(b, n - 1)
  }

  /** The value after `n` smoothing steps toward a fixed target. */
  function Settle(v: real, target: real, n: nat): real
  {
    if n == 0 then v else Lerp(Settle(v, target, n - 1), target)
  }

  /** After `n` steps the gap to the target is `0.95^n` times the first gap. */
  lemma {:induction false} SettleGap(v: real, target: real, n: nat)
    ensures Settle(v, target, n) - target == Pow(Remaining, n) * (v - target)
  {
    if n > 0 {
      SettleGap(v, target, n - 1);
      LerpGap(Settle(v, target, n - 1), target);
      calc {
        Settle(v, target, n) - target;
        Remaining * (Settle(v, target, n - 1) - target);
        Remaining * (Pow(Remaining, n - 1) * (v - target));
        (Remaining * Pow(Remaining, n - 1)) * (v - target);
        Pow(Remaining, n) * (v - target);
      }
    }
  }

  /** Repeated steps approach the target monotonically from the side they start on and never cross it. */
  lemma {:induction false} SettleMonotone(v: real, target: real, n: nat)
    ensures v <= target ==> v <= Settle(v, target, n) <= Settle(v, target, n + 1) <= target
    ensures target <= v ==> target <= Settle(v, target, n + 1) <= Settle(v, target, n) <= v
  {
    if n > 0 {
      SettleMonotone(v, target, n - 1);
    }
    LerpBetween(Settle(v, target, n), target);
  }

  /** Products of non-negative reals are monotone in both factors. */
  lemma MulMonotone(a: real, b: real, c: real, d: real)
    requires 0.0 <= a <= c && 0.0 <= b <= d
    ensures 0.0 <= a * b <= c * d
  {
    assert 0.0 <= a * b;
    assert (c - a) * b >= 0.0;
    assert c * (d - b) >= 0.0;
  }

  lemma {:induction false} PowBounds(b: real, n: nat)
    requires 0.0 <= b <= 1.0
    ensures 0.0 <= Pow(b, n) <= 1.0
  {
    if n > 0 {
      PowBounds(b, n - 1);
      MulMonotone(b, Pow(b, n - 1), 1.0, 1.0);
    }
  }

  lemma {:induction false} PowAdd(b: real, m: nat, n: nat)
    ensures Pow(b, m + n) == Pow(b, m) * Pow(b, n)
  {
    if m > 0 {
      PowAdd(b, m - 1, n);
      assert Pow(b, m + n) == b * Pow(b, (m - 1) + n);
    }
  }

  /** 0.95^16 is below one half. */
  lemma PowSixteen()
    ensures Pow(Remaining, 16) < 0.5
  {
    PowAdd(Remaining, 1, 1);
    PowAdd(Remaining, 2, 2);
    PowAdd(Remaining, 4, 4);
    PowAdd(Remaining, 8, 8);
    assert Pow(Remaining, 1) == 0.95;
    assert Pow(Remaining, 2) == 0.9025;
    assert Pow(Remaining, 4) == 0.81450625;
    assert Pow(Remaining, 8) < 0.6635;
    assert Pow(Remaining, 16) < 0.6635 * 0.6635;
  }

  lemma PowHalvingStep(a: real, b: real, c: real)
    requires 0.0 <= a < 0.5 && 0.0 <= b <= c
    ensures a * b <= 0.5 * c
  {
    MulMonotone(a, b, 0.5, c);
  }

  /** Each further 16 steps at least halve the remaining fraction. */
  lemma {:induction false} PowHalving(k: nat)
    ensures Pow(Remaining, 16 * k) <= Pow(0.5, k)
  {
    if k > 0 {
      PowHalving(k - 1);
      PowAdd(Remaining, 16, 16 * (k - 1));
      PowSixteen();
      PowBounds(Remaining, 16 * (k - 1));
      PowBounds(Remaining, 16);
      PowHalvingStep(Pow(Remaining, 16), Pow(Remaining, 16 * (k - 1)), Pow(0.5, k - 1));
      assert 16 * k == 16 + 16 * (k - 1);
    }
  }

  /** The remaining fraction never grows with more steps. */
  lemma PowAntitone(m: nat, n: nat)
    requires m <= n
    ensures Pow(Remaining, n) <= Pow(Remaining, m)
  {
    PowAdd(Remaining, m, n - m);
    PowBounds(Remaining, m);
    PowBounds(Remaining, n - m);
  }

  /**
    200 steps bring any value that starts within 20 of its target to within 0.01
    of it (20 is the whole range the camera depth target covers).
   */
  lemma SettlesWithin200(v: real, target: real)
    requires -20.0 <= v - target <= 20.0
    ensures -0.01 < Settle(v, target, 200) - target < 0.01
  {
    SettleGap(v, target, 200);
    PowAntitone(192, 200);
    PowHalving(12);
    assert Pow(0.5, 12) == 1.0 / 4096.0 by {
      PowAdd(0.5, 4, 8);
      PowAdd(0.5, 4, 4);
      PowAdd(0.5, 2, 2);
      PowAdd(0.5, 1, 1);
    }
    var p := Pow(Remaining, 200);
    PowBounds(Remaining, 200);
    assert 0.0 <= p <= 1.0 / 4096.0;
    var g := v - target;
    if g >= 0.0 {
      MulMonotone(p, g, 1.0 / 4096.0, 20.0);
    } else {
      MulMonotone(p, -g, 1.0 / 4096.0, 20.0);
    }
  }
}
