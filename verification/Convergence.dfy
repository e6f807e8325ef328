/**
 The controller in a closed loop: a miner whose share rate matches the target
 at difficulty `E` is observed at `E / current` times the target rate. The
 controller walks to `E` without ever passing it and stops after a bounded
 number of retargets.
 */
module Convergence {
  import opened Text
  import opened VarDiff

  /** A loop whose equilibrium lies within the controller's range. */
  ghost predicate InLoop(c: Config, current: real, max: real, E: real) {
    ValidConfig(c) && c.minFloor <= current <= max && c.minFloor <= E <= max
  }

  function LoopDecision(c: Config, current: real, max: real, E: real): Option<real>
    requires current > 0.0 && c.minFloor <= max
  {
    Decide(c, current, max, E / current)
  }

  function LoopStep(c: Config, current: real, max: real, E: real): real
    requires current > 0.0 && c.minFloor <= max
  {
    match LoopDecision(c, current, max, E)
    case None => current
    case Some(d) => d
  }

  /**
   A miner for whom `E` is the right difficulty finds `E / current` shares per target interval.
   A due retarget that has counted so many in the time elapsed takes one step of the loop.
   */
  lemma RetargetIsLoopStep(c: Config, s: State, now: real, E: real, count: nat, window: real)
    requires InLoop(c, s.current, s.max, E)
    requires count == CountSince(s.shareTimes, s.lastRetarget) && window == now - s.lastRetarget
    requires window >= c.retargetSecs && count >= 1
    requires count as real == E / s.current * (window / c.targetSecs)
    ensures Retargeted(c, s, now).current == LoopStep(c, s.current, s.max, E)
  {
    RateOfCount(count, E / s.current, window / c.targetSecs);
    assert Due(c, s, now) && ObservedRatio(c, s, now) == E / s.current;
  }

  lemma RateOfCount(count: nat, rate: real, expected: real)
    requires expected > 0.0 && count as real == rate * expected
    ensures count as real / expected == rate
  {
  }

  ghost predicate Settled(c: Config, current: real, max: real, E: real)
    requires current > 0.0 && c.minFloor <= max
  {
    LoopDecision(c, current, max, E).None?
  }

  // ----- one step -----

  lemma RatioTimesCurrent(current: real, E: real)
    requires current > 0.0
    ensures current * (E / current) == E
    ensures E > current ==> E / current > 1.0
    ensures E == current ==> E / current == 1.0
    ensures E < current ==> E / current < 1.0
  {
    var r := E / current;
    assert r * current == E;
    if E > current && r <= 1.0 { MultiplyOrder(current, r, 1.0); assert false; }
    if E < current && r >= 1.0 { MultiplyOrder(current, 1.0, r); assert false; }
  }

  lemma StepUp(current: real, E: real, r: real)
    requires current > 0.0 && current * r == E
    ensures current * Min(r, 1.5) == Min(E, 1.5 * current)
  {
    if r < 1.5 {
      MultiplyOrder(current, r, 1.5);
    } else {
      MultiplyOrder(current, 1.5, r);
    }
  }

  lemma StepDown(current: real, E: real, r: real)
    requires current > 0.0 && current * r == E
    ensures current * Max(r, 0.67) == Max(E, 0.67 * current)
  {
    if r > 0.67 {
      MultiplyOrder(current, 0.67, r);
    } else {
      MultiplyOrder(current, r, 0.67);
    }
  }

  /** Outside the deadband the controller aims for `E`, but at most half as much again or a third less. */
  lemma TargetInLoop(c: Config, current: real, max: real, E: real)
    requires InLoop(c, current, max, E)
    ensures current < E ==> Target(c, current, max, E / current) == Min(E, 1.5 * current)
    ensures current > E ==> Target(c, current, max, E / current) == Max(E, 0.67 * current)
  {
    RatioTimesCurrent(current, E);
    if current < E {
      StepUp(current, E, E / current);
    } else if current > E {
      StepDown(current, E, E / current);
    }
  }

  lemma AtEquilibriumSettled(c: Config, max: real, E: real)
    requires InLoop(c, E, max, E)
    ensures Settled(c, E, max, E)
  {
    RatioTimesCurrent(E, E);
  }

  /** Every retarget moves strictly closer to the equilibrium and never past it. */
  lemma MovesCloser(c: Config, current: real, max: real, E: real)
    requires InLoop(c, current, max, E) && !Settled(c, current, max, E)
    ensures
      var d := LoopStep(c, current, max, E);
      || (current < d <= E && d == Min(E, 1.5 * current))
      || (E <= d < current && d == Max(E, 0.67 * current))
  {
    TargetInLoop(c, current, max, E);
    if current == E { AtEquilibriumSettled(c, max, E); }
  }

  // ----- many steps -----

  ghost function Iterate(c: Config, current: real, max: real, E: real, k: nat): (r: real)
    requires InLoop(c, current, max, E)
    ensures InLoop(c, r, max, E)
    decreases k
  {
    if k == 0 then current
    else
      if !Settled(c, current, max, E) then
        MovesCloser(c, current, max, E);
        Iterate(c, LoopStep(c, current, max, E), max, E, k - 1)
      else
        Iterate(c, current, max, E, k - 1)
  }

  /** How many of the first `n` rounds retarget. */
  ghost function Retargets(c: Config, current: real, max: real, E: real, n: nat): (count: nat)
    requires InLoop(c, current, max, E)
    ensures count <= n
    decreases n
  {
    if n == 0 then 0
    else
      if !Settled(c, current, max, E) then
        MovesCloser(c, current, max, E);
        1 + Retargets(c, LoopStep(c, current, max, E), max, E, n - 1)
      else
        Retargets(c, current, max, E, n - 1)
  }

  /** The loop never overshoots: it stays between its start and the equilibrium. */
  lemma {:induction false} NeverOvershoots(c: Config, current: real, max: real, E: real, k: nat)
    requires InLoop(c, current, max, E)
    ensures current <= E ==> current <= Iterate(c, current, max, E, k) <= E
    ensures current >= E ==> E <= Iterate(c, current, max, E, k) <= current
    decreases k
  {
    if k > 0 {
      if Settled(c, current, max, E) {
        NeverOvershoots(c, current, max, E, k - 1);
      } else {
        MovesCloser(c, current, max, E);
        NeverOvershoots(c, LoopStep(c, current, max, E), max, E, k - 1);
      }
    }
  }

  /** Once settled, the controller never retargets again. */
  lemma {:induction false} SettledForever(c: Config, current: real, max: real, E: real, n: nat)
    requires InLoop(c, current, max, E) && Settled(c, current, max, E)
    ensures Iterate(c, current, max, E, n) == current && Retargets(c, current, max, E, n) == 0
    decreases n
  {
    if n > 0 { SettledForever(c, current, max, E, n - 1); }
  }

  /** `k` steps are enough to reach `E` at the capped gains. */
  ghost predicate Enough(current: real, E: real, k: nat) {
    Pow(1.5, k) * current >= E && Pow(0.67, k) * current <= E
  }

  lemma {:induction false} PowBounds(k: nat)
    ensures Pow(1.5, k) >= 1.0 && 0.0 < Pow(0.67, k) <= 1.0
  {
    if k > 0 { PowBounds(k - 1); }
  }

  lemma EnoughAfterStep(current: real, E: real, d: real, k: nat)
    requires 0.0 < current && 0.0 < E && Enough(current, E, k + 1)
    requires (current < E && d == Min(E, 1.5 * current)) || (current > E && d == Max(E, 0.67 * current))
    ensures Enough(d, E, k)
  {
    PowBounds(k);
    assert Pow(1.5, k + 1) * current == Pow(1.5, k) * (1.5 * current);
    assert Pow(0.67, k + 1) * current == Pow(0.67, k) * (0.67 * current);
    if current < E {
      MultiplyOrder(d, Pow(0.67, k), 1.0);
      if d == E { MultiplyOrder(E, 1.0, Pow(1.5, k)); }
    } else {
      MultiplyOrder(d, 1.0, Pow(1.5, k));
      if d == E { MultiplyOrder(E, Pow(0.67, k), 1.0); }
    }
  }

  /** The loop retargets at most as often as the capped gains need to cover the distance, then stops for good. */
  lemma {:induction false} SettlesWithin(c: Config, current: real, max: real, E: real, k: nat, n: nat)
    requires InLoop(c, current, max, E) && Enough(current, E, k)
    ensures Retargets(c, current, max, E, n) <= k
    ensures n >= k ==> Settled(c, Iterate(c, current, max, E, n), max, E)
    decreases n
  {
    if k == 0 {
      assert current == E;
      AtEquilibriumSettled(c, max, E);
    }
    if Settled(c, current, max, E) {
      SettledForever(c, current, max, E, n);
    } else {
      MovesCloser(c, current, max, E);
      if n > 0 {
        var d := LoopStep(c, current, max, E);
        EnoughAfterStep(current, E, d, k - 1);
        SettlesWithin(c, d, max, E, k - 1, n - 1);
      }
    }
  }

  // ----- an explicit number of retargets -----

  lemma {:induction false} Bernoulli(k: nat)
    ensures Pow(1.5, k) >= 1.0 + 0.5 * k as real
    ensures Pow(0.67, k) * (1.0 + 0.49 * k as real) <= 1.0
  {
    if k > 0 {
      Bernoulli(k - 1);
      PowBounds(k - 1);
      var p := Pow(0.67, k - 1);
      MultiplyOrder(p, 0.67 * (1.0 + 0.49 * k as real), 1.0 + 0.49 * (k - 1) as real);
    }
  }

  lemma RatioBound(x: real, lo: real, hi: real, k: real)
    requires 0.0 < lo <= x <= hi && k >= 3.0 * hi / lo
    ensures k * x >= 3.0 * hi
  {
    assert 3.0 * hi / lo * lo == 3.0 * hi;
    MultiplyOrder(lo, 3.0 * hi / lo, k);
    MultiplyOrder(k, lo, x);
  }

  lemma ShrinksBelow(p: real, g: real, current: real, E: real)
    requires p > 0.0 && p * g <= 1.0 && g > 0.0 && g * E >= current > 0.0 && E > 0.0
    ensures p * current <= E
  {
    MultiplyOrder(p, current, g * E);
    MultiplyOrder(E, p * g, 1.0);
  }

  lemma Affine(a: real, r: real, x: real)
    ensures (1.0 + a * r) * x == x + a * (r * x)
  {
  }

  lemma GrowsAbove(p: real, r: real, current: real, E: real)
    requires current > 0.0 && p >= 1.0 + 0.5 * r && r * current >= 3.0 * E && E > 0.0
    ensures p * current >= E
  {
    Affine(0.5, r, current);
    MultiplyOrder(current, 1.0 + 0.5 * r, p);
  }

  /** Three times the controller's range is always enough. */
  lemma RangeIsEnough(c: Config, current: real, max: real, E: real, k: nat)
    requires InLoop(c, current, max, E) && k as real >= 3.0 * max / c.minFloor
    ensures Enough(current, E, k)
  {
    var r := k as real;
    Bernoulli(k);
    PowBounds(k);
    RatioBound(current, c.minFloor, max, r);
    RatioBound(E, c.minFloor, max, r);
    GrowsAbove(Pow(1.5, k), r, current, E);
    Affine(0.49, r, E);
    ShrinksBelow(Pow(0.67, k), 1.0 + 0.49 * r, current, E);
  }

  /**
   Whatever the start and the equilibrium, the controller retargets at most `k`
   times for any `k >= 3 * max / minFloor`, and is at rest from round `k` on.
   */
  lemma ConvergesFromAnywhere(c: Config, current: real, max: real, E: real, k: nat, n: nat)
    requires InLoop(c, current, max, E) && k as real >= 3.0 * max / c.minFloor
    ensures Retargets(c, current, max, E, n) <= k
    ensures n >= k ==> Settled(c, Iterate(c, current, max, E, n), max, E)
  {
    RangeIsEnough(c, current, max, E, k);
    SettlesWithin(c, current, max, E, k, n);
  }

  /**
   The controller is at rest exactly inside the deadband, within epsilon of the equilibrium,
   or where the difficulty is so small that even a capped step is below epsilon.
   */
  lemma AtRestIff(c: Config, current: real, max: real, E: real)
    requires InLoop(c, current, max, E)
    ensures Settled(c, current, max, E) <==>
      || Abs(E / current - 1.0) <= c.variance
      || Abs(E - current) < EPSILON
      || (E > current && 1.5 * current - current < EPSILON)
      || (E < current && current - 0.67 * current < EPSILON)
  {
    TargetInLoop(c, current, max, E);
    if current == E { AtEquilibriumSettled(c, max, E); }
  }

  /** With a floor whose capped step is visible, at rest means in the deadband or within epsilon of the equilibrium. */
  lemma AtRestMeansDeadband(c: Config, current: real, max: real, E: real)
    requires InLoop(c, current, max, E) && EPSILON <= 0.33 * c.minFloor
    ensures Settled(c, current, max, E) <==> Abs(E / current - 1.0) <= c.variance || Abs(E - current) < EPSILON
  {
    AtRestIff(c, current, max, E);
  }
}
