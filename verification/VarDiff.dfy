/**
 The per-session difficulty controller. `Controller` is the mutable object;
 the functions below it say what each call does to its state, and the lemmas
 are about every sequence of calls.

 Difficulties, instants and durations are exact reals; an instant is a number
 of seconds.
 */
module VarDiff {
  import opened Text

  datatype Config = Config(minFloor: real, initialPct: real, targetSecs: real, retargetSecs: real, variance: real)

  datatype State = State(current: real, max: real, lastRetarget: real, shareTimes: seq<real>)

  /** `f64::EPSILON`. */
  const EPSILON: real := 1.0 / 4503599627370496.0

  ghost predicate ValidConfig(c: Config) {
    c.minFloor > 0.0 && c.targetSecs > 0.0 && c.retargetSecs > 0.0 && c.variance >= 0.0
  }

  function Abs(x: real): real {
    if x < 0.0 then -x else x
  }

  function Min(x: real, y: real): real {
    if x < y then x else y
  }

  function Max(x: real, y: real): real {
    if x > y then x else y
  }

  /** `f64::clamp`, which demands ordered bounds. */
  function Clamp(x: real, lo: real, hi: real): (r: real)
    requires lo <= hi
    ensures lo <= r <= hi
  {
    Max(lo, Min(x, hi))
  }

  function Elapsed(now: real, since: real): real {
    Max(0.0, now - since)
  }

  function CountSince(times: seq<real>, since: real): nat {
    if times == [] then 0
    else CountSince(times[..|times| - 1], since) + if times[|times| - 1] >= since then 1 else 0
  }

  /** The difficulty a retarget aims for, given the observed rate relative to the target rate. */
  function Target(c: Config, current: real, max: real, ratio: real): (d: real)
    requires c.minFloor <= max
    ensures c.minFloor <= d <= max
  {
    if ratio > 1.0 then Clamp(current * Min(ratio, 1.5), c.minFloor, max)
    else Clamp(current * Max(ratio, 0.67), c.minFloor, max)
  }

  /** The retarget decision: nothing inside the deadband or when the change is below epsilon. */
  function Decide(c: Config, current: real, max: real, ratio: real): Option<real>
    requires c.minFloor <= max
  {
    if Abs(ratio - 1.0) <= c.variance then None
    else
      var d := Target(c, current, max, ratio);
      if Abs(d - current) < EPSILON then None else Some(d)
  }

  function ObservedRatio(c: Config, s: State, now: real): real
    requires c.targetSecs > 0.0 && Elapsed(now, s.lastRetarget) > 0.0
  {
    CountSince(s.shareTimes, s.lastRetarget) as real / (Elapsed(now, s.lastRetarget) / c.targetSecs)
  }

  /** Whether `count` shares in `window` seconds are more, fewer or as many as the target rate asks for. */
  lemma RateAgainstTarget(count: nat, window: real, targetSecs: real)
    requires window > 0.0 && targetSecs > 0.0
    ensures
      var ratio := count as real / (window / targetSecs);
      && (count as real * targetSecs > window <==> ratio > 1.0)
      && (count as real * targetSecs < window <==> ratio < 1.0)
  {
    var expected := window / targetSecs;
    var ratio := count as real / expected;
    assert expected * targetSecs == window && ratio * expected == count as real;
    assert ratio * window == count as real * targetSecs;
  }

  // ----- the three calls, as functions of the state -----

  function Initial(c: Config, nDiff: real, now: real): State
    requires c.minFloor <= nDiff
  {
    State(Clamp(c.initialPct * nDiff, c.minFloor, nDiff), nDiff, now, [])
  }

  function ShareRecorded(s: State, now: real): State {
    s.(shareTimes := s.shareTimes + [now])
  }

  function CeilingUpdated(s: State, nDiff: real): State {
    s.(max := nDiff, current := Min(s.current, nDiff))
  }

  predicate Due(c: Config, s: State, now: real) {
    Elapsed(now, s.lastRetarget) >= c.retargetSecs && CountSince(s.shareTimes, s.lastRetarget) >= 1
  }

  function Decision(c: Config, s: State, now: real): Option<real>
    requires c.targetSecs > 0.0 && c.retargetSecs > 0.0 && c.minFloor <= s.max
  {
    if Due(c, s, now) then Decide(c, s.current, s.max, ObservedRatio(c, s, now)) else None
  }

  function Retargeted(c: Config, s: State, now: real): State
    requires c.targetSecs > 0.0 && c.retargetSecs > 0.0 && c.minFloor <= s.max
  {
    match Decision(c, s, now)
    case None => s
    case Some(d) => State(d, s.max, now, [])
  }

  ghost predicate Bounded(c: Config, s: State) {
    c.minFloor <= s.current <= s.max
  }

  /**
   What a retarget decides from `count` shares in `window` seconds: a new difficulty is
   larger when there were more than the target rate asks for, smaller when there were
   fewer, and there is none when there were as many.
   */
  predicate MovesWithRate(count: nat, window: real, targetSecs: real, current: real, newDiff: Option<real>) {
    && (count as real * targetSecs > window && newDiff.Some? ==> newDiff.value > current)
    && (count as real * targetSecs < window && newDiff.Some? ==> newDiff.value < current)
    && (count as real * targetSecs == window ==> newDiff.None?)
  }

  lemma DecisionFollowsRatio(c: Config, current: real, max: real, ratio: real)
    requires ValidConfig(c) && c.minFloor <= current <= max
    ensures
      var d := Decide(c, current, max, ratio);
      && (ratio > 1.0 && d.Some? ==> d.value > current)
      && (ratio < 1.0 && d.Some? ==> d.value < current)
      && (ratio == 1.0 ==> d.None?)
  {
    if ratio > 1.0 {
      GainUp(current, ratio, current * Min(ratio, 1.5));
    } else {
      GainDown(current, ratio, current * Max(ratio, 0.67));
    }
  }

  lemma RetargetFollowsRate(c: Config, s: State, now: real)
    requires ValidConfig(c) && Bounded(c, s)
    ensures MovesWithRate(
      CountSince(s.shareTimes, s.lastRetarget), now - s.lastRetarget, c.targetSecs, s.current, Decision(c, s, now))
  {
    if Due(c, s, now) {
      RateAgainstTarget(CountSince(s.shareTimes, s.lastRetarget), now - s.lastRetarget, c.targetSecs);
      DecisionFollowsRatio(c, s.current, s.max, ObservedRatio(c, s, now));
    }
  }

  /** The difficulty at which the observed rate would have been the target rate. */
  function Fitting(current: real, count: nat, window: real, targetSecs: real): real
    requires window > 0.0
  {
    current * (count as real * targetSecs) / window
  }

  /** That difficulty, at most half as much again, a third less, the ceiling and the floor. */
  function Aim(c: Config, current: real, max: real, count: nat, window: real): real
    requires window > 0.0
  {
    var fitting := Fitting(current, count, window, c.targetSecs);
    if fitting > current then Min(Min(fitting, 1.5 * current), max) else Max(Max(fitting, 0.67 * current), c.minFloor)
  }

  lemma RatioGivesFitting(current: real, count: nat, window: real, targetSecs: real)
    requires current > 0.0 && window > 0.0 && targetSecs > 0.0
    ensures
      var ratio := count as real / (window / targetSecs);
      && current * ratio == Fitting(current, count, window, targetSecs)
      && (ratio - 1.0) * window == count as real * targetSecs - window
  {
    var ratio, fitting := count as real / (window / targetSecs), Fitting(current, count, window, targetSecs);
    RateAgainstTarget(count, window, targetSecs);
    assert ratio * window == count as real * targetSecs;
    assert fitting * window == current * (count as real * targetSecs);
    assert fitting * window == current * ratio * window;
  }

  lemma ClampAbove(y: real, x: real, lo: real, hi: real)
    requires lo <= x <= hi
    ensures y >= x ==> Clamp(y, lo, hi) == Min(y, hi)
    ensures y <= x ==> Clamp(y, lo, hi) == Max(y, lo)
  {
  }

  lemma TargetUp(c: Config, current: real, max: real, ratio: real, fitting: real)
    requires 0.0 < c.minFloor <= current <= max && fitting == current * ratio && ratio > 1.0
    ensures fitting > current && Target(c, current, max, ratio) == Min(Min(fitting, 1.5 * current), max)
  {
    var y := current * Min(ratio, 1.5);
    ScaledMin(current, ratio, 1.5);
    assert y == Min(fitting, 1.5 * current);
    GainUp(current, ratio, y);
    ClampAbove(y, current, c.minFloor, max);
    assert Target(c, current, max, ratio) == Min(y, max);
    Grows(current, ratio, fitting);
  }

  lemma TargetDown(c: Config, current: real, max: real, ratio: real, fitting: real)
    requires 0.0 < c.minFloor <= current <= max && fitting == current * ratio && ratio <= 1.0
    ensures fitting <= current && Target(c, current, max, ratio) == Max(Max(fitting, 0.67 * current), c.minFloor)
  {
    var y := current * Max(ratio, 0.67);
    ScaledMax(current, ratio, 0.67);
    GainDown(current, ratio, y);
    ClampAbove(y, current, c.minFloor, max);
    MultiplyOrder(current, ratio, 1.0);
  }

  lemma TargetIsAim(c: Config, current: real, max: real, ratio: real, fitting: real)
    requires 0.0 < c.minFloor <= current <= max && fitting == current * ratio
    ensures Target(c, current, max, ratio)
      == if fitting > current then Min(Min(fitting, 1.5 * current), max)
         else Max(Max(fitting, 0.67 * current), c.minFloor)
  {
    if ratio > 1.0 {
      TargetUp(c, current, max, ratio, fitting);
    } else {
      TargetDown(c, current, max, ratio, fitting);
    }
  }

  lemma Grows(a: real, x: real, y: real)
    requires a > 0.0 && x > 1.0 && y == a * x
    ensures y > a
  {
    assert a * (x - 1.0) > 0.0;
  }

  lemma ScaledMin(a: real, x: real, y: real)
    requires a > 0.0
    ensures a * Min(x, y) == Min(a * x, a * y)
  {
    if x < y { MultiplyOrder(a, x, y); } else { MultiplyOrder(a, y, x); }
  }

  lemma ScaledMax(a: real, x: real, y: real)
    requires a > 0.0
    ensures a * Max(x, y) == Max(a * x, a * y)
  {
    if x > y { MultiplyOrder(a, y, x); } else { MultiplyOrder(a, x, y); }
  }

  lemma OutsideDeadbandIff(ratio: real, window: real, work: real, variance: real)
    requires window > 0.0 && (ratio - 1.0) * window == work - window
    ensures Abs(ratio - 1.0) <= variance <==> Abs(work - window) <= variance * window
  {
    var d := ratio - 1.0;
    if d < 0.0 {
      assert -d * window == window - work;
      CancelOrder(-d, variance, window);
    } else {
      CancelOrder(d, variance, window);
    }
  }

  lemma CancelOrder(x: real, y: real, a: real)
    requires a > 0.0
    ensures x <= y <==> x * a <= y * a
    ensures x >= 0.0 ==> x * a >= 0.0
    ensures x > 0.0 ==> x * a > 0.0
  {
    if x <= y { MultiplyOrder(a, x, y); } else { assert (x - y) * a > 0.0; }
  }

  /** The retarget of `count` shares in `window` seconds, once it is due. */
  lemma DueDecision(c: Config, current: real, max: real, count: nat, window: real, ratio: real)
    requires ValidConfig(c) && c.minFloor <= current <= max && window > 0.0
    requires ratio == count as real / (window / c.targetSecs)
    ensures
      var d, aim := Decide(c, current, max, ratio), Aim(c, current, max, count, window);
      && (d.Some? <==> OffTarget(c, count, window) && Abs(aim - current) >= EPSILON)
      && (d.Some? ==> d.value == aim)
  {
    AimOfRatio(c, current, max, count, window, ratio);
    DeadbandOfRatio(c, count, window, ratio);
    DecideFrom(c, current, max, ratio, Aim(c, current, max, count, window), OffTarget(c, count, window));
  }

  lemma AimOfRatio(c: Config, current: real, max: real, count: nat, window: real, ratio: real)
    requires ValidConfig(c) && c.minFloor <= current <= max && window > 0.0
    requires ratio == count as real / (window / c.targetSecs)
    ensures Target(c, current, max, ratio) == Aim(c, current, max, count, window)
  {
    var fitting := Fitting(current, count, window, c.targetSecs);
    RatioGivesFitting(current, count, window, c.targetSecs);
    TargetIsAim(c, current, max, ratio, fitting);
  }

  lemma DeadbandOfRatio(c: Config, count: nat, window: real, ratio: real)
    requires ValidConfig(c) && window > 0.0 && ratio == count as real / (window / c.targetSecs)
    ensures Abs(ratio - 1.0) <= c.variance <==> !OffTarget(c, count, window)
  {
    RatioGivesFitting(1.0, count, window, c.targetSecs);
    OutsideDeadbandIff(ratio, window, count as real * c.targetSecs, c.variance);
  }

  lemma DecideFrom(c: Config, current: real, max: real, ratio: real, aim: real, off: bool)
    requires c.minFloor <= max && Target(c, current, max, ratio) == aim && (Abs(ratio - 1.0) <= c.variance <==> !off)
    ensures
      var d := Decide(c, current, max, ratio);
      && (d.Some? <==> off && Abs(aim - current) >= EPSILON)
      && (d.Some? ==> d.value == aim)
  {
  }

  /** The time `count` shares should take differs from `window` by more than the tolerated part of it. */
  predicate OffTarget(c: Config, count: nat, window: real) {
    Abs(count as real * c.targetSecs - window) > c.variance * window
  }

  /**
   The exact decision from the shares counted and the time elapsed: a retarget is due, the
   count is outside the deadband around the target, and the difficulty aimed for differs;
   then that is the new difficulty.
   */
  lemma RetargetIff(c: Config, s: State, now: real, n: nat, w: real)
    requires ValidConfig(c) && Bounded(c, s)
    requires n == CountSince(s.shareTimes, s.lastRetarget) && w == now - s.lastRetarget
    ensures
      var d := Decision(c, s, now);
      && (d.Some? <==>
            && w >= c.retargetSecs && n >= 1 && OffTarget(c, n, w)
            && Abs(Aim(c, s.current, s.max, n, w) - s.current) >= EPSILON)
      && (d.Some? ==> w > 0.0 && d.value == Aim(c, s.current, s.max, n, w))
  {
    if w >= c.retargetSecs {
      DueDecision(c, s.current, s.max, n, w, ObservedRatio(c, s, now));
    }
  }

  class Controller {
    const config: Config
    var current: real
    var max: real
    var lastRetarget: real
    var shareTimes: seq<real>

    function View(): State
      reads this
    {
      State(current, max, lastRetarget, shareTimes)
    }

    constructor (config: Config, nDiff: real, now: real)
      requires config.minFloor <= nDiff
      ensures View() == Initial(config, nDiff, now) && this.config == config
      ensures max == nDiff && lastRetarget == now && shareTimes == []
      ensures current ==
        var share := config.initialPct * nDiff;
        if share < config.minFloor then config.minFloor else if share > nDiff then nDiff else share
    {
      this.config := config;
      current := Clamp(config.initialPct * nDiff, config.minFloor, nDiff);
      max := nDiff;
      lastRetarget := now;
      shareTimes := [];
    }

    method RecordShare(now: real)
      modifies this`shareTimes
      ensures View() == ShareRecorded(old(View()), now)
      ensures CountSince(shareTimes, lastRetarget)
        == old(CountSince(shareTimes, lastRetarget)) + if now >= lastRetarget then 1 else 0
    {
      assert (shareTimes + [now])[..|shareTimes|] == shareTimes;
      shareTimes := shareTimes + [now];
    }

    method UpdateMax(nDiff: real) returns (clamped: Option<real>)
      modifies this`current, this`max
      ensures View() == CeilingUpdated(old(View()), nDiff)
      ensures max == nDiff && current == if old(current) > nDiff then nDiff else old(current)
      ensures clamped == if old(current) - nDiff > EPSILON then Some(nDiff) else None
    {
      var oldCurrent := current;
      max := nDiff;
      if current > max {
        current := max;
      }
      if Abs(current - oldCurrent) > EPSILON {
        clamped := Some(current);
      } else {
        clamped := None;
      }
    }

    method CountRecent() returns (count: nat)
      ensures count == CountSince(shareTimes, lastRetarget)
    {
      count := 0;
      for i := 0 to |shareTimes|
        invariant count == CountSince(shareTimes[..i], lastRetarget)
      {
        assert shareTimes[..i + 1][..i] == shareTimes[..i];
        if shareTimes[i] >= lastRetarget {
          count := count + 1;
        }
      }
      assert shareTimes[..|shareTimes|] == shareTimes;
    }

    method MaybeRetarget(now: real) returns (newDiff: Option<real>)
      requires config.targetSecs > 0.0 && config.retargetSecs > 0.0 && config.minFloor <= max
      modifies this`current, this`lastRetarget, this`shareTimes
      ensures newDiff == Decision(config, old(View()), now)
      ensures View() == Retargeted(config, old(View()), now)
      ensures newDiff.Some? ==>
        && now - old(lastRetarget) >= config.retargetSecs
        && current == newDiff.value && lastRetarget == now && shareTimes == []
      ensures Bounded(config, old(View())) && config.minFloor > 0.0 && config.variance >= 0.0 ==>
        MovesWithRate(
          CountSince(old(shareTimes), old(lastRetarget)), now - old(lastRetarget), config.targetSecs,
          old(current), newDiff)
    {
      if config.minFloor <= current <= max && config.minFloor > 0.0 && config.variance >= 0.0 {
        RetargetFollowsRate(config, View(), now);
      }
      var window := Elapsed(now, lastRetarget);
      if window < config.retargetSecs {
        return None;
      }
      var count := CountRecent();
      if count < 1 {
        return None;
      }
      var ratio := count as real / (window / config.targetSecs);
      newDiff := RetargetForRatio(ratio, now);
    }

    /** The second half of a retarget, once the rate has been measured. */
    method RetargetForRatio(ratio: real, now: real) returns (newDiff: Option<real>)
      requires config.minFloor <= max
      modifies this`current, this`lastRetarget, this`shareTimes
      ensures newDiff == Decide(config, old(current), max, ratio)
      ensures newDiff.None? ==> View() == old(View())
      ensures newDiff.Some? ==> View() == State(newDiff.value, old(max), now, [])
    {
      if Abs(ratio - 1.0) <= config.variance {
        return None;
      }
      var d: real;
      if ratio > 1.0 {
        d := Clamp(current * Min(ratio, 1.5), config.minFloor, max);
      } else {
        d := Clamp(current * Max(ratio, 0.67), config.minFloor, max);
      }
      if Abs(d - current) < EPSILON {
        return None;
      }
      current := d;
      lastRetarget := now;
      shareTimes := [];
      return Some(d);
    }
  }

  // ----- every run -----

  datatype Call = Share(now: real) | Ceiling(nDiff: real) | Retarget(now: real)


  /** A ceiling keeps the difficulty within bounds exactly when it is not below the floor. */
  lemma CeilingKeepsBoundsIff(c: Config, s: State, nDiff: real)
    requires Bounded(c, s)
    ensures Bounded(c, CeilingUpdated(s, nDiff)) <==> c.minFloor <= nDiff
  {
  }

  /** The clock of a call, no earlier than the given one. */
  function ClockAfter(clock: real, call: Call): real {
    match call
    case Share(now) => now
    case Retarget(now) => now
    case Ceiling(_) => clock
  }

  /** Calls come in time order and every ceiling is at least the floor. */
  ghost predicate Orderly(c: Config, clock: real, calls: seq<Call>)
    decreases |calls|
  {
    calls == []
    || (clock <= ClockAfter(clock, calls[0])
        && (calls[0].Ceiling? ==> c.minFloor <= calls[0].nDiff)
        && Orderly(c, ClockAfter(clock, calls[0]), calls[1..]))
  }

  ghost predicate Invariant(c: Config, s: State, clock: real) {
    && Bounded(c, s)
    && s.lastRetarget <= clock
    && forall i | 0 <= i < |s.shareTimes| :: s.lastRetarget <= s.shareTimes[i] <= clock
  }

  function Step(c: Config, s: State, call: Call): State
    requires c.targetSecs > 0.0 && c.retargetSecs > 0.0 && c.minFloor <= s.max
  {
    match call
    case Share(now) => ShareRecorded(s, now)
    case Ceiling(nDiff) => CeilingUpdated(s, nDiff)
    case Retarget(now) => Retargeted(c, s, now)
  }

  lemma StepKeepsInvariant(c: Config, s: State, clock: real, call: Call)
    requires ValidConfig(c) && Invariant(c, s, clock)
    requires clock <= ClockAfter(clock, call) && (call.Ceiling? ==> c.minFloor <= call.nDiff)
    ensures Invariant(c, Step(c, s, call), ClockAfter(clock, call))
  {
  }

  /** The state after a run, and how many of its calls changed the difficulty by a retarget. */
  ghost function Run(c: Config, s: State, clock: real, calls: seq<Call>): (r: (State, nat))
    requires ValidConfig(c) && Invariant(c, s, clock) && Orderly(c, clock, calls)
    decreases |calls|
  {
    if calls == [] then (s, 0)
    else
      StepKeepsInvariant(c, s, clock, calls[0]);
      var (t, k) := Run(c, Step(c, s, calls[0]), ClockAfter(clock, calls[0]), calls[1..]);
      (t, k + if calls[0].Retarget? && Decision(c, s, calls[0].now).Some? then 1 else 0)
  }

  ghost function FinalClock(clock: real, calls: seq<Call>): real
    decreases |calls|
  {
    if calls == [] then clock else FinalClock(ClockAfter(clock, calls[0]), calls[1..])
  }

  lemma {:induction false} AllCounted(times: seq<real>, since: real)
    requires forall i | 0 <= i < |times| :: since <= times[i]
    ensures CountSince(times, since) == |times|
  {
    if times != [] { AllCounted(times[..|times| - 1], since); }
  }

  /**
   Over every run the difficulty stays between the floor and the ceiling, no
   stored share time precedes the last retarget, and so the filter counts every
   stored share.
   */
  lemma {:induction false} RunKeepsInvariant(c: Config, s: State, clock: real, calls: seq<Call>)
    requires ValidConfig(c) && Invariant(c, s, clock) && Orderly(c, clock, calls)
    ensures
      var t := Run(c, s, clock, calls).0;
      && Invariant(c, t, FinalClock(clock, calls))
      && CountSince(t.shareTimes, t.lastRetarget) == |t.shareTimes|
    decreases |calls|
  {
    if calls == [] {
      AllCounted(s.shareTimes, s.lastRetarget);
    } else {
      StepKeepsInvariant(c, s, clock, calls[0]);
      RunKeepsInvariant(c, Step(c, s, calls[0]), ClockAfter(clock, calls[0]), calls[1..]);
    }
  }

  /** A new session starts within bounds. */
  lemma InitialInvariant(c: Config, nDiff: real, now: real)
    requires ValidConfig(c) && c.minFloor <= nDiff
    ensures Invariant(c, Initial(c, nDiff, now), now)
  {
  }

  function Pow(b: real, k: nat): real {
    if k == 0 then 1.0 else b * Pow(b, k - 1)
  }

  lemma {:induction false} PowPositive(b: real, k: nat)
    requires b > 0.0
    ensures Pow(b, k) > 0.0
  {
    if k > 0 {
      PowPositive(b, k - 1);
      assert b * Pow(b, k - 1) > 0.0;
    }
  }

  /** No ceiling in the run falls below the difficulty of the moment. */
  ghost predicate NoDrop(c: Config, s: State, clock: real, calls: seq<Call>)
    requires ValidConfig(c) && Invariant(c, s, clock) && Orderly(c, clock, calls)
    decreases |calls|
  {
    calls == []
    || ((calls[0].Ceiling? ==> s.current <= calls[0].nDiff)
        && (StepKeepsInvariant(c, s, clock, calls[0]);
            NoDrop(c, Step(c, s, calls[0]), ClockAfter(clock, calls[0]), calls[1..])))
  }

  /** One retarget moves the difficulty by a factor between 0.67 and 1.5. */
  lemma RetargetGain(c: Config, current: real, max: real, ratio: real)
    requires 0.0 < c.minFloor <= current <= max
    ensures 0.67 * current <= Target(c, current, max, ratio) <= 1.5 * current
  {
    if ratio > 1.0 {
      var y := current * Min(ratio, 1.5);
      GainUp(current, ratio, y);
      ClampBetween(y, current, c.minFloor, max);
    } else {
      var y := current * Max(ratio, 0.67);
      GainDown(current, ratio, y);
      ClampBetween(y, current, c.minFloor, max);
    }
  }

  lemma MultiplyOrder(a: real, x: real, y: real)
    requires a >= 0.0 && x <= y
    ensures a * x <= a * y
  {
  }

  lemma GainBounds(a: real, gain: real, y: real, lo: real, hi: real)
    requires a > 0.0 && y == a * gain && lo <= gain <= hi
    ensures lo * a <= y <= hi * a
  {
    MultiplyOrder(a, lo, gain);
    MultiplyOrder(a, gain, hi);
  }

  lemma GainUp(current: real, ratio: real, y: real)
    requires current > 0.0 && ratio > 1.0 && y == current * Min(ratio, 1.5)
    ensures current <= y <= 1.5 * current
  {
    var gain := Min(ratio, 1.5);
    GainBounds(current, gain, y, 1.0, 1.5);
  }

  lemma GainDown(current: real, ratio: real, y: real)
    requires current > 0.0 && ratio <= 1.0 && y == current * Max(ratio, 0.67)
    ensures 0.67 * current <= y <= current
  {
    var gain := Max(ratio, 0.67);
    GainBounds(current, gain, y, 0.67, 1.0);
  }

  /** Clamping to bounds around `x` leaves a value between `x` and the clamped one. */
  lemma ClampBetween(y: real, x: real, lo: real, hi: real)
    requires lo <= x <= hi
    ensures Min(x, y) <= Clamp(y, lo, hi) <= Max(x, y)
  {
  }

  lemma StepGain(c: Config, s: State, call: Call)
    requires ValidConfig(c) && Bounded(c, s) && (call.Ceiling? ==> s.current <= call.nDiff)
    ensures
      var s' := Step(c, s, call);
      if call.Retarget? && Decision(c, s, call.now).Some?
      then 0.67 * s.current <= s'.current <= 1.5 * s.current
      else s'.current == s.current
  {
    if call.Retarget? && Decision(c, s, call.now).Some? {
      RetargetGain(c, s.current, s.max, ObservedRatio(c, s, call.now));
    }
  }

  lemma GradualStep(k: nat, x: real, x': real, y: real)
    requires 0.67 * x <= x' <= 1.5 * x
    requires WithinGain(k, x', y)
    ensures WithinGain(k + 1, x, y)
  {
    PowPositive(0.67, k);
    PowPositive(1.5, k);
    ScaleBounds(Pow(0.67, k), Pow(1.5, k), x, x', y);
  }

  lemma ScaleBounds(lo: real, hi: real, x: real, x': real, y: real)
    requires 0.0 < lo && 0.0 < hi && 0.67 * x <= x' <= 1.5 * x
    requires lo * x' <= y <= hi * x'
    ensures 0.67 * lo * x <= y <= 1.5 * hi * x
  {
    MultiplyOrder(lo, 0.67 * x, x');
    MultiplyOrder(hi, x', 1.5 * x);
  }

  ghost predicate WithinGain(k: nat, start: real, end: real) {
    Pow(0.67, k) * start <= end <= Pow(1.5, k) * start
  }

  /** After `k` retargets without a ceiling drop the difficulty is within `[0.67^k, 1.5^k]` of its start. */
  lemma {:induction false} RetargetsAreGradual(c: Config, s: State, clock: real, calls: seq<Call>)
    requires ValidConfig(c) && Invariant(c, s, clock) && Orderly(c, clock, calls)
    requires NoDrop(c, s, clock, calls)
    ensures WithinGain(Run(c, s, clock, calls).1, s.current, Run(c, s, clock, calls).0.current)
    decreases |calls|
  {
    if calls != [] {
      StepKeepsInvariant(c, s, clock, calls[0]);
      var s' := Step(c, s, calls[0]);
      var rest := Run(c, s', ClockAfter(clock, calls[0]), calls[1..]);
      RetargetsAreGradual(c, s', ClockAfter(clock, calls[0]), calls[1..]);
      StepGain(c, s, calls[0]);
      if calls[0].Retarget? && Decision(c, s, calls[0].now).Some? {
        GradualStep(rest.1, s.current, s'.current, rest.0.current);
      }
    }
  }
}
