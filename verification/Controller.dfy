/** The adaptive batch target of `Scheduler::tick`: an EWMA of decode times and a step controller. */
module Controller {
  import opened Bounds
  const TICK_BUDGET_MS := 30.0

  datatype Tuning = Tuning(target: int, ewma: real)

  /** `max(8, (int)(target * 0.7))` when slow, one eighth up (at least 1) when fast. */
  function NextTarget(target: int, cap: int, ewma: real): int {
    if ewma > 1.3 * TICK_BUDGET_MS then Max(8, target * 7 / 10)
    else if ewma < 0.8 * TICK_BUDGET_MS then Min(cap, target + Max(1, target / 8))
    else target
  }

  /** One decode call that took `ms`. */
  function Tune(cap: int, t: Tuning, ms: real): Tuning {
    var e := 0.8 * t.ewma + 0.2 * ms;
    Tuning(NextTarget(t.target, cap, e), e)
  }

  function TuneAll(cap: int, t: Tuning, mss: seq<real>): Tuning {
    if mss == [] then t else Tune(cap, TuneAll(cap, t, mss[..|mss| - 1]), mss[|mss| - 1])
  }

  function Initial(cap: int): Tuning {
    Tuning(cap, TICK_BUDGET_MS)
  }

  ghost predicate TargetOk(cap: int, target: int) {
    Min(8, cap) <= target <= Max(8, cap)
  }

  lemma InitialTarget(cap: int)
    requires cap >= 1
    ensures TargetOk(cap, Initial(cap).target)
  {
  }

  lemma TuneKeepsTarget(cap: int, t: Tuning, ms: real)
    requires cap >= 1 && TargetOk(cap, t.target)
    ensures TargetOk(cap, Tune(cap, t, ms).target)
  {
  }

  /** In every run the effective budget stays between min(8, cap) and cap. */
  lemma {:induction false} BudgetStaysInRange(cap: int, mss: seq<real>)
    requires cap >= 1
    ensures TargetOk(cap, TuneAll(cap, Initial(cap), mss).target)
    ensures Min(8, cap) <= Min(TuneAll(cap, Initial(cap), mss).target, cap) <= cap
  {
    if mss != [] {
      BudgetStaysInRange(cap, mss[..|mss| - 1]);
      TuneKeepsTarget(cap, TuneAll(cap, Initial(cap), mss[..|mss| - 1]), mss[|mss| - 1]);
    }
  }

  /** The EWMA never leaves an interval that holds its start and all observed times. */
  lemma {:induction false} EwmaStaysInside(cap: int, t: Tuning, mss: seq<real>, lo: real, hi: real)
    requires lo <= t.ewma <= hi && forall i :: 0 <= i < |mss| ==> lo <= mss[i] <= hi
    ensures lo <= TuneAll(cap, t, mss).ewma <= hi
  {
    if mss != [] { EwmaStaysInside(cap, t, mss[..|mss| - 1], lo, hi); }
  }

  // ---------------------------------------------------------------- persistent overload

  /** How far the EWMA can still be below 40 ms after `n` slow calls. */
  function Gap(n: nat): real {
    if n == 0 then 40.0 else 0.8 * Gap(n - 1)
  }

  lemma GapFour(n: nat)
    ensures Gap(n + 4) == 0.4096 * Gap(n)
  {
    assert Gap(n + 2) == 0.64 * Gap(n);
    assert Gap(n + 4) == 0.64 * Gap(n + 2);
  }

  lemma GapCloses()
    ensures Gap(17) < 1.0
  {
    GapFour(0);
    GapFour(4);
    GapFour(8);
    GapFour(12);
    assert Gap(17) == 0.8 * Gap(16);
  }

  lemma {:induction false} EwmaApproaches(cap: int, t: Tuning, mss: seq<real>)
    requires t.ewma >= 0.0 && forall i :: 0 <= i < |mss| ==> mss[i] >= 40.0
    ensures TuneAll(cap, t, mss).ewma >= 40.0 - Gap(|mss|)
  {
    if mss != [] { EwmaApproaches(cap, t, mss[..|mss| - 1]); }
  }

  lemma {:induction false} TargetShrinks(cap: int, t: Tuning, mss: seq<real>)
    requires t.ewma > 39.0 && t.target >= 8 && forall i :: 0 <= i < |mss| ==> mss[i] >= 40.0
    ensures var u := TuneAll(cap, t, mss);
            u.ewma > 39.0 && 8 <= u.target <= Max(8, t.target - |mss|)
  {
    if mss != [] { TargetShrinks(cap, t, mss[..|mss| - 1]); }
  }

  lemma {:induction false} TuneAllAppend(cap: int, t: Tuning, a: seq<real>, b: seq<real>)
    ensures TuneAll(cap, t, a + b) == TuneAll(cap, TuneAll(cap, t, a), b)
  {
    if b == [] {
      assert a + b == a;
    } else {
      assert (a + b)[..|a + b| - 1] == a + b[..|b| - 1];
      TuneAllAppend(cap, t, a, b[..|b| - 1]);
    }
  }

  lemma {:induction false} TuneAllKeepsTarget(cap: int, t: Tuning, mss: seq<real>)
    requires cap >= 1 && TargetOk(cap, t.target)
    ensures TargetOk(cap, TuneAll(cap, t, mss).target)
  {
    if mss != [] {
      TuneAllKeepsTarget(cap, t, mss[..|mss| - 1]);
      TuneKeepsTarget(cap, TuneAll(cap, t, mss[..|mss| - 1]), mss[|mss| - 1]);
    }
  }

  /**
   If from some state on every decode call takes at least 40 ms, the target has come down to 8
   after at most 17 + cap calls and stays there, whatever happened before.
   */
  lemma OverloadReachesFloor(cap: int, before: seq<real>, slow: seq<real>)
    requires cap >= 8 && (forall i :: 0 <= i < |before| ==> before[i] >= 0.0)
    requires (forall i :: 0 <= i < |slow| ==> slow[i] >= 40.0) && |slow| >= 17 + cap
    ensures TuneAll(cap, Initial(cap), before + slow).target == 8
  {
    var start := TuneAll(cap, Initial(cap), before);
    NonNegative(cap, before);
    BudgetStaysInRange(cap, before);
    var a, b := slow[..17], slow[17..];
    var mid := TuneAll(cap, start, a);
    EwmaApproaches(cap, start, a);
    GapCloses();
    TuneAllKeepsTarget(cap, start, a);
    TargetShrinks(cap, mid, b);
    assert slow == a + b;
    TuneAllAppend(cap, start, a, b);
    TuneAllAppend(cap, Initial(cap), before, slow);
  }

  lemma {:induction false} NonNegative(cap: int, mss: seq<real>)
    requires forall i :: 0 <= i < |mss| ==> mss[i] >= 0.0
    ensures TuneAll(cap, Initial(cap), mss).ewma >= 0.0
  {
    if mss != [] { NonNegative(cap, mss[..|mss| - 1]); }
  }

  // ---------------------------------------------------------------- how fast the target moves

  /** `b` to the power `n`, times `x`. */
  function Scale(b: real, n: nat, x: real): real {
    if n == 0 then x else b * Scale(b, n - 1, x)
  }

  lemma {:induction false} ScaleShift(b: real, n: nat, x: real)
    ensures Scale(b, n, b * x) == Scale(b, n + 1, x)
  {
    if n > 0 { ScaleShift(b, n - 1, x); }
  }

  lemma {:induction false} ScaleMonotone(b: real, n: nat, x: real, y: real)
    requires b >= 0.0 && 0.0 <= x <= y
    ensures 0.0 <= Scale(b, n, x) <= Scale(b, n, y)
  {
    if n > 0 {
      ScaleMonotone(b, n - 1, x, y);
      Ordered(b, Scale(b, n - 1, x), Scale(b, n - 1, y));
    }
  }

  lemma Ordered(b: real, p: real, q: real)
    requires b >= 0.0 && 0.0 <= p <= q
    ensures 0.0 <= b * p <= b * q
  {
    assert b * (q - p) >= 0.0;
  }

  lemma {:induction false} ScaleFalls(b: real, m: nat, n: nat, x: real)
    requires 0.0 <= b <= 1.0 && m <= n && x >= 0.0
    ensures Scale(b, n, x) <= Scale(b, m, x)
    decreases n - m
  {
    if m < n {
      ScaleFalls(b, m, n - 1, x);
      ScaleMonotone(b, n - 1, x, x);
      Damps(b, Scale(b, n - 1, x));
    }
  }

  lemma {:induction false} ScaleRises(b: real, m: nat, n: nat, x: real)
    requires b >= 1.0 && m <= n && x >= 0.0
    ensures Scale(b, m, x) <= Scale(b, n, x)
    decreases n - m
  {
    if m < n {
      ScaleRises(b, m, n - 1, x);
      ScaleMonotone(b, n - 1, x, x);
      Boosts(b, Scale(b, n - 1, x));
    }
  }

  lemma Damps(b: real, p: real)
    requires 0.0 <= b <= 1.0 && p >= 0.0
    ensures b * p <= p
  {
    assert (1.0 - b) * p >= 0.0;
  }

  lemma Boosts(b: real, p: real)
    requires b >= 1.0 && p >= 0.0
    ensures b * p >= p
  {
    assert (b - 1.0) * p >= 0.0;
  }

  /** The target moves exactly when the EWMA is outside [24, 39]: down when slow, up when fast. */
  lemma TargetMoves(cap: int, t: Tuning, ms: real)
    ensures var u := Tune(cap, t, ms);
            && (24.0 <= u.ewma <= 39.0 ==> u.target == t.target)
            && (8 < t.target < cap ==> (u.target < t.target <==> u.ewma > 39.0) && (u.target > t.target <==> u.ewma < 24.0))
  {
  }

  /** One slow call takes three tenths off, down to 8. */
  lemma ShrinkStep(cap: int, t: Tuning, ms: real)
    requires t.ewma > 39.0 && t.target >= 8 && ms >= 40.0
    ensures var u := Tune(cap, t, ms);
            && u.ewma > 39.0 && u.target >= 8 && u.target as real >= 0.7 * t.target as real - 0.9
            && (u.target == 8 || u.target as real <= 0.7 * t.target as real)
  {
    var x := t.target * 7 / 10;
    assert 10 * x <= 7 * t.target <= 10 * x + 9;
  }

  /** `n` slow calls leave the target within 3 of 0.7^n times what it was, or at 8. */
  lemma {:induction false} TargetShrinksGeometrically(cap: int, t: Tuning, mss: seq<real>)
    requires t.ewma > 39.0 && t.target >= 8 && forall i :: 0 <= i < |mss| ==> mss[i] >= 40.0
    ensures var u, x := TuneAll(cap, t, mss), Scale(0.7, |mss|, t.target as real);
            && u.ewma > 39.0 && u.target >= 8 && u.target as real >= x - 3.0
            && (u.target == 8 || u.target as real <= x)
  {
    hide Tune;
    if mss != [] {
      var n := |mss| - 1;
      TargetShrinksGeometrically(cap, t, mss[..n]);
      var u := TuneAll(cap, t, mss[..n]);
      ShrinkStep(cap, u, mss[n]);
    }
  }

  /** Under overload the target is down to 8 after 17 + n calls, where 0.7^n * cap < 9. */
  lemma OverloadIsGeometric(cap: int, before: seq<real>, slow: seq<real>, n: nat)
    requires cap >= 8 && (forall i :: 0 <= i < |before| ==> before[i] >= 0.0)
    requires (forall i :: 0 <= i < |slow| ==> slow[i] >= 40.0) && |slow| >= 17 + n && Scale(0.7, n, cap as real) < 9.0
    ensures TuneAll(cap, Initial(cap), before + slow).target == 8
  {
    hide TuneAll, Scale;
    var start := TuneAll(cap, Initial(cap), before);
    NonNegative(cap, before);
    BudgetStaysInRange(cap, before);
    var a, b := slow[..17], slow[17..];
    var mid := TuneAll(cap, start, a);
    EwmaApproaches(cap, start, a);
    GapCloses();
    TuneAllKeepsTarget(cap, start, a);
    TargetShrinksGeometrically(cap, mid, b);
    ScaleMonotone(0.7, |b|, mid.target as real, cap as real);
    ScaleFalls(0.7, n, |b|, cap as real);
    assert slow == a + b;
    TuneAllAppend(cap, start, a, b);
    TuneAllAppend(cap, Initial(cap), before, slow);
  }

  /** Calls that all take `x` bring the EWMA a fifth of the way closer each. */
  lemma {:induction false} EwmaClosedForm(cap: int, t: Tuning, x: real, mss: seq<real>)
    requires forall i :: 0 <= i < |mss| ==> mss[i] == x
    ensures TuneAll(cap, t, mss).ewma == x + Scale(0.8, |mss|, t.ewma - x)
  {
    if mss != [] { EwmaClosedForm(cap, t, x, mss[..|mss| - 1]); }
  }

  // ---------------------------------------------------------------- recovery

  /** Calls until an EWMA that is `x` above 20 ms is less than 4 above, if all of them are fast. */
  function CoolDown(x: real): nat
    decreases if x < 4.0 then 0 else (1.25 * x).Floor
  {
    if x < 4.0 then 0 else 1 + CoolDown(0.8 * x)
  }

  lemma {:induction false} CoolDownSuffices(x: real)
    requires x >= 0.0
    ensures Scale(0.8, CoolDown(x), x) < 4.0
    decreases CoolDown(x)
  {
    if x >= 4.0 {
      CoolDownSuffices(0.8 * x);
      ScaleShift(0.8, CoolDown(0.8 * x), x);
    }
  }

  lemma {:induction false} EwmaCools(cap: int, t: Tuning, mss: seq<real>, x: real)
    requires t.ewma <= 20.0 + x && forall i :: 0 <= i < |mss| ==> mss[i] <= 20.0
    ensures TuneAll(cap, t, mss).ewma <= 20.0 + Scale(0.8, |mss|, x)
  {
    if mss != [] { EwmaCools(cap, t, mss[..|mss| - 1], x); }
  }

  /** One fast call adds an eighth, up to the capacity. */
  lemma GrowStep(cap: int, t: Tuning, ms: real)
    requires t.ewma < 24.0 && 8 <= t.target <= cap && ms <= 20.0
    ensures var u := Tune(cap, t, ms);
            && u.ewma < 24.0 && t.target <= u.target <= cap && u.target as real <= 1.125 * t.target as real
            && (u.target == cap || u.target as real - 7.0 >= 1.125 * (t.target as real - 7.0))
  {
    var x := t.target / 8;
    assert 8 * x <= t.target <= 8 * x + 7;
  }

  /** `n` fast calls multiply the target by 1.125^n, up to rounding, or bring it to the capacity. */
  lemma {:induction false} TargetGrowsGeometrically(cap: int, t: Tuning, mss: seq<real>)
    requires t.ewma < 24.0 && 8 <= t.target <= cap && forall i :: 0 <= i < |mss| ==> mss[i] <= 20.0
    ensures var u, n := TuneAll(cap, t, mss), |mss|;
            && u.ewma < 24.0 && t.target <= u.target <= cap && u.target as real <= Scale(1.125, n, t.target as real)
            && (u.target == cap || u.target as real - 7.0 >= Scale(1.125, n, t.target as real - 7.0))
  {
    hide Tune;
    if mss != [] {
      var n := |mss| - 1;
      TargetGrowsGeometrically(cap, t, mss[..n]);
      GrowStep(cap, TuneAll(cap, t, mss[..n]), mss[n]);
    }
  }

  /**
   Recovery: whatever happened before with decode times of at most `hi`, once calls take at most
   20 ms the target is back at the capacity after the cool-down from `hi` and `n` more calls,
   where 1.125^n >= cap - 7, and stays there.
   */
  lemma RecoveryReachesCap(cap: int, before: seq<real>, hi: real, fast: seq<real>, n: nat)
    requires cap >= 8 && hi >= 30.0 && (forall i :: 0 <= i < |before| ==> before[i] <= hi)
    requires (forall i :: 0 <= i < |fast| ==> fast[i] <= 20.0) && |fast| >= CoolDown(hi - 20.0) + n
    requires Scale(1.125, n, 1.0) >= cap as real - 7.0
    ensures TuneAll(cap, Initial(cap), before + fast).target == cap
  {
    hide TuneAll, Scale, CoolDown;
    var start := TuneAll(cap, Initial(cap), before);
    EwmaBelow(cap, Initial(cap), before, hi);
    BudgetStaysInRange(cap, before);
    var c := CoolDown(hi - 20.0);
    var a, b := fast[..c], fast[c..];
    var mid := TuneAll(cap, start, a);
    EwmaCools(cap, start, a, hi - 20.0);
    CoolDownSuffices(hi - 20.0);
    TuneAllKeepsTarget(cap, start, a);
    TargetGrowsGeometrically(cap, mid, b);
    ScaleRises(1.125, n, |b|, 1.0);
    ScaleMonotone(1.125, |b|, 1.0, mid.target as real - 7.0);
    assert fast == a + b;
    TuneAllAppend(cap, start, a, b);
    TuneAllAppend(cap, Initial(cap), before, fast);
  }

  lemma {:induction false} EwmaBelow(cap: int, t: Tuning, mss: seq<real>, hi: real)
    requires t.ewma <= hi && forall i :: 0 <= i < |mss| ==> mss[i] <= hi
    ensures TuneAll(cap, t, mss).ewma <= hi
  {
    if mss != [] { EwmaBelow(cap, t, mss[..|mss| - 1], hi); }
  }
}
