/**
 * The specification of `calculate_design_date`: the Julian day, before birth, at which the Sun
 * stood 88° of arc behind its birth longitude. The search is a Newton
 * iteration on an ephemeris that is a parameter here (`sun` maps a Julian
 * day to the Sun's longitude); nothing is assumed about it except, for the
 * range lemmas, that its longitudes lie in [0, 360).
 */
module DesignSearch {
  import opened Mandala
  import opened Motion

  const DESIGN_SUN_ARC: real := 88.0
  /** Mean daily motion of the Sun, degrees per day. */
  const MEAN_SUN_MOTION: real := 0.9856
  const MAX_ITERATIONS: nat := 200
  const TOLERANCE: real := 0.00001
  const MAX_STEP_DAYS: real := 10.0

  /** The starting guess: 88 / 0.9856 days before birth. */
  function DaysEstimate(): (d: real)
    ensures 89.0 < d < 90.0
  {
    88.0 / 0.9856
  }

  /** The target longitude: 88° behind the birth Sun, in [0, 360). */
  function TargetLongitude(sun: real -> real, birthJd: real): (t: real)
    ensures 0.0 <= t < 360.0
  {
    var t0 := Mod360(sun(birthJd) - DESIGN_SUN_ARC);
    if t0 < 0.0 then t0 + 360.0 else t0
  }

  /** Signed distance of the Sun at `jd` from the target, after one ±360 correction. */
  function Offset(sun: real -> real, target: real, jd: real): real
  {
    Wrap180(sun(jd) - target)
  }

  /** The rate used by a step: the sampled motion, or 0.9856 when it is below 0.001 in size. */
  function StepRate(sun: real -> real, order: MotionOrder, jd: real): (rate: real)
    ensures Abs(rate) >= 0.001
  {
    var m := SampledMotion(order, sun(jd - TIME_STEP), sun(jd + TIME_STEP));
    if Abs(m) < 0.001 then MEAN_SUN_MOTION else m
  }

  /** `-diff / daily_motion`, cut to ten days either way. */
  function Step(diff: real, rate: real): (days: real)
    requires rate != 0.0
    ensures Abs(days) <= MAX_STEP_DAYS
  {
    var adjustment := -diff / rate;
    if Abs(adjustment) > 10.0 then (if adjustment > 0.0 then 10.0 else -10.0) else adjustment
  }

  /** Where the search stops, after how many steps, and whether it met the tolerance. */
  datatype Search = Search(jd: real, steps: nat, converged: bool)

  /** The search from iteration `iteration` at `jd`, as the loop performs it. */
  function SearchFrom(sun: real -> real, target: real, order: MotionOrder, jd: real, iteration: nat): Search
    requires iteration <= MAX_ITERATIONS
    decreases MAX_ITERATIONS - iteration
  {
    if iteration == MAX_ITERATIONS then Search(jd, iteration, false)
    else
      var diff := Offset(sun, target, jd);
      if Abs(diff) < TOLERANCE then Search(jd, iteration, true)
      else SearchFrom(sun, target, order, jd + Step(diff, StepRate(sun, order, jd)), iteration + 1)
  }

  /**
   * The loop skeleton: the search stops within the 200-iteration cap, moves
   * at most ten days per step taken, stops early only when the Sun is
   * within the tolerance of the target, and otherwise uses every iteration.
   */
  lemma {:induction false} SearchBounds(sun: real -> real, target: real, order: MotionOrder, jd: real, iteration: nat)
    requires iteration <= MAX_ITERATIONS
    ensures var r := SearchFrom(sun, target, order, jd, iteration);
      && iteration <= r.steps <= MAX_ITERATIONS
      && Abs(r.jd - jd) <= 10.0 * ((r.steps - iteration) as real)
      && (r.converged ==> Abs(Offset(sun, target, r.jd)) < TOLERANCE)
      && (!r.converged ==> r.steps == MAX_ITERATIONS)
    decreases MAX_ITERATIONS - iteration
  {
    if iteration < MAX_ITERATIONS {
      var diff := Offset(sun, target, jd);
      if Abs(diff) >= TOLERANCE {
        var next := jd + Step(diff, StepRate(sun, order, jd));
        SearchBounds(sun, target, order, next, iteration + 1);
      }
    }
  }

  /** One iteration that misses the tolerance moves on by one clamped Newton step. */
  lemma SearchStep(sun: real -> real, target: real, order: MotionOrder, jd: real, iteration: nat,
                   diff: real, rate: real, next: real, nextIteration: nat)
    requires iteration < MAX_ITERATIONS && nextIteration == iteration + 1
    requires diff == Offset(sun, target, jd) && Abs(diff) >= TOLERANCE
    requires rate == StepRate(sun, order, jd) && next == jd + Step(diff, rate)
    ensures SearchFrom(sun, target, order, jd, iteration) == SearchFrom(sun, target, order, next, nextIteration)
  {
  }

  /** The value `calculate_design_date` returns, including the final before-birth check. */
  function DesignDate(sun: real -> real, birthJd: real, order: MotionOrder): (jd: real)
  {
    var start := birthJd - DaysEstimate();
    var s := SearchFrom(sun, TargetLongitude(sun, birthJd), order, start, 0);
    if s.jd > birthJd then start else s.jd
  }

  /** The design date is the search result, or the starting guess when the search ends after birth. */
  lemma DesignDateOfSearch(sun: real -> real, birthJd: real, order: MotionOrder, found: real)
    requires found == SearchFrom(sun, TargetLongitude(sun, birthJd), order, birthJd - DaysEstimate(), 0).jd
    ensures DesignDate(sun, birthJd, order) == if found > birthJd then birthJd - DaysEstimate() else found
  {
  }

  /**
   * The design date never lies after birth, stays within 200 steps of ten
   * days of the starting guess, and when the search converged the design
   * Sun is within the tolerance of the target, 88° behind the birth Sun.
   */
  lemma {:induction false} DesignDateProperties(sun: real -> real, birthJd: real, order: MotionOrder)
    ensures DesignDate(sun, birthJd, order) <= birthJd
    ensures Abs(DesignDate(sun, birthJd, order) - (birthJd - DaysEstimate())) <= 2000.0
    ensures var s := SearchFrom(sun, TargetLongitude(sun, birthJd), order, birthJd - DaysEstimate(), 0);
      s.converged && s.jd <= birthJd ==>
        DesignDate(sun, birthJd, order) == s.jd &&
        Abs(Offset(sun, TargetLongitude(sun, birthJd), s.jd)) < TOLERANCE
  {
    var start := birthJd - DaysEstimate();
    var s := SearchFrom(sun, TargetLongitude(sun, birthJd), order, start, 0);
    SearchBounds(sun, TargetLongitude(sun, birthJd), order, start, 0);
    assert Abs(s.jd - start) <= 2000.0 by {
      assert 10.0 * (s.steps as real) <= 2000.0;
    }
    DesignDateOfSearch(sun, birthJd, order, s.jd);
  }

  /** The target really is 88° behind the birth Sun, up to whole turns. */
  lemma {:induction false} TargetIsArcBehind(sun: real -> real, birthJd: real)
    ensures Mod360(TargetLongitude(sun, birthJd) + DESIGN_SUN_ARC) == Mod360(sun(birthJd))
  {
    var x := sun(birthJd) - DESIGN_SUN_ARC;
    var k := (x / 360.0).Floor;
    Mod360Congruent(TargetLongitude(sun, birthJd) + DESIGN_SUN_ARC, sun(birthJd), -k);
  }

  /** With longitudes in [0, 360) the offset from the target is at most half a turn. */
  lemma {:induction false} OffsetIsShortestArc(sun: real -> real, target: real, jd: real)
    requires 0.0 <= sun(jd) < 360.0 && 0.0 <= target < 360.0
    ensures -180.0 <= Offset(sun, target, jd) <= 180.0
  {
    Wrap180Range(sun(jd) - target);
  }
}

/**
 * `calculate_design_date` as the code performs it: a loop over the
 * iterations, proved to compute DesignSearch.DesignDate.
 */
module Solver {
  import opened Mandala
  import opened Motion
  import opened DesignSearch

  /**
   * The Newton iteration of `calculate_design_date`: from `designJd` it
   * steps towards the instant the Sun stands at `target`, for at most 200
   * iterations, stopping once the offset is below the tolerance.
   */
  method NewtonSearch(sun: real -> real, target: real, order: MotionOrder, start: real) returns (designJd: real)
    ensures designJd == SearchFrom(sun, target, order, start, 0).jd
  {
    designJd := start;
    var iteration := 0;
    while iteration < MAX_ITERATIONS
      invariant 0 <= iteration <= MAX_ITERATIONS
      invariant SearchFrom(sun, target, order, designJd, iteration) == SearchFrom(sun, target, order, start, 0)
    {
      var currentSunLong := sun(designJd);
      var diff := currentSunLong - target;
      if diff > 180.0 {
        diff := diff - 360.0;
      } else if diff < -180.0 {
        diff := diff + 360.0;
      }
      assert diff == Offset(sun, target, designJd);
      if Abs(diff) < TOLERANCE {
        break;
      }
      var sunBefore := sun(designJd - 0.001);
      var sunAfter := sun(designJd + 0.001);
      var dailyMotion := SampledMotion(order, sunBefore, sunAfter);
      if Abs(dailyMotion) < 0.001 {
        dailyMotion := 0.9856;
      }
      assert dailyMotion == StepRate(sun, order, designJd);
      var daysAdjustment := -diff / dailyMotion;
      if Abs(daysAdjustment) > 10.0 {
        daysAdjustment := if daysAdjustment > 0.0 then 10.0 else -10.0;
      }
      assert daysAdjustment == Step(diff, dailyMotion);
      ghost var jd, previous := designJd, iteration;
      designJd := designJd + daysAdjustment;
      iteration := iteration + 1;
      SearchStep(sun, target, order, jd, previous, diff, dailyMotion, designJd, iteration);
    }
  }

  /**
   * `calculate_design_date`: the target longitude, the starting guess, the
   * search, and the final check that moves a result after birth back to
   * the starting guess.
   */
  method CalculateDesignDate(sun: real -> real, birthJd: real, order: MotionOrder) returns (designJd: real)
    ensures designJd == DesignDate(sun, birthJd, order)
    ensures designJd <= birthJd
  {
    var birthSunLong := sun(birthJd);
    var designSunLong := Mod360(birthSunLong - DESIGN_SUN_ARC);
    if designSunLong < 0.0 {
      designSunLong := designSunLong + 360.0;
    }
    assert designSunLong == TargetLongitude(sun, birthJd) by {
    }
    var daysEstimate := 88.0 / 0.9856;
    assert daysEstimate == DaysEstimate() by {
    }
    designJd := NewtonSearch(sun, designSunLong, order, birthJd - daysEstimate);
    DesignDateOfSearch(sun, birthJd, order, designJd);
    if designJd > birthJd {
      designJd := birthJd - daysEstimate;
    }
  }
}
