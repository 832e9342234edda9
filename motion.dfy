/**
 * Angular differences and sampled daily motion. A body's speed is estimated
 * from two ephemeris longitudes taken 0.001 day before and after the
 * instant; the difference is brought into [-180, 180] by one correction of
 * a full turn, either before or after it is divided by the 0.002-day
 * interval, depending on the copy of the code.
 */
module Motion {
  import opened Mandala

  function Abs(x: real): real
  {
    if x < 0.0 then -x else x
  }

  /** The half-interval, in days, between the instant and each sample. */
  const TIME_STEP: real := 0.001

  /**
   * The normalisation `if d > 180: d -= 360 elif d < -180: d += 360`: one
   * correction by a full turn at most.
   */
  function Wrap180(d: real): real
  {
    if d > 180.0 then d - 360.0 else if d < -180.0 then d + 360.0 else d
  }

  /**
   * The correction changes the difference by a whole turn at most, leaves
   * differences within half a turn alone, and brings any difference of two
   * longitudes in [0, 360) into [-180, 180].
   */
  lemma Wrap180Range(d: real)
    ensures Wrap180(d) == d || Wrap180(d) == d - 360.0 || Wrap180(d) == d + 360.0
    ensures -180.0 <= d <= 180.0 ==> Wrap180(d) == d
    ensures -360.0 < d < 360.0 ==> -180.0 <= Wrap180(d) <= 180.0
  {
  }

  /** Whether the ±180° correction is applied to the difference or to the rate. */
  datatype MotionOrder = WrapThenDivide | DivideThenWrap

  /** Degrees per day from the samples at jd - 0.001 and jd + 0.001. */
  function SampledMotion(order: MotionOrder, before: real, after: real): (speed: real)
  {
    match order
    case WrapThenDivide => Wrap180(after - before) / 0.002
    case DivideThenWrap => Wrap180((after - before) / 0.002)
  }

  /**
   * Wrapping first measures the true movement across the 0° seam: if the
   * body moves by `delta` (less than half a turn either way) between two
   * samples reported in [0, 360), the rate is delta / 0.002.
   */
  lemma {:induction false} WrapThenDivideMeasuresMovement(before: real, delta: real)
    requires 0.0 <= before < 360.0 && -180.0 < delta < 180.0
    ensures SampledMotion(WrapThenDivide, before, Mod360(before + delta)) == delta / 0.002
  {
    var after := Mod360(before + delta);
    var k := ((before + delta) / 360.0).Floor;
    assert -1 <= k <= 1;
    assert after - before == delta - 360.0 * (k as real);
    Wrap180Range(after - before);
  }

  /**
   * Dividing first is wrong whenever the samples straddle 0°: a body moving
   * forward by 0.002° from 359.999° to 0.001° is reported at -179639° per
   * day, a retrograde speed, instead of 1° per day.
   */
  lemma DivideThenWrapAtSeam()
    ensures Mod360(359.999 + 0.002) == 0.001
    ensures SampledMotion(DivideThenWrap, 359.999, 0.001) == -179639.0
    ensures SampledMotion(WrapThenDivide, 359.999, 0.001) == 1.0
  {
    assert ((359.999 + 0.002) / 360.0).Floor == 1;
  }

  /** Away from the seam the two orders agree. */
  lemma {:induction false} OrdersAgreeOffSeam(before: real, after: real)
    requires -0.36 <= after - before <= 0.36
    ensures SampledMotion(DivideThenWrap, before, after) == SampledMotion(WrapThenDivide, before, after)
  {
    assert -180.0 <= (after - before) / 0.002 <= 180.0;
    Wrap180Range(after - before);
    Wrap180Range((after - before) / 0.002);
  }
}
