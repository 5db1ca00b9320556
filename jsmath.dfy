/**
 * The angle helpers of the web front end (web/utils/math.js), which use
 * JavaScript's Math.PI.
 */
module JsMath {
  import opened MathLib
  import Angle

  /** Math.PI */
  const MATH_PI: real := 3.141592653589793

  function Rad2Deg(r: real): real {
    (r * 180.0) / MATH_PI
  }

  /** rad2deg is the inverse of scaling by pi / 180. */
  lemma Rad2DegInverse(d: real)
    ensures Rad2Deg(d * MATH_PI / 180.0) == d
  {
  }

  /** `clamp`: Math.min(hi, Math.max(lo, v)). */
  function Clamp(v: real, lo: real, hi: real): (r: real)
    ensures r <= hi
    ensures lo <= hi ==> lo <= r
    ensures lo <= v <= hi ==> r == v
  {
    Min(hi, Max(lo, v))
  }

  /**
   * For lo <= hi this is std::clamp; for lo > hi, where std::clamp is
   * undefined, it returns hi.
   */
  lemma ClampAgreesWithStd(v: real, lo: real, hi: real)
    ensures lo <= hi ==> Clamp(v, lo, hi) == MathLib.Clamp(v, lo, hi)
    ensures hi < lo ==> Clamp(v, lo, hi) == hi
  {
  }

  /** `normalizeAngle`: the two wrapping loops with Math.PI. */
  method NormalizeAngle(a: real) returns (r: real)
    ensures r == Angle.Normalized(MATH_PI, a)
    ensures -MATH_PI <= r <= MATH_PI
    ensures Angle.Coterminal(MATH_PI, a, r)
  {
    r := Angle.NormalizeAngle(MATH_PI, a);
  }

  /** `unwrapDelta(n, o)`: normalizeAngle(n - o). */
  function UnwrapDelta(newTh: real, oldTh: real): (d: real)
    ensures d == Angle.Normalized(MATH_PI, newTh - oldTh)
    ensures -MATH_PI <= d <= MATH_PI
    ensures Angle.Coterminal(MATH_PI, newTh - oldTh, d)
  {
    Angle.NormalizedInRange(MATH_PI, newTh - oldTh);
    Angle.NormalizedCoterminal(MATH_PI, newTh - oldTh);
    Angle.Normalized(MATH_PI, newTh - oldTh)
  }

  /** `thetaFromMouse(dx, dy)`: the angle from the vertical, +y down. */
  function ThetaFromMouse(m: Libm, dx: real, dy: real): (th: real)
    ensures -MATH_PI <= th <= MATH_PI
    ensures Angle.Coterminal(MATH_PI, m.atan2(dx, dy), th)
  {
    Angle.NormalizedInRange(MATH_PI, m.atan2(dx, dy));
    Angle.NormalizedCoterminal(MATH_PI, m.atan2(dx, dy));
    Angle.Normalized(MATH_PI, m.atan2(dx, dy))
  }
}
