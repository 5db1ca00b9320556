/**
 * The helpers of the legacy desktop simulator (class Utility, src/func.cpp).
 * They repeat the core's helpers with the single-precision constant
 * PI = 3.14159265359f of src/func.h and a fixed speed limit.
 */
module Utility {
  import opened MathLib
  import Angle
  import Util

  /** PI of src/func.h. */
  const PI: real := 3.14159265359

  /** MAX_SPEED of src/simulation.h, in rad/s. */
  const MAX_SPEED: real := 15.0

  function RadToDeg(rad: real): real {
    rad * 180.0 / PI
  }

  function DegToRad(deg: real): real {
    deg * PI / 180.0
  }

  /** The two conversions undo each other. */
  lemma DegRadRoundTrip(x: real)
    ensures DegToRad(RadToDeg(x)) == x
    ensures RadToDeg(DegToRad(x)) == x
  {
  }

  /**
   * `Utility::normalize_angle(angle)`: the reference argument becomes the
   * result.  The interval is [-PI, PI] for this PI, closed at both ends.
   */
  method NormalizeAngle(angle: real) returns (r: real)
    ensures r == Angle.Normalized(PI, angle)
    ensures -PI <= r <= PI
    ensures Angle.Coterminal(PI, angle, r)
    ensures -PI <= angle <= PI ==> r == angle
  {
    r := Angle.NormalizeAngle(PI, angle);
    if -PI <= angle <= PI {
      Angle.NormalizedIdentity(PI, angle);
    }
  }

  /** `Utility::clamp_speed(v)`: the reference argument limited to MAX_SPEED. */
  function ClampSpeed(v: real): (r: real)
    ensures Abs(r) <= MAX_SPEED
    ensures Abs(v) <= MAX_SPEED ==> r == v
    ensures MAX_SPEED < Abs(v) ==> r == (if v < 0.0 then -MAX_SPEED else MAX_SPEED)
  {
    if Abs(v) > MAX_SPEED then (if v < 0.0 then -MAX_SPEED else MAX_SPEED) else v
  }

  /** The legacy speed clamp is the core's `clamp_abs` with bound 15, hence idempotent. */
  lemma ClampSpeedIsClampAbs(v: real)
    ensures ClampSpeed(v) == Util.ClampAbs(v, MAX_SPEED)
    ensures ClampSpeed(ClampSpeed(v)) == ClampSpeed(v)
  {
  }

  /**
   * `Utility::distance`, and `Simulation::distance` (src/simulation.cpp:104-106),
   * which has the same body.
   */
  function Distance(m: Libm, x1: real, y1: real, x2: real, y2: real): real {
    m.sqrt((x2 - x1) * (x2 - x1) + (y2 - y1) * (y2 - y1))
  }

  /** The legacy distance is the core's `ds::distance`, so it is symmetric, non-negative and zero on a point. */
  lemma DistanceFacts(m: Libm, x1: real, y1: real, x2: real, y2: real)
    ensures Distance(m, x1, y1, x2, y2) == Util.Distance(m, x1, y1, x2, y2)
    ensures Distance(m, x1, y1, x2, y2) == Distance(m, x2, y2, x1, y1)
    ensures Lawful(m) ==> 0.0 <= Distance(m, x1, y1, x2, y2) && Distance(m, x1, y1, x1, y1) == 0.0
  {
    Util.DistanceSymmetric(m, x1, y1, x2, y2);
    if Lawful(m) {
      Util.DistanceFacts(m, x1, y1, x2, y2);
    }
  }
}
