/**
 * The angle utilities of the C++ core (namespace ds, util.hpp).
 */
module Util {
  import opened MathLib
  import Angle

  /** ds::PI */
  const PI: real := 3.14159265358979323846

  function RadToDeg(rad: real): real {
    rad * 180.0 / PI
  }

  function DegToRad(deg: real): real {
    deg * PI / 180.0
  }

  /** The two conversions undo each other. */
  lemma DegRadRoundTrip(x: real)
    ensures DegToRad(RadToDeg(x)) == x
    ensures RadToDeg(DegToRad(x)) == x
  {
  }

  /** ds::normalize_angle: into [-PI, PI], by whole turns, identity inside. */
  method NormalizeAngle(a: real) returns (r: real)
    ensures r == Angle.Normalized(PI, a)
    ensures -PI <= r <= PI
    ensures Angle.Coterminal(PI, a, r)
    ensures -PI <= a <= PI ==> r == a
  {
    r := Angle.NormalizeAngle(PI, a);
    if -PI <= a <= PI {
      Angle.NormalizedIdentity(PI, a);
    }
  }

  /** ds::clamp_abs: the value limited to magnitude `vmax`, keeping its sign. */
  function ClampAbs(v: real, vmax: real): (r: real)
    ensures 0.0 <= vmax ==> Abs(r) <= vmax
    ensures Abs(v) <= vmax ==> r == v
    ensures vmax < Abs(v) ==> r == (if v < 0.0 then -vmax else vmax)
  {
    if Abs(v) > vmax then (if v < 0.0 then -vmax else vmax) else v
  }

  /** Clamping twice is clamping once, for a non-negative bound. */
  lemma ClampAbsIdempotent(v: real, vmax: real)
    requires 0.0 <= vmax
    ensures ClampAbs(ClampAbs(v, vmax), vmax) == ClampAbs(v, vmax)
  {
  }

  /**
   * With a negative bound the clamp is not idempotent: the first call flips
   * the sign of a positive value and the second call flips it back.
   */
  lemma ClampAbsNegativeBound()
    ensures ClampAbs(1.0, -1.0) == -1.0
    ensures ClampAbs(ClampAbs(1.0, -1.0), -1.0) == 1.0
  {
  }

  /** ds::distance */
  function Distance(m: Libm, x1: real, y1: real, x2: real, y2: real): real {
    var dx := x2 - x1;
    var dy := y2 - y1;
    m.sqrt(dx * dx + dy * dy)
  }

  lemma DistanceSymmetric(m: Libm, x1: real, y1: real, x2: real, y2: real)
    ensures Distance(m, x1, y1, x2, y2) == Distance(m, x2, y2, x1, y1)
  {
    assert (x2 - x1) * (x2 - x1) == (x1 - x2) * (x1 - x2);
    assert (y2 - y1) * (y2 - y1) == (y1 - y2) * (y1 - y2);
  }

  lemma DistanceFacts(m: Libm, x1: real, y1: real, x2: real, y2: real)
    requires Lawful(m)
    ensures 0.0 <= Distance(m, x1, y1, x2, y2)
    ensures Distance(m, x1, y1, x1, y1) == 0.0
  {
    var dx := x2 - x1;
    var dy := y2 - y1;
    assert 0.0 <= dx * dx + dy * dy;
  }
}
