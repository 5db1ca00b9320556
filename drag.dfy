/**
 * The angular-velocity estimator of the C++ core (drag.hpp, drag.cpp):
 * wrap-safe differencing of angle samples, a hard clamp and a first-order
 * low-pass filter.
 */
module Drag {
  import opened MathLib
  import opened Util
  import Angle

  /** ds::unwrap_delta: `newTheta - prevTheta` brought into [-PI, PI]. */
  function UnwrapDelta(newTheta: real, prevTheta: real): (d: real)
    ensures -PI <= d <= PI
    ensures Angle.Coterminal(PI, newTheta - prevTheta, d)
  {
    var x := newTheta - prevTheta;
    FmodBounds(x, 2.0 * PI);
    var d0 := Fmod(x, 2.0 * PI);
    var k := -Trunc(x / (2.0 * PI));
    assert d0 == Angle.Turned(PI, x, k);
    var d1 := if d0 > PI then d0 - 2.0 * PI else d0;
    assert d1 == Angle.Turned(PI, x, if d0 > PI then k - 1 else k);
    var d := if d1 < -PI then d1 + 2.0 * PI else d1;
    assert d == Angle.Turned(PI, x, if d0 > PI then k - 1 else if d1 < -PI then k + 1 else k);
    d
  }

  /** Below this magnitude both front ends treat a dragged bob's rate as zero. */
  const DEADBAND: real := 0.05

  function Deadband(w: real): (r: real)
    ensures Abs(w) < DEADBAND ==> r == 0.0
    ensures DEADBAND <= Abs(w) ==> r == w
  {
    if Abs(w) < DEADBAND then 0.0 else w
  }

  /** The three fields of a DragFilter, as a value. */
  datatype Filter = Filter(omega: real, prevTheta: real, hasPrev: bool)

  /** The state `update` moves a filter to; its return value is `omega` of it. */
  function Updated(f: Filter, theta: real, dt: real, alpha: real, omegaMax: real): Filter {
    if dt <= 0.0 then f
    else
      var th := Angle.Normalized(PI, theta);
      if !f.hasPrev then Filter(0.0, th, true)
      else
        var raw := ClampAbs(UnwrapDelta(th, f.prevTheta) / dt, omegaMax);
        var a := Clamp(alpha, 0.0, 1.0);
        Filter(Blend(f.omega, a, raw), th, true)
  }

  /** A non-positive time step changes nothing. */
  lemma UpdateIgnoresNonPositiveDt(f: Filter, theta: real, dt: real, alpha: real, omegaMax: real)
    requires dt <= 0.0
    ensures Updated(f, theta, dt, alpha, omegaMax) == f
  {
  }

  /** First sample of a filter without history: record it and report zero. */
  lemma UpdateColdStart(f: Filter, theta: real, dt: real, alpha: real, omegaMax: real)
    requires 0.0 < dt && !f.hasPrev
    ensures Updated(f, theta, dt, alpha, omegaMax) == Filter(0.0, Angle.Normalized(PI, theta), true)
  {
  }

  /** With history the estimate moves toward the clamped raw rate. */
  lemma UpdateSmooths(f: Filter, theta: real, dt: real, alpha: real, omegaMax: real)
    requires 0.0 < dt && f.hasPrev
    ensures var th := Angle.Normalized(PI, theta);
            var a := Clamp(alpha, 0.0, 1.0);
            var raw := ClampAbs(UnwrapDelta(th, f.prevTheta) / dt, omegaMax);
            && 0.0 <= a <= 1.0
            && (0.0 <= omegaMax ==> Abs(raw) <= omegaMax)
            && Updated(f, theta, dt, alpha, omegaMax) == Filter(Blend(f.omega, a, raw), th, true)
  {
  }

  /** The low-pass step: a weighted mean of the old estimate and the new rate. */
  function Blend(w: real, a: real, c: real): real {
    (1.0 - a) * w + a * c
  }

  /** For a weight in [0, 1] the blend lies between its two inputs. */
  lemma BlendBetween(w: real, a: real, c: real)
    requires 0.0 <= a <= 1.0
    ensures Min(w, c) <= Blend(w, a, c) <= Max(w, c)
  {
    if w <= c {
      BlendWithin(w, a, c);
    } else {
      BlendWithin(c, 1.0 - a, w);
      assert Blend(c, 1.0 - a, w) == Blend(w, a, c);
    }
  }

  /** With the old estimate below the new rate, the blend moves up by a fraction of the gap. */
  lemma BlendWithin(w: real, a: real, c: real)
    requires 0.0 <= a <= 1.0 && w <= c
    ensures w <= Blend(w, a, c) <= c
  {
    var gap := c - w;
    FractionOf(a, gap);
    assert Blend(w, a, c) == w + a * gap;
  }

  lemma FractionOf(a: real, d: real)
    requires 0.0 <= a <= 1.0 && 0.0 <= d
    ensures 0.0 <= a * d
    ensures a * d <= d
  {
    assert d - a * d == (1.0 - a) * d;
  }

  /** |omega| <= omegaMax is kept by every update. */
  lemma UpdateKeepsBound(f: Filter, theta: real, dt: real, alpha: real, omegaMax: real)
    requires 0.0 <= omegaMax && Abs(f.omega) <= omegaMax
    ensures Abs(Updated(f, theta, dt, alpha, omegaMax).omega) <= omegaMax
  {
    if 0.0 < dt && f.hasPrev {
      var th := Angle.Normalized(PI, theta);
      var raw := ClampAbs(UnwrapDelta(th, f.prevTheta) / dt, omegaMax);
      BlendBetween(f.omega, Clamp(alpha, 0.0, 1.0), raw);
    }
  }

  /** After a call with dt > 0 the stored angle is the normalised sample. */
  lemma UpdateStoresNormalizedAngle(f: Filter, theta: real, dt: real, alpha: real, omegaMax: real)
    requires 0.0 < dt
    ensures var g := Updated(f, theta, dt, alpha, omegaMax);
            && g.hasPrev
            && g.prevTheta == Angle.Normalized(PI, theta)
            && -PI <= g.prevTheta <= PI
  {
    Angle.NormalizedInRange(PI, theta);
  }

  /**
   * `reset` marks the filter as having history, so the update that follows
   * it is a smoothing step from omega = 0, not a cold start.
   */
  lemma UpdateAfterReset(theta0: real, theta: real, dt: real, alpha: real, omegaMax: real)
    requires 0.0 < dt
    ensures Updated(Filter(0.0, theta0, true), theta, dt, alpha, omegaMax).omega
         == Clamp(alpha, 0.0, 1.0) * ClampAbs(UnwrapDelta(Angle.Normalized(PI, theta), theta0) / dt, omegaMax)
  {
    var a := Clamp(alpha, 0.0, 1.0);
    var raw := ClampAbs(UnwrapDelta(Angle.Normalized(PI, theta), theta0) / dt, omegaMax);
    assert Blend(0.0, a, raw) == a * raw;
  }

  /** A concrete case: after reset(0), a sample at 1 rad one second later gives 1 rad/s. */
  lemma UpdateAfterResetIsNotZero()
    ensures Updated(Filter(0.0, 0.0, true), 1.0, 1.0, 1.0, 10.0).omega == 1.0
  {
    Angle.NormalizedIdentity(PI, 1.0);
    assert Trunc(1.0 / (2.0 * PI)) == 0;
  }

  /** ds::DragFilter */
  class DragFilter {
    var omega: real
    var prevTheta: real
    var hasPrev: bool

    function Value(): Filter
      reads this
    {
      Filter(omega, prevTheta, hasPrev)
    }

    constructor ()
      ensures Value() == Filter(0.0, 0.0, false)
    {
      omega := 0.0;
      prevTheta := 0.0;
      hasPrev := false;
    }

    /** Start a gesture at `theta`: stored as given, without normalising. */
    method Reset(theta: real)
      modifies this
      ensures Value() == Filter(0.0, theta, true)
    {
      prevTheta := theta;
      omega := 0.0;
      hasPrev := true;
    }

    /** Feed one sample; the result is also the stored estimate. */
    method Update(theta: real, dt: real, alpha: real, omegaMax: real) returns (r: real)
      modifies this
      ensures Value() == Updated(old(Value()), theta, dt, alpha, omegaMax)
      ensures r == omega
    {
      if dt <= 0.0 {
        return omega;
      }
      var th := NormalizeAngle(theta);
      if !hasPrev {
        prevTheta := th;
        omega := 0.0;
        hasPrev := true;
        return omega;
      }
      var dtheta := UnwrapDelta(th, prevTheta);
      var omegaRaw := dtheta / dt;
      omegaRaw := ClampAbs(omegaRaw, omegaMax);
      var a := Clamp(alpha, 0.0, 1.0);
      omega := Blend(omega, a, omegaRaw);
      prevTheta := th;
      return omega;
    }
  }
}
