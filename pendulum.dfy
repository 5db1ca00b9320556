/**
 * One link of the legacy desktop simulator (class Pendulum,
 * src/pendulum.cpp).  A link keeps its raw angle, a mirrored and normalised
 * copy of it for display, its rate, an acceleration used only by the Euler
 * integrator and a multiplicative friction factor.  The SFML shapes are not
 * modelled.
 */
module LegacyPendulum {
  import opened MathLib
  import opened Integrator
  import Angle
  import Utility

  /** g of src/pendulum.h, in m/s^2. */
  const G: real := 9.80665

  /** FPS of src/simulation.h: the fixed step is 1 / FPS seconds. */
  const FPS: real := 60.0

  /** The fixed step 1 / FPS of `update()`, `updateBoth()` and `updateP2()`. */
  const STEP: real := 1.0 / FPS

  /** RAD_LIMIT of src/pendulum.h: 10000 degrees. */
  const RAD_LIMIT: real := Utility.DegToRad(10000.0)

  /** `calculate_single_accel`: the simple pendulum, -g sin(theta) / len. */
  function SingleAccel(m: Libm, len: real, theta: real): real
    requires len != 0.0
  {
    -G * m.sin(theta) / len
  }

  /** The simple pendulum as a field on (theta, omega). */
  function SingleField(m: Libm, len: real): Pair -> Pair
    requires len != 0.0
  {
    (y: Pair) => Pair(y.w, SingleAccel(m, len, y.th))
  }

  /** The hanging, resting link is an equilibrium of the field. */
  lemma SingleFieldAtRest(m: Libm, len: real)
    requires Lawful(m) && len != 0.0
    ensures SingleField(m, len)(PairRest) == PairRest
  {
  }

  /** The raw angle after `preventOverflow`. */
  function Unwound(theta: real): real {
    if Abs(theta) > RAD_LIMIT then Fmod(theta, 2.0 * Utility.PI) else theta
  }

  /**
   * An angle within the limit is kept; a larger one is replaced by the
   * remainder of a division by 2 PI, which keeps its sign and its direction
   * and is smaller than one turn.
   */
  lemma UnwoundFacts(theta: real)
    ensures Abs(theta) <= RAD_LIMIT ==> Unwound(theta) == theta
    ensures RAD_LIMIT < Abs(theta) ==> Abs(Unwound(theta)) < 2.0 * Utility.PI
    ensures 0.0 <= theta ==> 0.0 <= Unwound(theta)
    ensures theta <= 0.0 ==> Unwound(theta) <= 0.0
    ensures Abs(Unwound(theta)) <= Abs(theta)
    ensures Angle.Coterminal(Utility.PI, theta, Unwound(theta))
  {
    if Abs(theta) > RAD_LIMIT {
      var d := 2.0 * Utility.PI;
      FmodBounds(theta, d);
      var k := Trunc(theta / d);
      assert Unwound(theta) == theta - d * k as real;
      assert Unwound(theta) == Angle.Turned(Utility.PI, theta, -k);
    } else {
      assert theta == Angle.Turned(Utility.PI, theta, 0);
    }
  }

  /** The three fields an integration step writes: raw angle, mirrored angle, rate. */
  datatype Swing = Swing(thetaRaw: real, thetaNormal: real, omega: real)

  /**
   * What a link stores once its RK4 step produced angle `th` and rate `w`:
   * the mirrored angle is normalised from `th` before the raw angle is unwound.
   */
  function Stored(th: real, w: real): Swing {
    Swing(Unwound(th), Angle.Normalized(Utility.PI, -th), w)
  }

  /**
   * The mirrored angle lies in [-PI, PI] and points opposite to the raw
   * angle, up to whole turns, even when the raw angle was unwound.
   */
  lemma StoredFacts(th: real, w: real)
    ensures -Utility.PI <= Stored(th, w).thetaNormal <= Utility.PI
    ensures Angle.Coterminal(Utility.PI, -Stored(th, w).thetaRaw, Stored(th, w).thetaNormal)
    ensures Abs(Stored(th, w).thetaRaw) <= Abs(th)
  {
    var pi := Utility.PI;
    Angle.NormalizedInRange(pi, -th);
    Angle.NormalizedCoterminal(pi, -th);
    UnwoundFacts(th);
    var u := Unwound(th);
    var n := Angle.Normalized(pi, -th);
    var j :| u == Angle.Turned(pi, th, j);
    var k :| n == Angle.Turned(pi, -th, k);
    assert n == Angle.Turned(pi, -u, k + j);
  }

  /** `integrate_RK4(dt)` on the stored fields of a link. */
  function Rk4Swing(m: Libm, len: real, st: Swing, dt: real): Swing
    requires len != 0.0
  {
    var y := Rk4Pair(SingleField(m, len), Pair(st.thetaRaw, st.omega), dt);
    Stored(y.th, y.w)
  }

  /** A link's stored fields once friction has scaled its rate. */
  function Rubbed(st: Swing, friction: real): Swing {
    st.(omega := st.omega * friction)
  }

  /** `update()`: one RK4 step of `dt` seconds (1 / FPS in the source), then friction on the rate. */
  function UpdatedSwing(m: Libm, len: real, friction: real, st: Swing, dt: real): Swing
    requires len != 0.0
  {
    Rubbed(Rk4Swing(m, len, st, dt), friction)
  }

  /** A link hanging at rest stays at rest, and its display angle is zero. */
  lemma RestIsFixedPoint(m: Libm, len: real, friction: real, thetaNormal: real, dt: real)
    requires Lawful(m) && len != 0.0
    ensures Rk4Swing(m, len, Swing(0.0, thetaNormal, 0.0), dt) == Swing(0.0, 0.0, 0.0)
    ensures UpdatedSwing(m, len, friction, Swing(0.0, thetaNormal, 0.0), dt) == Swing(0.0, 0.0, 0.0)
  {
    SingleFieldAtRest(m, len);
    Rk4PairEquilibrium(SingleField(m, len), PairRest, dt);
    Angle.NormalizedIdentity(Utility.PI, 0.0);
    assert Stored(0.0, 0.0) == Swing(0.0, 0.0, 0.0);
  }

  lemma FrictionShrinks(w: real, friction: real)
    requires 0.0 <= friction <= 1.0
    ensures Abs(w * friction) <= Abs(w)
  {
    var a := Abs(w);
    ScaleMonotone(a, friction, 1.0);
    ScaleMonotone(a, 0.0, friction);
    assert 0.0 <= a * friction <= a;
    if w < 0.0 {
      assert w * friction == -(a * friction);
    } else {
      assert a == w;
      assert Abs(w * friction) == a * friction;
    }
  }

  /** Friction in [0, 1] only scales the rate down and leaves both angles alone. */
  lemma RubbedShrinks(st: Swing, friction: real)
    requires 0.0 <= friction <= 1.0
    ensures Abs(Rubbed(st, friction).omega) <= Abs(st.omega)
    ensures Rubbed(st, friction).thetaRaw == st.thetaRaw
    ensures Rubbed(st, friction).thetaNormal == st.thetaNormal
  {
    FrictionShrinks(st.omega, friction);
  }

  /** After an update the rate is the integrated rate scaled by friction. */
  lemma UpdatedScalesRate(m: Libm, len: real, friction: real, st: Swing, dt: real)
    requires len != 0.0
    requires 0.0 <= friction <= 1.0
    ensures UpdatedSwing(m, len, friction, st, dt).omega == Rk4Swing(m, len, st, dt).omega * friction
    ensures Abs(UpdatedSwing(m, len, friction, st, dt).omega) <= Abs(Rk4Swing(m, len, st, dt).omega)
    ensures UpdatedSwing(m, len, friction, st, dt).thetaRaw == Rk4Swing(m, len, st, dt).thetaRaw
    ensures UpdatedSwing(m, len, friction, st, dt).thetaNormal == Rk4Swing(m, len, st, dt).thetaNormal
  {
    RubbedShrinks(Rk4Swing(m, len, st, dt), friction);
  }

  class Pendulum {
    const lib: Libm
    const len: real
    var thetaRaw: real
    var thetaNormal: real
    var accel: real
    var omega: real
    var friction: real

    function Value(): Swing
      reads this
    {
      Swing(thetaRaw, thetaNormal, omega)
    }

    /** `Pendulum(theta, len)`: at rest, no acceleration, no friction. */
    constructor (lib: Libm, theta: real, len: real)
      ensures this.lib == lib && this.len == len
      ensures thetaRaw == theta && omega == 0.0 && accel == 0.0 && friction == 1.0
    {
      this.lib := lib;
      this.len := len;
      thetaRaw := theta;
      omega := 0.0;
      accel := 0.0;
      friction := 1.0;
    }

    /** `Pendulum(theta, len, fric)`: as above with the given friction factor. */
    constructor WithFriction(lib: Libm, theta: real, len: real, fric: real)
      ensures this.lib == lib && this.len == len
      ensures thetaRaw == theta && omega == 0.0 && accel == 0.0 && friction == fric
    {
      this.lib := lib;
      this.len := len;
      thetaRaw := theta;
      omega := 0.0;
      accel := 0.0;
      friction := fric;
    }

    /** `integrateEuler`: the rate first, then the angle with the new rate. */
    method IntegrateEuler()
      modifies this`omega, this`thetaRaw
      ensures omega == old(omega) + accel / FPS
      ensures thetaRaw == old(thetaRaw) + omega / FPS
    {
      omega := omega + accel / FPS;
      thetaRaw := thetaRaw + omega / FPS;
    }

    /** `preventOverflow` */
    method PreventOverflow()
      modifies this`thetaRaw
      ensures thetaRaw == Unwound(old(thetaRaw))
    {
      if Abs(thetaRaw) > RAD_LIMIT {
        thetaRaw := Fmod(thetaRaw, 2.0 * Utility.PI);
      }
    }

    /**
     * `integrate_RK4(dt)`, stage by stage.  Each stage's (theta, speed) pair
     * is one `Pair`; `k` holds a stage's (speed, acceleration).
     */
    method IntegrateRk4(dt: real)
      requires len != 0.0
      modifies this`thetaRaw, this`thetaNormal, this`omega
      ensures Value() == Rk4Swing(lib, len, old(Value()), dt)
    {
      var y0 := Pair(thetaRaw, omega);
      var k1 := Pair(omega, SingleAccel(lib, len, thetaRaw));
      var y2 := AdvancePair(y0, 0.5 * dt, k1);
      var k2 := Pair(y2.w, SingleAccel(lib, len, y2.th));
      var y3 := AdvancePair(y0, 0.5 * dt, k2);
      var k3 := Pair(y3.w, SingleAccel(lib, len, y3.th));
      var y4 := AdvancePair(y0, dt, k3);
      var k4 := Pair(y4.w, SingleAccel(lib, len, y4.th));
      var y := AdvancePair(y0, dt / 6.0, WeightedPair(k1, k2, k3, k4));
      assert y == Rk4Pair(SingleField(lib, len), y0, dt);

      thetaRaw := y.th;
      thetaNormal := Utility.NormalizeAngle(-1.0 * thetaRaw);
      omega := y.w;
      PreventOverflow();
    }

    /** `update()`: one step of 1 / FPS seconds, then friction. */
    method Update()
      requires len != 0.0
      modifies this`thetaRaw, this`thetaNormal, this`omega
      ensures Value() == UpdatedSwing(lib, len, friction, old(Value()), STEP)
    {
      var dt := STEP;
      IntegrateRk4(dt);
      Rub();
    }

    /** The friction statement of `update()`. */
    method Rub()
      modifies this`omega
      ensures Value() == Rubbed(old(Value()), friction)
    {
      omega := omega * friction;
    }

    /** `setTheta(a)`: the raw angle, and its mirror image for display (not normalised). */
    method SetTheta(angle: real)
      modifies this`thetaRaw, this`thetaNormal
      ensures thetaRaw == angle && thetaNormal == -angle
    {
      thetaRaw := angle;
      thetaNormal := -1.0 * angle;
    }

    method SetSpeed(v: real)
      modifies this`omega
      ensures omega == v
    {
      omega := v;
    }
  }
}
