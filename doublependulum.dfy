/**
 * The double pendulum of the legacy desktop simulator (class
 * DoublePendulum, src/double_pend.cpp): two `Pendulum` links, two masses,
 * the Euler-Lagrange accelerations, and RK4 steps either of both links or of
 * link 2 alone while link 1 is held by the mouse.
 */
module LegacyDouble {
  import opened MathLib
  import opened Integrator
  import opened LegacyPendulum
  import Utility
  import Angle

  /** Rod lengths and bob masses: `p1.len`, `p2.len`, `mass1`, `mass2`. */
  datatype Dims = Dims(l1: real, l2: real, m1: real, m2: real)

  /**
   * The conditions under which both accelerations are defined: cos at most
   * one, non-zero rods, a positive first mass and a non-negative second one.
   */
  ghost predicate Sound(m: Libm, d: Dims) {
    CosAtMostOne(m) && d.l1 != 0.0 && d.l2 != 0.0 && 0.0 < d.m1 && 0.0 <= d.m2
  }

  /** The shared factor 2 m1 + m2 (1 - cos(2 th1 - 2 th2)) of both denominators. */
  function Spread(m: Libm, d: Dims, s: State): real {
    2.0 * d.m1 + d.m2 * (1.0 - m.cos(2.0 * s.th1 - 2.0 * s.th2))
  }

  /** For a non-negative second mass the factor is at least 2 m1. */
  lemma SpreadAtLeastTwiceM1(m: Libm, d: Dims, s: State)
    requires CosAtMostOne(m) && 0.0 <= d.m2
    ensures 2.0 * d.m1 <= Spread(m, d, s)
  {
    ScaleMonotone(d.m2, 0.0, 1.0 - m.cos(2.0 * s.th1 - 2.0 * s.th2));
  }

  lemma DivisorNonZero(m: Libm, d: Dims, s: State, len: real)
    requires Sound(m, d) && len != 0.0
    ensures len * Spread(m, d, s) != 0.0
  {
    SpreadAtLeastTwiceM1(m, d, s);
  }

  /** `calculate_accel_p1` */
  function AccelP1(m: Libm, d: Dims, s: State): real
    requires Sound(m, d)
  {
    DivisorNonZero(m, d, s, d.l1);
    (-G * (2.0 * d.m1 + d.m2) * m.sin(s.th1)
     - d.m2 * G * m.sin(s.th1 - 2.0 * s.th2)
     - 2.0 * m.sin(s.th1 - s.th2) * d.m2
       * (s.w2 * s.w2 * d.l2 + s.w1 * s.w1 * d.l1 * m.cos(s.th1 - s.th2)))
    / (d.l1 * Spread(m, d, s))
  }

  /** `calculate_accel_p2` */
  function AccelP2(m: Libm, d: Dims, s: State): real
    requires Sound(m, d)
  {
    DivisorNonZero(m, d, s, d.l2);
    (2.0 * m.sin(s.th1 - s.th2)
     * (s.w1 * s.w1 * d.l1 * (d.m1 + d.m2)
        + G * (d.m1 + d.m2) * m.cos(s.th1)
        + s.w2 * s.w2 * d.l2 * d.m2 * m.cos(s.th1 - s.th2)))
    / (d.l2 * Spread(m, d, s))
  }

  /** Both links hanging at rest feel no acceleration. */
  lemma AccelAtRest(m: Libm, d: Dims)
    requires Lawful(m) && Sound(m, d)
    ensures AccelP1(m, d, Rest) == 0.0
    ensures AccelP2(m, d, Rest) == 0.0
  {
    DivisorNonZero(m, d, Rest, d.l1);
    DivisorNonZero(m, d, Rest, d.l2);
    assert 2.0 * Rest.th1 - 2.0 * Rest.th2 == 0.0;
  }

  /** The rates and accelerations of both links at `y`: one RK4 stage's `k`. */
  function Slope(m: Libm, d: Dims, y: State): State
    requires Sound(m, d)
  {
    State(y.w1, AccelP1(m, d, y), y.w2, AccelP2(m, d, y))
  }

  /** The pair of links as a field on (th1, w1, th2, w2). */
  function DoubleField(m: Libm, d: Dims): State -> State
    requires Sound(m, d)
  {
    (y: State) => Slope(m, d, y)
  }

  /** Link 2's rate and acceleration at `y`, with link 1 held at (th1, w1). */
  function P2Slope(m: Libm, d: Dims, th1: real, w1: real, y: Pair): Pair
    requires Sound(m, d)
  {
    Pair(y.w, AccelP2(m, d, State(th1, w1, y.th, y.w)))
  }

  /** Link 2 alone, with link 1 held at (th1, w1). */
  function P2Field(m: Libm, d: Dims, th1: real, w1: real): Pair -> Pair
    requires Sound(m, d)
  {
    (y: Pair) => P2Slope(m, d, th1, w1, y)
  }

  /** One explicit Euler update `x += v * dt` of a rate or an angle. */
  function Moved(x: real, v: real, dt: real): real {
    x + v * dt
  }

  /**
   * `integrateBoth_Euler(dt)` on (th1, w1, th2, w2): link 2's acceleration
   * already sees link 1's new rate, and both angles move with the new rates.
   */
  function EulerBoth(m: Libm, d: Dims, y: State, dt: real): State
    requires Sound(m, d)
  {
    var w1 := Moved(y.w1, AccelP1(m, d, y), dt);
    var w2 := Moved(y.w2, AccelP2(m, d, State(y.th1, w1, y.th2, y.w2)), dt);
    State(Moved(y.th1, w1, dt), w1, Moved(y.th2, w2, dt), w2)
  }

  /** A zero step changes nothing, and both links hanging at rest stay there. */
  lemma EulerBothFixedPoints(m: Libm, d: Dims, y: State, dt: real)
    requires Sound(m, d)
    ensures EulerBoth(m, d, y, 0.0) == y
    ensures Lawful(m) ==> EulerBoth(m, d, Rest, dt) == Rest
  {
    if Lawful(m) {
      AccelAtRest(m, d);
      assert Rest.(w1 := 0.0) == Rest;
    }
  }

  /** The stored fields of both links. */
  datatype Duo = Duo(a: Swing, b: Swing)

  /** `integrateBoth_RK4(dt)` on the stored fields. */
  function BothRk4(m: Libm, d: Dims, v: Duo, dt: real): Duo
    requires Sound(m, d)
  {
    var y := Rk4(DoubleField(m, d), State(v.a.thetaRaw, v.a.omega, v.b.thetaRaw, v.b.omega), dt);
    Duo(Stored(y.th1, y.w1), Stored(y.th2, y.w2))
  }

  /** `integrateP2_RK4(dt)` on link 2, with link 1 at (th1, w1); the rate is clamped. */
  function P2Rk4(m: Libm, d: Dims, th1: real, w1: real, b: Swing, dt: real): Swing
    requires Sound(m, d)
  {
    var y := Rk4Pair(P2Field(m, d, th1, w1), Pair(b.thetaRaw, b.omega), dt);
    Stored(y.th, Utility.ClampSpeed(y.w))
  }

  /** `updateBoth()`: one step of `dt` (1 / FPS in the source) of both links, then each link's friction. */
  function UpdatedBoth(m: Libm, d: Dims, f1: real, f2: real, v: Duo, dt: real): Duo
    requires Sound(m, d)
  {
    var r := BothRk4(m, d, v, dt);
    Duo(Rubbed(r.a, f1), Rubbed(r.b, f2))
  }

  /** `updateP2()`: one step of `dt` (1 / FPS in the source) of link 2, then link 2's friction. */
  function UpdatedP2(m: Libm, d: Dims, th1: real, w1: real, f2: real, b: Swing, dt: real): Swing
    requires Sound(m, d)
  {
    Rubbed(P2Rk4(m, d, th1, w1, b, dt), f2)
  }

  /** The all-zero state is a fixed point of the two-link step and of the update. */
  lemma BothRestIsFixedPoint(m: Libm, d: Dims, n1: real, n2: real, f1: real, f2: real, dt: real)
    requires Lawful(m) && Sound(m, d)
    ensures BothRk4(m, d, Duo(Swing(0.0, n1, 0.0), Swing(0.0, n2, 0.0)), dt)
            == Duo(Swing(0.0, 0.0, 0.0), Swing(0.0, 0.0, 0.0))
    ensures UpdatedBoth(m, d, f1, f2, Duo(Swing(0.0, n1, 0.0), Swing(0.0, n2, 0.0)), dt)
            == Duo(Swing(0.0, 0.0, 0.0), Swing(0.0, 0.0, 0.0))
  {
    AccelAtRest(m, d);
    assert DoubleField(m, d)(Rest) == Rest;
    Rk4Equilibrium(DoubleField(m, d), Rest, dt);
    Angle.NormalizedIdentity(Utility.PI, 0.0);
    assert Stored(0.0, 0.0) == Swing(0.0, 0.0, 0.0);
  }

  /** With link 1 held hanging still, a resting link 2 stays at rest. */
  lemma P2RestIsFixedPoint(m: Libm, d: Dims, n2: real, f2: real, dt: real)
    requires Lawful(m) && Sound(m, d)
    ensures P2Rk4(m, d, 0.0, 0.0, Swing(0.0, n2, 0.0), dt) == Swing(0.0, 0.0, 0.0)
    ensures UpdatedP2(m, d, 0.0, 0.0, f2, Swing(0.0, n2, 0.0), dt) == Swing(0.0, 0.0, 0.0)
  {
    AccelAtRest(m, d);
    assert P2Field(m, d, 0.0, 0.0)(PairRest) == PairRest;
    Rk4PairEquilibrium(P2Field(m, d, 0.0, 0.0), PairRest, dt);
    Angle.NormalizedIdentity(Utility.PI, 0.0);
    assert Stored(0.0, 0.0) == Swing(0.0, 0.0, 0.0);
  }

  /**
   * Link 2's rate is clamped to MAX_SPEED before friction, so with a friction
   * factor in [0, 1] it stays within MAX_SPEED after `updateP2`.
   */
  lemma P2SpeedBounded(m: Libm, d: Dims, th1: real, w1: real, f2: real, b: Swing, dt: real)
    requires Sound(m, d) && 0.0 <= f2 <= 1.0
    ensures Abs(P2Rk4(m, d, th1, w1, b, dt).omega) <= Utility.MAX_SPEED
    ensures Abs(UpdatedP2(m, d, th1, w1, f2, b, dt).omega) <= Utility.MAX_SPEED
  {
    var r := P2Rk4(m, d, th1, w1, b, dt);
    RubbedShrinks(r, f2);
  }

  /** The four statements of `integrateBoth_Euler`, on values. */
  method EulerStatements(m: Libm, d: Dims, y: State, dt: real) returns (r: State)
    requires Sound(m, d)
    ensures r == EulerBoth(m, d, y, dt)
  {
    var w1 := Moved(y.w1, AccelP1(m, d, y), dt);
    var w2 := Moved(y.w2, AccelP2(m, d, State(y.th1, w1, y.th2, y.w2)), dt);
    r := State(Moved(y.th1, w1, dt), w1, Moved(y.th2, w2, dt), w2);
  }

  /** The four RK4 stages of `integrateBoth_RK4`, from (th1, w1, th2, w2) = `y0`. */
  method BothStages(m: Libm, d: Dims, y0: State, dt: real) returns (y: State)
    requires Sound(m, d)
    ensures y == Rk4(DoubleField(m, d), y0, dt)
  {
    var k1 := Slope(m, d, y0);
    var k2 := Slope(m, d, Advance(y0, 0.5 * dt, k1));
    var k3 := Slope(m, d, Advance(y0, 0.5 * dt, k2));
    var k4 := Slope(m, d, Advance(y0, dt, k3));
    y := Advance(y0, dt / 6.0, Weighted(k1, k2, k3, k4));
  }

  /** The four RK4 stages of `integrateP2_RK4`, from link 2's (theta, omega) = `y0`. */
  method P2Stages(m: Libm, d: Dims, th1: real, w1: real, y0: Pair, dt: real) returns (y: Pair)
    requires Sound(m, d)
    ensures y == Rk4Pair(P2Field(m, d, th1, w1), y0, dt)
  {
    var k1 := P2Slope(m, d, th1, w1, y0);
    var k2 := P2Slope(m, d, th1, w1, AdvancePair(y0, 0.5 * dt, k1));
    var k3 := P2Slope(m, d, th1, w1, AdvancePair(y0, 0.5 * dt, k2));
    var k4 := P2Slope(m, d, th1, w1, AdvancePair(y0, dt, k3));
    y := AdvancePair(y0, dt / 6.0, WeightedPair(k1, k2, k3, k4));
  }

  class DoublePendulum {
    const lib: Libm
    const p1: Pendulum
    const p2: Pendulum
    const mass1: real
    const mass2: real

    ghost predicate Valid() {
      p1 != p2
    }

    function Sizes(): Dims {
      Dims(p1.len, p2.len, mass1, mass2)
    }

    function Value(): Duo
      reads p1, p2
    {
      Duo(p1.Value(), p2.Value())
    }

    /** (th1, w1, th2, w2) as the integrators read it. */
    function Current(): State
      reads p1, p2
    {
      State(p1.thetaRaw, p1.omega, p2.thetaRaw, p2.omega)
    }

    /** `DoublePendulum(theta1, l1, mass1, theta2, l2, mass2)`: two frictionless links at rest. */
    constructor (lib: Libm, theta1: real, l1: real, mass1: real, theta2: real, l2: real, mass2: real)
      ensures Valid() && fresh(p1) && fresh(p2)
      ensures this.lib == lib && Sizes() == Dims(l1, l2, mass1, mass2)
      ensures p1.thetaRaw == theta1 && p1.omega == 0.0 && p1.accel == 0.0 && p1.friction == 1.0
      ensures p2.thetaRaw == theta2 && p2.omega == 0.0 && p2.accel == 0.0 && p2.friction == 1.0
    {
      this.lib := lib;
      p1 := new Pendulum(lib, theta1, l1);
      p2 := new Pendulum(lib, theta2, l2);
      this.mass1 := mass1;
      this.mass2 := mass2;
    }

    /** As above with the same friction factor on both links. */
    constructor WithFriction(lib: Libm, theta1: real, l1: real, mass1: real, theta2: real, l2: real, mass2: real,
                             fric: real)
      ensures Valid() && fresh(p1) && fresh(p2)
      ensures this.lib == lib && Sizes() == Dims(l1, l2, mass1, mass2)
      ensures p1.thetaRaw == theta1 && p1.omega == 0.0 && p1.accel == 0.0 && p1.friction == fric
      ensures p2.thetaRaw == theta2 && p2.omega == 0.0 && p2.accel == 0.0 && p2.friction == fric
    {
      this.lib := lib;
      p1 := new Pendulum.WithFriction(lib, theta1, l1, fric);
      p2 := new Pendulum.WithFriction(lib, theta2, l2, fric);
      this.mass1 := mass1;
      this.mass2 := mass2;
    }

    /**
     * `integrateBoth_Euler(dt)`: link 2's acceleration already sees link 1's
     * new rate, and both angles move after both rates.
     */
    method IntegrateBothEuler(dt: real)
      requires Valid() && Sound(lib, Sizes())
      modifies p1`omega, p1`thetaRaw, p2`omega, p2`thetaRaw
      ensures Current() == EulerBoth(lib, Sizes(), old(Current()), dt)
    {
      var y := EulerStatements(lib, Sizes(), Current(), dt);
      p1.omega := y.w1;
      p2.omega := y.w2;
      p1.thetaRaw := y.th1;
      p2.thetaRaw := y.th2;
    }

    /** `preventOverflow`: both raw angles. */
    method PreventOverflow()
      requires Valid()
      modifies p1`thetaRaw, p2`thetaRaw
      ensures p1.thetaRaw == Unwound(old(p1.thetaRaw)) && p2.thetaRaw == Unwound(old(p2.thetaRaw))
    {
      p1.PreventOverflow();
      p2.PreventOverflow();
    }

    /** `integrateBoth_RK4(dt)`: `k` holds a stage's (w1, a1, w2, a2). */
    method IntegrateBothRk4(dt: real)
      requires Valid() && Sound(lib, Sizes())
      modifies p1`thetaRaw, p1`thetaNormal, p1`omega, p2`thetaRaw, p2`thetaNormal, p2`omega
      ensures Value() == BothRk4(lib, Sizes(), old(Value()), dt)
    {
      var y := BothStages(lib, Sizes(), Current(), dt);

      p1.thetaRaw := y.th1;
      p1.thetaNormal := Utility.NormalizeAngle(-1.0 * p1.thetaRaw);
      p1.omega := y.w1;

      p2.thetaRaw := y.th2;
      p2.thetaNormal := Utility.NormalizeAngle(-1.0 * p2.thetaRaw);
      p2.omega := y.w2;

      PreventOverflow();
    }

    /** `integrateP2_RK4(dt)`: link 1's angle and rate are held for every stage. */
    method IntegrateP2Rk4(dt: real)
      requires Valid() && Sound(lib, Sizes())
      modifies p2`thetaRaw, p2`thetaNormal, p2`omega
      ensures p2.Value() == P2Rk4(lib, Sizes(), p1.thetaRaw, p1.omega, old(p2.Value()), dt)
    {
      var y := P2Stages(lib, Sizes(), p1.thetaRaw, p1.omega, Pair(p2.thetaRaw, p2.omega), dt);

      p2.thetaRaw := y.th;
      p2.thetaNormal := Utility.NormalizeAngle(-1.0 * p2.thetaRaw);
      p2.omega := y.w;
      p2.omega := Utility.ClampSpeed(p2.omega);
      p2.PreventOverflow();
    }

    /** `updateBoth()` */
    method UpdateBoth()
      requires Valid() && Sound(lib, Sizes())
      modifies p1`thetaRaw, p1`thetaNormal, p1`omega, p2`thetaRaw, p2`thetaNormal, p2`omega
      ensures Value() == UpdatedBoth(lib, Sizes(), p1.friction, p2.friction, old(Value()), STEP)
    {
      var dt := STEP;
      IntegrateBothRk4(dt);
      RubBoth();
    }

    /** The two friction statements of `updateBoth()`. */
    method RubBoth()
      requires Valid()
      modifies p1`omega, p2`omega
      ensures p1.Value() == Rubbed(old(p1.Value()), p1.friction)
      ensures p2.Value() == Rubbed(old(p2.Value()), p2.friction)
    {
      p1.omega := p1.omega * p1.friction;
      p2.omega := p2.omega * p2.friction;
    }

    /** `updateP2()`: link 1 is left exactly as it was. */
    method UpdateP2()
      requires Valid() && Sound(lib, Sizes())
      modifies p2`thetaRaw, p2`thetaNormal, p2`omega
      ensures p2.Value() == UpdatedP2(lib, Sizes(), p1.thetaRaw, p1.omega, p2.friction, old(p2.Value()), STEP)
      ensures p1.Value() == old(p1.Value())
    {
      var dt := STEP;
      IntegrateP2Rk4(dt);
      p2.Rub();
    }
  }
}
