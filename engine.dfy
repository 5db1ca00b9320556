/**
 * The physics engine of the C++ core (namespace ds, engine.hpp and
 * engine.cpp): the equations of motion of a planar double pendulum with
 * angles from the vertical, one RK4 step on the full state, the reduced
 * moving-pivot integration used while bob 1 is dragged, bob positions and
 * total energy.
 *
 * The pure parts are module-level functions of a math library `m`, the
 * parameters and a state; class `Engine` owns `p` and `s` and its step
 * methods overwrite `s` exactly as the source does.
 */
module Core {
  import opened MathLib
  import opened Integrator
  import Angle
  import Util

  /** Default gravity and damping of ds::Params. */
  const DEFAULT_G: real := 9.80665
  const DEFAULT_DAMPING: real := 0.0

  /** The largest time step `step` and `step_drag_p1` accept. */
  const DT_MAX: real := 1.0 / 15.0

  /** The smallest magnitude the equations of motion divide by. */
  const EPS: real := 0.000000000001

  /** ds::Params */
  datatype Params = Params(l1: real, l2: real, m1: real, m2: real, g: real, damping: real)

  /** `Params{l1, l2, m1, m2}`: gravity and damping take their defaults. */
  function ParamsWithDefaults(l1: real, l2: real, m1: real, m2: real): (p: Params)
    ensures p.g == 9.80665 && p.damping == 0.0
    ensures p.l1 == l1 && p.l2 == l2 && p.m1 == m1 && p.m2 == m2
  {
    Params(l1, l2, m1, m2, DEFAULT_G, DEFAULT_DAMPING)
  }

  /** Both rods have non-zero length, so the accelerations are defined. */
  predicate Divisible(p: Params) {
    p.l1 != 0.0 && p.l2 != 0.0
  }

  /** A normalised angle, with the core's value of pi. */
  function Norm(a: real): real {
    Angle.Normalized(Util.PI, a)
  }

  /** A pair of angular accelerations (th1'', th2''). */
  datatype Acc = Acc(a1: real, a2: real)

  /** `denom` in `accel`. */
  function Denominator(m: Libm, p: Params, dth: real): real {
    2.0 * p.m1 + p.m2 - p.m2 * m.cos(2.0 * dth)
  }

  /** `denom1` in `accel`: the denominator kept at least EPS away from zero. */
  function SafeDivisor(denom: real): (r: real)
    ensures EPS <= Abs(r)
    ensures denom < 0.0 ==> r < 0.0
    ensures 0.0 <= denom ==> 0.0 < r
    ensures EPS <= Abs(denom) ==> r == denom
    ensures Abs(denom) < EPS ==> r == (if denom < 0.0 then -EPS else EPS)
  {
    Max(Abs(denom), EPS) * (if denom < 0.0 then -1.0 else 1.0)
  }

  /** For a non-negative m2 the denominator is at least 2 m1. */
  lemma DenominatorAtLeastTwiceM1(m: Libm, p: Params, dth: real)
    requires Lawful(m) && 0.0 <= p.m2
    ensures 2.0 * p.m1 <= Denominator(m, p, dth)
  {
    ScaleMonotone(p.m2, m.cos(2.0 * dth), 1.0);
  }

  /** The EPS guard is inactive unless m1 is below EPS / 2. */
  lemma DivisorIsDenominator(m: Libm, p: Params, dth: real)
    requires Lawful(m) && 0.0 <= p.m2 && EPS <= 2.0 * p.m1
    ensures SafeDivisor(Denominator(m, p, dth)) == Denominator(m, p, dth)
  {
    DenominatorAtLeastTwiceM1(m, p, dth);
  }

  /** The accelerations of `accel` before damping. */
  function Undamped(m: Libm, p: Params, st: State): Acc
    requires Divisible(p)
  {
    var dth := st.th1 - st.th2;
    var d := SafeDivisor(Denominator(m, p, dth));
    var a1 := (-p.g * (2.0 * p.m1 + p.m2) * m.sin(st.th1)
               - p.m2 * p.g * m.sin(st.th1 - 2.0 * st.th2)
               - 2.0 * m.sin(dth) * p.m2 * (st.w2 * st.w2 * p.l2 + st.w1 * st.w1 * p.l1 * m.cos(dth)))
              / (p.l1 * d);
    var a2 := (2.0 * m.sin(dth)
               * (st.w1 * st.w1 * p.l1 * (p.m1 + p.m2)
                  + p.g * (p.m1 + p.m2) * m.cos(st.th1)
                  + st.w2 * st.w2 * p.l2 * p.m2 * m.cos(dth)))
              / (p.l2 * d);
    Acc(a1, a2)
  }

  /** The damping term of `accel`, applied only when damping is non-zero. */
  function Damped(u: Acc, damping: real, w1: real, w2: real): Acc {
    if damping != 0.0 then Acc(u.a1 - damping * w1, u.a2 - damping * w2) else u
  }

  /** ds::Engine::accel */
  function Accel(m: Libm, p: Params, st: State): Acc
    requires Divisible(p)
  {
    Damped(Undamped(m, p, st), p.damping, st.w1, st.w2)
  }

  /** The `!= 0` test changes nothing: damping can be subtracted always. */
  lemma DampedSubtracts(u: Acc, damping: real, w1: real, w2: real)
    ensures Damped(u, damping, w1, w2) == Acc(u.a1 - damping * w1, u.a2 - damping * w2)
  {
    if damping == 0.0 {
      assert damping * w1 == 0.0 && damping * w2 == 0.0;
    }
  }

  /** With sin 0 = 0 both accelerations vanish at the all-zero state. */
  lemma AccelAtRest(m: Libm, p: Params)
    requires Lawful(m) && Divisible(p)
    ensures Accel(m, p, Rest) == Acc(0.0, 0.0)
  {
    var d := SafeDivisor(Denominator(m, p, 0.0));
    assert m.sin(0.0 - 2.0 * 0.0) == 0.0;
    assert p.l1 * d != 0.0 && p.l2 * d != 0.0;
  }

  /** The derivative of the full state: (w1, th1'', w2, th2''). */
  function Derivative(m: Libm, p: Params, x: State): State
    requires Divisible(p)
  {
    var a := Accel(m, p, x);
    State(x.w1, a.a1, x.w2, a.a2)
  }

  function Field(m: Libm, p: Params): State -> State
    requires Divisible(p)
  {
    x => Derivative(m, p, x)
  }

  /** ds::Engine::rk4: one RK4 step of size dt, then both angles normalised. */
  function Rk4Step(m: Libm, p: Params, st: State, dt: real): State
    requires Divisible(p)
  {
    var r := Rk4(Field(m, p), st, dt);
    State(Norm(r.th1), r.w1, Norm(r.th2), r.w2)
  }

  /** The dt cap of `step` and `step_drag_p1`: std::clamp(dt, 0, 1/15). */
  function CappedDt(dt: real): real {
    Clamp(dt, 0.0, DT_MAX)
  }

  /** The state `step(dt)` leaves. */
  function Stepped(m: Libm, p: Params, st: State, dt: real): State
    requires Divisible(p)
  {
    Rk4Step(m, p, st, CappedDt(dt))
  }

  /** Time steps beyond the cap act as the cap; non-positive ones as zero. */
  lemma SteppedCapsDt(m: Libm, p: Params, st: State, dt: real)
    requires Divisible(p)
    ensures DT_MAX <= dt ==> Stepped(m, p, st, dt) == Stepped(m, p, st, DT_MAX)
    ensures dt <= 0.0 ==> Stepped(m, p, st, dt) == Stepped(m, p, st, 0.0)
    ensures 0.0 <= dt <= DT_MAX ==> Stepped(m, p, st, dt) == Rk4Step(m, p, st, dt)
  {
  }

  /** step(0) keeps both rates and only normalises both angles. */
  lemma SteppedZero(m: Libm, p: Params, st: State)
    requires Divisible(p)
    ensures Stepped(m, p, st, 0.0) == State(Norm(st.th1), st.w1, Norm(st.th2), st.w2)
  {
    Rk4ZeroStep(Field(m, p), st);
  }

  /** After a step both stored angles are in [-PI, PI]. */
  lemma SteppedAnglesInRange(m: Libm, p: Params, st: State, dt: real)
    requires Divisible(p)
    ensures -Util.PI <= Stepped(m, p, st, dt).th1 <= Util.PI
    ensures -Util.PI <= Stepped(m, p, st, dt).th2 <= Util.PI
  {
    var r := Rk4(Field(m, p), st, CappedDt(dt));
    Angle.NormalizedInRange(Util.PI, r.th1);
    Angle.NormalizedInRange(Util.PI, r.th2);
  }

  /** The all-zero state is a fixed point of `step`, for every dt. */
  lemma RestIsFixedPoint(m: Libm, p: Params, dt: real)
    requires Lawful(m) && Divisible(p)
    ensures Stepped(m, p, Rest, dt) == Rest
  {
    AccelAtRest(m, p);
    assert Field(m, p)(Rest) == Rest;
    Rk4Equilibrium(Field(m, p), Rest, CappedDt(dt));
    Angle.NormalizedIdentity(Util.PI, 0.0);
  }

  /** Cartesian acceleration of bob 1 from an imposed (th1, w1, a1). */
  datatype Cart = Cart(x: real, y: real)

  /** ds::Engine::bob1_cart_accel: a function of the rod length and the motion only. */
  function Bob1CartAccel(m: Libm, p: Params, th1: real, w1: real, a1: real): Cart {
    var s := m.sin(th1);
    var c := m.cos(th1);
    Cart(p.l1 * (a1 * c - (w1 * w1) * s), p.l1 * (-a1 * s - (w1 * w1) * c))
  }

  lemma Rotation(l: real, a: real, q: real, s: real, c: real)
    requires s * s + c * c == 1.0
    ensures (l * (a * c - q * s)) * c - (l * (-a * s - q * c)) * s == l * a
    ensures (l * (a * c - q * s)) * s + (l * (-a * s - q * c)) * c == -(l * q)
  {
    assert (a * c - q * s) * c - (-a * s - q * c) * s == a * (s * s + c * c);
    assert (a * c - q * s) * s + (-a * s - q * c) * c == -q * (s * s + c * c);
  }

  /**
   * Along the rod's tangent the acceleration is l1 a1 and along the rod it
   * is the centripetal -l1 w1^2: the centre of bob 1 moves on a circle.
   */
  lemma Bob1CartAccelComponents(m: Libm, p: Params, th1: real, w1: real, a1: real)
    requires Lawful(m)
    ensures var acc := Bob1CartAccel(m, p, th1, w1, a1);
            && acc.x * m.cos(th1) - acc.y * m.sin(th1) == p.l1 * a1
            && acc.x * m.sin(th1) + acc.y * m.cos(th1) == -(p.l1 * (w1 * w1))
  {
    Rotation(p.l1, a1, w1 * w1, m.sin(th1), m.cos(th1));
  }

  /** A pivot imposed at rest, with no angular acceleration, does not accelerate. */
  lemma Bob1CartAccelAtRest(m: Libm, p: Params, th1: real)
    ensures Bob1CartAccel(m, p, th1, 0.0, 0.0) == Cart(0.0, 0.0)
  {
  }

  /** ds::Engine::accel_theta2_moving_pivot */
  function PivotAccel(m: Libm, p: Params, th2: real, w2: real, xdd: real, ydd: real): real
    requires p.l2 != 0.0
  {
    var s2 := m.sin(th2);
    var c2 := m.cos(th2);
    var a2 := -(p.g / p.l2) * s2 - (xdd * c2 + ydd * s2) / p.l2;
    if p.damping != 0.0 then a2 - p.damping * w2 else a2
  }

  /** As in `accel`, the damping test can be dropped. */
  lemma PivotAccelSubtractsDamping(m: Libm, p: Params, th2: real, w2: real, xdd: real, ydd: real)
    requires p.l2 != 0.0
    ensures PivotAccel(m, p, th2, w2, xdd, ydd)
         == -(p.g / p.l2) * m.sin(th2) - (xdd * m.cos(th2) + ydd * m.sin(th2)) / p.l2 - p.damping * w2
  {
  }

  function PivotField(m: Libm, p: Params, xdd: real, ydd: real): Pair -> Pair
    requires p.l2 != 0.0
  {
    (x: Pair) => Pair(x.w, PivotAccel(m, p, x.th, x.w, xdd, ydd))
  }

  /** ds::Engine::rk4_th2: one RK4 step on (th2, w2), then th2 normalised. */
  function Rk4Th2Step(m: Libm, p: Params, th2: real, w2: real, dt: real, xdd: real, ydd: real): Pair
    requires p.l2 != 0.0
  {
    var r := Rk4Pair(PivotField(m, p, xdd, ydd), Pair(th2, w2), dt);
    Pair(Norm(r.th), r.w)
  }

  /** The state `step_drag_p1(dt, th1, w1, a1)` leaves. */
  function DragStepped(m: Libm, p: Params, st: State, dt: real, th1: real, w1: real, a1: real): State
    requires p.l2 != 0.0
  {
    var t1 := Norm(th1);
    var acc := Bob1CartAccel(m, p, t1, w1, a1);
    var r := Rk4Th2Step(m, p, st.th2, st.w2, CappedDt(dt), acc.x, acc.y);
    State(t1, w1, r.th, r.w)
  }

  /**
   * Link 1 is imposed: the new (th1, w1) are the normalised input angle and
   * the input rate, whatever the old state, and the old (th1, w1) have no
   * influence on the new (th2, w2).
   */
  lemma DragSteppedImposesLink1(m: Libm, p: Params, st: State, st': State, dt: real, th1: real, w1: real, a1: real)
    requires p.l2 != 0.0 && st.th2 == st'.th2 && st.w2 == st'.w2
    ensures DragStepped(m, p, st, dt, th1, w1, a1).th1 == Norm(th1)
    ensures DragStepped(m, p, st, dt, th1, w1, a1).w1 == w1
    ensures DragStepped(m, p, st, dt, th1, w1, a1) == DragStepped(m, p, st', dt, th1, w1, a1)
  {
  }

  /** Like `step`, `step_drag_p1` treats steps beyond the cap as the cap and non-positive ones as zero. */
  lemma DragSteppedCapsDt(m: Libm, p: Params, st: State, dt: real, th1: real, w1: real, a1: real)
    requires p.l2 != 0.0
    ensures DT_MAX <= dt ==> DragStepped(m, p, st, dt, th1, w1, a1) == DragStepped(m, p, st, DT_MAX, th1, w1, a1)
    ensures dt <= 0.0 ==> DragStepped(m, p, st, dt, th1, w1, a1) == DragStepped(m, p, st, 0.0, th1, w1, a1)
    ensures 0.0 <= dt <= DT_MAX ==>
              var acc := Bob1CartAccel(m, p, Norm(th1), w1, a1);
              var r := Rk4Th2Step(m, p, st.th2, st.w2, dt, acc.x, acc.y);
              DragStepped(m, p, st, dt, th1, w1, a1) == State(Norm(th1), w1, r.th, r.w)
  {
  }

  /** Both angles are in [-PI, PI] after a drag step. */
  lemma DragSteppedAnglesInRange(m: Libm, p: Params, st: State, dt: real, th1: real, w1: real, a1: real)
    requires p.l2 != 0.0
    ensures -Util.PI <= DragStepped(m, p, st, dt, th1, w1, a1).th1 <= Util.PI
    ensures -Util.PI <= DragStepped(m, p, st, dt, th1, w1, a1).th2 <= Util.PI
  {
    var t1 := Norm(th1);
    var acc := Bob1CartAccel(m, p, t1, w1, a1);
    var r := Rk4Pair(PivotField(m, p, acc.x, acc.y), Pair(st.th2, st.w2), CappedDt(dt));
    Angle.NormalizedInRange(Util.PI, th1);
    Angle.NormalizedInRange(Util.PI, r.th);
  }

  /** Holding bob 1 still at the bottom leaves a resting link 2 at rest. */
  lemma DragSteppedRest(m: Libm, p: Params, dt: real)
    requires Lawful(m) && p.l2 != 0.0
    ensures DragStepped(m, p, Rest, dt, 0.0, 0.0, 0.0) == Rest
  {
    Angle.NormalizedIdentity(Util.PI, 0.0);
    var t1 := Norm(0.0);
    assert Bob1CartAccel(m, p, t1, 0.0, 0.0) == Cart(0.0, 0.0);
    var f := PivotField(m, p, 0.0, 0.0);
    assert PivotAccel(m, p, 0.0, 0.0, 0.0, 0.0) == 0.0;
    assert f(PairRest) == PairRest;
    Rk4PairEquilibrium(f, PairRest, CappedDt(dt));
  }

  /** Positions of both bobs, pivot at the origin, +y downward. */
  datatype Positions = Positions(x1: real, y1: real, x2: real, y2: real)

  /**
   * Bob 1 at l1 along the direction (s1, c1) from the pivot and bob 2 at l2
   * along (s2, c2) from bob 1.
   */
  function Layout(l1: real, l2: real, s1: real, c1: real, s2: real, c2: real): Positions {
    var x1 := l1 * s1;
    var y1 := l1 * c1;
    Positions(x1, y1, x1 + l2 * s2, y1 + l2 * c2)
  }

  /** ds::Engine::bob_positions */
  function BobPositions(m: Libm, p: Params, st: State): Positions {
    Layout(p.l1, p.l2, m.sin(st.th1), m.cos(st.th1), m.sin(st.th2), m.cos(st.th2))
  }

  /** Along unit directions the layout's rods have lengths l1 and l2. */
  lemma LayoutRods(l1: real, l2: real, s1: real, c1: real, s2: real, c2: real)
    requires s1 * s1 + c1 * c1 == 1.0 && s2 * s2 + c2 * c2 == 1.0
    ensures var q := Layout(l1, l2, s1, c1, s2, c2);
            && q.x1 * q.x1 + q.y1 * q.y1 == l1 * l1
            && (q.x2 - q.x1) * (q.x2 - q.x1) + (q.y2 - q.y1) * (q.y2 - q.y1) == l2 * l2
  {
    var q := Layout(l1, l2, s1, c1, s2, c2);
    assert (l1 * s1) * (l1 * s1) + (l1 * c1) * (l1 * c1) == (l1 * l1) * (s1 * s1 + c1 * c1);
    assert q.x2 - q.x1 == l2 * s2 && q.y2 - q.y1 == l2 * c2;
    assert (l2 * s2) * (l2 * s2) + (l2 * c2) * (l2 * c2) == (l2 * l2) * (s2 * s2 + c2 * c2);
  }

  /**
   * Bob 1 is l1 from the pivot and bob 2 is l2 from bob 1, whenever sine and
   * cosine lie on the unit circle at both angles (as they do for any lawful libm).
   */
  lemma BobPositionsRods(m: Libm, p: Params, st: State)
    requires m.sin(st.th1) * m.sin(st.th1) + m.cos(st.th1) * m.cos(st.th1) == 1.0
    requires m.sin(st.th2) * m.sin(st.th2) + m.cos(st.th2) * m.cos(st.th2) == 1.0
    ensures var q := BobPositions(m, p, st);
            && q.x1 * q.x1 + q.y1 * q.y1 == p.l1 * p.l1
            && (q.x2 - q.x1) * (q.x2 - q.x1) + (q.y2 - q.y1) * (q.y2 - q.y1) == p.l2 * p.l2
  {
    LayoutRods(p.l1, p.l2, m.sin(st.th1), m.cos(st.th1), m.sin(st.th2), m.cos(st.th2));
  }

  /** At rest both bobs hang straight below the pivot. */
  lemma BobPositionsAtRest(m: Libm, p: Params)
    requires Lawful(m)
    ensures BobPositions(m, p, Rest) == Positions(0.0, p.l1, 0.0, p.l1 + p.l2)
  {
  }

  /** `T` of `energy`: kinetic energy of two point masses. */
  function Kinetic(m: Libm, p: Params, st: State): real {
    var v1sq := (p.l1 * st.w1) * (p.l1 * st.w1);
    var v2sq := v1sq + (p.l2 * st.w2) * (p.l2 * st.w2)
                + 2.0 * p.l1 * p.l2 * st.w1 * st.w2 * m.cos(st.th1 - st.th2);
    0.5 * p.m1 * v1sq + 0.5 * p.m2 * v2sq
  }

  /** `U` of `energy`: potential energy, zero with both bobs at the bottom. */
  function Potential(m: Libm, p: Params, st: State): real {
    (p.m1 + p.m2) * p.g * p.l1 * (1.0 - m.cos(st.th1)) + p.m2 * p.g * p.l2 * (1.0 - m.cos(st.th2))
  }

  /** ds::Engine::energy */
  function Energy(m: Libm, p: Params, st: State): real {
    Kinetic(m, p, st) + Potential(m, p, st)
  }

  /** a^2 + b^2 + 2abc >= 0 when |c| <= 1. */
  lemma CrossTerm(a: real, b: real, c: real)
    requires -1.0 <= c <= 1.0
    ensures 0.0 <= a * a + b * b + 2.0 * a * b * c
  {
    var ab := a * b;
    assert 2.0 * a * b * c == 2.0 * (ab * c);
    if 0.0 <= ab {
      ScaleMonotone(ab, -1.0, c);
      assert a * a + b * b - 2.0 * ab == (a - b) * (a - b);
      SquareNonNegative(a - b);
    } else {
      ScaleMonotone(-ab, c, 1.0);
      assert (-ab) * c == -(ab * c);
      assert a * a + b * b + 2.0 * ab == (a + b) * (a + b);
      SquareNonNegative(a + b);
    }
  }

  lemma ProductNonNegative(x: real, y: real)
    requires 0.0 <= x && 0.0 <= y
    ensures 0.0 <= x * y
  {
    ScaleMonotone(x, 0.0, y);
  }

  lemma KineticNonNegative(m: Libm, p: Params, st: State)
    requires Lawful(m) && 0.0 <= p.m1 && 0.0 <= p.m2
    ensures 0.0 <= Kinetic(m, p, st)
  {
    var a := p.l1 * st.w1;
    var b := p.l2 * st.w2;
    var c := m.cos(st.th1 - st.th2);
    CrossTerm(a, b, c);
    assert 2.0 * p.l1 * p.l2 * st.w1 * st.w2 * c == 2.0 * a * b * c;
    ProductNonNegative(0.5 * p.m1, a * a);
    ProductNonNegative(0.5 * p.m2, a * a + b * b + 2.0 * a * b * c);
  }

  lemma PotentialNonNegative(m: Libm, p: Params, st: State)
    requires Lawful(m) && 0.0 <= p.m1 && 0.0 <= p.m2 && 0.0 <= p.g && 0.0 <= p.l1 && 0.0 <= p.l2
    ensures 0.0 <= Potential(m, p, st)
  {
    ProductNonNegative(p.m1 + p.m2, p.g);
    ProductNonNegative((p.m1 + p.m2) * p.g, p.l1);
    ProductNonNegative((p.m1 + p.m2) * p.g * p.l1, 1.0 - m.cos(st.th1));
    ProductNonNegative(p.m2, p.g);
    ProductNonNegative(p.m2 * p.g, p.l2);
    ProductNonNegative(p.m2 * p.g * p.l2, 1.0 - m.cos(st.th2));
  }

  /** With non-negative masses, lengths and gravity the energy is never negative. */
  lemma EnergyNonNegative(m: Libm, p: Params, st: State)
    requires Lawful(m) && 0.0 <= p.m1 && 0.0 <= p.m2 && 0.0 <= p.g && 0.0 <= p.l1 && 0.0 <= p.l2
    ensures 0.0 <= Energy(m, p, st)
  {
    KineticNonNegative(m, p, st);
    PotentialNonNegative(m, p, st);
  }

  /** The all-zero state has zero energy. */
  lemma EnergyAtRest(m: Libm, p: Params)
    requires Lawful(m)
    ensures Kinetic(m, p, Rest) == 0.0 && Potential(m, p, Rest) == 0.0
    ensures Energy(m, p, Rest) == 0.0
  {
  }

  /** ds::Engine */
  class Engine {
    const lib: Libm
    var p: Params
    var s: State

    /** Stores the parameters and the rates as given, and normalises both angles. */
    constructor (lib: Libm, params: Params, s0: State)
      ensures this.lib == lib && p == params
      ensures s == State(Norm(s0.th1), s0.w1, Norm(s0.th2), s0.w2)
    {
      this.lib := lib;
      p := params;
      var th1 := Util.NormalizeAngle(s0.th1);
      var th2 := Util.NormalizeAngle(s0.th2);
      s := State(th1, s0.w1, th2, s0.w2);
    }

    /** The RK4 step on the state it is given; `p` and `s` are not touched. */
    method Rk4(st: State, dt: real) returns (r: State)
      requires Divisible(p)
      ensures r == Rk4Step(lib, p, st, dt)
    {
      var k1 := Derivative(lib, p, st);
      var tmp := Advance(st, 0.5 * dt, k1);
      var k2 := Derivative(lib, p, tmp);
      tmp := Advance(st, 0.5 * dt, k2);
      var k3 := Derivative(lib, p, tmp);
      tmp := Advance(st, dt, k3);
      var k4 := Derivative(lib, p, tmp);
      r := Advance(st, dt / 6.0, Weighted(k1, k2, k3, k4));
      assert r == Integrator.Rk4(Field(lib, p), st, dt);
      var th1 := Util.NormalizeAngle(r.th1);
      var th2 := Util.NormalizeAngle(r.th2);
      r := r.(th1 := th1, th2 := th2);
    }

    /** The RK4 step on (th2, w2) under a fixed pivot acceleration. */
    method Rk4Th2(th2: real, w2: real, dt: real, xdd: real, ydd: real) returns (th: real, w: real)
      requires p.l2 != 0.0
      ensures Pair(th, w) == Rk4Th2Step(lib, p, th2, w2, dt, xdd, ydd)
    {
      var k1 := Pair(w2, PivotAccel(lib, p, th2, w2, xdd, ydd));
      var y := AdvancePair(Pair(th2, w2), 0.5 * dt, k1);
      var k2 := Pair(y.w, PivotAccel(lib, p, y.th, y.w, xdd, ydd));
      y := AdvancePair(Pair(th2, w2), 0.5 * dt, k2);
      var k3 := Pair(y.w, PivotAccel(lib, p, y.th, y.w, xdd, ydd));
      y := AdvancePair(Pair(th2, w2), dt, k3);
      var k4 := Pair(y.w, PivotAccel(lib, p, y.th, y.w, xdd, ydd));
      var r := AdvancePair(Pair(th2, w2), dt / 6.0, WeightedPair(k1, k2, k3, k4));
      assert r == Rk4Pair(PivotField(lib, p, xdd, ydd), Pair(th2, w2), dt);
      th := Util.NormalizeAngle(r.th);
      w := r.w;
    }

    /** ds::Engine::step: caps dt, then one RK4 step of the whole state. */
    method Step(dt: real)
      requires Divisible(p)
      modifies this`s
      ensures s == Stepped(lib, p, old(s), dt)
    {
      var h := Clamp(dt, 0.0, DT_MAX);
      s := Rk4(s, h);
    }

    /**
     * ds::Engine::step_drag_p1: caps dt, imposes (th1, w1) and integrates
     * only (th2, w2) under the pivot acceleration the imposed motion causes.
     */
    method StepDragP1(dt: real, th1: real, w1: real, a1: real)
      requires p.l2 != 0.0
      modifies this`s
      ensures s == DragStepped(lib, p, old(s), dt, th1, w1, a1)
    {
      var h := Clamp(dt, 0.0, DT_MAX);
      var t1 := Util.NormalizeAngle(th1);
      s := s.(th1 := t1, w1 := w1);
      var acc := Bob1CartAccel(lib, p, s.th1, s.w1, a1);
      var th2, w2 := Rk4Th2(s.th2, s.w2, h, acc.x, acc.y);
      s := s.(th2 := th2, w2 := w2);
    }

    function Positions(): Positions
      reads this
    {
      BobPositions(lib, p, s)
    }

    function TotalEnergy(): real
      reads this
    {
      Energy(lib, p, s)
    }
  }
}
