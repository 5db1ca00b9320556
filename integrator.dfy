/**
 * The classical fourth-order Runge-Kutta step, written once for each of the
 * two state shapes the engine integrates: the full state (th1, w1, th2, w2)
 * of ds::State and the reduced pair (th2, w2) of the moving-pivot mode.
 *
 * The stage arithmetic follows src/engine.cpp: each stage point is
 * `y + (c * dt) * k` component by component, and the final update is
 * `y + (dt / 6) * (k1 + 2 k2 + 2 k3 + k4)`.
 */
module Integrator {

  /** ds::State: both angles from the vertical and their rates. */
  datatype State = State(th1: real, w1: real, th2: real, w2: real)

  const Rest: State := State(0.0, 0.0, 0.0, 0.0)

  /** `y + c * k`, component by component. */
  function Advance(y: State, c: real, k: State): State {
    State(y.th1 + c * k.th1, y.w1 + c * k.w1, y.th2 + c * k.th2, y.w2 + c * k.w2)
  }

  /** `k1 + 2 k2 + 2 k3 + k4`, component by component. */
  function Weighted(k1: State, k2: State, k3: State, k4: State): State {
    State(k1.th1 + 2.0 * k2.th1 + 2.0 * k3.th1 + k4.th1,
          k1.w1 + 2.0 * k2.w1 + 2.0 * k3.w1 + k4.w1,
          k1.th2 + 2.0 * k2.th2 + 2.0 * k3.th2 + k4.th2,
          k1.w2 + 2.0 * k2.w2 + 2.0 * k3.w2 + k4.w2)
  }

  /** One RK4 step of size `h` for the field `f`. */
  function Rk4(f: State -> State, y: State, h: real): State {
    var k1 := f(y);
    var k2 := f(Advance(y, 0.5 * h, k1));
    var k3 := f(Advance(y, 0.5 * h, k2));
    var k4 := f(Advance(y, h, k3));
    Advance(y, h / 6.0, Weighted(k1, k2, k3, k4))
  }

  /** A point where the field vanishes is left where it is. */
  lemma Rk4Equilibrium(f: State -> State, y: State, h: real)
    requires f(y) == Rest
    ensures Rk4(f, y, h) == y
  {
    AdvanceByRest(y, 0.5 * h);
    AdvanceByRest(y, h);
    AdvanceByRest(y, h / 6.0);
    var r := Rk4(f, y, h);
    assert Weighted(Rest, Rest, Rest, Rest) == Rest;
    assert r == Advance(y, h / 6.0, Rest);
  }

  lemma AdvanceByRest(y: State, c: real)
    ensures Advance(y, c, Rest) == y
  {
  }

  /** A step of size zero changes nothing, whatever the field. */
  lemma Rk4ZeroStep(f: State -> State, y: State)
    ensures Rk4(f, y, 0.0) == y
  {
    var k1 := f(y);
    assert Advance(y, 0.0, k1) == y;
  }

  /** Under a constant field the step is exact: `y + h * c`. */
  lemma Rk4ConstantField(f: State -> State, y: State, h: real, c: State)
    requires forall x :: f(x) == c
    ensures Rk4(f, y, h) == Advance(y, h, c)
  {
    var k1 := f(y);
    var k2 := f(Advance(y, 0.5 * h, k1));
    var k3 := f(Advance(y, 0.5 * h, k2));
    var k4 := f(Advance(y, h, k3));
    assert k1 == c && k2 == c && k3 == c && k4 == c;
    var w := Weighted(c, c, c, c);
    SixthOfSix(h, c.th1);
    SixthOfSix(h, c.w1);
    SixthOfSix(h, c.th2);
    SixthOfSix(h, c.w2);
    var r := Advance(y, h / 6.0, w);
    assert r.th1 == y.th1 + h * c.th1 && r.w1 == y.w1 + h * c.w1;
    assert r.th2 == y.th2 + h * c.th2 && r.w2 == y.w2 + h * c.w2;
  }

  lemma SixthOfSix(h: real, v: real)
    ensures h / 6.0 * (v + 2.0 * v + 2.0 * v + v) == h * v
  {
    var sum := v + 2.0 * v + 2.0 * v + v;
    assert sum == 6.0 * v;
    assert h / 6.0 * sum == (h / 6.0 * 6.0) * v;
    assert h / 6.0 * 6.0 == h;
  }

  /** (th2, w2), the state of the moving-pivot integration. */
  datatype Pair = Pair(th: real, w: real)

  const PairRest: Pair := Pair(0.0, 0.0)

  function AdvancePair(y: Pair, c: real, k: Pair): Pair {
    Pair(y.th + c * k.th, y.w + c * k.w)
  }

  function WeightedPair(k1: Pair, k2: Pair, k3: Pair, k4: Pair): Pair {
    Pair(k1.th + 2.0 * k2.th + 2.0 * k3.th + k4.th,
         k1.w + 2.0 * k2.w + 2.0 * k3.w + k4.w)
  }

  function Rk4Pair(f: Pair -> Pair, y: Pair, h: real): Pair {
    var k1 := f(y);
    var k2 := f(AdvancePair(y, 0.5 * h, k1));
    var k3 := f(AdvancePair(y, 0.5 * h, k2));
    var k4 := f(AdvancePair(y, h, k3));
    AdvancePair(y, h / 6.0, WeightedPair(k1, k2, k3, k4))
  }

  lemma Rk4PairEquilibrium(f: Pair -> Pair, y: Pair, h: real)
    requires f(y) == PairRest
    ensures Rk4Pair(f, y, h) == y
  {
    AdvancePairByRest(y, 0.5 * h);
    AdvancePairByRest(y, h);
    AdvancePairByRest(y, h / 6.0);
    var r := Rk4Pair(f, y, h);
    assert WeightedPair(PairRest, PairRest, PairRest, PairRest) == PairRest;
    assert r == AdvancePair(y, h / 6.0, PairRest);
  }

  lemma AdvancePairByRest(y: Pair, c: real)
    ensures AdvancePair(y, c, PairRest) == y
  {
  }

  lemma Rk4PairZeroStep(f: Pair -> Pair, y: Pair)
    ensures Rk4Pair(f, y, 0.0) == y
  {
    var k1 := f(y);
    assert AdvancePair(y, 0.0, k1) == y;
  }

  lemma Rk4PairConstantField(f: Pair -> Pair, y: Pair, h: real, c: Pair)
    requires forall x :: f(x) == c
    ensures Rk4Pair(f, y, h) == AdvancePair(y, h, c)
  {
    var k1 := f(y);
    var k2 := f(AdvancePair(y, 0.5 * h, k1));
    var k3 := f(AdvancePair(y, 0.5 * h, k2));
    var k4 := f(AdvancePair(y, h, k3));
    assert k1 == c && k2 == c && k3 == c && k4 == c;
    var w := WeightedPair(c, c, c, c);
    SixthOfSix(h, c.th);
    SixthOfSix(h, c.w);
    var r := AdvancePair(y, h / 6.0, w);
    assert r.th == y.th + h * c.th && r.w == y.w + h * c.w;
  }
}
