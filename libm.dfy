/**
 * The C/JavaScript math library as the model sees it.
 *
 * sin, cos, sqrt and atan2 are not computed: every operation that needs them
 * receives a `Libm` record of function values, and a lemma that relies on one
 * of their laws asks for `Lawful(m)`.  The laws are only the ones the proofs
 * use.  fmod is defined exactly, as the C standard defines it on reals.
 */
module MathLib {

  datatype Libm = Libm(
    sin: real -> real,
    cos: real -> real,
    sqrt: real -> real,
    atan2: (real, real) -> real)

  /** The laws of sin, cos and sqrt that the model relies on. */
  ghost predicate Lawful(m: Libm) {
    && (forall x :: -1.0 <= m.sin(x) <= 1.0)
    && (forall x :: -1.0 <= m.cos(x) <= 1.0)
    && (forall x :: m.sin(x) * m.sin(x) + m.cos(x) * m.cos(x) == 1.0)
    && m.sin(0.0) == 0.0
    && m.cos(0.0) == 1.0
    && (forall x :: 0.0 <= x ==> 0.0 <= m.sqrt(x))
    && m.sqrt(0.0) == 0.0
  }

  /** The one law the legacy accelerations need to be defined. */
  ghost predicate CosAtMostOne(m: Libm) {
    forall x :: m.cos(x) <= 1.0
  }

  function Abs(x: real): (r: real)
    ensures 0.0 <= r && (r == x || r == -x)
  {
    if x < 0.0 then -x else x
  }

  function Min(a: real, b: real): (r: real)
    ensures r <= a && r <= b && (r == a || r == b)
  {
    if b < a then b else a
  }

  function Max(a: real, b: real): (r: real)
    ensures a <= r && b <= r && (r == a || r == b)
  {
    if a < b then b else a
  }

  /** std::clamp(v, lo, hi) for lo <= hi. */
  function Clamp(v: real, lo: real, hi: real): (r: real)
    requires lo <= hi
    ensures lo <= r <= hi
    ensures lo <= v <= hi ==> r == v
    ensures v < lo ==> r == lo
    ensures hi < v ==> r == hi
  {
    if v < lo then lo else if hi < v then hi else v
  }

  /** Rounds toward zero, as the C conversion from floating point to integer. */
  function Trunc(q: real): (t: int)
    ensures 0.0 <= q ==> 0.0 <= q - t as real < 1.0
    ensures q < 0.0 ==> -1.0 < q - t as real <= 0.0
  {
    if 0.0 <= q then q.Floor else -((-q).Floor)
  }

  /** C fmod: the remainder of x / d whose quotient is rounded toward zero. */
  function Fmod(x: real, d: real): real
    requires d != 0.0
  {
    x - d * Trunc(x / d) as real
  }

  /** Multiplying by a non-negative factor keeps the order. */
  lemma ScaleMonotone(b: real, x: real, y: real)
    requires 0.0 <= b && x <= y
    ensures b * x <= b * y
  {
    assert b * (y - x) >= 0.0;
    assert b * (y - x) == b * y - b * x;
  }

  lemma SquareNonNegative(x: real)
    ensures 0.0 <= x * x
  {
    if x < 0.0 {
      ScaleMonotone(-x, 0.0, -x);
      assert (-x) * (-x) == x * x;
    } else {
      ScaleMonotone(x, 0.0, x);
    }
  }

  /** x / d is the only y with y * d == x. */
  lemma DivUnique(x: real, d: real, y: real)
    requires d != 0.0 && y * d == x
    ensures x / d == y
  {
    var z := x / d;
    assert z * d == x;
    assert (y - z) * d == 0.0;
  }

  lemma ScaledUpper(f: real, d: real, e: real)
    requires 0.0 < d && f == d * e
    requires 0.0 <= e < 1.0
    ensures 0.0 <= f < d
  {
    assert d * (1.0 - e) > 0.0;
    assert d * (1.0 - e) == d - d * e;
  }

  lemma ScaledLower(f: real, d: real, e: real)
    requires 0.0 < d && f == d * e
    requires -1.0 < e <= 0.0
    ensures -d < f <= 0.0
  {
    assert d * (e + 1.0) > 0.0;
    assert d * (e + 1.0) == d * e + d;
  }

  lemma SignOfQuotient(x: real, d: real)
    requires 0.0 < d
    ensures 0.0 <= x <==> 0.0 <= x / d
  {
    var q := x / d;
    assert q * d == x;
    if q < 0.0 {
      assert (-q) * d > 0.0;
    } else {
      assert q * d >= 0.0;
    }
  }

  /**
   * For a positive modulus the remainder keeps the sign of x and is smaller
   * than the modulus in magnitude.
   */
  lemma FmodBounds(x: real, d: real)
    requires 0.0 < d
    ensures 0.0 <= x ==> 0.0 <= Fmod(x, d) < d
    ensures x < 0.0 ==> -d < Fmod(x, d) <= 0.0
  {
    var q := x / d;
    FmodScaled(x, d);
    SignOfQuotient(x, d);
    if 0.0 <= x {
      ScaledUpper(Fmod(x, d), d, q - Trunc(q) as real);
    } else {
      ScaledLower(Fmod(x, d), d, q - Trunc(q) as real);
    }
  }

  lemma FmodScaled(x: real, d: real)
    requires 0.0 < d
    ensures Fmod(x, d) == d * (x / d - Trunc(x / d) as real)
  {
    var q := x / d;
    assert q * d == x;
  }
}
