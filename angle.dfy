/**
 * Angle normalisation by repeated whole turns, shared by the three copies of
 * `normalize_angle` in the repository (C++ core, legacy C++ and JavaScript).
 * Each copy uses its own value of pi, so the definitions here take the
 * half-period `pi` as a parameter.
 *
 * The source normalises with two loops: first add 2*pi while the angle is
 * below -pi, then subtract 2*pi while it is above pi.  `RaiseAbove` and
 * `LowerBelow` are those two loops as recursive functions, `Normalized` is
 * their composition, and `NormalizeAngle` is the loop itself, proved equal
 * to `Normalized`.  The interval kept is [-pi, pi], closed at both ends.
 */
module Angle {
  import opened MathLib

  /** `a` moved by `k` whole turns. */
  function Turned(pi: real, a: real, k: int): real {
    a + 2.0 * pi * k as real
  }

  /** `b` points the same way as `a`: they differ by whole turns. */
  ghost predicate Coterminal(pi: real, a: real, b: real) {
    exists k: int :: b == Turned(pi, a, k)
  }

  /** How many whole turns `a` lies below -pi, rounded down. */
  function TurnsBelow(pi: real, a: real): int
    requires 0.0 < pi
  {
    ((-pi - a) / (2.0 * pi)).Floor
  }

  /** How many whole turns `a` lies above pi, rounded down. */
  function TurnsAbove(pi: real, a: real): int
    requires 0.0 < pi
  {
    ((a - pi) / (2.0 * pi)).Floor
  }

  lemma FloorDropsByOne(x: real, d: real)
    requires 0.0 < d
    ensures ((x - d) / d).Floor == (x / d).Floor - 1
  {
    var q := x / d;
    assert q * d == x;
    DivUnique(x - d, d, q - 1.0);
  }

  /** One turn up takes one turn off the count below -pi. */
  lemma TurnsBelowDrops(pi: real, a: real)
    requires 0.0 < pi
    ensures TurnsBelow(pi, a + 2.0 * pi) == TurnsBelow(pi, a) - 1
    ensures a < -pi ==> 0 <= TurnsBelow(pi, a)
  {
    var d := 2.0 * pi;
    var x := -pi - a;
    FloorDropsByOne(x, d);
    assert -pi - (a + d) == x - d;
  }

  /** One turn down takes one turn off the count above pi. */
  lemma TurnsAboveDrops(pi: real, a: real)
    requires 0.0 < pi
    ensures TurnsAbove(pi, a - 2.0 * pi) == TurnsAbove(pi, a) - 1
    ensures pi < a ==> 0 <= TurnsAbove(pi, a)
  {
    var d := 2.0 * pi;
    var x := a - pi;
    FloorDropsByOne(x, d);
    assert (a - d) - pi == x - d;
  }

  function RaiseAbove(pi: real, a: real): real
    requires 0.0 < pi
    decreases if a < -pi then TurnsBelow(pi, a) + 1 else 0
  {
    if a < -pi then
      TurnsBelowDrops(pi, a);
      RaiseAbove(pi, a + 2.0 * pi)
    else a
  }

  function LowerBelow(pi: real, a: real): real
    requires 0.0 < pi
    decreases if a > pi then TurnsAbove(pi, a) + 1 else 0
  {
    if a > pi then
      TurnsAboveDrops(pi, a);
      LowerBelow(pi, a - 2.0 * pi)
    else a
  }

  /** The value `normalize_angle(a)` returns. */
  function Normalized(pi: real, a: real): real
    requires 0.0 < pi
  {
    LowerBelow(pi, RaiseAbove(pi, a))
  }

  lemma {:induction false} RaiseAboveFacts(pi: real, a: real)
    requires 0.0 < pi
    ensures -pi <= RaiseAbove(pi, a)
    ensures a < -pi ==> RaiseAbove(pi, a) < pi
    ensures -pi <= a ==> RaiseAbove(pi, a) == a
    ensures Coterminal(pi, a, RaiseAbove(pi, a))
    decreases if a < -pi then TurnsBelow(pi, a) + 1 else 0
  {
    if a < -pi {
      TurnsBelowDrops(pi, a);
      var b := a + 2.0 * pi;
      RaiseAboveFacts(pi, b);
      var k :| RaiseAbove(pi, b) == Turned(pi, b, k);
      assert RaiseAbove(pi, a) == Turned(pi, a, k + 1);
    } else {
      assert RaiseAbove(pi, a) == Turned(pi, a, 0);
    }
  }

  lemma {:induction false} LowerBelowFacts(pi: real, a: real)
    requires 0.0 < pi && -pi <= a
    ensures -pi <= LowerBelow(pi, a) <= pi
    ensures a <= pi ==> LowerBelow(pi, a) == a
    ensures Coterminal(pi, a, LowerBelow(pi, a))
    decreases if a > pi then TurnsAbove(pi, a) + 1 else 0
  {
    if a > pi {
      TurnsAboveDrops(pi, a);
      var b := a - 2.0 * pi;
      LowerBelowFacts(pi, b);
      var k :| LowerBelow(pi, b) == Turned(pi, b, k);
      assert LowerBelow(pi, a) == Turned(pi, a, k - 1);
    } else {
      assert LowerBelow(pi, a) == Turned(pi, a, 0);
    }
  }

  /** The result lies in [-pi, pi]. */
  lemma NormalizedInRange(pi: real, a: real)
    requires 0.0 < pi
    ensures -pi <= Normalized(pi, a) <= pi
  {
    RaiseAboveFacts(pi, a);
    LowerBelowFacts(pi, RaiseAbove(pi, a));
  }

  /** The result differs from the input by whole turns. */
  lemma NormalizedCoterminal(pi: real, a: real)
    requires 0.0 < pi
    ensures Coterminal(pi, a, Normalized(pi, a))
  {
    var b := RaiseAbove(pi, a);
    RaiseAboveFacts(pi, a);
    LowerBelowFacts(pi, b);
    var j :| b == Turned(pi, a, j);
    var k :| Normalized(pi, a) == Turned(pi, b, k);
    assert Normalized(pi, a) == Turned(pi, a, j + k);
  }

  /** Angles already in [-pi, pi], both ends included, are left as they are. */
  lemma NormalizedIdentity(pi: real, a: real)
    requires 0.0 < pi && -pi <= a <= pi
    ensures Normalized(pi, a) == a
  {
    RaiseAboveFacts(pi, a);
    LowerBelowFacts(pi, a);
  }

  lemma NormalizedIdempotent(pi: real, a: real)
    requires 0.0 < pi
    ensures Normalized(pi, Normalized(pi, a)) == Normalized(pi, a)
  {
    NormalizedInRange(pi, a);
    NormalizedIdentity(pi, Normalized(pi, a));
  }

  /** The two loops of `normalize_angle`. */
  method NormalizeAngle(pi: real, a: real) returns (r: real)
    requires 0.0 < pi
    ensures r == Normalized(pi, a)
    ensures -pi <= r <= pi
    ensures Coterminal(pi, a, r)
  {
    r := a;
    while r < -pi
      invariant RaiseAbove(pi, r) == RaiseAbove(pi, a)
      decreases if r < -pi then TurnsBelow(pi, r) + 1 else 0
    {
      TurnsBelowDrops(pi, r);
      r := r + 2.0 * pi;
    }
    while r > pi
      invariant LowerBelow(pi, r) == Normalized(pi, a)
      decreases if r > pi then TurnsAbove(pi, r) + 1 else 0
    {
      TurnsAboveDrops(pi, r);
      r := r - 2.0 * pi;
    }
    NormalizedInRange(pi, a);
    NormalizedCoterminal(pi, a);
  }
}
