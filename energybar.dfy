/**
 * The kinetic/potential energy bar of the web front end
 * (web/ui/energybar.js).  The two energies are inputs; the bar shows their
 * shares of the total, or half and half when the total is close to zero.
 */
module EnergyBar {
  import opened MathLib

  /** Totals at or below this threshold show an even split. */
  const MIN_TOTAL: real := 0.001

  datatype Shares = Shares(keFrac: real, peFrac: real)

  /** The fractions `updateEnergyBar` computes. */
  function Fractions(ke: real, pe: real): (r: Shares)
    ensures MIN_TOTAL < ke + pe ==> r == Shares(ke / (ke + pe), pe / (ke + pe))
    ensures ke + pe <= MIN_TOTAL ==> r == Shares(0.5, 0.5)
  {
    var e := ke + pe;
    if e > MIN_TOTAL then Shares(ke / e, pe / e) else Shares(0.5, 0.5)
  }

  lemma QuotientsAdd(a: real, b: real, e: real)
    requires e != 0.0
    ensures a / e + b / e == (a + b) / e
  {
    var x := a / e;
    var y := b / e;
    assert x * e == a;
    assert y * e == b;
    assert (x + y) * e == a + b;
    DivUnique(a + b, e, x + y);
  }

  lemma QuotientsSumToOne(a: real, b: real)
    requires a + b != 0.0
    ensures a / (a + b) + b / (a + b) == 1.0
  {
    QuotientsAdd(a, b, a + b);
    DivUnique(a + b, a + b, 1.0);
  }

  /** The two shares always add up to one. */
  lemma FractionsSumToOne(ke: real, pe: real)
    ensures Fractions(ke, pe).keFrac + Fractions(ke, pe).peFrac == 1.0
  {
    if ke + pe > MIN_TOTAL {
      QuotientsSumToOne(ke, pe);
    }
  }

  lemma QuotientInUnit(a: real, e: real)
    requires 0.0 <= a <= e && 0.0 < e
    ensures 0.0 <= a / e <= 1.0
  {
    var q := a / e;
    assert q * e == a;
    assert (q - 1.0) * e == a - e;
  }

  /** For non-negative energies each share lies in [0, 1]. */
  lemma FractionsInUnit(ke: real, pe: real)
    requires 0.0 <= ke && 0.0 <= pe
    ensures 0.0 <= Fractions(ke, pe).keFrac <= 1.0
    ensures 0.0 <= Fractions(ke, pe).peFrac <= 1.0
  {
    if ke + pe > MIN_TOTAL {
      QuotientInUnit(ke, ke + pe);
      QuotientInUnit(pe, ke + pe);
    }
  }

  /** Widths of the two bars and the divider's offset, in percent. */
  datatype Layout = Layout(keWidth: real, peWidth: real, divider: real)

  function BarLayout(ke: real, pe: real): Layout {
    var f := Fractions(ke, pe);
    Layout(f.keFrac * 100.0, f.peFrac * 100.0, f.keFrac * 100.0)
  }

  /** The divider sits where the kinetic bar ends, and the bars fill the whole width. */
  lemma BarLayoutFacts(ke: real, pe: real)
    ensures BarLayout(ke, pe).divider == BarLayout(ke, pe).keWidth
    ensures BarLayout(ke, pe).keWidth + BarLayout(ke, pe).peWidth == 100.0
  {
    FractionsSumToOne(ke, pe);
    var f := Fractions(ke, pe);
    assert f.keFrac * 100.0 + f.peFrac * 100.0 == (f.keFrac + f.peFrac) * 100.0;
  }
}
