/**
 * The pointer-drag controller of the web front end (web/input/drag.js):
 * which bob a pointer grabs, and the angular-velocity filter fed with the
 * dragged bob's angle.
 *
 * Canvas geometry, pointer capture and the DOM listeners are outside the
 * model: a pointer-down arrives with its distances to both bobs already
 * measured, and pointer positions are opaque `Point`s.
 */
module JsDrag {
  import opened MathLib
  import JsMath
  import Drag
  import Util

  /** Tuning constants of the filter. */
  const ALPHA: real := 0.18
  const OMEGA_MAX: real := 15.0

  /** Who is dragged: 0 none, 1 bob 1, 2 bob 2. */
  const NONE: int := 0
  const BOB1: int := 1
  const BOB2: int := 2

  datatype Option<T> = None | Some(value: T)

  datatype Point = Point(x: real, y: real)

  /** The filter's three closure variables. */
  datatype Estimator = Estimator(prevTh: real, hasPrev: bool, filtOmega: real)

  const InitialEstimator: Estimator := Estimator(0.0, false, 0.0)

  /** The estimator after `updateFilteredOmega(th, dt)`; its result is `filtOmega`. */
  function Filtered(e: Estimator, th: real, dt: real): Estimator
    requires dt != 0.0
  {
    if !e.hasPrev then Estimator(th, true, 0.0)
    else
      var raw := JsMath.UnwrapDelta(th, e.prevTh) / dt;
      var clamped := Max(-OMEGA_MAX, Min(OMEGA_MAX, raw));
      Estimator(th, true, ALPHA * clamped + (1.0 - ALPHA) * e.filtOmega)
  }

  /** The first sample after the history is cleared is recorded and reported as 0. */
  lemma FilteredColdStart(e: Estimator, th: real, dt: real)
    requires dt != 0.0 && !e.hasPrev
    ensures Filtered(e, th, dt) == Estimator(th, true, 0.0)
  {
  }

  /**
   * With history, the filter is the C++ low-pass step with alpha 0.18 and
   * omega_max 15, applied to the raw rate from the JavaScript unwrapDelta.
   */
  lemma FilteredIsBlend(e: Estimator, th: real, dt: real)
    requires dt != 0.0 && e.hasPrev
    ensures var raw := JsMath.UnwrapDelta(th, e.prevTh) / dt;
            Filtered(e, th, dt).filtOmega == Drag.Blend(e.filtOmega, ALPHA, Util.ClampAbs(raw, OMEGA_MAX))
  {
    var raw := JsMath.UnwrapDelta(th, e.prevTh) / dt;
    assert Max(-OMEGA_MAX, Min(OMEGA_MAX, raw)) == Util.ClampAbs(raw, OMEGA_MAX);
  }

  /** |filtOmega| <= 15 holds after every call if it held before. */
  lemma FilteredKeepsBound(e: Estimator, th: real, dt: real)
    requires dt != 0.0 && Abs(e.filtOmega) <= OMEGA_MAX
    ensures Abs(Filtered(e, th, dt).filtOmega) <= OMEGA_MAX
  {
    if e.hasPrev {
      var raw := JsMath.UnwrapDelta(th, e.prevTh) / dt;
      FilteredIsBlend(e, th, dt);
      Drag.BlendBetween(e.filtOmega, ALPHA, Util.ClampAbs(raw, OMEGA_MAX));
    }
  }

  /** Every call stores the sample exactly as given: no normalisation here. */
  lemma FilteredRecordsSample(e: Estimator, th: real, dt: real)
    requires dt != 0.0
    ensures Filtered(e, th, dt).prevTh == th && Filtered(e, th, dt).hasPrev
  {
  }

  /** `GRAB1` / `GRAB2`: 50 px plus a mass-dependent pad clamped to [6, 40]. */
  function GrabRadius(m: Libm, mass: real): (r: real)
    ensures 56.0 <= r <= 90.0
  {
    50.0 + JsMath.Clamp(6.0 + 5.0 * m.sqrt(mass), 6.0, 40.0)
  }

  /** pointerdown's choice: bob 2 wins when both are within reach. */
  function HitTest(d1: real, d2: real, grab1: real, grab2: real): (who: int)
    ensures who == BOB2 <==> d2 <= grab2
    ensures who == BOB1 <==> grab2 < d2 && d1 <= grab1
    ensures who == NONE <==> grab2 < d2 && grab1 < d1
  {
    if d2 <= grab2 then BOB2 else if d1 <= grab1 then BOB1 else NONE
  }

  /** The controller returned by `createDragController`. */
  class DragController {
    var dragging: int
    var prevTh: real
    var hasPrev: bool
    var filtOmega: real
    var activePointerId: Option<int>
    var lastPointerPos: Option<Point>

    /** The controller's invariant: a known drag mode and a bounded estimate. */
    ghost predicate Valid()
      reads this
    {
      NONE <= dragging <= BOB2 && Abs(filtOmega) <= OMEGA_MAX
    }

    function Estimate(): Estimator
      reads this
    {
      Estimator(prevTh, hasPrev, filtOmega)
    }

    constructor ()
      ensures Valid()
      ensures dragging == NONE && Estimate() == InitialEstimator
      ensures activePointerId == None && lastPointerPos == None
    {
      dragging := NONE;
      prevTh := 0.0;
      hasPrev := false;
      filtOmega := 0.0;
      activePointerId := None;
      lastPointerPos := None;
    }

    /** `updateFilteredOmega(th, dt)` */
    method UpdateFilteredOmega(th: real, dt: real) returns (r: real)
      requires dt != 0.0 && Valid()
      modifies this`prevTh, this`hasPrev, this`filtOmega
      ensures Valid()
      ensures Estimate() == Filtered(old(Estimate()), th, dt)
      ensures r == filtOmega
    {
      FilteredKeepsBound(Estimate(), th, dt);
      if !hasPrev {
        prevTh := th;
        filtOmega := 0.0;
        hasPrev := true;
        return 0.0;
      }
      var raw := JsMath.UnwrapDelta(th, prevTh) / dt;
      prevTh := th;
      var clamped := Max(-OMEGA_MAX, Min(OMEGA_MAX, raw));
      filtOmega := ALPHA * clamped + (1.0 - ALPHA) * filtOmega;
      return filtOmega;
    }

    /**
     * The pointerdown handler.  A second pointer is ignored; otherwise the
     * pointer is captured, the grabbed bob chosen and the filter history
     * cleared.
     */
    method PointerDown(id: int, pos: Point, d1: real, d2: real, m: Libm, m1: real, m2: real)
      requires Valid()
      modifies this
      ensures Valid()
      ensures old(activePointerId).Some? ==>
                dragging == old(dragging) && Estimate() == old(Estimate())
                && activePointerId == old(activePointerId) && lastPointerPos == old(lastPointerPos)
      ensures old(activePointerId).None? ==>
                && activePointerId == Some(id) && lastPointerPos == Some(pos)
                && dragging == HitTest(d1, d2, GrabRadius(m, m1), GrabRadius(m, m2))
                && Estimate() == old(Estimate()).(hasPrev := false)
    {
      if activePointerId.Some? {
        return;
      }
      activePointerId := Some(id);
      lastPointerPos := Some(pos);
      var grab1 := GrabRadius(m, m1);
      var grab2 := GrabRadius(m, m2);
      if d2 <= grab2 {
        dragging := BOB2;
      } else if d1 <= grab1 {
        dragging := BOB1;
      } else {
        dragging := NONE;
      }
      hasPrev := false;
    }

    /** The pointermove handler: only the active pointer moves the target. */
    method PointerMove(id: int, pos: Point)
      modifies this`lastPointerPos
      ensures lastPointerPos == if old(activePointerId) == Some(id) then Some(pos) else old(lastPointerPos)
    {
      if activePointerId != Some(id) {
        return;
      }
      lastPointerPos := Some(pos);
    }

    /** `endPointer` (pointerup, pointercancel, pointerleave). */
    method EndPointer(id: int)
      requires Valid()
      modifies this`dragging, this`activePointerId, this`lastPointerPos, this`hasPrev
      ensures Valid()
      ensures old(activePointerId) == Some(id) ==>
                && dragging == NONE && activePointerId == None && lastPointerPos == None && !hasPrev
      ensures old(activePointerId) != Some(id) ==>
                && dragging == old(dragging) && activePointerId == old(activePointerId)
                && lastPointerPos == old(lastPointerPos) && hasPrev == old(hasPrev)
    {
      if activePointerId != Some(id) {
        return;
      }
      dragging := NONE;
      activePointerId := None;
      lastPointerPos := None;
      hasPrev := false;
    }

    /** `resetFilter`: clears the history and nothing else. */
    method ResetFilter()
      requires Valid()
      modifies this`hasPrev
      ensures Valid() && !hasPrev
    {
      hasPrev := false;
    }
  }
}
