/**
 * The SFML front end of the C++ core (class SfmlApp,
 * apps/desktop/sfml_app.cpp): the frame loop with its clamped frame time,
 * the drag state the mouse and keyboard events switch, and the choice of
 * engine step in `update`.
 *
 * Drawing and the HUD text are not modelled.  A frame arrives as a `Frame`:
 * the events the window yields, the seconds the frame clock reports and the
 * pointer position `update` reads.
 */
module Desktop {
  import opened MathLib
  import opened Integrator
  import opened Core
  import Drag
  import Util

  /** The frame time is clamped into [1/2400, 1/15] seconds. */
  const DT_MIN: real := 1.0 / 2400.0
  const DT_FRAME_MAX: real := 1.0 / 15.0

  /** A press grabs bob 1 within 30 pixels and bob 2 within 25. */
  const GRAB_RADIUS1: real := 30.0
  const GRAB_RADIUS2: real := 25.0

  /** The filter's low-pass weight and rate bound in `update`. */
  const ALPHA: real := 0.15
  const OMEGA_MAX: real := 10.0

  /** px_per_meter of apps/desktop/sfml_app.hpp. */
  const PX_PER_METER: real := 40.0

  datatype Point = Point(x: real, y: real)

  /** The events `handle_events` tells apart; a press carries its position in window pixels. */
  datatype Event =
    | Closed
    | Resized(width: real, height: real)
    | Press(left: bool, at: Point)
    | Release(left: bool)
    | Key(isR: bool)
    | Other

  /** One pass of the loop in `run`: the polled events, the frame clock's reading, the pointer. */
  datatype Frame = Frame(events: seq<Event>, elapsed: real, mouse: Point)

  /** What the handlers and `update` read and write. */
  datatype App = App(open: bool, pivot: Point, dragging1: bool, dragging2: bool,
                     s: State, f1: Drag.Filter, f2: Drag.Filter)

  /** The frame time of `run`. */
  function FrameDt(elapsed: real): (dt: real)
    ensures DT_MIN <= dt <= DT_FRAME_MAX
    ensures DT_MIN <= elapsed <= DT_FRAME_MAX ==> dt == elapsed
    ensures elapsed < DT_MIN ==> dt == DT_MIN
    ensures DT_FRAME_MAX < elapsed ==> dt == DT_FRAME_MAX
  {
    Clamp(elapsed, DT_MIN, DT_FRAME_MAX)
  }

  /** The engine's own cap of 1/15 never shortens a frame time, and a frame time is never zero. */
  lemma FrameDtWithinEngineCap(elapsed: real)
    ensures CappedDt(FrameDt(elapsed)) == FrameDt(elapsed)
    ensures 0.0 < FrameDt(elapsed)
  {
  }

  /** `bob1_px`: bob 1 in window pixels, +y down. */
  function Bob1Px(m: Libm, p: Params, st: State, pivot: Point): Point {
    var q := BobPositions(m, p, st);
    Point(pivot.x + q.x1 * PX_PER_METER, pivot.y + q.y1 * PX_PER_METER)
  }

  /** `bob2_px` */
  function Bob2Px(m: Libm, p: Params, st: State, pivot: Point): Point {
    var q := BobPositions(m, p, st);
    Point(pivot.x + q.x2 * PX_PER_METER, pivot.y + q.y2 * PX_PER_METER)
  }

  /** `theta_from_mouse_about_pivot`: atan2(dx, dy) of the pointer about the pivot, normalised. */
  function PivotAngle(m: Libm, pivot: Point, mouse: Point): real {
    Norm(m.atan2(mouse.x - pivot.x, mouse.y - pivot.y))
  }

  /** `theta_from_mouse_about_bob1`: the same about bob 1. */
  function Bob1Angle(m: Libm, p: Params, st: State, pivot: Point, mouse: Point): real {
    var b1 := Bob1Px(m, p, st, pivot);
    Norm(m.atan2(mouse.x - b1.x, mouse.y - b1.y))
  }

  predicate Hits1(m: Libm, p: Params, a: App, at: Point) {
    var b1 := Bob1Px(m, p, a.s, a.pivot);
    Util.Distance(m, at.x, at.y, b1.x, b1.y) <= GRAB_RADIUS1
  }

  predicate Hits2(m: Libm, p: Params, a: App, at: Point) {
    var b2 := Bob2Px(m, p, a.s, a.pivot);
    Util.Distance(m, at.x, at.y, b2.x, b2.y) <= GRAB_RADIUS2
  }

  /**
   * A left press at `at`: a hit on bob 2 wins over a hit on bob 1.  The
   * grabbed link becomes the only one held and its filter restarts at the
   * engine's angle for it; a miss changes nothing, and the state never moves.
   */
  function Pressed(m: Libm, p: Params, a: App, at: Point): (r: App)
    ensures r.s == a.s && r.open == a.open && r.pivot == a.pivot
    ensures Hits2(m, p, a, at) ==> r == a.(dragging1 := false, dragging2 := true, f2 := Drag.Filter(0.0, a.s.th2, true))
    ensures !Hits2(m, p, a, at) && Hits1(m, p, a, at) ==>
              r == a.(dragging1 := true, dragging2 := false, f1 := Drag.Filter(0.0, a.s.th1, true))
    ensures !Hits2(m, p, a, at) && !Hits1(m, p, a, at) ==> r == a
  {
    if Hits2(m, p, a, at) then a.(dragging2 := true, dragging1 := false, f2 := Drag.Filter(0.0, a.s.th2, true))
    else if Hits1(m, p, a, at) then a.(dragging1 := true, dragging2 := false, f1 := Drag.Filter(0.0, a.s.th1, true))
    else a
  }

  /** The R key: both links at rest at angle zero, both filters restarted there. */
  function KeyReset(a: App): (r: App)
    ensures r.s == Rest
    ensures r.f1 == Drag.Filter(0.0, 0.0, true) && r.f2 == Drag.Filter(0.0, 0.0, true)
    ensures r.dragging1 == a.dragging1 && r.dragging2 == a.dragging2 && r.open == a.open && r.pivot == a.pivot
  {
    a.(s := State(0.0, 0.0, 0.0, 0.0), f1 := Drag.Filter(0.0, 0.0, true), f2 := Drag.Filter(0.0, 0.0, true))
  }

  /** One event of `handle_events`. */
  function HandledEvent(m: Libm, p: Params, a: App, e: Event): (r: App)
    ensures e.Release? && e.left ==> r == a.(dragging1 := false, dragging2 := false)
    ensures e.Closed? ==> r == a.(open := false)
    ensures e.Resized? ==> r == a.(pivot := Point(e.width * 0.5, e.height * 0.5))
  {
    match e
    case Closed => a.(open := false)
    case Resized(w, h) => a.(pivot := Point(w * 0.5, h * 0.5))
    case Press(left, at) => if left then Pressed(m, p, a, at) else a
    case Release(left) => if left then a.(dragging1 := false, dragging2 := false) else a
    case Key(isR) => if isR then KeyReset(a) else a
    case Other => a
  }

  /** `handle_events`: events are handled until the window is closed. */
  function Polled(m: Libm, p: Params, a: App, xs: seq<Event>): App {
    if |xs| == 0 then a
    else
      var t := Polled(m, p, a, xs[..|xs| - 1]);
      if t.open then HandledEvent(m, p, t, xs[|xs| - 1]) else t
  }

  /**
   * `update(dt)`: a held bob 1 is imposed at the pointer angle with the
   * filter's rate (zero inside the deadband); a held bob 2 is set to the
   * pointer angle, stepped with the filter's rate and put back at that
   * angle; otherwise the engine steps freely.
   */
  function UpdatedApp(m: Libm, p: Params, a: App, mouse: Point, dt: real): (r: App)
    requires Divisible(p)
    ensures r.open == a.open && r.pivot == a.pivot && r.dragging1 == a.dragging1 && r.dragging2 == a.dragging2
    ensures a.dragging1 ==> r.f1 == Drag.Updated(a.f1, PivotAngle(m, a.pivot, mouse), dt, ALPHA, OMEGA_MAX)
                              && r.f2 == a.f2
                              && r.s == DragStepped(m, p, a.s, dt, PivotAngle(m, a.pivot, mouse),
                                                    Drag.Deadband(r.f1.omega), 0.0)
    ensures !a.dragging1 && a.dragging2 ==>
              var th := Bob1Angle(m, p, a.s, a.pivot, mouse);
              var st := Stepped(m, p, a.s.(th2 := th, w2 := r.f2.omega), dt);
              && r.f1 == a.f1 && r.f2 == Drag.Updated(a.f2, th, dt, ALPHA, OMEGA_MAX)
              && r.s.th2 == th && r.s.w2 == st.w2 && r.s.th1 == st.th1 && r.s.w1 == st.w1
    ensures !a.dragging1 && !a.dragging2 ==> r == a.(s := Stepped(m, p, a.s, dt))
  {
    if a.dragging1 then
      var th1 := PivotAngle(m, a.pivot, mouse);
      var f1 := Drag.Updated(a.f1, th1, dt, ALPHA, OMEGA_MAX);
      a.(f1 := f1, s := DragStepped(m, p, a.s, dt, th1, Drag.Deadband(f1.omega), 0.0))
    else if a.dragging2 then
      var th := Bob1Angle(m, p, a.s, a.pivot, mouse);
      var f2 := Drag.Updated(a.f2, th, dt, ALPHA, OMEGA_MAX);
      var st := Stepped(m, p, a.s.(th2 := th, w2 := f2.omega), dt);
      a.(f2 := f2, s := st.(th2 := th))
    else
      a.(s := Stepped(m, p, a.s, dt))
  }

  /** One pass of the loop in `run`: the events, then `update` with the clamped frame time. */
  function Framed(m: Libm, p: Params, a: App, fr: Frame): App
    requires Divisible(p)
  {
    UpdatedApp(m, p, Polled(m, p, a, fr.events), fr.mouse, FrameDt(fr.elapsed))
  }

  /** `run`: frames until the window is closed. */
  function Ran(m: Libm, p: Params, a: App, fs: seq<Frame>): App
    requires Divisible(p)
  {
    if |fs| == 0 then a
    else
      var t := Ran(m, p, a, fs[..|fs| - 1]);
      if t.open then Framed(m, p, t, fs[|fs| - 1]) else t
  }

  /**
   * What every reachable state satisfies: at most one bob is held, and both
   * filters report at most OMEGA_MAX.
   */
  predicate Steady(a: App) {
    && !(a.dragging1 && a.dragging2)
    && Abs(a.f1.omega) <= OMEGA_MAX
    && Abs(a.f2.omega) <= OMEGA_MAX
  }

  lemma HandledEventKeepsSteady(m: Libm, p: Params, a: App, e: Event)
    requires Steady(a)
    ensures Steady(HandledEvent(m, p, a, e))
  {
  }

  lemma {:induction false} PolledKeepsSteady(m: Libm, p: Params, a: App, xs: seq<Event>)
    requires Steady(a)
    ensures Steady(Polled(m, p, a, xs))
  {
    if |xs| > 0 {
      PolledKeepsSteady(m, p, a, xs[..|xs| - 1]);
      var t := Polled(m, p, a, xs[..|xs| - 1]);
      if t.open {
        HandledEventKeepsSteady(m, p, t, xs[|xs| - 1]);
      }
    }
  }

  /** `update` keeps the invariant: the filters only ever blend toward a clamped rate. */
  lemma UpdatedKeepsSteady(m: Libm, p: Params, a: App, mouse: Point, dt: real)
    requires Divisible(p) && Steady(a)
    ensures Steady(UpdatedApp(m, p, a, mouse, dt))
  {
    Drag.UpdateKeepsBound(a.f1, PivotAngle(m, a.pivot, mouse), dt, ALPHA, OMEGA_MAX);
    Drag.UpdateKeepsBound(a.f2, Bob1Angle(m, p, a.s, a.pivot, mouse), dt, ALPHA, OMEGA_MAX);
  }

  lemma {:induction false} RanKeepsSteady(m: Libm, p: Params, a: App, fs: seq<Frame>)
    requires Divisible(p) && Steady(a)
    ensures Steady(Ran(m, p, a, fs))
  {
    if |fs| > 0 {
      RanKeepsSteady(m, p, a, fs[..|fs| - 1]);
      var t := Ran(m, p, a, fs[..|fs| - 1]);
      if t.open {
        var fr := fs[|fs| - 1];
        PolledKeepsSteady(m, p, t, fr.events);
        UpdatedKeepsSteady(m, p, Polled(m, p, t, fr.events), fr.mouse, FrameDt(fr.elapsed));
      }
    }
  }

  /** In a steady state, the rate imposed on a held bob 1 is within OMEGA_MAX. */
  lemma HeldRateBounded(m: Libm, p: Params, a: App, mouse: Point, dt: real)
    requires Divisible(p) && Steady(a) && a.dragging1
    ensures Abs(UpdatedApp(m, p, a, mouse, dt).s.w1) <= OMEGA_MAX
    ensures UpdatedApp(m, p, a, mouse, dt).s.th1 == Norm(PivotAngle(m, a.pivot, mouse))
  {
    var th1 := PivotAngle(m, a.pivot, mouse);
    var f1 := Drag.Updated(a.f1, th1, dt, ALPHA, OMEGA_MAX);
    Drag.UpdateKeepsBound(a.f1, th1, dt, ALPHA, OMEGA_MAX);
    DragSteppedImposesLink1(m, p, a.s, a.s, dt, th1, Drag.Deadband(f1.omega), 0.0);
  }

  /** Events after the window closed are not handled. */
  lemma {:induction false} PolledStopsWhenClosed(m: Libm, p: Params, a: App, xs: seq<Event>, i: nat)
    requires i <= |xs| && !Polled(m, p, a, xs[..i]).open
    ensures Polled(m, p, a, xs) == Polled(m, p, a, xs[..i])
    decreases |xs| - i
  {
    if i < |xs| {
      assert xs[..i + 1][..i] == xs[..i];
      if i + 1 == |xs| {
        assert xs[..i + 1] == xs;
      } else {
        PolledStopsWhenClosed(m, p, a, xs, i + 1);
      }
    } else {
      assert xs[..i] == xs;
    }
  }

  /** Frames after the window closed do not run. */
  lemma {:induction false} RanStopsWhenClosed(m: Libm, p: Params, a: App, fs: seq<Frame>, i: nat)
    requires Divisible(p) && i <= |fs| && !Ran(m, p, a, fs[..i]).open
    ensures Ran(m, p, a, fs) == Ran(m, p, a, fs[..i])
    decreases |fs| - i
  {
    if i < |fs| {
      assert fs[..i + 1][..i] == fs[..i];
      if i + 1 == |fs| {
        assert fs[..i + 1] == fs;
      } else {
        RanStopsWhenClosed(m, p, a, fs, i + 1);
      }
    } else {
      assert fs[..i] == fs;
    }
  }

  class SfmlApp {
    const engine: Engine
    const drag1: Drag.DragFilter
    const drag2: Drag.DragFilter
    var open: bool
    var pivot: Point
    var dragging1: bool
    var dragging2: bool

    ghost predicate Valid() {
      drag1 != drag2
    }

    function Snapshot(): App
      reads this, engine, drag1, drag2
    {
      App(open, pivot, dragging1, dragging2, engine.s, drag1.Value(), drag2.Value())
    }

    /**
     * `SfmlApp(win, eng, d1, d2)` on an open window of the given size: the
     * pivot at its centre, nothing held.
     */
    constructor (eng: Engine, d1: Drag.DragFilter, d2: Drag.DragFilter, width: real, height: real)
      requires d1 != d2
      ensures Valid() && engine == eng && drag1 == d1 && drag2 == d2
      ensures open && pivot == Point(width * 0.5, height * 0.5) && !dragging1 && !dragging2
    {
      engine := eng;
      drag1 := d1;
      drag2 := d2;
      open := true;
      pivot := Point(width * 0.5, height * 0.5);
      dragging1 := false;
      dragging2 := false;
    }

    /** The left-press branch of `handle_events`. */
    method Press(at: Point)
      requires Valid()
      modifies this`dragging1, this`dragging2, drag1, drag2
      ensures Snapshot() == Pressed(engine.lib, engine.p, old(Snapshot()), at)
    {
      var b1 := Bob1Px(engine.lib, engine.p, engine.s, pivot);
      var b2 := Bob2Px(engine.lib, engine.p, engine.s, pivot);
      var d1 := Util.Distance(engine.lib, at.x, at.y, b1.x, b1.y);
      var d2 := Util.Distance(engine.lib, at.x, at.y, b2.x, b2.y);
      if d2 <= GRAB_RADIUS2 {
        dragging2 := true;
        dragging1 := false;
        drag2.Reset(engine.s.th2);
      } else if d1 <= GRAB_RADIUS1 {
        dragging1 := true;
        dragging2 := false;
        drag1.Reset(engine.s.th1);
      }
    }

    /** The R-key branch of `handle_events`. */
    method ResetKey()
      requires Valid()
      modifies engine`s, drag1, drag2
      ensures Snapshot() == KeyReset(old(Snapshot()))
    {
      engine.s := engine.s.(th1 := 0.0, w1 := 0.0);
      engine.s := engine.s.(th2 := 0.0, w2 := 0.0);
      drag1.Reset(engine.s.th1);
      drag2.Reset(engine.s.th2);
    }

    /** One event of `handle_events`. */
    method HandleEvent(e: Event)
      requires Valid()
      modifies this`open, this`pivot, this`dragging1, this`dragging2, engine`s, drag1, drag2
      ensures Snapshot() == HandledEvent(engine.lib, engine.p, old(Snapshot()), e)
    {
      if e.Closed? {
        open := false;
        return;
      }
      if e.Resized? {
        pivot := Point(e.width * 0.5, e.height * 0.5);
      }
      if e.Press? && e.left {
        Press(e.at);
      }
      if e.Release? && e.left {
        dragging1 := false;
        dragging2 := false;
      }
      if e.Key? && e.isR {
        ResetKey();
      }
    }

    /** `handle_events`: it returns as soon as the window is closed. */
    method HandleEvents(xs: seq<Event>)
      requires Valid()
      modifies this`open, this`pivot, this`dragging1, this`dragging2, engine`s, drag1, drag2
      ensures Snapshot() == Polled(engine.lib, engine.p, old(Snapshot()), xs)
    {
      ghost var a0 := Snapshot();
      var i := 0;
      while i < |xs| && open
        invariant i <= |xs|
        invariant Snapshot() == Polled(engine.lib, engine.p, a0, xs[..i])
      {
        assert xs[..i + 1][..i] == xs[..i];
        HandleEvent(xs[i]);
        i := i + 1;
      }
      if i < |xs| {
        PolledStopsWhenClosed(engine.lib, engine.p, a0, xs, i);
      } else {
        assert xs[..i] == xs;
      }
    }

    method ThetaAboutPivot(mouse: Point) returns (th: real)
      ensures th == PivotAngle(engine.lib, pivot, mouse)
    {
      var dx := mouse.x - pivot.x;
      var dy := mouse.y - pivot.y;
      th := Util.NormalizeAngle(engine.lib.atan2(dx, dy));
    }

    method ThetaAboutBob1(mouse: Point) returns (th: real)
      ensures th == Bob1Angle(engine.lib, engine.p, engine.s, pivot, mouse)
    {
      var b1 := Bob1Px(engine.lib, engine.p, engine.s, pivot);
      var dx := mouse.x - b1.x;
      var dy := mouse.y - b1.y;
      th := Util.NormalizeAngle(engine.lib.atan2(dx, dy));
    }

    /** `update(dt)` with the pointer at `mouse`. */
    method Update(dt: real, mouse: Point)
      requires Valid() && Divisible(engine.p)
      modifies engine`s, drag1, drag2
      ensures Snapshot() == UpdatedApp(engine.lib, engine.p, old(Snapshot()), mouse, dt)
    {
      if dragging1 {
        var th1 := ThetaAboutPivot(mouse);
        var w1 := drag1.Update(th1, dt, ALPHA, OMEGA_MAX);
        if Abs(w1) < Drag.DEADBAND {
          w1 := 0.0;
        }
        var a1 := 0.0;
        engine.StepDragP1(dt, th1, w1, a1);
      } else if dragging2 {
        var th := ThetaAboutBob1(mouse);
        engine.s := engine.s.(th2 := th);
        var w2 := drag2.Update(th, dt, ALPHA, OMEGA_MAX);
        engine.s := engine.s.(w2 := w2);
        var savedTh2 := engine.s.th2;
        engine.Step(dt);
        engine.s := engine.s.(th2 := savedTh2);
      } else {
        engine.Step(dt);
      }
    }

    /** `run`: frames while the window is open; each polls, clamps its time, then updates. */
    method Run(fs: seq<Frame>)
      requires Valid() && Divisible(engine.p)
      modifies this`open, this`pivot, this`dragging1, this`dragging2, engine`s, drag1, drag2
      ensures Snapshot() == Ran(engine.lib, engine.p, old(Snapshot()), fs)
    {
      ghost var a0 := Snapshot();
      var i := 0;
      while i < |fs| && open
        invariant i <= |fs|
        invariant Snapshot() == Ran(engine.lib, engine.p, a0, fs[..i])
      {
        assert fs[..i + 1][..i] == fs[..i];
        HandleEvents(fs[i].events);
        var dt := Clamp(fs[i].elapsed, DT_MIN, DT_FRAME_MAX);
        Update(dt, fs[i].mouse);
        i := i + 1;
      }
      if i < |fs| {
        RanStopsWhenClosed(engine.lib, engine.p, a0, fs, i);
      } else {
        assert fs[..i] == fs;
      }
    }
  }
}
