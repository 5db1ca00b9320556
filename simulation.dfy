/**
 * The event loop of the legacy desktop simulator (class Simulation,
 * src/simulation.cpp).  Each frame polls the window's events and runs four
 * handlers on each of them (the reset button, the click on a bob, the button
 * release, the drag), then advances the physics unless a link is held.
 *
 * The window, fonts, shapes and drawing are not modelled.  A polled event
 * arrives as an `Input` that also carries the pointer position the handlers
 * read with `sf::Mouse::getPosition` and whether that position lies on the
 * reset button.
 */
module LegacySim {
  import opened MathLib
  import opened LegacyPendulum
  import opened LegacyDouble
  import Utility
  import Util

  /** WIDTH, HEIGHT, CENTER_X and CENTER_Y of src/simulation.h, in pixels. */
  const WIDTH: real := 800.0
  const HEIGHT: real := 800.0
  const CENTER_X: real := WIDTH / 2.0
  const CENTER_Y: real := HEIGHT / 2.0

  /** PX_METER_RATIO and WEIGHT_RAD of src/pendulum.h. */
  const PX_METER_RATIO: real := 40.0
  const WEIGHT_RAD: real := 15.0

  /** A click grabs bob 1 within eight bob radii and bob 2 within four. */
  const P1_REACH: real := WEIGHT_RAD * 8.0
  const P2_REACH: real := WEIGHT_RAD * 4.0

  datatype Point = Point(x: real, y: real)

  /** The event kinds the handlers tell apart; `Other` is everything else, pointer moves included. */
  datatype Event = Closed | Press(left: bool) | Release(left: bool) | Other

  /**
   * One polled event, the pointer position in window pixels (y down) while
   * it is handled, and whether that position lies on the reset button.
   */
  datatype Input = Input(event: Event, mouse: Point, onReset: bool)

  datatype Flags = Flags(dragP1: bool, dragP2: bool, showDragText: bool)

  /** What the handlers read and write: the window state, the flags, both links. */
  datatype Sim = Sim(open: bool, flags: Flags, v: Duo)

  predicate IsLeftPress(e: Event) {
    e.Press? && e.left
  }

  predicate IsLeftRelease(e: Event) {
    e.Release? && e.left
  }

  /** Bob 1 in pixels with y up, for a rod of `l1` metres at angle `th1`. */
  function Bob1(m: Libm, l1: real, th1: real): Point {
    Point(CENTER_X + PX_METER_RATIO * l1 * m.sin(th1), CENTER_Y - PX_METER_RATIO * l1 * m.cos(th1))
  }

  /** Bob 2 in pixels with y up, hanging from bob 1 at `b1`. */
  function Bob2(m: Libm, l2: real, b1: Point, th2: real): Point {
    Point(b1.x + PX_METER_RATIO * l2 * m.sin(th2), b1.y - PX_METER_RATIO * l2 * m.cos(th2))
  }

  /** The pointer is close enough to bob 1, whose y is flipped into window coordinates. */
  predicate GrabsP1(m: Libm, d: Dims, v: Duo, mouse: Point) {
    var b1 := Bob1(m, d.l1, v.a.thetaRaw);
    Utility.Distance(m, mouse.x, mouse.y, b1.x, HEIGHT - b1.y) <= P1_REACH
  }

  predicate GrabsP2(m: Libm, d: Dims, v: Duo, mouse: Point) {
    var b2 := Bob2(m, d.l2, Bob1(m, d.l1, v.a.thetaRaw), v.b.thetaRaw);
    Utility.Distance(m, mouse.x, mouse.y, b2.x, HEIGHT - b2.y) <= P2_REACH
  }

  /** `resetAll`: both links upright at rest, and the hint shown again. */
  function Reset(s: Sim): (r: Sim)
    ensures r.v.a == Swing(0.0, 0.0, 0.0) && r.v.b == Swing(0.0, 0.0, 0.0)
    ensures r.flags.showDragText
    ensures r.open == s.open && r.flags.dragP1 == s.flags.dragP1 && r.flags.dragP2 == s.flags.dragP2
  {
    s.(flags := s.flags.(showDragText := true), v := Duo(Swing(0.0, -0.0, 0.0), Swing(0.0, -0.0, 0.0)))
  }

  /** `checkMenuClick`: a left press on the reset button resets, anything else changes nothing. */
  function MenuClicked(s: Sim, inp: Input): (r: Sim)
    ensures IsLeftPress(inp.event) && inp.onReset ==> r == Reset(s)
    ensures !(IsLeftPress(inp.event) && inp.onReset) ==> r == s
  {
    if IsLeftPress(inp.event) && inp.onReset then Reset(s) else s
  }

  /**
   * `handle_click`: a left press grabs bob 1 if it is within reach;
   * otherwise it grabs bob 2 if that one is.  A grab hides the hint.  Flags
   * are only ever set here, never cleared, and the links do not move.
   */
  function Clicked(m: Libm, d: Dims, s: Sim, inp: Input): (r: Sim)
    ensures r.open == s.open && r.v == s.v
    ensures r.flags.dragP1 == (s.flags.dragP1 || (IsLeftPress(inp.event) && GrabsP1(m, d, s.v, inp.mouse)))
    ensures r.flags.dragP2 == (s.flags.dragP2 || (IsLeftPress(inp.event) && !GrabsP1(m, d, s.v, inp.mouse)
                                                 && GrabsP2(m, d, s.v, inp.mouse)))
    ensures r.flags.showDragText == (s.flags.showDragText && !(IsLeftPress(inp.event) &&
                                    (GrabsP1(m, d, s.v, inp.mouse) || GrabsP2(m, d, s.v, inp.mouse))))
  {
    if !IsLeftPress(inp.event) then s
    else if GrabsP1(m, d, s.v, inp.mouse) then s.(flags := s.flags.(dragP1 := true, showDragText := false))
    else if GrabsP2(m, d, s.v, inp.mouse) then s.(flags := s.flags.(dragP2 := true, showDragText := false))
    else s
  }

  /** `handle_mouse_release`: a left release lets go of both links; nothing else changes. */
  function Released(s: Sim, inp: Input): (r: Sim)
    ensures IsLeftRelease(inp.event) ==> !r.flags.dragP1 && !r.flags.dragP2
    ensures !IsLeftRelease(inp.event) ==> r == s
    ensures r.open == s.open && r.v == s.v && r.flags.showDragText == s.flags.showDragText
  {
    if IsLeftRelease(inp.event) then s.(flags := s.flags.(dragP1 := false, dragP2 := false)) else s
  }

  /** The angle for link 1 that points from the pivot to the pointer. */
  function PointerAngle1(m: Libm, mouse: Point): real {
    m.atan2(mouse.y - CENTER_Y, mouse.x - CENTER_X) - Utility.PI / 2.0
  }

  /** The angle for link 2 that points from bob 1, at link 1's angle `th1`, to the pointer. */
  function PointerAngle2(m: Libm, d: Dims, th1: real, mouse: Point): real {
    var b1 := Bob1(m, d.l1, th1);
    m.atan2(mouse.y - (HEIGHT - b1.y), mouse.x - b1.x) - Utility.PI / 2.0
  }

  /**
   * A held link moved to angle `theta`: `setSpeed` with the clamped finite
   * difference over `dt`, then `setTheta`.
   */
  function DragTo(st: Swing, theta: real, dt: real): (r: Swing)
    requires dt != 0.0
    ensures r.thetaRaw == theta && r.thetaNormal == -theta
    ensures Abs(r.omega) <= Utility.MAX_SPEED
    ensures Abs((theta - st.thetaRaw) / dt) <= Utility.MAX_SPEED ==> r.omega == (theta - st.thetaRaw) / dt
  {
    Swing(theta, -1.0 * theta, Utility.ClampSpeed((theta - st.thetaRaw) / dt))
  }

  /**
   * `handle_mouse_move`, which runs on every event: a held link 1 follows the
   * pointer first, then a held link 2 follows it from bob 1's new position.
   * A link that is not held keeps its fields.
   */
  function Dragged(m: Libm, d: Dims, s: Sim, mouse: Point, dt: real): (r: Sim)
    requires dt != 0.0
    ensures r.open == s.open && r.flags == s.flags
    ensures s.flags.dragP1 ==> r.v.a == DragTo(s.v.a, PointerAngle1(m, mouse), dt)
    ensures !s.flags.dragP1 ==> r.v.a == s.v.a
    ensures s.flags.dragP2 ==> r.v.b == DragTo(s.v.b, PointerAngle2(m, d, r.v.a.thetaRaw, mouse), dt)
    ensures !s.flags.dragP2 ==> r.v.b == s.v.b
  {
    var a := if s.flags.dragP1 then DragTo(s.v.a, PointerAngle1(m, mouse), dt) else s.v.a;
    var b := if s.flags.dragP2 then DragTo(s.v.b, PointerAngle2(m, d, a.thetaRaw, mouse), dt) else s.v.b;
    s.(v := Duo(a, b))
  }

  /** One polled event: a close request, then the four handlers in the order of the loop. */
  function Handled(m: Libm, d: Dims, s: Sim, inp: Input, dt: real): Sim
    requires dt != 0.0
  {
    var s0 := if inp.event.Closed? then s.(open := false) else s;
    Dragged(m, d, Released(Clicked(m, d, MenuClicked(s0, inp), inp), inp), inp.mouse, dt)
  }

  /** The events of one frame, handled in order while the window is open (a closed window polls none). */
  function Events(m: Libm, d: Dims, s: Sim, xs: seq<Input>, dt: real): Sim
    requires dt != 0.0
  {
    if |xs| == 0 then s
    else
      var t := Events(m, d, s, xs[..|xs| - 1], dt);
      if t.open then Handled(m, d, t, xs[|xs| - 1], dt) else t
  }

  /**
   * The physics at the end of a frame: both links when neither is held,
   * link 2 alone when only link 1 is held, nothing when link 2 is held.
   */
  function Ticked(m: Libm, d: Dims, f1: real, f2: real, s: Sim): (r: Sim)
    requires Sound(m, d)
    ensures r.open == s.open && r.flags == s.flags
    ensures !s.flags.dragP1 && !s.flags.dragP2 ==> r.v == UpdatedBoth(m, d, f1, f2, s.v, STEP)
    ensures s.flags.dragP1 ==> r.v.a == s.v.a
    ensures s.flags.dragP1 && !s.flags.dragP2 ==>
              r.v.b == UpdatedP2(m, d, s.v.a.thetaRaw, s.v.a.omega, f2, s.v.b, STEP)
    ensures s.flags.dragP2 ==> r.v == s.v
  {
    if !s.flags.dragP1 && !s.flags.dragP2 then s.(v := UpdatedBoth(m, d, f1, f2, s.v, STEP))
    else if !s.flags.dragP2 && s.flags.dragP1 then
      s.(v := Duo(s.v.a, UpdatedP2(m, d, s.v.a.thetaRaw, s.v.a.omega, f2, s.v.b, STEP)))
    else s
  }

  /** One pass of the main loop: the frame's events, then the physics. */
  function Framed(m: Libm, d: Dims, f1: real, f2: real, s: Sim, xs: seq<Input>, dt: real): Sim
    requires Sound(m, d) && dt != 0.0
  {
    Ticked(m, d, f1, f2, Events(m, d, s, xs, dt))
  }

  /** The main loop over the frames `fs`, which stops once the window is closed. */
  function Ran(m: Libm, d: Dims, f1: real, f2: real, s: Sim, fs: seq<seq<Input>>, dt: real): Sim
    requires Sound(m, d) && dt != 0.0
  {
    if |fs| == 0 then s
    else
      var t := Ran(m, d, f1, f2, s, fs[..|fs| - 1], dt);
      if t.open then Framed(m, d, f1, f2, t, fs[|fs| - 1], dt) else t
  }

  /** With link 1 held and link 2 free, link 2's new rate is within MAX_SPEED. */
  lemma HeldP1BoundsP2Speed(m: Libm, d: Dims, f1: real, f2: real, s: Sim)
    requires Sound(m, d) && 0.0 <= f2 <= 1.0
    requires s.flags.dragP1 && !s.flags.dragP2
    ensures Abs(Ticked(m, d, f1, f2, s).v.b.omega) <= Utility.MAX_SPEED
  {
    P2SpeedBounded(m, d, s.v.a.thetaRaw, s.v.a.omega, f2, s.v.b, STEP);
  }

  /** A closed window stays closed, whatever the events. */
  lemma {:induction false} EventsKeepClosed(m: Libm, d: Dims, s: Sim, xs: seq<Input>, dt: real)
    requires dt != 0.0
    ensures Events(m, d, s, xs, dt).open ==> s.open
    ensures !s.open ==> Events(m, d, s, xs, dt) == s
  {
    if |xs| > 0 {
      EventsKeepClosed(m, d, s, xs[..|xs| - 1], dt);
    }
  }

  /** Once the window is closed the remaining events of the frame are not handled. */
  lemma {:induction false} EventsStopWhenClosed(m: Libm, d: Dims, s: Sim, xs: seq<Input>, i: nat, dt: real)
    requires dt != 0.0 && i <= |xs|
    requires !Events(m, d, s, xs[..i], dt).open
    ensures Events(m, d, s, xs, dt) == Events(m, d, s, xs[..i], dt)
    decreases |xs| - i
  {
    if i < |xs| {
      if i + 1 == |xs| {
        assert xs[..i + 1] == xs;
        assert xs[..i + 1][..i] == xs[..i];
      } else {
        assert xs[..i + 1][..i] == xs[..i];
        EventsStopWhenClosed(m, d, s, xs, i + 1, dt);
      }
    } else {
      assert xs[..i] == xs;
    }
  }

  /**
   * Without a left press no drag starts and the hint keeps its state: only
   * a click can grab a link, and only a click hides or restores the hint.
   */
  lemma {:induction false} NoPressNoGrab(m: Libm, d: Dims, s: Sim, xs: seq<Input>, dt: real)
    requires dt != 0.0
    requires forall i :: 0 <= i < |xs| ==> !IsLeftPress(xs[i].event)
    ensures Events(m, d, s, xs, dt).flags.dragP1 ==> s.flags.dragP1
    ensures Events(m, d, s, xs, dt).flags.dragP2 ==> s.flags.dragP2
    ensures Events(m, d, s, xs, dt).flags.showDragText == s.flags.showDragText
  {
    if |xs| > 0 {
      var p := xs[..|xs| - 1];
      assert forall i :: 0 <= i < |p| ==> !IsLeftPress(p[i].event) by {
        forall i | 0 <= i < |p| ensures !IsLeftPress(p[i].event) {
          assert p[i] == xs[i];
        }
      }
      NoPressNoGrab(m, d, s, p, dt);
    }
  }

  /**
   * A frame whose last handled event is a left release ends with both links
   * free, so the physics advances both of them.
   */
  lemma ReleaseResumesBoth(m: Libm, d: Dims, f1: real, f2: real, s: Sim, xs: seq<Input>, dt: real)
    requires Sound(m, d) && dt != 0.0
    requires |xs| > 0 && IsLeftRelease(xs[|xs| - 1].event)
    requires Events(m, d, s, xs[..|xs| - 1], dt).open
    ensures Framed(m, d, f1, f2, s, xs, dt).v == UpdatedBoth(m, d, f1, f2, Events(m, d, s, xs, dt).v, STEP)
  {
    var t := Events(m, d, s, xs[..|xs| - 1], dt);
    var inp := xs[|xs| - 1];
    var c := Clicked(m, d, MenuClicked(t, inp), inp);
    assert !Released(c, inp).flags.dragP1 && !Released(c, inp).flags.dragP2;
  }

  /** Once the window is closed no further frame runs. */
  lemma {:induction false} RanStopsWhenClosed(m: Libm, d: Dims, f1: real, f2: real, s: Sim,
                                              fs: seq<seq<Input>>, i: nat, dt: real)
    requires Sound(m, d) && dt != 0.0 && i <= |fs|
    requires !Ran(m, d, f1, f2, s, fs[..i], dt).open
    ensures Ran(m, d, f1, f2, s, fs, dt) == Ran(m, d, f1, f2, s, fs[..i], dt)
    decreases |fs| - i
  {
    if i < |fs| {
      if i + 1 == |fs| {
        assert fs[..i + 1] == fs;
        assert fs[..i + 1][..i] == fs[..i];
      } else {
        assert fs[..i + 1][..i] == fs[..i];
        RanStopsWhenClosed(m, d, f1, f2, s, fs, i + 1, dt);
      }
    } else {
      assert fs[..i] == fs;
    }
  }

  class Simulation {
    const dp: DoublePendulum
    var open: bool
    var isDraggingP1: bool
    var isDraggingP2: bool
    var showDragText: bool
    var dt: real

    function Snapshot(): Sim
      reads this, dp.p1, dp.p2
    {
      Sim(open, Flags(isDraggingP1, isDraggingP2, showDragText), dp.Value())
    }

    /**
     * `Simulation()`: links of 4 m and 2 kg, both upright, with friction
     * 0.9995; nothing held, the hint shown, the window open.  `dt` is only
     * set when the loop starts.
     */
    constructor (lib: Libm)
      ensures dp.Valid() && fresh(dp.p1) && fresh(dp.p2)
      ensures dp.lib == lib && dp.Sizes() == Dims(4.0, 4.0, 2.0, 2.0)
      ensures dp.p1.friction == 0.9995 && dp.p2.friction == 0.9995
      ensures Snapshot() == Sim(true, Flags(false, false, true), Duo(Swing(0.0, dp.p1.thetaNormal, 0.0),
                                                                     Swing(0.0, dp.p2.thetaNormal, 0.0)))
    {
      dp := new DoublePendulum.WithFriction(lib, 0.0, 4.0, 2.0, 0.0, 4.0, 2.0, 0.9995);
      open := true;
      isDraggingP1 := false;
      isDraggingP2 := false;
      showDragText := true;
    }

    /** The pendulum the constructor builds is sound once cos is at most one. */
    static lemma BuiltIsSound(lib: Libm)
      requires CosAtMostOne(lib)
      ensures Sound(lib, Dims(4.0, 4.0, 2.0, 2.0))
    {
    }

    method ResetAll()
      requires dp.Valid()
      modifies this`showDragText, dp.p1`thetaRaw, dp.p1`thetaNormal, dp.p1`omega,
               dp.p2`thetaRaw, dp.p2`thetaNormal, dp.p2`omega
      ensures Snapshot() == Reset(old(Snapshot()))
    {
      showDragText := true;
      dp.p1.SetTheta(0.0);
      dp.p1.SetSpeed(0.0);
      dp.p2.SetTheta(0.0);
      dp.p2.SetSpeed(0.0);
    }

    method CheckMenuClick(inp: Input)
      requires dp.Valid()
      modifies this`showDragText, dp.p1`thetaRaw, dp.p1`thetaNormal, dp.p1`omega,
               dp.p2`thetaRaw, dp.p2`thetaNormal, dp.p2`omega
      ensures Snapshot() == MenuClicked(old(Snapshot()), inp)
    {
      if IsLeftPress(inp.event) && inp.onReset {
        ResetAll();
      }
    }

    method HandleClick(inp: Input)
      modifies this`isDraggingP1, this`isDraggingP2, this`showDragText
      ensures Snapshot() == Clicked(dp.lib, dp.Sizes(), old(Snapshot()), inp)
    {
      if IsLeftPress(inp.event) {
        var lib := dp.lib;
        var b1 := Bob1(lib, dp.p1.len, dp.p1.thetaRaw);
        var b2 := Bob2(lib, dp.p2.len, b1, dp.p2.thetaRaw);
        var dist1 := Utility.Distance(lib, inp.mouse.x, inp.mouse.y, b1.x, HEIGHT - b1.y);
        if dist1 <= P1_REACH {
          isDraggingP1 := true;
          showDragText := false;
          return;
        }
        var dist2 := Utility.Distance(lib, inp.mouse.x, inp.mouse.y, b2.x, HEIGHT - b2.y);
        if dist2 <= P2_REACH {
          isDraggingP2 := true;
          showDragText := false;
        }
      }
    }

    method HandleMouseRelease(inp: Input)
      modifies this`isDraggingP1, this`isDraggingP2
      ensures Snapshot() == Released(old(Snapshot()), inp)
    {
      if IsLeftRelease(inp.event) {
        isDraggingP1 := false;
        isDraggingP2 := false;
      }
    }

    method HandleMouseMove(mouse: Point)
      requires dp.Valid() && dt != 0.0
      modifies dp.p1`thetaRaw, dp.p1`thetaNormal, dp.p1`omega, dp.p2`thetaRaw, dp.p2`thetaNormal, dp.p2`omega
      ensures Snapshot() == Dragged(dp.lib, dp.Sizes(), old(Snapshot()), mouse, dt)
    {
      if isDraggingP1 || isDraggingP2 {
        if isDraggingP1 {
          var newTheta := PointerAngle1(dp.lib, mouse);
          var newSpeed := (newTheta - dp.p1.thetaRaw) / dt;
          newSpeed := Utility.ClampSpeed(newSpeed);
          dp.p1.SetSpeed(newSpeed);
          dp.p1.SetTheta(newTheta);
        }
        if isDraggingP2 {
          var newTheta := PointerAngle2(dp.lib, dp.Sizes(), dp.p1.thetaRaw, mouse);
          var newSpeed := (newTheta - dp.p2.thetaRaw) / dt;
          newSpeed := Utility.ClampSpeed(newSpeed);
          dp.p2.SetSpeed(newSpeed);
          dp.p2.SetTheta(newTheta);
        }
      }
    }

    /** One iteration of the event loop's body. */
    method HandleEvent(inp: Input)
      requires dp.Valid() && dt != 0.0
      modifies this`open, this`isDraggingP1, this`isDraggingP2, this`showDragText,
               dp.p1`thetaRaw, dp.p1`thetaNormal, dp.p1`omega, dp.p2`thetaRaw, dp.p2`thetaNormal, dp.p2`omega
      ensures Snapshot() == Handled(dp.lib, dp.Sizes(), old(Snapshot()), inp, dt)
    {
      if inp.event.Closed? {
        open := false;
      }
      CheckMenuClick(inp);
      HandleClick(inp);
      HandleMouseRelease(inp);
      HandleMouseMove(inp.mouse);
    }

    /** The dispatch at the end of a frame. */
    method Tick()
      requires dp.Valid() && Sound(dp.lib, dp.Sizes())
      modifies dp.p1`thetaRaw, dp.p1`thetaNormal, dp.p1`omega, dp.p2`thetaRaw, dp.p2`thetaNormal, dp.p2`omega
      ensures Snapshot() == Ticked(dp.lib, dp.Sizes(), dp.p1.friction, dp.p2.friction, old(Snapshot()))
    {
      if !isDraggingP1 && !isDraggingP2 {
        dp.UpdateBoth();
      } else if !isDraggingP2 && isDraggingP1 {
        dp.UpdateP2();
      }
    }

    /** One pass of the main loop: poll while open, then the physics. */
    method Frame(xs: seq<Input>)
      requires dp.Valid() && Sound(dp.lib, dp.Sizes()) && dt != 0.0
      modifies this`open, this`isDraggingP1, this`isDraggingP2, this`showDragText,
               dp.p1`thetaRaw, dp.p1`thetaNormal, dp.p1`omega, dp.p2`thetaRaw, dp.p2`thetaNormal, dp.p2`omega
      ensures Snapshot() == Framed(dp.lib, dp.Sizes(), dp.p1.friction, dp.p2.friction, old(Snapshot()), xs, dt)
    {
      ghost var s0 := Snapshot();
      var i := 0;
      while i < |xs| && open
        invariant i <= |xs|
        invariant Snapshot() == Events(dp.lib, dp.Sizes(), s0, xs[..i], dt)
      {
        assert xs[..i + 1][..i] == xs[..i];
        HandleEvent(xs[i]);
        i := i + 1;
      }
      if i < |xs| {
        EventsStopWhenClosed(dp.lib, dp.Sizes(), s0, xs, i, dt);
      } else {
        assert xs[..i] == xs;
      }
      Tick();
    }

    /** `operator()`: the step is set to 1 / FPS, then frames run until the window closes. */
    method Run(fs: seq<seq<Input>>)
      requires dp.Valid() && Sound(dp.lib, dp.Sizes())
      modifies this`dt, this`open, this`isDraggingP1, this`isDraggingP2, this`showDragText,
               dp.p1`thetaRaw, dp.p1`thetaNormal, dp.p1`omega, dp.p2`thetaRaw, dp.p2`thetaNormal, dp.p2`omega
      ensures dt == STEP
      ensures Snapshot() == Ran(dp.lib, dp.Sizes(), dp.p1.friction, dp.p2.friction, old(Snapshot()), fs, STEP)
    {
      dt := STEP;
      ghost var s0 := Snapshot();
      var i := 0;
      while i < |fs| && open
        invariant i <= |fs| && dt == STEP
        invariant Snapshot() == Ran(dp.lib, dp.Sizes(), dp.p1.friction, dp.p2.friction, s0, fs[..i], STEP)
      {
        assert fs[..i + 1][..i] == fs[..i];
        Frame(fs[i]);
        i := i + 1;
      }
      if i < |fs| {
        RanStopsWhenClosed(dp.lib, dp.Sizes(), dp.p1.friction, dp.p2.friction, s0, fs, i, STEP);
      } else {
        assert fs[..i] == fs;
      }
    }
  }
}
