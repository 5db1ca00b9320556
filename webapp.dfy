/**
 * The animation loop of the web front end (web/app.js): a fixed-step
 * accumulator that runs at most eight engine steps per frame and, while a
 * bob is dragged, feeds the drag filter with the pointer's angle.
 *
 * The engine lives behind WebAssembly bindings, so the model does not run
 * it: every call the front end makes into it is appended, in order, to the
 * log `issued`.  Pixel geometry is an input: the view centre and the pixel
 * position of bob 1 arrive as points.
 */
module WebApp {
  import opened MathLib
  import opened JsDrag
  import JsMath
  import Drag

  /** The scheduler's constants. */
  const FIXED_DT: real := 1.0 / 240.0
  const MAX_FRAME: real := 1.0 / 15.0
  const MAX_STEPS: nat := 8

  /** The parameter object shared by the front end (web/engine/params.js). */
  datatype WebParams = WebParams(l1: real, l2: real, m1: real, m2: real, g: real, damping: real)

  const DEFAULT_PARAMS: WebParams := WebParams(2.0, 2.0, 1.0, 1.0, 9.80665, 0.02)

  /** A call into the engine. */
  datatype Command =
    | Step(dt: real)
    | StepDragP1(dt: real, th1: real, w1: real, a1: real)
    | SetTh2(th2: real)
    | SetW2(w2: real)
    | Reset(th: real, w: real)
    | SyncParams(params: WebParams)

  /** `ds_reset(h, -0.1, 0.0)`, as the R key and the panel's buttons call it. */
  const RESET_CALL: Command := Reset(-0.1, 0.0)

  predicate Advances(c: Command) {
    c.Step? || c.StepDragP1?
  }

  /** How many commands of `cs` advance the simulation. */
  function AdvanceCount(cs: seq<Command>): nat {
    if |cs| == 0 then 0 else (if Advances(cs[0]) then 1 else 0) + AdvanceCount(cs[1..])
  }

  /** What one loop iteration does, fixed for the whole frame. */
  datatype Plan =
    | DragBob1(th1: real)
    | DragBob2(th2: real)
    | Free

  /** The branch `frame` takes, from the drag mode and pointer read at its start. */
  function PlanOf(m: Libm, dragging: int, mp: Option<Point>, center: Point, bob1Px: Point): Plan {
    if dragging == BOB1 && mp.Some? then
      DragBob1(JsMath.ThetaFromMouse(m, mp.value.x - center.x, mp.value.y - center.y))
    else if dragging == BOB2 && mp.Some? then
      DragBob2(JsMath.ThetaFromMouse(m, mp.value.x - bob1Px.x, mp.value.y - bob1Px.y))
    else Free
  }

  /** Commands issued and filter state after some iterations. */
  datatype Run = Run(cmds: seq<Command>, est: Estimator)

  /** One iteration of the loop. */
  function Tick(plan: Plan, e: Estimator): Run {
    match plan
    case DragBob1(th1) =>
      var e' := Filtered(e, th1, FIXED_DT);
      Run([StepDragP1(FIXED_DT, th1, Drag.Deadband(e'.filtOmega), 0.0)], e')
    case DragBob2(th2) =>
      var e' := Filtered(e, th2, FIXED_DT);
      Run([SetTh2(th2), SetW2(e'.filtOmega), Step(FIXED_DT)], e')
    case Free =>
      Run([Step(FIXED_DT)], e)
  }

  /** `n` iterations of the loop from filter state `e`. */
  function Ticks(plan: Plan, e: Estimator, n: nat): Run {
    if n == 0 then Run([], e)
    else
      var prev := Ticks(plan, e, n - 1);
      var t := Tick(plan, prev.est);
      Run(prev.cmds + t.cmds, t.est)
  }

  /** One more iteration extends the log by that iteration's commands. */
  lemma TicksOneMore(log0: seq<Command>, log: seq<Command>, plan: Plan, e: Estimator, n: nat)
    requires log == log0 + Ticks(plan, e, n).cmds
    ensures var t := Tick(plan, Ticks(plan, e, n).est);
            && log + t.cmds == log0 + Ticks(plan, e, n + 1).cmds
            && t.est == Ticks(plan, e, n + 1).est
  {
    var prev := Ticks(plan, e, n);
    var t := Tick(plan, prev.est);
    assert log + t.cmds == log0 + (prev.cmds + t.cmds);
  }

  /** How many iterations run from accumulator `a` after `k` of them. */
  function Iterations(a: real, k: nat): nat
    decreases MAX_STEPS - k
  {
    if k < MAX_STEPS && FIXED_DT <= a then 1 + Iterations(a - FIXED_DT, k + 1) else 0
  }

  /** The loop runs min(8, floor(acc * 240)) times, and none for acc < 1/240. */
  lemma {:induction false} IterationsCount(a: real, k: nat)
    requires k <= MAX_STEPS
    ensures Iterations(a, k) == if a < FIXED_DT then 0
                                else MinInt(MAX_STEPS - k, (a * 240.0).Floor)
    decreases MAX_STEPS - k
  {
    if k < MAX_STEPS && FIXED_DT <= a {
      IterationsCount(a - FIXED_DT, k + 1);
      assert (a - FIXED_DT) * 240.0 == a * 240.0 - 1.0;
    }
  }

  /** The accumulator after one more fixed step. */
  lemma AccOneMore(a0: real, acc: real, steps: nat)
    requires acc == a0 - steps as real * FIXED_DT
    ensures acc - FIXED_DT == a0 - (steps + 1) as real * FIXED_DT
  {
  }

  /**
   * A loop that took `n` steps of 1/240 from `a0`, each while at least 1/240
   * was owed, and stopped at eight steps or with less than 1/240 left, ran
   * exactly `Iterations(a0, 0)` times.
   */
  lemma StepsAreIterations(a0: real, n: nat)
    requires n <= MAX_STEPS
    requires 0 < n ==> FIXED_DT <= a0 - (n - 1) as real * FIXED_DT
    requires n == MAX_STEPS || a0 - n as real * FIXED_DT < FIXED_DT
    ensures Iterations(a0, 0) == n
  {
    IterationsCount(a0, 0);
    var x := a0 * 240.0;
    assert a0 - n as real * FIXED_DT == (x - n as real) / 240.0;
    if 0 < n {
      assert a0 - (n - 1) as real * FIXED_DT == (x - n as real + 1.0) / 240.0;
      assert n as real <= x;
      assert n <= x.Floor;
    }
    if n < MAX_STEPS {
      assert x < n as real + 1.0;
    }
  }

  function MinInt(x: int, y: int): int {
    if x < y then x else y
  }

  lemma AdvanceCountAppend(a: seq<Command>, b: seq<Command>)
    ensures AdvanceCount(a + b) == AdvanceCount(a) + AdvanceCount(b)
    decreases |a|
  {
    if |a| == 0 {
      assert a + b == b;
    } else {
      assert (a + b)[1..] == a[1..] + b;
      AdvanceCountAppend(a[1..], b);
    }
  }

  /** Every iteration issues exactly one command that advances the engine. */
  lemma {:induction false} TicksAdvanceOncePerStep(plan: Plan, e: Estimator, n: nat)
    ensures AdvanceCount(Ticks(plan, e, n).cmds) == n
  {
    if n != 0 {
      var prev := Ticks(plan, e, n - 1);
      var t := Tick(plan, prev.est);
      TicksAdvanceOncePerStep(plan, e, n - 1);
      AdvanceCountAppend(prev.cmds, t.cmds);
      match plan
      case DragBob1(_) =>
        assert t.cmds[1..] == [];
        assert AdvanceCount(t.cmds) == 1;
      case DragBob2(_) =>
        var c := t.cmds;
        assert c[2..][1..] == [];
        assert AdvanceCount(c[2..]) == 1;
        assert c[1..][1..] == c[2..];
        assert AdvanceCount(c[1..]) == 1;
        assert AdvanceCount(c) == 1;
      case Free =>
        assert t.cmds[1..] == [];
        assert AdvanceCount(t.cmds) == 1;
    }
  }

  /** Dragging bob 1: only `step_drag_p1` at the mouse angle, with a1 = 0 and a dead-banded rate. */
  lemma {:induction false} TicksDragBob1(th1: real, e: Estimator, n: nat)
    ensures var cs := Ticks(DragBob1(th1), e, n).cmds;
            && |cs| == n
            && forall i :: 0 <= i < n ==>
                 cs[i].StepDragP1? && cs[i].dt == FIXED_DT && cs[i].th1 == th1 && cs[i].a1 == 0.0
                 && (cs[i].w1 == 0.0 || Drag.DEADBAND <= Abs(cs[i].w1))
  {
    if n != 0 {
      TicksDragBob1(th1, e, n - 1);
    }
  }

  /** Without a drag the filter is not touched and only `step` is called. */
  lemma {:induction false} TicksFree(e: Estimator, n: nat)
    ensures Ticks(Free, e, n) == Run(seq(n, _ => Step(FIXED_DT)), e)
  {
    if n != 0 {
      TicksFree(e, n - 1);
      assert seq(n - 1, _ => Step(FIXED_DT)) + [Step(FIXED_DT)] == seq(n, _ => Step(FIXED_DT));
    }
  }

  /** The front end's mutable state: timing, accumulator, parameters and the engine log. */
  class App {
    const drag: DragController
    var last: real
    var acc: real
    var params: WebParams
    var issued: seq<Command>

    /**
     * The start-up of the module: default parameters, pushed to the engine
     * once by `syncEngineParams`, then the clock read and an empty accumulator.
     */
    constructor (drag: DragController, now: real)
      ensures this.drag == drag && last == now && acc == 0.0
      ensures params == DEFAULT_PARAMS && issued == [SyncParams(DEFAULT_PARAMS)]
    {
      this.drag := drag;
      params := DEFAULT_PARAMS;
      issued := [SyncParams(params)];
      last := now;
      acc := 0.0;
    }

    /** `resetFiltersAndTiming`: forget the drag history and the time debt. */
    method ResetFiltersAndTiming()
      requires drag.Valid()
      modifies this`acc, drag`hasPrev
      ensures drag.Valid() && !drag.hasPrev && acc == 0.0
    {
      drag.ResetFilter();
      acc := 0.0;
    }

    /** The `keydown` listener: R or r restarts the animation from the hanging position. */
    method KeyDown(key: string)
      requires drag.Valid()
      modifies this`acc, this`issued, drag`hasPrev
      ensures drag.Valid()
      ensures key == "r" || key == "R" ==> issued == old(issued) + [RESET_CALL] && acc == 0.0 && !drag.hasPrev
      ensures !(key == "r" || key == "R") ==>
                issued == old(issued) && acc == old(acc) && drag.hasPrev == old(drag.hasPrev)
      ensures params == old(params) && drag.dragging == old(drag.dragging)
    {
      if key == "r" || key == "R" {
        issued := issued + [RESET_CALL];
        ResetFiltersAndTiming();
      }
    }

    /** The body of `frame`'s loop, without the counter and the accumulator. */
    method Iterate(m: Libm, dragging: int, mp: Option<Point>, center: Point, bob1Px: Point)
      requires drag.Valid()
      modifies this`issued, drag`prevTh, drag`hasPrev, drag`filtOmega
      ensures drag.Valid()
      ensures var t := Tick(PlanOf(m, dragging, mp, center, bob1Px), old(drag.Estimate()));
              issued == old(issued) + t.cmds && drag.Estimate() == t.est
    {
      if dragging == BOB1 && mp.Some? {
        var th1 := JsMath.ThetaFromMouse(m, mp.value.x - center.x, mp.value.y - center.y);
        var w1 := drag.UpdateFilteredOmega(th1, FIXED_DT);
        if Abs(w1) < Drag.DEADBAND {
          w1 := 0.0;
        }
        issued := issued + [StepDragP1(FIXED_DT, th1, w1, 0.0)];
      } else {
        if dragging == BOB2 && mp.Some? {
          var th2 := JsMath.ThetaFromMouse(m, mp.value.x - bob1Px.x, mp.value.y - bob1Px.y);
          var w2 := drag.UpdateFilteredOmega(th2, FIXED_DT);
          issued := issued + [SetTh2(th2), SetW2(w2)];
        }
        issued := issued + [Step(FIXED_DT)];
      }
    }

    /** `frame`'s loop: whole fixed steps while time is owed, at most eight. */
    method RunSteps(m: Libm, dragging: int, mp: Option<Point>, center: Point, bob1Px: Point) returns (steps: nat)
      requires drag.Valid()
      modifies this`acc, this`issued, drag`prevTh, drag`hasPrev, drag`filtOmega
      ensures drag.Valid()
      ensures steps == Iterations(old(acc), 0) && acc == old(acc) - steps as real * FIXED_DT
      ensures steps <= MAX_STEPS && (steps == MAX_STEPS || acc < FIXED_DT)
      ensures var run := Ticks(PlanOf(m, dragging, mp, center, bob1Px), old(drag.Estimate()), steps);
              issued == old(issued) + run.cmds && drag.Estimate() == run.est
    {
      ghost var plan := PlanOf(m, dragging, mp, center, bob1Px);
      ghost var a0, log0, e0 := acc, issued, drag.Estimate();
      var a := acc;
      steps := 0;
      while FIXED_DT <= a && steps < MAX_STEPS
        invariant drag.Valid()
        invariant steps <= MAX_STEPS
        invariant a == a0 - steps as real * FIXED_DT
        invariant 0 < steps ==> 0.0 <= a
        invariant issued == log0 + Ticks(plan, e0, steps).cmds
        invariant drag.Estimate() == Ticks(plan, e0, steps).est
        decreases MAX_STEPS - steps
      {
        ghost var log := issued;
        TicksOneMore(log0, log, plan, e0, steps);
        Iterate(m, dragging, mp, center, bob1Px);
        AccOneMore(a0, a, steps);
        steps := steps + 1;
        a := a - FIXED_DT;
      }
      StepsAreIterations(a0, steps);
      acc := a;
    }

    /** `frame(t)`, without drawing. */
    method Frame(t: real, m: Libm, center: Point, bob1Px: Point) returns (steps: nat)
      requires drag.Valid()
      modifies this`last, this`acc, this`issued, drag`prevTh, drag`hasPrev, drag`filtOmega
      ensures drag.Valid()
      ensures last == t
      ensures var acc0 := old(acc) + Min((t - old(last)) / 1000.0, MAX_FRAME);
              steps == Iterations(acc0, 0) && acc == acc0 - steps as real * FIXED_DT
      ensures steps <= MAX_STEPS && (steps == MAX_STEPS || acc < FIXED_DT)
      ensures var run := Ticks(PlanOf(m, old(drag.dragging), old(drag.lastPointerPos), center, bob1Px),
                               old(drag.Estimate()), steps);
              issued == old(issued) + run.cmds && drag.Estimate() == run.est
    {
      var frameDt := (t - last) / 1000.0;
      last := t;
      frameDt := Min(frameDt, MAX_FRAME);
      acc := acc + frameDt;
      ghost var acc0 := acc;
      assert acc0 == old(acc) + Min((t - old(last)) / 1000.0, MAX_FRAME);
      var mp := drag.lastPointerPos;
      var dragging := drag.dragging;
      steps := RunSteps(m, dragging, mp, center, bob1Px);
    }
  }
}
