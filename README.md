# DoubleSwing in Dafny

A model of DoubleSwing, a planar double-pendulum simulator. The model is
checked by Dafny. It covers five parts:

* the C++ physics core: the `ds::Engine` with its RK4 steps, the
  `ds::DragFilter` velocity estimator and the angle utilities;
* the older SFML simulator: `Pendulum`, `DoublePendulum`, `Utility` and the
  `Simulation` main loop;
* the SFML desktop driver of the core, `SfmlApp`;
* the web front end's control rules: the drag controller, the fixed-step
  animation loop, the parameter panel, the energy bar and sprite retries;
* the JavaScript angle helpers.

Floating-point numbers are modelled as `real`. `sin`, `cos`, `sqrt` and
`atan2` are not defined. They arrive as a record `MathLib.Libm` of function
values. A lemma that needs one of their laws says so:

* `MathLib.Lawful` gives |sin|, |cos| ≤ 1, sin 0 = 0, cos 0 = 1,
  sin² + cos² = 1, sqrt ≥ 0 and sqrt 0 = 0;
* `MathLib.CosAtMostOne` gives only cos ≤ 1.

`fmod(x, m)` is defined as `x − m·trunc(x/m)`, which is what C's `fmod`
computes on exact numbers.

Angle normalisation is specified once, in module `Angle`. It is stated for
any half-period `pi` and defined by the same two wrap loops the sources use.
Each source then gets its own wrapper:

* the core's `ds::PI`;
* JavaScript's `Math.PI`;
* the legacy float constant 3.14159265359.

"Coterminal" means that two angles differ by a whole number of turns.

RK4 is specified once, in module `Integrator`:

* on the four-component state `(th1, w1, th2, w2)`;
* on the two-component state `(theta, omega)`.

Each integrator in the sources is proved equal to this reference, stage by
stage.

The modules follow the source files:

| module | models |
|---|---|
| `MathLib` | the `Libm` record, `std::clamp`, `trunc`, `fmod` |
| `Angle` | the two wrap loops of every `normalize_angle` |
| `Util` | include/doubleswing/util.hpp |
| `Drag` | include/doubleswing/drag.hpp, src/core/drag.cpp |
| `Integrator` | the RK4 combination used in src/engine.cpp, src/pendulum.cpp, src/double_pend.cpp |
| `Core` | include/doubleswing/engine.hpp, src/engine.cpp |
| `Utility` | src/func.cpp, src/func.h, and `Simulation::distance` (src/simulation.cpp:104-106), which has the body of `Utility::distance` |
| `LegacyPendulum` | src/pendulum.cpp |
| `LegacyDouble` | src/double_pend.cpp |
| `LegacySim` | src/simulation.cpp |
| `Desktop` | apps/desktop/sfml_app.cpp |
| `JsMath` | web/utils/math.js |
| `JsDrag` | web/input/drag.js |
| `WebApp` | web/app.js |
| `Controls` | web/ui/controls.js |
| `EnergyBar` | web/ui/energybar.js |
| `Sprites` | web/gfx/sprites.js |

State the sources change in place is a Dafny class with the same fields.
The classes are `Drag.DragFilter`, `Core.Engine`,
`LegacyPendulum.Pendulum`, `LegacyDouble.DoublePendulum`,
`LegacySim.Simulation`, `Desktop.SfmlApp`, `JsDrag.DragController`,
`WebApp.App`, `Controls.Panel` and `Sprites.Sprite`.

Each method is proved against a function on values. That function states
the new state as a function of the old one, and the lemmas next to it prove
what the source promises.

The event loops of the two SFML drivers are folds over a sequence of events
(`LegacySim.Events`, `Desktop.Polled`). The outer loops are folds over a
sequence of frames (`LegacySim.Ran`, `Desktop.Ran`). The loop methods carry
the fold as their invariant.

The engine behind the web front end is reached through WebAssembly bindings.
The web driver therefore records each call it makes, in order, in a log
`WebApp.App.issued` of `Command` values. Its contracts say exactly which
calls it makes.

The filter's `reset(theta0)` sets `has_prev = true`
(include/doubleswing/drag.hpp:20). The next `update` is therefore a
smoothing step that starts from omega = 0, not a cold start:

* `Drag.UpdateAfterReset` gives the value it returns;
* `Drag.UpdateAfterResetIsNotZero` exhibits a non-zero one.

Both while loops of `normalize_angle` (include/doubleswing/util.hpp:13-17)
leave −PI and PI unchanged, so normalised angles lie in the closed range
[−PI, PI].

## Model

| member | source | states |
|---|---|---|
| MathLib.Clamp | src/core/drag.cpp:35 | `std::clamp(v, lo, hi)` lies in [lo, hi] and is v when v is inside, lo below and hi above |
| MathLib.Trunc | src/core/drag.cpp:9 | the truncation used by `fmod` leaves a remainder in [0, 1) for non-negative quotients and in (−1, 0] for negative ones |
| MathLib.FmodBounds | src/pendulum.cpp:121 | `fmod(x, d)` for d > 0 keeps the sign of x and is smaller than d in magnitude |
| Angle.RaiseAbove | include/doubleswing/util.hpp:14 | definition: the loop adding 2·pi while the angle is below −pi, as recursion whose measure is the count of turns below −pi; its properties are `Angle.RaiseAboveFacts` |
| Angle.LowerBelow | include/doubleswing/util.hpp:15 | definition: the loop subtracting 2·pi while the angle is above pi; its properties are `Angle.LowerBelowFacts` |
| Angle.Normalized | include/doubleswing/util.hpp:13-17 | definition: the two loops in sequence; its properties are `Angle.NormalizedInRange`, `Angle.NormalizedCoterminal`, `Angle.NormalizedIdentity` and `Angle.NormalizedIdempotent` |
| Angle.FloorDropsByOne | include/doubleswing/util.hpp:14-15 | for d > 0, taking d off x takes exactly one off ⌊x / d⌋ |
| Angle.TurnsBelowDrops | include/doubleswing/util.hpp:14 | one turn up lowers the count of turns below −pi by one, and the count is ≥ 0 while the loop runs, so the first loop ends |
| Angle.TurnsAboveDrops | include/doubleswing/util.hpp:15 | one turn down lowers the count of turns above pi by one, and the count is ≥ 0 while the loop runs, so the second loop ends |
| Angle.RaiseAboveFacts | include/doubleswing/util.hpp:14 | the loop adding 2·PI ends at or above −PI, below PI when it ran at all, is the identity on inputs ≥ −PI, and moves by whole turns |
| Angle.LowerBelowFacts | include/doubleswing/util.hpp:15 | from a value ≥ −PI, the loop subtracting 2·PI ends in [−PI, PI], is the identity on inputs ≤ PI, and moves by whole turns |
| Angle.NormalizedInRange | include/doubleswing/util.hpp:13-17 | the normalised angle lies in [−pi, pi], both ends included |
| Angle.NormalizedCoterminal | include/doubleswing/util.hpp:14-15 | the normalised angle is the input plus 2·pi·k for an integer k |
| Angle.NormalizedIdentity | include/doubleswing/util.hpp:14-16 | an angle already in [−pi, pi] is returned unchanged |
| Angle.NormalizedIdempotent | include/doubleswing/util.hpp:13-17 | normalising twice gives the same as normalising once |
| Angle.NormalizeAngle | include/doubleswing/util.hpp:13-17 | the two while loops compute the normalised angle, in range and coterminal with the input |
| Util.RadToDeg | include/doubleswing/util.hpp:9 | definition rad·180 / PI; its property is `Util.DegRadRoundTrip` |
| Util.DegToRad | include/doubleswing/util.hpp:10 | definition deg·PI / 180; its property is `Util.DegRadRoundTrip` |
| Util.Distance | include/doubleswing/util.hpp:24-27 | definition sqrt(dx² + dy²); its properties are `Util.DistanceSymmetric` and `Util.DistanceFacts` |
| Util.DegRadRoundTrip | include/doubleswing/util.hpp:9-10 | `deg_to_rad` and `rad_to_deg` are inverse to each other in both orders |
| Util.NormalizeAngle | include/doubleswing/util.hpp:13-17 | `ds::normalize_angle` returns a value in [−PI, PI] coterminal with its input, and the input itself when it is already in range |
| Util.ClampAbs | include/doubleswing/util.hpp:19-22 | for vmax ≥ 0 the result has magnitude ≤ vmax; an input within vmax is kept; a larger one becomes ±vmax with the input's sign |
| Util.ClampAbsIdempotent | include/doubleswing/util.hpp:20-21 | for vmax ≥ 0, clamping twice equals clamping once |
| Util.ClampAbsNegativeBound | include/doubleswing/util.hpp:20 | with a negative vmax the clamp is not idempotent: 1 becomes −1, which becomes 1 |
| Util.DistanceSymmetric | include/doubleswing/util.hpp:24-27 | the distance from a to b equals the distance from b to a |
| Util.DistanceFacts | include/doubleswing/util.hpp:24-27 | the distance is non-negative and is 0 between a point and itself |
| Drag.Updated | src/core/drag.cpp:15-40 | definition of the filter state `update` leaves; its properties are `Drag.UpdateIgnoresNonPositiveDt`, `Drag.UpdateColdStart`, `Drag.UpdateSmooths`, `Drag.UpdateKeepsBound`, `Drag.UpdateStoresNormalizedAngle` and `Drag.UpdateAfterReset`, and `Drag.DragFilter.Update` computes it |
| Drag.BlendWithin | src/core/drag.cpp:36 | for α' in [0, 1] and an old omega below the sample, the low-pass value lies between the two |
| Drag.FractionOf | src/core/drag.cpp:36 | a fraction in [0, 1] of a non-negative gap is non-negative and at most the gap |
| Drag.UnwrapDelta | src/core/drag.cpp:7-13 | the wrapped difference lies in [−PI, PI] and is new − prev plus whole turns |
| Drag.Deadband | apps/desktop/sfml_app.cpp:111 | a rate below 0.05 in magnitude becomes 0; any other rate is kept |
| Drag.UpdateIgnoresNonPositiveDt | src/core/drag.cpp:16 | with dt ≤ 0, `update` changes no field, so it returns the stored omega |
| Drag.UpdateColdStart | src/core/drag.cpp:18-25 | without history, `update` stores the normalised angle, sets omega to 0 and has_prev to true, and so returns 0 |
| Drag.UpdateSmooths | src/core/drag.cpp:28-38 | with history, the new omega is (1 − α')·omega + α'·clamp_abs(unwrap(θn, prev)/dt, omega_max), with α' = clamp(alpha, 0, 1) |
| Drag.BlendBetween | src/core/drag.cpp:36 | for α' in [0, 1], the low-pass value lies between the old omega and the clamped sample |
| Drag.UpdateKeepsBound | src/core/drag.cpp:32-36 | if omega_max ≥ 0 and \|omega\| ≤ omega_max before any call, the same bound holds after it |
| Drag.UpdateStoresNormalizedAngle | src/core/drag.cpp:18-38 | after any call with dt > 0, has_prev is set and prev_theta is the normalised input, within [−PI, PI] |
| Drag.UpdateAfterReset | include/doubleswing/drag.hpp:17-21 | after `reset(θ0)`, an update with dt > 0 returns α'·clamp_abs(unwrap(θn, θ0)/dt, omega_max), not the cold-start 0 |
| Drag.UpdateAfterResetIsNotZero | include/doubleswing/drag.hpp:20 | a concrete update after `reset(0)` returns 1, not 0 |
| Drag.DragFilter.constructor | include/doubleswing/drag.hpp:9-11 | a new filter has omega = 0, prev_theta = 0 and has_prev = false |
| Drag.DragFilter.Reset | include/doubleswing/drag.hpp:17-21 | `reset(θ)` stores θ unnormalised, zeroes omega and sets has_prev |
| Drag.DragFilter.Update | src/core/drag.cpp:15-40 | the method moves the filter to the state `Updated` describes, and its result is the stored omega on every path |
| Integrator.Rk4 | src/engine.cpp:130-156 | definition of the four-stage RK4 step on four components; its properties are `Integrator.Rk4Equilibrium`, `Integrator.Rk4ZeroStep` and `Integrator.Rk4ConstantField` |
| Integrator.Rk4Pair | src/engine.cpp:81-97 | definition of the same step on two components; its properties are `Integrator.Rk4PairEquilibrium`, `Integrator.Rk4PairZeroStep` and `Integrator.Rk4PairConstantField` |
| Integrator.Rk4Equilibrium | src/engine.cpp:122-161 | a state where the field vanishes is left unchanged by an RK4 step of any size |
| Integrator.AdvanceByRest | src/engine.cpp:130-150 | advancing a state along a zero slope leaves it unchanged |
| Integrator.Rk4ZeroStep | src/engine.cpp:122-161 | an RK4 step of size 0 leaves the state unchanged |
| Integrator.Rk4ConstantField | src/engine.cpp:152-157 | under a constant field c, the four stages combine to y + h·c |
| Integrator.Rk4PairEquilibrium | src/engine.cpp:81-100 | the same equilibrium fact for the two-component RK4 |
| Integrator.AdvancePairByRest | src/engine.cpp:81-100 | the same zero-slope fact for the two-component RK4 |
| Integrator.Rk4PairZeroStep | src/engine.cpp:81-100 | the same zero-step fact for the two-component RK4 |
| Integrator.Rk4PairConstantField | src/engine.cpp:81-100 | the same constant-field fact for the two-component RK4 |
| Core.Accel | src/engine.cpp:14-54 | definition of `accel`: the Euler-Lagrange accelerations over the ε-clamped divisor, minus damping when it is non-zero; its properties are `Core.SafeDivisor`, `Core.DivisorIsDenominator`, `Core.DampedSubtracts` and `Core.AccelAtRest` |
| Core.Rk4Step | src/engine.cpp:122-161 | definition: `Integrator.Rk4` of the engine's field, then both angles normalised; `Core.Engine.Rk4` computes it |
| Core.CappedDt | src/engine.cpp:103 | definition std::clamp(dt, 0, 1/15); its effect is stated by `Core.SteppedCapsDt` and `Core.DragSteppedCapsDt` |
| Core.Stepped | src/engine.cpp:163-168 | definition of the state `step(dt)` leaves; its properties are `Core.SteppedCapsDt`, `Core.SteppedZero`, `Core.SteppedAnglesInRange` and `Core.RestIsFixedPoint`, and `Core.Engine.Step` computes it |
| Core.Bob1CartAccel | src/engine.cpp:56-66 | definition of `bob1_cart_accel`; its properties are `Core.Bob1CartAccelComponents` and `Core.Bob1CartAccelAtRest` |
| Core.PivotAccel | src/engine.cpp:68-79 | definition of `accel_theta2_moving_pivot`; its property is `Core.PivotAccelSubtractsDamping` |
| Core.Rk4Th2Step | src/engine.cpp:81-100 | definition: `Integrator.Rk4Pair` of the moving-pivot field, then th2 normalised; `Core.Engine.Rk4Th2` computes it |
| Core.DragStepped | src/engine.cpp:102-120 | definition of the state `step_drag_p1` leaves; its properties are `Core.DragSteppedImposesLink1`, `Core.DragSteppedCapsDt`, `Core.DragSteppedAnglesInRange` and `Core.DragSteppedRest`, and `Core.Engine.StepDragP1` computes it |
| Core.BobPositions | src/engine.cpp:170-178 | definition of `bob_positions`; its properties are `Core.BobPositionsRods` and `Core.BobPositionsAtRest` |
| Core.Kinetic | src/engine.cpp:190-193 | definition of T; its properties are `Core.KineticNonNegative` and `Core.EnergyAtRest` |
| Core.Potential | src/engine.cpp:197 | definition of U; its properties are `Core.PotentialNonNegative` and `Core.EnergyAtRest` |
| Core.Energy | src/engine.cpp:180-200 | definition T + U of `energy()`; its properties are `Core.EnergyNonNegative` and `Core.EnergyAtRest` |
| Core.Engine.Positions | src/engine.cpp:170-178 | definition: `Core.BobPositions` of the engine's current parameters and state |
| Core.Engine.TotalEnergy | src/engine.cpp:180-200 | definition: `Core.Energy` of the engine's current parameters and state |
| Core.ParamsWithDefaults | include/doubleswing/engine.hpp:5-10 | parameters built from lengths and masses get g = 9.80665 and damping = 0 |
| Core.SafeDivisor | src/engine.cpp:32-33 | the divisor is at least 1e-12 in magnitude and has the denominator's sign, with 0 mapped to +1e-12; a denominator ≥ 1e-12 in magnitude is used as is |
| Core.DenominatorAtLeastTwiceM1 | src/engine.cpp:29 | with m2 ≥ 0, 2·m1 + m2 − m2·cos(2Δθ) ≥ 2·m1 |
| Core.DivisorIsDenominator | src/engine.cpp:29-33 | when 2·m1 ≥ 1e-12 the ε-clamp never changes the denominator |
| Core.DampedSubtracts | src/engine.cpp:50-53 | the `damping != 0` test is the same as subtracting damping·w1 and damping·w2 unconditionally |
| Core.AccelAtRest | src/engine.cpp:36-46 | both accelerations vanish at the all-zero state |
| Core.SteppedCapsDt | src/engine.cpp:163-168 | `step(dt)` with dt ≥ 1/15 equals `step(1/15)`; with dt ≤ 0 it equals `step(0)`; in between it is one RK4 step of dt |
| Core.SteppedZero | src/engine.cpp:153-160 | `step(0)` keeps both rates and only normalises the angles |
| Core.SteppedAnglesInRange | src/engine.cpp:159-160 | after `step` both stored angles lie in [−PI, PI] |
| Core.RestIsFixedPoint | src/engine.cpp:130-160 | the all-zero state is a fixed point of `step` for every dt |
| Core.Bob1CartAccelComponents | src/engine.cpp:56-66 | the static `bob1_cart_accel`, rotated into the rod's frame, has tangential part l1·a1 and radial part −l1·w1² |
| Core.Bob1CartAccelAtRest | src/engine.cpp:56-66 | with w1 = a1 = 0, bob 1 has no Cartesian acceleration |
| Core.PivotAccelSubtractsDamping | src/engine.cpp:68-79 | the moving-pivot acceleration of link 2 is the undamped value minus damping·w2 |
| Core.DragSteppedImposesLink1 | src/engine.cpp:102-120 | `step_drag_p1` stores normalize(th1) and w1 exactly, and its result does not depend on the old th1 and w1 |
| Core.DragSteppedCapsDt | src/engine.cpp:102-120 | `step_drag_p1(dt, …)` with dt ≥ 1/15 equals the call with 1/15; with dt ≤ 0 it equals the call with 0; in between link 2 takes one RK4 step of dt |
| Core.DragSteppedAnglesInRange | src/engine.cpp:106-119 | after `step_drag_p1` both stored angles lie in [−PI, PI] |
| Core.DragSteppedRest | src/engine.cpp:102-120 | dragging link 1 at rest leaves the all-zero state unchanged |
| Core.LayoutRods | src/engine.cpp:170-178 | placing the bobs along unit directions gives rods of lengths l1 and l2 |
| Core.BobPositionsRods | src/engine.cpp:170-178 | wherever sine and cosine lie on the unit circle, bob 1 lies at distance l1 from the pivot and bob 2 at distance l2 from bob 1 |
| Core.BobPositionsAtRest | src/engine.cpp:170-178 | at rest the bobs hang straight down at depths l1 and l1 + l2 |
| Core.KineticNonNegative | src/engine.cpp:193 | with non-negative masses the kinetic energy T is non-negative |
| Core.PotentialNonNegative | src/engine.cpp:197 | with non-negative masses, lengths and g, the potential U is non-negative |
| Core.EnergyNonNegative | src/engine.cpp:180-200 | with non-negative masses, lengths and g, `energy()` is non-negative |
| Core.EnergyAtRest | src/engine.cpp:180-200 | T, U and the energy are all 0 at the all-zero state |
| Core.Engine.constructor | src/engine.cpp:8-12 | the engine stores p, w1 and w2 unchanged and th1, th2 normalised |
| Core.Engine.Rk4 | src/engine.cpp:122-161 | the stage-by-stage `rk4` computes the reference RK4 step of the engine's field, with angles normalised, and changes no field |
| Core.Engine.Rk4Th2 | src/engine.cpp:81-100 | `rk4_th2` computes the reference two-component RK4 step of link 2 about a moving pivot, and changes no field |
| Core.Engine.Step | src/engine.cpp:163-168 | `step` replaces s by the state `Stepped` gives for the capped dt, and changes p nowhere |
| Core.Engine.StepDragP1 | src/engine.cpp:102-120 | `step_drag_p1` replaces s by the state `DragStepped` gives, and changes p nowhere |
| Utility.RadToDeg | src/func.cpp:5-7 | definition rad·180 / PI with the legacy PI; its property is `Utility.DegRadRoundTrip` |
| Utility.DegToRad | src/func.cpp:9-11 | definition deg·PI / 180; its property is `Utility.DegRadRoundTrip` |
| Utility.Distance | src/func.cpp:26-28 | definition sqrtf((x2 − x1)² + (y2 − y1)²); `Simulation::distance` (src/simulation.cpp:104-106) has the same body and is modelled by it; its properties are `Utility.DistanceFacts` |
| Utility.DistanceFacts | src/func.cpp:26-28 | the legacy distance equals the core's `ds::distance`, is symmetric, and with a lawful sqrt is non-negative and 0 between a point and itself |
| Utility.DegRadRoundTrip | src/func.cpp:5-11 | the legacy `deg_to_rad` and `rad_to_deg` are inverse to each other in both orders |
| Utility.NormalizeAngle | src/func.cpp:13-18 | the legacy loops leave the angle in [−PI, PI] with PI = 3.14159265359, coterminal with the input |
| Utility.ClampSpeed | src/func.cpp:20-24 | `clamp_speed` leaves \|v\| ≤ 15, keeps a v already within and maps a larger one to ±15 with v's sign |
| Utility.ClampSpeedIsClampAbs | src/func.cpp:20-24 | `clamp_speed` is the core's `clamp_abs` with bound 15, and is idempotent |
| LegacyPendulum.SingleAccel | src/pendulum.cpp:85-87 | definition −g·sin θ / len; its property is `LegacyPendulum.SingleFieldAtRest` |
| LegacyPendulum.Unwound | src/pendulum.cpp:119-123 | definition of `preventOverflow` on the raw angle; its properties are `LegacyPendulum.UnwoundFacts` |
| LegacyPendulum.Stored | src/pendulum.cpp:110-116 | definition of what a step stores: the unwound raw angle, the normalised mirror angle and the rate; its properties are `LegacyPendulum.StoredFacts` |
| LegacyPendulum.Rk4Swing | src/pendulum.cpp:89-117 | definition: `Integrator.Rk4Pair` of the single-pendulum field, then `Stored`; its properties are `LegacyPendulum.RestIsFixedPoint` and `LegacyPendulum.UpdatedScalesRate`, and `LegacyPendulum.Pendulum.IntegrateRk4` computes it |
| LegacyPendulum.Rubbed | src/pendulum.cpp:129 | definition omega·friction; its property is `LegacyPendulum.RubbedShrinks` |
| LegacyPendulum.UpdatedSwing | src/pendulum.cpp:126-130 | definition `Rubbed` of `Rk4Swing`; its properties are `LegacyPendulum.UpdatedScalesRate` and `LegacyPendulum.RestIsFixedPoint`, and `LegacyPendulum.Pendulum.Update` computes it |
| LegacyPendulum.SingleFieldAtRest | src/pendulum.cpp:85-87 | the single-pendulum field vanishes at θ = 0, ω = 0 |
| LegacyPendulum.UnwoundFacts | src/pendulum.cpp:119-123 | `preventOverflow` keeps an angle within RAD_LIMIT; a larger one becomes its `fmod` by 2·PI, with the same sign, less than a turn in magnitude, coterminal |
| LegacyPendulum.StoredFacts | src/pendulum.cpp:110-116 | after a step thetaNormal lies in [−PI, PI] and is coterminal with −thetaRaw, even after thetaRaw was unwound |
| LegacyPendulum.RestIsFixedPoint | src/pendulum.cpp:89-130 | θ = 0, ω = 0 is a fixed point of `integrate_RK4` and of `update`, and the display angle becomes 0 |
| LegacyPendulum.RubbedShrinks | src/pendulum.cpp:129 | friction in [0, 1] can only shrink the rate, and leaves both angles alone |
| LegacyPendulum.UpdatedScalesRate | src/pendulum.cpp:126-130 | `update` gives the angles of the RK4 step and its rate scaled by friction |
| LegacyPendulum.Pendulum.constructor | src/pendulum.cpp:4-21 | a new link starts from the given angle at rest, with no acceleration and friction 1 |
| LegacyPendulum.Pendulum.WithFriction | src/pendulum.cpp:23-40 | as above, with the given friction factor |
| LegacyPendulum.Pendulum.IntegrateEuler | src/pendulum.cpp:80-83 | omega moves first, then thetaRaw moves with the new omega |
| LegacyPendulum.Pendulum.PreventOverflow | src/pendulum.cpp:119-123 | thetaRaw becomes its unwound value, and nothing else changes |
| LegacyPendulum.Pendulum.IntegrateRk4 | src/pendulum.cpp:89-117 | the stage-by-stage step equals the reference RK4 step of the single-pendulum field, then normalises the mirror angle and unwinds |
| LegacyPendulum.Pendulum.Update | src/pendulum.cpp:126-130 | one RK4 step of 1/60 s, then friction on the rate |
| LegacyPendulum.Pendulum.Rub | src/pendulum.cpp:129 | the rate is multiplied by friction and nothing else changes |
| LegacyPendulum.Pendulum.SetTheta | src/pendulum.cpp:165-168 | thetaRaw := a and thetaNormal := −a, without normalising |
| LegacyPendulum.Pendulum.SetSpeed | src/pendulum.cpp:170-172 | omega := v |
| LegacyDouble.Spread | src/double_pend.cpp:23 | definition 2·m1 + m2·(1 − cos(2θ1 − 2θ2)); its properties are `LegacyDouble.SpreadAtLeastTwiceM1` and `LegacyDouble.DivisorNonZero` |
| LegacyDouble.AccelP1 | src/double_pend.cpp:17-24 | definition of `calculate_accel_p1`; its properties are `LegacyDouble.DivisorNonZero` and `LegacyDouble.AccelAtRest` |
| LegacyDouble.AccelP2 | src/double_pend.cpp:28-33 | definition of `calculate_accel_p2`; its properties are `LegacyDouble.DivisorNonZero` and `LegacyDouble.AccelAtRest` |
| LegacyDouble.EulerBoth | src/double_pend.cpp:35-40 | definition of `integrateBoth_Euler`; its properties are `LegacyDouble.EulerBothFixedPoints`, and `LegacyDouble.EulerStatements` shows that the four statements compute it |
| LegacyDouble.BothRk4 | src/double_pend.cpp:42-85 | definition: `Integrator.Rk4` of the two-link field, then `Stored` for each link; its properties are `LegacyDouble.BothRestIsFixedPoint` and `LegacyDouble.BothStages` |
| LegacyDouble.P2Rk4 | src/double_pend.cpp:87-114 | definition: `Integrator.Rk4Pair` of link 2 about a held link 1, the rate clamped, then `Stored`; its properties are `LegacyDouble.P2RestIsFixedPoint`, `LegacyDouble.P2SpeedBounded` and `LegacyDouble.P2Stages` |
| LegacyDouble.UpdatedBoth | src/double_pend.cpp:116-124 | definition: `BothRk4`, then each link's friction; its property is `LegacyDouble.BothRestIsFixedPoint`, and `LegacyDouble.DoublePendulum.UpdateBoth` computes it |
| LegacyDouble.UpdatedP2 | src/double_pend.cpp:126-132 | definition: `P2Rk4`, then link 2's friction; its properties are `LegacyDouble.P2RestIsFixedPoint` and `LegacyDouble.P2SpeedBounded`, and `LegacyDouble.DoublePendulum.UpdateP2` computes it |
| LegacyDouble.SpreadAtLeastTwiceM1 | src/double_pend.cpp:23 | with m2 ≥ 0 and cos ≤ 1, 2·m1 + m2·(1 − cos 2Δ) ≥ 2·m1 |
| LegacyDouble.DivisorNonZero | src/double_pend.cpp:32 | with a positive m1 and a non-zero length, neither acceleration divides by zero |
| LegacyDouble.AccelAtRest | src/double_pend.cpp:17-33 | both accelerations vanish at the all-zero state |
| LegacyDouble.EulerBothFixedPoints | src/double_pend.cpp:35-40 | the Euler step of size 0 is the identity, and the all-zero state is fixed by every Euler step |
| LegacyDouble.BothRestIsFixedPoint | src/double_pend.cpp:42-85 | the all-zero state is a fixed point of `integrateBoth_RK4` and of `updateBoth` |
| LegacyDouble.P2RestIsFixedPoint | src/double_pend.cpp:87-114 | with link 1 at rest, a resting link 2 stays at rest under `integrateP2_RK4` and `updateP2` |
| LegacyDouble.P2SpeedBounded | src/double_pend.cpp:112 | after `integrateP2_RK4`, and after the friction of `updateP2`, \|p2.omega\| ≤ 15 |
| LegacyDouble.EulerStatements | src/double_pend.cpp:35-40 | the four statements compute the Euler step: p2's acceleration uses p1's new omega, and both angles move after both rates |
| LegacyDouble.BothStages | src/double_pend.cpp:43-82 | the hand-written stages equal the reference RK4 step of the double-pendulum field |
| LegacyDouble.P2Stages | src/double_pend.cpp:88-111 | the hand-written stages equal the reference RK4 step of link 2, with p1's angle and rate held fixed |
| LegacyDouble.DoublePendulum.constructor | src/double_pend.cpp:4-8 | two fresh links at rest with the given angles, lengths and masses, and friction 1 |
| LegacyDouble.DoublePendulum.WithFriction | src/double_pend.cpp:10-15 | as above, both links with the given friction |
| LegacyDouble.DoublePendulum.IntegrateBothEuler | src/double_pend.cpp:35-40 | the links' angles and rates become the Euler step of the old ones |
| LegacyDouble.DoublePendulum.PreventOverflow | src/double_pend.cpp:134-137 | both raw angles are unwound |
| LegacyDouble.DoublePendulum.IntegrateBothRk4 | src/double_pend.cpp:42-85 | both links become the stored RK4 step: normalised mirror angles, unwound raw angles |
| LegacyDouble.DoublePendulum.IntegrateP2Rk4 | src/double_pend.cpp:87-114 | link 2 becomes its stored RK4 step with a clamped rate; link 1 is untouched |
| LegacyDouble.DoublePendulum.UpdateBoth | src/double_pend.cpp:116-124 | RK4 on both links for 1/60 s, then each link's rate times its own friction |
| LegacyDouble.DoublePendulum.RubBoth | src/double_pend.cpp:122-123 | each link's rate is multiplied by its own friction |
| LegacyDouble.DoublePendulum.UpdateP2 | src/double_pend.cpp:126-132 | link 2 is stepped and rubbed; link 1 keeps all its fields |
| LegacySim.GrabsP1 | src/simulation.cpp:112-121 | definition of the bob 1 hit test, with the y of the bob flipped; `LegacySim.Clicked` states its use |
| LegacySim.GrabsP2 | src/simulation.cpp:116-128 | definition of the bob 2 hit test; `LegacySim.Clicked` states its use |
| LegacySim.PointerAngle1 | src/simulation.cpp:144-146 | definition atan2(dy, dx) − PI/2 about the pivot; `LegacySim.Dragged` states its use |
| LegacySim.PointerAngle2 | src/simulation.cpp:157-163 | definition atan2(dy, dx) − PI/2 about bob 1 at link 1's new angle; `LegacySim.Dragged` states its use |
| LegacySim.Handled | src/simulation.cpp:63-73 | definition of one polled event; `LegacySim.Simulation.HandleEvent` computes it |
| LegacySim.Events | src/simulation.cpp:62-74 | definition of the polling loop as a fold; its properties are `LegacySim.EventsKeepClosed`, `LegacySim.EventsStopWhenClosed` and `LegacySim.NoPressNoGrab` |
| LegacySim.Framed | src/simulation.cpp:60-81 | definition: `Events`, then `Ticked`; its property is `LegacySim.ReleaseResumesBoth`, and `LegacySim.Simulation.Frame` computes it |
| LegacySim.Ran | src/simulation.cpp:58-89 | definition of the main loop as a fold over frames; its property is `LegacySim.RanStopsWhenClosed`, and `LegacySim.Simulation.Run` computes it |
| LegacySim.Reset | src/simulation.cpp:181-187 | both links get angle 0 and rate 0, the drag hint is shown, and the drag flags are kept |
| LegacySim.MenuClicked | src/simulation.cpp:189-198 | a left press on the reset button resets; any other event changes nothing |
| LegacySim.Clicked | src/simulation.cpp:108-133 | a left press grabs P1 when it hits; it grabs P2 only when P1 misses and P2 hits; a grab hides the hint; rates and angles are untouched |
| LegacySim.Released | src/simulation.cpp:173-179 | a left release clears both drag flags and nothing else; other events change nothing |
| LegacySim.DragTo | src/simulation.cpp:146-152 | a dragged link gets the pointer angle as thetaRaw and its negation as thetaNormal, and its rate is the speed estimate clamped to ±15 |
| LegacySim.Dragged | src/simulation.cpp:136-171 | a move drags P1 to the pointer angle, then P2 about P1's new position, each only while grabbed; open and flags are kept |
| LegacySim.Ticked | src/simulation.cpp:77-81 | with no drag both links update; with only P1 dragged link 1 stays and link 2 takes `updateP2` about it; with P2 dragged nothing moves |
| LegacySim.HeldP1BoundsP2Speed | src/simulation.cpp:80-81 | while P1 alone is dragged, a frame leaves \|p2.omega\| ≤ 15 |
| LegacySim.EventsKeepClosed | src/simulation.cpp:60-74 | event handling never reopens the window, and once it is closed no event changes anything |
| LegacySim.EventsStopWhenClosed | src/simulation.cpp:62-64 | later events after a Closed event have no effect |
| LegacySim.NoPressNoGrab | src/simulation.cpp:108-133 | events without a left press grab neither link and leave the hint alone |
| LegacySim.ReleaseResumesBoth | src/simulation.cpp:70-78 | when a frame's last event is a left release, the frame ends with `updateBoth` on the handled state |
| LegacySim.RanStopsWhenClosed | src/simulation.cpp:60 | no frame runs after the window is closed |
| LegacySim.Simulation.constructor | src/simulation.cpp:4-7 | both links at rest at angle 0 with lengths 4, masses 2 and friction 0.9995; no drag; the hint is shown |
| LegacySim.Simulation.BuiltIsSound | src/simulation.cpp:5 | the built pendulum's sizes keep both accelerations' divisors non-zero |
| LegacySim.Simulation.ResetAll | src/simulation.cpp:181-187 | the simulation moves to `Reset` of its old state |
| LegacySim.Simulation.CheckMenuClick | src/simulation.cpp:189-198 | the simulation moves to `MenuClicked` of its old state |
| LegacySim.Simulation.HandleClick | src/simulation.cpp:108-133 | the simulation moves to `Clicked` of its old state |
| LegacySim.Simulation.HandleMouseRelease | src/simulation.cpp:173-179 | the simulation moves to `Released` of its old state |
| LegacySim.Simulation.HandleMouseMove | src/simulation.cpp:136-171 | the simulation moves to `Dragged` of its old state |
| LegacySim.Simulation.HandleEvent | src/simulation.cpp:63-73 | one event: close, menu, click, release and move handlers in that order |
| LegacySim.Simulation.Tick | src/simulation.cpp:77-81 | the simulation moves to `Ticked` of its old state |
| LegacySim.Simulation.Frame | src/simulation.cpp:60-81 | the event loop folds `HandleEvent` over the frame's events and stops after a close, then ticks |
| LegacySim.Simulation.Run | src/simulation.cpp:58-89 | dt is 1/60 and the main loop folds `Frame` over the frames while the window is open |
| Desktop.Bob1Px | apps/desktop/sfml_app.cpp:192-197 | definition of `bob1_px`: the pivot plus bob 1's engine position times px_per_meter |
| Desktop.Bob2Px | apps/desktop/sfml_app.cpp:199-204 | definition of `bob2_px`, the same for bob 2 |
| Desktop.PivotAngle | apps/desktop/sfml_app.cpp:209-213 | definition; `Desktop.SfmlApp.ThetaAboutPivot` computes it |
| Desktop.Bob1Angle | apps/desktop/sfml_app.cpp:215-220 | definition; `Desktop.SfmlApp.ThetaAboutBob1` computes it |
| Desktop.Polled | apps/desktop/sfml_app.cpp:39-94 | definition of the polling loop as a fold; its properties are `Desktop.PolledKeepsSteady` and `Desktop.PolledStopsWhenClosed`, and `Desktop.SfmlApp.HandleEvents` computes it |
| Desktop.Framed | apps/desktop/sfml_app.cpp:29-33 | definition: `Polled`, then `UpdatedApp` with the clamped frame time |
| Desktop.Ran | apps/desktop/sfml_app.cpp:23-37 | definition of the main loop as a fold over frames; its properties are `Desktop.RanKeepsSteady` and `Desktop.RanStopsWhenClosed`, and `Desktop.SfmlApp.Run` computes it |
| Desktop.FrameDt | apps/desktop/sfml_app.cpp:31 | the frame time is clamped into [1/2400, 1/15] |
| Desktop.FrameDtWithinEngineCap | apps/desktop/sfml_app.cpp:31 | the clamped frame time is positive and the engine's own cap never changes it |
| Desktop.Pressed | apps/desktop/sfml_app.cpp:52-76 | a bob 2 hit (≤ 25 px) wins over a bob 1 hit (≤ 30 px); the grab sets one flag, clears the other and resets that link's filter at the engine's angle; a miss changes nothing |
| Desktop.KeyReset | apps/desktop/sfml_app.cpp:84-92 | R sets th1, w1, th2, w2 to 0 and resets both filters at angle 0, keeping the drag flags |
| Desktop.HandledEvent | apps/desktop/sfml_app.cpp:39-94 | a left release clears both flags and keeps the velocities; Closed closes; Resized recentres the pivot |
| Desktop.UpdatedApp | apps/desktop/sfml_app.cpp:96-126 | dragging1: filter (0.15, 10), deadband and `step_drag_p1` with a1 = 0; dragging2: th2 and w2 overwritten, `step`, th2 restored; otherwise `step` alone |
| Desktop.HandledEventKeepsSteady | apps/desktop/sfml_app.cpp:39-94 | events never set both flags, and both filters stay within 10 |
| Desktop.PolledKeepsSteady | apps/desktop/sfml_app.cpp:41-93 | the same over any sequence of events |
| Desktop.UpdatedKeepsSteady | apps/desktop/sfml_app.cpp:96-126 | an update keeps both filters within 10 |
| Desktop.RanKeepsSteady | apps/desktop/sfml_app.cpp:23-37 | across any number of frames at most one bob is dragged and both filter estimates stay within 10 |
| Desktop.HeldRateBounded | apps/desktop/sfml_app.cpp:106-115 | while bob 1 is dragged, the engine receives \|w1\| ≤ 10 and th1 is the pointer angle normalised |
| Desktop.PolledStopsWhenClosed | apps/desktop/sfml_app.cpp:42-45 | events after Closed are not handled |
| Desktop.RanStopsWhenClosed | apps/desktop/sfml_app.cpp:28 | no frame runs after the window is closed |
| Desktop.SfmlApp.constructor | apps/desktop/sfml_app.cpp:7-21 | the window is open, the pivot is at the window's centre and nothing is dragged |
| Desktop.SfmlApp.Press | apps/desktop/sfml_app.cpp:52-76 | the app moves to `Pressed` of its old state |
| Desktop.SfmlApp.ResetKey | apps/desktop/sfml_app.cpp:84-92 | the app moves to `KeyReset` of its old state |
| Desktop.SfmlApp.HandleEvent | apps/desktop/sfml_app.cpp:42-92 | the app moves to `HandledEvent` of its old state |
| Desktop.SfmlApp.HandleEvents | apps/desktop/sfml_app.cpp:39-94 | the polling loop folds `HandleEvent` over the events and stops at Closed |
| Desktop.SfmlApp.ThetaAboutPivot | apps/desktop/sfml_app.cpp:209-213 | the pointer angle about the pivot, normalised |
| Desktop.SfmlApp.ThetaAboutBob1 | apps/desktop/sfml_app.cpp:215-220 | the pointer angle about bob 1's pixel position, normalised |
| Desktop.SfmlApp.Update | apps/desktop/sfml_app.cpp:96-126 | the app moves to `UpdatedApp` of its old state |
| Desktop.SfmlApp.Run | apps/desktop/sfml_app.cpp:23-37 | the main loop folds poll-then-update over the frames while the window is open |
| JsMath.Rad2Deg | web/utils/math.js:3-5 | definition r·180 / Math.PI; its property is `JsMath.Rad2DegInverse` |
| JsMath.Rad2DegInverse | web/utils/math.js:3-5 | `rad2deg` undoes the conversion to radians |
| JsMath.Clamp | web/utils/math.js:7-9 | `clamp` never exceeds hi, is at least lo when lo ≤ hi, and returns v when v is inside |
| JsMath.ClampAgreesWithStd | web/utils/math.js:7-9 | for lo ≤ hi it is the usual clamp; for hi < lo it returns hi |
| JsMath.NormalizeAngle | web/utils/math.js:11-15 | the loops return a value in [−π, π] coterminal with the input |
| JsMath.UnwrapDelta | web/utils/math.js:17-19 | the normalised difference lies in [−π, π] and is n − o plus whole turns |
| JsMath.ThetaFromMouse | web/utils/math.js:22-24 | for any atan2 result, the angle lies in [−π, π] and is coterminal with that result |
| JsDrag.Filtered | web/input/drag.js:17-30 | definition of the estimator `updateFilteredOmega` leaves; its properties are `JsDrag.FilteredColdStart`, `JsDrag.FilteredIsBlend`, `JsDrag.FilteredKeepsBound` and `JsDrag.FilteredRecordsSample` |
| JsDrag.FilteredColdStart | web/input/drag.js:18-23 | without history the sample is recorded, filtOmega becomes 0, hasPrev is set, and 0 is returned |
| JsDrag.FilteredIsBlend | web/input/drag.js:24-28 | with history, filtOmega := 0.18·clamp(unwrap/dt, ±15) + 0.82·filtOmega |
| JsDrag.FilteredKeepsBound | web/input/drag.js:27-28 | \|filtOmega\| ≤ 15 is preserved by every call |
| JsDrag.FilteredRecordsSample | web/input/drag.js:19-25 | every call stores the raw th as prevTh, without normalising |
| JsDrag.GrabRadius | web/input/drag.js:72-73 | each grab radius lies in [56, 90] |
| JsDrag.HitTest | web/input/drag.js:75-77 | dragging is 2 exactly when d2 ≤ GRAB2, 1 exactly when GRAB2 < d2 and d1 ≤ GRAB1, and 0 otherwise |
| JsDrag.DragController.constructor | web/input/drag.js:8-11 | nothing is dragged, prevTh = 0, no history, filtOmega = 0 and no active pointer |
| JsDrag.DragController.UpdateFilteredOmega | web/input/drag.js:17-30 | the closure variables move as `Filtered` says, the result is the new filtOmega, and \|filtOmega\| ≤ 15 stays invariant |
| JsDrag.DragController.PointerDown | web/input/drag.js:36-83 | a second pointer is ignored; the first is captured, chooses the dragged bob by the hit test and clears the history |
| JsDrag.DragController.PointerMove | web/input/drag.js:85-93 | only the active pointer updates the last position |
| JsDrag.DragController.EndPointer | web/input/drag.js:95-105 | for the active pointer: nothing dragged, no pointer, history cleared; other pointers change nothing |
| JsDrag.DragController.ResetFilter | web/input/drag.js:114-116 | clears only the history flag |
| WebApp.PlanOf | web/app.js:97-130 | definition of the branch every iteration of a frame takes, from the drag mode and pointer read at the start; `WebApp.App.Frame` states its use |
| WebApp.Tick | web/app.js:118-136 | definition of one iteration's engine calls and filter state; `WebApp.App.Iterate` computes it |
| WebApp.Ticks | web/app.js:116-140 | definition of n iterations; its properties are `WebApp.TicksAdvanceOncePerStep`, `WebApp.TicksDragBob1` and `WebApp.TicksFree` |
| WebApp.Iterations | web/app.js:116-140 | definition of the iteration count; its properties are `WebApp.IterationsCount` and `WebApp.StepsAreIterations` |
| WebApp.IterationsCount | web/app.js:116-140 | the loop runs 0 iterations when acc < 1/240 and otherwise min(8, ⌊240·acc⌋) |
| WebApp.StepsAreIterations | web/app.js:116-140 | a loop that ran n steps, at most 8, with time still owed before each and either 8 steps or less than one step owed at the end, ran exactly `Iterations(acc)` steps |
| WebApp.TicksAdvanceOncePerStep | web/app.js:117-140 | every iteration issues exactly one engine step, so a frame advances the engine once per iteration |
| WebApp.TicksDragBob1 | web/app.js:118-125 | while bob 1 is dragged, every iteration is `step_drag_p1(1/240, th1, w1, 0)` with w1 zeroed below 0.05 |
| WebApp.TicksFree | web/app.js:126-135 | with no drag, every iteration is a plain `step(1/240)` and the filter is left alone |
| WebApp.App.constructor | web/app.js:34-49 | default parameters, acc = 0, `last` = the start time, and a call log holding only the start-up `syncEngineParams` with the defaults |
| WebApp.App.ResetFiltersAndTiming | web/app.js:55-58 | acc becomes 0 and the drag history is cleared |
| WebApp.App.KeyDown | web/app.js:75-80 | R or r logs `ds_reset(−0.1, 0)`, zeroes acc and clears the drag history; any other key changes nothing |
| WebApp.App.Iterate | web/app.js:118-136 | one iteration appends its engine calls to the log and moves the filter as `Tick` says |
| WebApp.App.RunSteps | web/app.js:116-140 | the loop runs `Iterations(acc)` steps, at most 8, subtracts 1/240 per step, and stops only when acc < 1/240 or at 8 steps |
| WebApp.App.Frame | web/app.js:90-140 | the frame time is capped at 1/15 s before it is added to acc, and the loop then runs as in `RunSteps` |
| Controls.ReadParams | web/ui/controls.js:17-26 | l1, l2 lie in [0.1, 50], m1, m2 in [0.01, 100], g in [0, 50] and damping in [0, 5] |
| Controls.ReadParamsFixesExactlyInRange | web/ui/controls.js:19-24 | the validator returns its input unchanged if and only if every field is already in range |
| Controls.ReadParamsIdempotent | web/ui/controls.js:19-24 | validating twice equals validating once |
| Controls.DefaultsInRange | web/engine/params.js:3-10 | the default parameters pass the validator unchanged |
| Controls.ValidatedParamsSuitEngine | web/ui/controls.js:19-24 | validated parameters give the engine non-zero rod lengths, a denominator never below its ε and non-negative m2 and g |
| Controls.Panel.constructor | web/ui/controls.js:29-37 | the panel is bound to the app with an empty status line |
| Controls.Panel.Apply | web/ui/controls.js:38-46 | it writes only the status, params, log, acc and filter history, and while dragging none of these changes; otherwise the params are validated, synced to the engine, acc is zeroed and the history cleared |
| Controls.Panel.Defaults | web/ui/controls.js:48-60 | it writes only the status, params, log, acc and filter history, and while dragging none of these changes; otherwise the engine is reset, the defaults are synced, acc is zeroed and the history cleared |
| Controls.Panel.Reset | web/ui/controls.js:62-66 | with no dragging guard, the engine is reset to (−0.1, 0), acc is zeroed and the history cleared; params, `last`, the drag mode, the pointer and the rest of the filter stay |
| EnergyBar.BarLayout | web/ui/energybar.js:18-20 | definition of the two widths and the divider offset; its properties are `EnergyBar.BarLayoutFacts` |
| EnergyBar.Fractions | web/ui/energybar.js:9-16 | KE/E and PE/E when E > 1e-3, otherwise 0.5 and 0.5 |
| EnergyBar.FractionsSumToOne | web/ui/energybar.js:11-16 | the two fractions sum to 1 in both branches |
| EnergyBar.FractionsInUnit | web/ui/energybar.js:13-16 | with KE, PE ≥ 0 both fractions lie in [0, 1] |
| EnergyBar.BarLayoutFacts | web/ui/energybar.js:18-20 | the divider sits at the KE bar's width, and the two widths sum to 100 % |
| Sprites.Backoff | web/gfx/sprites.js:40 | definition 250·2^(attempts − 1); its properties are `Sprites.BackoffDoubles` |
| Sprites.Retried | web/gfx/sprites.js:30-41 | definition of the record after `tryRetrySprite`; its properties are `Sprites.RetriedEffect`, `Sprites.RetriedKeepsReadiness`, `Sprites.RetriedKeepsCap` and `Sprites.RetriedExhausted` |
| Sprites.BackoffDoubles | web/gfx/sprites.js:40 | the first retry waits 250 ms and each further retry waits twice as long |
| Sprites.RetriedEffect | web/gfx/sprites.js:31-41 | a retry happens exactly when status is err, attempts < maxAttempts and now ≥ nextRetryAt; it adds one attempt, sets loading and schedules now + 250·2^(attempts−1) |
| Sprites.RetriedKeepsCap | web/gfx/sprites.js:33-36 | attempts never exceeds maxAttempts, which never changes |
| Sprites.RetriedExhausted | web/gfx/sprites.js:33 | a sprite that used up its attempts is never retried |
| Sprites.Sprite.constructor | web/gfx/sprites.js:7-14 | a new record is loading, with 0 attempts, at most 3, and no retry scheduled |
| Sprites.Sprite.OnLoad | web/gfx/sprites.js:16-18 | a load sets ok when the image has a width and err otherwise, so the sprite becomes ready exactly when the width is positive |
| Sprites.Sprite.OnError | web/gfx/sprites.js:19-21 | an error sets err, so the sprite is not ready |
| Sprites.TryRetrySprite | web/gfx/sprites.js:30-45 | a null sprite is ignored; otherwise the record moves as `Retried` says; an actual retry starts a new image request, so the image is no longer complete; readiness does not change |
| Sprites.RetriedKeepsReadiness | web/gfx/sprites.js:30-45 | a retry leaves a record ok exactly when it was ok |
| Sprites.ImageReady | web/gfx/sprites.js:47-49 | true exactly when the sprite exists, is ok, and its image is complete with a positive width |

## Left out

- Floating point: every quantity is an exact real. Float rounding, `float` versus `double`, overflow to infinity and NaN are not modelled. The legacy code's casts between `float` and `double` are therefore identities.
- `sin`, `cos`, `sqrt` and `atan2` are parameters. Only the laws listed above are assumed, and only by the lemmas that state them. No claim about numerical accuracy, energy drift or chaos is made.
- Rendering and its wiring are not modelled: SFML windows, fonts, shapes and HUD text, `SfmlApp::render`, `Simulation::draw_all`, `Pendulum::setCoords`/`draw` and `DoublePendulum::draw`. The same holds for the canvas drawing, viewport, readout, theme and info modal of the web front end.
- Pixel positions: the desktop's `bob1_px`/`bob2_px` (apps/desktop/sfml_app.cpp:192-204) are modelled as plain functions, with no property of their own. They decide hits, and `bob1_px` is also the centre about which the mouse angle for dragging bob 2 is taken (apps/desktop/sfml_app.cpp:216, `Desktop.SfmlApp.ThetaAboutBob1`).
- JsDrag.DragController.PointerDown: the hit distances `d1` and `d2` are inputs. Their geometry is not modelled (web/input/drag.js:48-69): the viewport centre, the 32 px margin, the scale `usable * 0.5 / Math.max(0.1, l1 + l2)`, the bob positions read from the engine, and `Math.hypot`. The same holds for the pixel scale of web/app.js:103-105.
- I/O is not modelled. This covers clocks (`sf::Clock`, `performance.now()`), the mouse position reader, `pollEvent`, `requestAnimationFrame`, DOM listeners, pointer capture and the image request. These all become inputs: event sequences, elapsed times, pointer points and image widths.
- The WebAssembly layer (web/engine/wasm.js, web/bindings.cpp, web/engine/params.js apart from its defaults) is foreign code. Calls into it are logged as `WebApp.Command` values, which the model does not evaluate. `WebApp.App.Frame` takes two pixel points as inputs. `center` is half the viewport size (web/app.js:100-101). `bob1Px` is bob 1's pixel position, computed from `ds_update_positions` and the position getters (web/app.js:103-114).
- web/ui/infoLoader.js is not part of this model. It does network I/O and calls an external Markdown parser.
- `engine.energy_breakdown()` (apps/desktop/sfml_app.cpp:139) is called but not declared by the engine, so it is not modelled. `Core.Kinetic` and `Core.Potential` are the T and U of src/engine.cpp:193-197.
- `Pendulum::getTheta()`, called in src/simulation.cpp, is declared nowhere in the legacy sources. It is modelled as returning `thetaRaw`. The getters `getLen`, `getThetaRaw`, `getThetaNorm`, `getSpeed`, `getAccel` and the setter `setAccel` are plain field reads and writes, used directly.
- LegacySim.MenuClicked: the reset button's bounds test needs the font-dependent button rectangle. Whether a press lies on the button is therefore an input flag `onReset`.
- LegacySim.Clicked: the grab radii are the drawn weight radii, 15 px times 8 and 4. Reading them back from `sf::CircleShape` is not modelled.
- The `Simulation` field `paused` is never read and is left out. `dt` is set by `operator()` before any handler runs, so handlers require a non-zero `dt`.
- The legacy constructors' SFML members (arm, weight, colours, origins) are not modelled. The `Simulation` constructor's font loading is not modelled either, and neither is its exception.
- LegacyDouble.AccelP1: both legacy accelerations, and everything built on them, require `Sound`: cos ≤ 1, m1 > 0, m2 ≥ 0 and non-zero rod lengths. These rule out a zero divisor, which the source leaves to chance. `LegacySim.Simulation.BuiltIsSound` shows that the built pendulum meets it.
- Core.Engine.Step: the engine's `accel` needs `Divisible(p)`, that is non-zero rod lengths, because it divides by l1 and l2. The source performs these divisions without a check.
- Sprites.Sprite.OnLoad: the cache-busting reload URL (web/gfx/sprites.js:44) is browser I/O and is not modelled. `Sprites.TryRetrySprite` marks the new request by clearing `imgComplete`. It keeps `naturalWidth`, which is 0 after any error anyway.
- WebApp.App.Frame: `t − last` is taken as given. A negative elapsed time is not rejected, just as in the source.
- Utility.NormalizeAngle, Util.NormalizeAngle, JsMath.NormalizeAngle: the loops terminate because reals are exact. With floats, a huge angle could make `a += 2π` a no-op; that case is not modelled.
