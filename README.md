# Rollercoaster ride logic: spline travel, snap turning, flocking, speed modes

A Dafny model of the discrete logic behind a VR rollercoaster ride built on
Unity. It covers two source files.

- `SPEngine.VR` (Assets/Scripts/Libraries/SPEngine.cs) drives a rider along a
  Bezier spline. Each frame the spline advances the curve parameter
  `progress`. The tracker then applies its end-point logic:
  - clamp, loop or reflect (to and fro), depending on the travel mode;
  - raise the path-completed event once per arrival, guarded by one latch
    per end.

  The same class also holds:
  - the yaw controls: a pending-rotation ratchet for snap turning, the
    discrete snap step, and an animated approach to a snap target, which
    measures angles with `AngleDifference`;
  - the neighbour scan of its flocking behaviour.
- `SpeedController` (Assets/Scripts/SpeedController.cs) switches between
  three speed modes when the cart enters tagged trigger volumes. It then
  ramps the follower's speed each frame, linearly, toward the new mode's
  speed.

Layout:

| file | module | contents |
|---|---|---|
| float_math.dfy | `FloatMath` | the engine's `Sign`/`Abs`/`Max`; C#'s truncating float remainder by 360 (`Rem360`); angles equal up to whole turns |
| spline_progress.dfy | `SplineProgress` | the end-point transition `Boundary` as a pure function, runs of ticks, and the latch lemmas |
| yaw.dfy | `Yaw` | `AngleDifference`, the ratchet, the animation step and the snap step as pure functions; multi-frame draining of the pending rotation |
| vr.dfy | `SPEngine` | class `VR`, whose fields are updated in place by `MoveAlongSpline` and the yaw update, each proved to perform the pure transition |
| flocking.dfy | `Flocking` | the neighbour loop as a method, proved against recursive sums; the averaging step |
| speed_controller.dfy | `SpeedControl` | the pure trigger and frame transitions, ramp lemmas, and classes `SpeedController`/`SplineFollower` whose methods perform them |

Modelling conventions:
- Floats are `real`.
- `Time.deltaTime` is the parameter `dt`.
- The spline's arc-length advance (`BezierSpline.MoveAlongSpline`) is a
  function parameter `moveAlong` of the model.
- The input devices are reduced to what they produce each frame:
  - the turn input added to the pending rotation;
  - the two snap-step booleans;
  - the current yaw.
- Flock positions and forward directions are sequences indexed like the
  flock list.

Re-entering a trigger with the same tag does not restart the ramp.
`OnTriggerEnter` makes `previousSpeedMode` equal `speedMode`, no branch of
`Update` applies, and the speed freezes with `changeSpeed` still set
(`SpeedControl.SameTagReentryFreezes`).

Snap turning and animated turning are switched on only by the private
setters `SetRotationSnap` and `SetRotationAnimation`
(Assets/Scripts/Libraries/SPEngine.cs:853-863), and nothing in the source
calls them. In the shipped class `rotationSnap` therefore stays false and
`rotationAnimation` stays 0. So the ratchet, the animation and the animated
snap step are modelled as written but never run there. The live yaw path is
smooth turning plus the immediate snap step (the second clause of
`SPEngine.YawFrame`).

A snap button pressed in the same direction as a ratchet step of the same
frame is merged into that step (Assets/Scripts/Libraries/SPEngine.cs:738-741
and 768). Only one ratchet turns, so the rotation of the press is lost
(`SPEngine.PressMergedWithRatchetStep`).

## Model

| member | source | states |
|---|---|---|
| FloatMath.Sign | Assets/Scripts/Libraries/SPEngine.cs:742 | `Mathf.Sign`: 1 for zero and positives, -1 for negatives; the product with the argument is never negative |
| FloatMath.Rem360 | Assets/Scripts/Libraries/SPEngine.cs:612 | C# float `% 360`: the result differs from the argument by whole turns; it lies in [0, 360) for a non-negative argument and in (-360, 0] for a negative one |
| SplineProgress.ModeOf | Assets/Scripts/Libraries/SPEngine.cs:483-491 | tag 1 clamps, tag 2 loops, and every other tag (not only 3) reflects |
| SplineProgress.TargetSpeed | Assets/Scripts/Libraries/SPEngine.cs:443 | the signed speed has the magnitude of `speed`; for non-zero speed it is positive exactly when `(speed > 0) == isGoingForward`, the end the boundary check then inspects |
| SplineProgress.Boundary | Assets/Scripts/Libraries/SPEngine.cs:460-522 | the event fires iff the tick ends in the band of the end being approached and that end's latch is clear; that latch becomes "in band"; the other latch is untouched; outside the band, progress and direction are kept; Once parks exactly on 1 or 0; Loop takes off or adds exactly one traversal; to-and-fro mirrors about the end point and flips the direction exactly once, so the next tick heads for the other end; an overshoot of at most one traversal lands within the relaxation band of [0, 1] |
| SplineProgress.FiresOncePerEntry | Assets/Scripts/Libraries/SPEngine.cs:473-522 | over any run of ticks without reflection, the direction never changes and the number of completion events equals the number of entries into the end band (a set latch counts as already in the band) |
| SplineProgress.DwellEntersAtMostOnce | Assets/Scripts/Libraries/SPEngine.cs:475-481 | a run that stays in the end band enters it at most once: only at the first tick, and only when it was outside before |
| SplineProgress.FiresOncePerDwell | Assets/Scripts/Libraries/SPEngine.cs:475-481 | while successive ticks stay in the band (clamp or loop), the event fires exactly once if the latch was clear and never if it was set |
| SPEngine.VR.constructor | Assets/Scripts/Libraries/SPEngine.cs:125-173 | the field initialisers: progress 0, going forward, both latches clear, relaxation 0.01, no snap turning, no animation, nothing pending |
| FloatMath.Abs | Assets/Scripts/Libraries/SPEngine.cs:736 | `Mathf.Abs`: never negative, and equal to the argument or its negation |
| FloatMath.Max | Assets/Scripts/Libraries/SPEngine.cs:755 | `Mathf.Max`: at least both arguments and equal to one of them |
| SplineProgress.Distance | Assets/Scripts/Libraries/SPEngine.cs:455 | over a positive frame time and a non-zero speed, the signed distance handed to the spline points at the end the boundary check then inspects |
| SplineProgress.Advance | Assets/Scripts/Libraries/SPEngine.cs:443-522 | one whole tick: the event fires iff the parameter the spline returns lies in the band of the approached end and that end's latch is clear; that latch records the band; the other latch is untouched; outside the band the spline's parameter and the direction are kept |
| SPEngine.VR.MoveAlongSpline | Assets/Scripts/Libraries/SPEngine.cs:440-523 | the fields after the call are the spline advance by `TargetSpeed * dt` followed by `Boundary`, and the returned flag is whether `onPathCompleted` was invoked |
| Yaw.AngleDifference | Assets/Scripts/Libraries/SPEngine.cs:610-616 | the result differs from `a - b` by whole turns and lies in (-360, 180]; for headings in [0, 360) it lies in (-180, 180] |
| Yaw.AngleDifferenceUnique | Assets/Scripts/Libraries/SPEngine.cs:610-616 | for headings in [0, 360), the difference is the only angle in (-180, 180] that turns `b` into `a` |
| Yaw.SnapTurn | Assets/Scripts/Libraries/SPEngine.cs:768-770 | a turn happens exactly when one of the two requests holds; it is one ratchet, rightward exactly for `stepRight` |
| Yaw.Ratchet | Assets/Scripts/Libraries/SPEngine.cs:734-749 | snap turning past the ratchet requests the step in the sign's direction and shrinks the pending rotation by exactly one ratchet, keeping its sign; within the ratchet nothing changes; smooth turning applies the whole pending rotation and clears it; with no snap button pressed, no rotation is lost or invented |
| Yaw.Stride | Assets/Scripts/Libraries/SPEngine.cs:755 | an animated turn covers at least the configured rate, and at least 3 degrees per second |
| Yaw.TurnToward | Assets/Scripts/Libraries/SPEngine.cs:757-760 | one stride of exactly that length, rightward exactly when the target is at a non-negative angle difference |
| Yaw.Animate | Assets/Scripts/Libraries/SPEngine.cs:753-767 | nothing moves unless an animation is configured and running; a running animation stops exactly when one stride would put the target on the other side, and then lands exactly on the target; a continuing one turns by exactly one stride, toward the target, which stays on the same side |
| Yaw.SnapStep | Assets/Scripts/Libraries/SPEngine.cs:768-782 | both or neither request: no change; animated: the yaw is untouched, the target is the turned heading reduced below one turn with its sign kept, and the animation starts; immediate: the yaw turns by one ratchet in the requested direction |
| SPEngine.YawFrame | Assets/Scripts/Libraries/SPEngine.cs:731-782 | without animation the target and the animation flag are untouched; smooth turning applies the pending rotation and the input and clears the pending rotation, plus the turn of a single snap button; snap turning within the ratchet with no button turns nothing and keeps the input pending |
| SPEngine.SnapFrameIsDrainStep | Assets/Scripts/Libraries/SPEngine.cs:734-782 | a snap frame without animation and without input is exactly one step of `Drain`: the yaw turns by the requested step and the remainder stays pending |
| SPEngine.PressMergedWithRatchetStep | Assets/Scripts/Libraries/SPEngine.cs:738-741 | a right snap press in a frame whose ratchet also steps right turns one ratchet only: the press's rotation is lost |
| Yaw.DrainConserves | Assets/Scripts/Libraries/SPEngine.cs:734-749 | over any number of snap frames with no input, the steps taken plus what is still pending equal the original pending rotation |
| Yaw.DrainSettles | Assets/Scripts/Libraries/SPEngine.cs:736-742 | after enough frames, at most one ratchet is still pending |
| Yaw.DrainStaysSettled | Assets/Scripts/Libraries/SPEngine.cs:736 | a pending rotation within the ratchet is never drained |
| SPEngine.SnapFrameTurnsOneRatchet | Assets/Scripts/Libraries/SPEngine.cs:731-782 | a snap frame without animation, with no snap button pressed and with more than one ratchet pending turns by exactly one ratchet in its direction, and the rest stays pending |
| SPEngine.VR.UpdateYaw | Assets/Scripts/Libraries/SPEngine.cs:731-782 | the yaw and the fields after the frame are the ratchet, then the animation step, then the snap step |
| SPEngine.VR.ApplyRatchet | Assets/Scripts/Libraries/SPEngine.cs:734-749 | performs `Yaw.Ratchet` on the `PendingRotation` field |
| SPEngine.VR.AnimateTurn | Assets/Scripts/Libraries/SPEngine.cs:753-767 | performs `Yaw.Animate` on the `animating` field |
| SPEngine.VR.ApplySnapStep | Assets/Scripts/Libraries/SPEngine.cs:768-782 | performs `Yaw.SnapStep` on `targetYaw` and `animating` |
| SPEngine.VR.SetRotationSnap | Assets/Scripts/Libraries/SPEngine.cs:853-857 | sets the mode and discards the pending rotation |
| SPEngine.VR.SetRotationAnimation | Assets/Scripts/Libraries/SPEngine.cs:859-863 | sets the animation speed and discards the pending rotation |
| Flocking.IsNeighbour | Assets/Scripts/Libraries/SPEngine.cs:262-266 | a neighbour is another agent at squared distance strictly between 0 and 5; in particular never the agent itself and never an agent at its own position |
| Flocking.NeighbourCountIsCardinality | Assets/Scripts/Libraries/SPEngine.cs:259-275 | the running count equals the number of indices that satisfy the neighbour predicate (another agent, 0 < squared distance < 5) |
| Flocking.NoNeighbourIffEmpty | Assets/Scripts/Libraries/SPEngine.cs:278-281 | the neighbour set is empty iff no index satisfies the neighbour predicate |
| Flocking.OffsetSumFromPositions | Assets/Scripts/Libraries/SPEngine.cs:268-269 | the summed offsets are the summed positions less the agent's own position once per neighbour |
| Flocking.AccumulateNeighbours | Assets/Scripts/Libraries/SPEngine.cs:259-275 | the loop yields the neighbour count (the size of the neighbour set, zero iff there is no neighbour) and the position, offset and heading sums over exactly the neighbours |
| Flocking.FlockingTerms | Assets/Scripts/Libraries/SPEngine.cs:278-292 | no steering exactly when there is no neighbour; otherwise cohesion is the mean neighbour position minus the own position, alignment is the mean heading, and separation is exactly the negated cohesion |
| SpeedControl.Started | Assets/Scripts/SpeedController.cs:24-44 | after `Start` both modes are normal, no change is pending, and the follower runs at the normal speed |
| SpeedControl.ModeForTag | Assets/Scripts/SpeedController.cs:101-127 | `normal_speed`, `speed_boost` and `slow_down` select NORMAL, DROP and CLIMB_UP respectively; no other tag selects a mode |
| SpeedControl.TriggerEnter | Assets/Scripts/SpeedController.cs:96-138 | the previous mode becomes the mode held before the call, whatever the tag; a recognised tag sets its mode and requests a change; any other tag leaves both alone; the speed is untouched |
| SpeedControl.RampFor | Assets/Scripts/SpeedController.cs:52-92 | NORMAL→CLIMB_UP and DROP→NORMAL ramp down to the climb and normal speeds; CLIMB_UP→NORMAL and NORMAL→DROP ramp up to the normal and drop speeds; every other pair, same-mode re-entry included, holds |
| SpeedControl.SpeedStep | Assets/Scripts/SpeedController.cs:54 | a positive acceleration over a positive frame time gives a positive step |
| SpeedControl.Tick | Assets/Scripts/SpeedController.cs:48-94 | without a pending change nothing happens; the modes never change; a down ramp lowers the speed by one step and keeps the change pending iff still above the target; an up ramp raises it and keeps it pending iff still below; a holding pair changes nothing |
| SpeedControl.RampUpRun | Assets/Scripts/SpeedController.cs:63-81 | over k frames an up ramp from below its target climbs one step per frame; it is still pending iff start + k steps is below the target; once stopped it lies at most one step past the target |
| SpeedControl.RampDownRun | Assets/Scripts/SpeedController.cs:52-61 | the mirror image for a down ramp from above its target |
| SpeedControl.HoldFreezes | Assets/Scripts/SpeedController.cs:50-93 | under a holding pair the whole state, change request included, stays the same for any number of frames |
| SpeedControl.SameTagReentryFreezes | Assets/Scripts/SpeedController.cs:99-136 | two entries with the same recognised tag leave a change pending and the speed frozen at its value for any number of frames |
| SpeedControl.BoostFromStart | Assets/Scripts/SpeedController.cs:9-13 | with the shipped settings (15, 30, 9, 5), a speed boost right after the start requests an up ramp from 15 toward 30 |
| SpeedControl.BoostFromNormalSpeed | Assets/Scripts/SpeedController.cs:73-81 | that boost adds 5·dt per frame while below 30, and has stopped, within one step past 30, once 15 has been added |
| SpeedControl.SplineFollower.constructor | Assets/Scripts/SplineFollower.cs:10 | the follower holds the speed it is given |
| SpeedControl.SpeedController.constructor | Assets/Scripts/SpeedController.cs:9-27 | the shipped settings, both modes NORMAL, no change pending |
| SpeedControl.SpeedController.Start | Assets/Scripts/SpeedController.cs:32-45 | the follower's speed becomes the normal speed; from the initial modes this is the `Started` state |
| SpeedControl.SpeedController.OnTriggerEnter | Assets/Scripts/SpeedController.cs:96-138 | performs `TriggerEnter` on the fields |
| SpeedControl.SpeedController.Update | Assets/Scripts/SpeedController.cs:48-94 | performs `Tick` on the fields and the follower's speed |

## Left out

- Float32 rounding: floats are unbounded reals, so accumulated rounding in `progress`, the yaw and the speed is not modelled.
- `BezierSpline.MoveAlongSpline` and `GetTangent`: the spline is external code. Its advance is the parameter `moveAlong`, and `BezierSpline` is not part of this model.
- Placing the moved object at the returned position, and the `Quaternion.Lerp` look-rotation smoothing in `MoveAlongSpline`: these are transform updates.
- The `onPathCompleted` listeners: the invocation is the returned `fired` flag.
- `BuildRollercoasterTrack`: engine object creation, matrix and quaternion composition, and the external mesh extrusion.
- The rest of the flocking step: normalisation and weighting of the three terms are float vector numerics.
- `UseFlockingAI`, the per-frame integration of the flock: adding the steering to each velocity, `Vector3.ClampMagnitude` to `maxVelocity`, and moving and turning the transforms. These are float vector numerics and transform updates.
- `InitialiseFlockingAI`: engine object set-up.
- The rest of `UpdateMovement` and `UseOculusPlayerController`: input polling, dead zones, `CharacterController.Move`, gravity, damping and quaternion maths. The turn input, the snap buttons and the current yaw are parameters.
- `CheckObjectIntersection`: a physics raycast.
- Audio crossfades and `print` logging in `SpeedController`.
- Component lookup (`GetComponent`): the follower is passed to the constructor.
- `SplineFollower.Update`, `TrackBuilder` and the editor script: thin wrappers and inspector UI.
