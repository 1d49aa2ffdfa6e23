/** Yaw helpers of the locomotion code in `VR`: the signed angle between two
    headings, the snap-turn ratchet on the pending rotation, the animated
    approach to a snap target, and the discrete snap step. Input polling is
    abstracted to the booleans and reals it produces. */
module Yaw {

  import opened FloatMath

  /** Degrees turned by one snap step. */
  const ROTATION_RATCHET: real := 45.0

  /** Slowest animated turn rate, in degrees per second. */
  const MIN_ANIMATION_SPEED: real := 3.0

  /** The signed difference `a - b` brought to one representative angle. */
  function AngleDifference(a: real, b: real): (r: real)
    ensures SameAngle(r, a - b)
    ensures -FULL_TURN < r <= 180.0
    ensures 0.0 <= a < FULL_TURN && 0.0 <= b < FULL_TURN ==> -180.0 < r
  {
    var diff := Rem360(FULL_TURN + a - b);
    assert SameAngle(diff, a - b) by {
      IntegerTurns(-1);
      WholeTurnsAdd(diff - (FULL_TURN + a - b), FULL_TURN);
    }
    if diff > 180.0 then
      IntegerTurns(-1);
      WholeTurnsAdd(diff - (a - b), -FULL_TURN);
      diff - FULL_TURN
    else
      diff
  }

  /** For headings in [0, 360) the difference is the only angle in
      (-180, 180] that turns `b` into `a`. */
  lemma AngleDifferenceUnique(a: real, b: real, d: real)
    requires 0.0 <= a < FULL_TURN && 0.0 <= b < FULL_TURN
    requires -180.0 < d <= 180.0 && SameAngle(d, a - b)
    ensures d == AngleDifference(a, b)
  {
    var r := AngleDifference(a, b);
    WholeTurnsNeg(r - (a - b));
    WholeTurnsAdd(d - (a - b), -(r - (a - b)));
    SmallWholeTurnsIsZero(d - r);
  }

  /** The turn a snap step makes: a ratchet to the right for `stepRight`
      alone, to the left for `stepLeft` alone, none when both or neither. */
  function SnapTurn(stepLeft: bool, stepRight: bool): (c: real)
    ensures c != 0.0 <==> stepLeft != stepRight
    ensures c != 0.0 ==> Abs(c) == ROTATION_RATCHET && (c > 0.0 <==> stepRight)
  {
    if stepLeft == stepRight then 0.0
    else if stepRight then ROTATION_RATCHET else -ROTATION_RATCHET
  }

  /** The result of the ratchet: the pending rotation left over, the yaw, and
      the two step requests. */
  datatype Ratcheted = Ratcheted(pending: real, yaw: real, stepLeft: bool, stepRight: bool)

  /** The ratchet on the pending rotation. With snap turning, a pending
      rotation of more than one ratchet is turned into one step request in its
      direction; without it, the whole pending rotation goes into the yaw. */
  function Ratchet(rotationSnap: bool, pending: real, yaw: real, stepLeft: bool, stepRight: bool): (r: Ratcheted)
    // snap turning past the ratchet: one step in the sign's direction, and
    // the pending rotation shrinks by exactly one ratchet, keeping its sign
    ensures rotationSnap && Abs(pending) > ROTATION_RATCHET ==>
      r.yaw == yaw &&
      (pending > 0.0 ==> r.stepRight && r.stepLeft == stepLeft) &&
      (pending < 0.0 ==> r.stepLeft && r.stepRight == stepRight) &&
      Abs(r.pending) == Abs(pending) - ROTATION_RATCHET && Sign(r.pending) == Sign(pending)
    // snap turning within the ratchet: nothing changes
    ensures rotationSnap && Abs(pending) <= ROTATION_RATCHET ==>
      r == Ratcheted(pending, yaw, stepLeft, stepRight)
    // smooth turning: the whole pending rotation is applied to the yaw
    ensures !rotationSnap ==>
      r == Ratcheted(0.0, yaw + pending, stepLeft, stepRight)
    // no rotation is lost or invented: what is applied, requested and still
    // pending adds up to what was pending
    ensures !stepLeft && !stepRight ==>
      (r.yaw - yaw) + SnapTurn(r.stepLeft, r.stepRight) + r.pending == pending
  {
    if rotationSnap then
      if Abs(pending) > ROTATION_RATCHET then
        var stepRight' := if pending > 0.0 then true else stepRight;
        var stepLeft' := if pending > 0.0 then stepLeft else true;
        Ratcheted(pending - Sign(pending) * ROTATION_RATCHET, yaw, stepLeft', stepRight')
      else
        Ratcheted(pending, yaw, stepLeft, stepRight)
    else
      Ratcheted(0.0, yaw + pending, stepLeft, stepRight)
  }

  /** Degrees an animated turn covers in `dt` seconds: the configured rate,
      but never slower than the minimum rate. */
  function Stride(rotationAnimation: real, dt: real): (d: real)
    ensures dt > 0.0 ==> d >= MIN_ANIMATION_SPEED * dt && d >= rotationAnimation * dt
  {
    Max(rotationAnimation, MIN_ANIMATION_SPEED) * dt
  }

  /** One animation stride from `yaw` in the direction of `targetYaw`. */
  function TurnToward(rotationAnimation: real, targetYaw: real, yaw: real, dt: real): (y: real)
    ensures Abs(y - yaw) == Abs(Stride(rotationAnimation, dt))
    ensures dt > 0.0 ==> (y > yaw <==> AngleDifference(targetYaw, yaw) >= 0.0)
  {
    yaw + Sign(AngleDifference(targetYaw, yaw)) * Stride(rotationAnimation, dt)
  }

  /** The state of an animated snap turn. */
  datatype Animated = Animated(yaw: real, animating: bool)

  /** One frame of the animated approach to `targetYaw`: the yaw moves toward
      the target at the animation speed and lands on it once it would pass it. */
  function Animate(rotationAnimation: real, animating: bool, targetYaw: real, yaw: real, dt: real): (r: Animated)
    // nothing moves unless an animation is configured and running
    ensures !(rotationAnimation > 0.0 && animating) ==> r == Animated(yaw, animating)
    // when the animation stops, the yaw is exactly the target
    ensures rotationAnimation > 0.0 && animating && !r.animating ==> r.yaw == targetYaw
    // while it runs on, the target is still on the same side as before
    ensures r.animating && rotationAnimation > 0.0 ==>
      (AngleDifference(targetYaw, r.yaw) < 0.0) == (AngleDifference(targetYaw, yaw) < 0.0)
    // a running animation turns toward the target: right when the target is
    // at most half a turn to the right, left otherwise
    ensures r.animating && rotationAnimation > 0.0 && dt > 0.0 ==>
      (r.yaw > yaw <==> AngleDifference(targetYaw, yaw) >= 0.0)
    // a running animation stops exactly when one stride would put the target
    // on the other side
    ensures rotationAnimation > 0.0 && animating ==>
      (r.animating <==>
        (AngleDifference(targetYaw, TurnToward(rotationAnimation, targetYaw, yaw, dt)) < 0.0) ==
        (AngleDifference(targetYaw, yaw) < 0.0))
    // a continuing frame turns by exactly one stride
    ensures rotationAnimation > 0.0 && animating && r.animating ==>
      Abs(r.yaw - yaw) == Abs(Stride(rotationAnimation, dt))
  {
    if rotationAnimation > 0.0 && animating then
      var yaw' := TurnToward(rotationAnimation, targetYaw, yaw, dt);
      if (AngleDifference(targetYaw, yaw') < 0.0) != (AngleDifference(targetYaw, yaw) < 0.0) then
        Animated(targetYaw, false)
      else
        Animated(yaw', true)
    else
      Animated(yaw, animating)
  }

  /** The state a snap step changes. */
  datatype Snapped = Snapped(yaw: real, targetYaw: real, animating: bool)

  /** The discrete snap step: exactly one of the two requests turns by one
      ratchet, either at once or, with animation, by setting a target. */
  function SnapStep(stepLeft: bool, stepRight: bool, rotationAnimation: real,
                    yaw: real, targetYaw: real, animating: bool): (r: Snapped)
    // both or neither request: no change at all
    ensures stepLeft == stepRight ==> r == Snapped(yaw, targetYaw, animating)
    // animated: the yaw is left alone and the target is the turned heading,
    // reduced below one full turn
    ensures stepLeft != stepRight && rotationAnimation > 0.0 ==>
      r.yaw == yaw && r.animating &&
      SameAngle(r.targetYaw, yaw + SnapTurn(stepLeft, stepRight)) &&
      -FULL_TURN < r.targetYaw < FULL_TURN &&
      // the remainder keeps the sign of the turned heading
      (yaw + SnapTurn(stepLeft, stepRight) >= 0.0 ==> r.targetYaw >= 0.0) &&
      (yaw + SnapTurn(stepLeft, stepRight) < 0.0 ==> r.targetYaw <= 0.0)
    // immediate: the yaw turns by one ratchet; the animation state is kept
    ensures stepLeft != stepRight && rotationAnimation <= 0.0 ==>
      Abs(r.yaw - yaw) == ROTATION_RATCHET && (r.yaw > yaw <==> stepRight) &&
      r.targetYaw == targetYaw && r.animating == animating
  {
    if stepLeft != stepRight then
      var change := if stepRight then ROTATION_RATCHET else -ROTATION_RATCHET;
      if rotationAnimation > 0.0 then
        Snapped(yaw, Rem360(yaw + change), true)
      else
        Snapped(yaw + change, targetYaw, animating)
    else
      Snapped(yaw, targetYaw, animating)
  }

  /** The remaining pending rotation and the total turn requested after `k`
      frames of snap turning with no further input, each requested step
      being taken by the snap step of the same frame. */
  function Drain(pending: real, k: nat): (real, real)
    decreases k
  {
    if k == 0 then (pending, 0.0)
    else
      var r := Ratchet(true, pending, 0.0, false, false);
      var rest := Drain(r.pending, k - 1);
      (rest.0, SnapTurn(r.stepLeft, r.stepRight) + rest.1)
  }

  /** Frame after frame the ratchet conserves rotation: the steps taken plus
      what is still pending equal the rotation that was pending. */
  lemma {:induction false} DrainConserves(pending: real, k: nat)
    ensures Drain(pending, k).0 + Drain(pending, k).1 == pending
    decreases k
  {
    if k > 0 {
      DrainConserves(Ratchet(true, pending, 0.0, false, false).pending, k - 1);
    }
  }

  /** Once enough frames have passed, less than one ratchet is pending. */
  lemma {:induction false} DrainSettles(pending: real, k: nat)
    requires k as real * ROTATION_RATCHET >= Abs(pending)
    ensures Abs(Drain(pending, k).0) <= ROTATION_RATCHET
    decreases k
  {
    if k > 0 {
      var r := Ratchet(true, pending, 0.0, false, false);
      if Abs(pending) > ROTATION_RATCHET {
        assert (k - 1) as real * ROTATION_RATCHET >= Abs(r.pending);
        DrainSettles(r.pending, k - 1);
      } else {
        DrainStaysSettled(pending, k - 1);
      }
    }
  }

  /** A pending rotation within the ratchet is never drained further. */
  lemma {:induction false} DrainStaysSettled(pending: real, k: nat)
    requires Abs(pending) <= ROTATION_RATCHET
    ensures Drain(pending, k) == (pending, 0.0)
    decreases k
  {
    if k > 0 {
      DrainStaysSettled(pending, k - 1);
    }
  }
}
