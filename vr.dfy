/** The `VR` object of the engine library: the fields it updates in place
    for spline travel and for yaw control, and the methods that update them.
    Each method is proved to perform the transition given by the pure
    functions of `SplineProgress` and `Yaw`. */
module SPEngine {

  import opened FloatMath
  import opened SplineProgress
  import opened Yaw

  /** The yaw-control fields the frame update changes. */
  datatype YawFields = YawFields(pendingRotation: real, targetYaw: real, animating: bool)

  /** One frame of yaw control: the turn input is added to the pending
      rotation, the ratchet runs, a running animation advances, and the snap
      step applies. Returns the new yaw and the new fields. */
  function YawFrame(rotationSnap: bool, rotationAnimation: real, f: YawFields,
                    yaw: real, turnInput: real, stepLeft: bool, stepRight: bool, dt: real): (r: (real, YawFields))
    // without animation the animation fields are untouched
    ensures rotationAnimation <= 0.0 ==> r.1.targetYaw == f.targetYaw && r.1.animating == f.animating
    // smooth turning without animation: the whole pending rotation and input
    // are applied, plus the turn of a single snap button
    ensures !rotationSnap && rotationAnimation <= 0.0 ==>
      r.1.pendingRotation == 0.0 && r.0 == yaw + f.pendingRotation + turnInput + SnapTurn(stepLeft, stepRight)
    // snap turning within the ratchet and no button: nothing turns, the input stays pending
    ensures rotationSnap && rotationAnimation <= 0.0 && Abs(f.pendingRotation + turnInput) <= ROTATION_RATCHET &&
            !stepLeft && !stepRight ==>
      r.0 == yaw && r.1.pendingRotation == f.pendingRotation + turnInput
  {
    var r := Ratchet(rotationSnap, f.pendingRotation + turnInput, yaw, stepLeft, stepRight);
    var a := Animate(rotationAnimation, f.animating, f.targetYaw, r.yaw, dt);
    var s := SnapStep(r.stepLeft, r.stepRight, rotationAnimation, a.yaw, f.targetYaw, a.animating);
    (s.yaw, YawFields(r.pending, s.targetYaw, s.animating))
  }

  /** With snap turning on and no animation, a pending rotation beyond one
      ratchet becomes one immediate ratchet turn, and the rest stays pending;
      no rotation is lost. */
  lemma SnapFrameTurnsOneRatchet(f: YawFields, yaw: real, turnInput: real, dt: real)
    requires Abs(f.pendingRotation + turnInput) > ROTATION_RATCHET
    ensures var (yaw', f') := YawFrame(true, 0.0, f, yaw, turnInput, false, false, dt);
      Abs(yaw' - yaw) == ROTATION_RATCHET &&
      (yaw' > yaw <==> f.pendingRotation + turnInput > 0.0) &&
      (yaw' - yaw) + f'.pendingRotation == f.pendingRotation + turnInput
  {
    var r := Ratchet(true, f.pendingRotation + turnInput, yaw, false, false);
    assert r.stepLeft != r.stepRight;
  }

  /** A snap frame without animation and without input is one step of
      `Drain`: the yaw turns by the requested step and the ratchet's
      remainder stays pending. */
  lemma SnapFrameIsDrainStep(f: YawFields, yaw: real, dt: real)
    ensures var r := Ratchet(true, f.pendingRotation, 0.0, false, false);
      YawFrame(true, 0.0, f, yaw, 0.0, false, false, dt) ==
        (yaw + SnapTurn(r.stepLeft, r.stepRight), YawFields(r.pending, f.targetYaw, f.animating))
      && Drain(f.pendingRotation, 1) == (r.pending, SnapTurn(r.stepLeft, r.stepRight))
  {
    var r := Ratchet(true, f.pendingRotation, 0.0, false, false);
    assert Ratchet(true, f.pendingRotation, yaw, false, false) == r.(yaw := yaw);
    assert Drain(r.pending, 0) == (r.pending, 0.0);
  }

  /** A snap button pressed in the direction of a ratchet step of the same
      frame is merged into that step: only one ratchet is turned, so the
      rotation of the button press is lost. */
  lemma PressMergedWithRatchetStep(f: YawFields, yaw: real, turnInput: real, dt: real)
    requires f.pendingRotation + turnInput > ROTATION_RATCHET
    ensures var (yaw', f') := YawFrame(true, 0.0, f, yaw, turnInput, false, true, dt);
      yaw' - yaw == ROTATION_RATCHET &&
      (yaw' - yaw) + f'.pendingRotation ==
        f.pendingRotation + turnInput + SnapTurn(false, true) - ROTATION_RATCHET
  {
    var r := Ratchet(true, f.pendingRotation + turnInput, yaw, false, true);
    assert r.stepRight && !r.stepLeft;
  }

  class VR {
    // spline travel
    var progress: real
    var isGoingForward: bool
    var onPathCompletedCalledAt1: bool
    var onPathCompletedCalledAt0: bool
    const relaxationAtEndPoints: real

    // yaw control
    var rotationSnap: bool
    var PendingRotation: real
    var rotationAnimation: real
    var targetYaw: real
    var animating: bool

    /** The spline-travel state. */
    function TrackerState(): Tracker
      reads this
    {
      Tracker(progress, isGoingForward, onPathCompletedCalledAt1, onPathCompletedCalledAt0)
    }

    /** The yaw-control state changed by a frame. */
    function YawState(): YawFields
      reads this
    {
      YawFields(PendingRotation, targetYaw, animating)
    }

    /** The field initialisers. */
    constructor ()
      ensures TrackerState() == Tracker(0.0, true, false, false)
      ensures relaxationAtEndPoints == 0.01
      ensures !rotationSnap && rotationAnimation == 0.0 && YawState() == YawFields(0.0, 0.0, false)
    {
      progress, isGoingForward := 0.0, true;
      onPathCompletedCalledAt1, onPathCompletedCalledAt0 := false, false;
      relaxationAtEndPoints := 0.01;
      rotationSnap, PendingRotation := false, 0.0;
      rotationAnimation, targetYaw, animating := 0.0, 0.0, false;
    }

    /** One tick of travel along the spline at `speed` for `dt` seconds.
        `moveAlong` is the spline's arc-length advance: given the progress and
        a signed distance it returns the new progress. The result says
        whether the path-completed event was raised. */
    method MoveAlongSpline(speed: real, dt: real, travelMode: int, moveAlong: (real, real) -> real)
      returns (fired: bool)
      modifies this`progress, this`isGoingForward, this`onPathCompletedCalledAt1, this`onPathCompletedCalledAt0
      ensures var s := Advance(old(TrackerState()), speed, dt, travelMode, relaxationAtEndPoints, moveAlong);
        TrackerState() == s.tracker && fired == s.fired
    {
      ghost var before := TrackerState();
      var distance := Distance(speed, isGoingForward, dt);
      progress := Along(moveAlong, progress, distance);
      ghost var expected := Boundary(before, speed, travelMode, relaxationAtEndPoints, progress);
      var movingForward := (speed > 0.0) == isGoingForward;
      fired := false;
      if movingForward {
        if progress >= 1.0 - relaxationAtEndPoints {
          if !onPathCompletedCalledAt1 {
            fired := true;
            onPathCompletedCalledAt1 := true;
          }
          if travelMode == TRAVEL_MODE_ONCE {
            progress := 1.0;
          } else if travelMode == TRAVEL_MODE_LOOP {
            progress := progress - 1.0;
          } else {
            progress := 2.0 - progress;
            isGoingForward := !isGoingForward;
          }
        } else {
          onPathCompletedCalledAt1 := false;
        }
      } else {
        if progress <= relaxationAtEndPoints {
          if !onPathCompletedCalledAt0 {
            fired := true;
            onPathCompletedCalledAt0 := true;
          }
          if travelMode == TRAVEL_MODE_ONCE {
            progress := 0.0;
          } else if travelMode == TRAVEL_MODE_LOOP {
            progress := progress + 1.0;
          } else {
            progress := -progress;
            isGoingForward := !isGoingForward;
          }
        } else {
          onPathCompletedCalledAt0 := false;
        }
      }
      assert TrackerState() == expected.tracker && fired == expected.fired;
    }

    /** The yaw part of a movement frame. `yaw` is the avatar's current yaw,
        `turnInput` the rotation the sticks and mouse add this frame, and
        `stepLeft`/`stepRight` the snap buttons pressed this frame. Returns
        the yaw to apply. */
    method UpdateYaw(yaw: real, turnInput: real, stepLeft: bool, stepRight: bool, dt: real)
      returns (newYaw: real)
      modifies this`PendingRotation, this`targetYaw, this`animating
      ensures (newYaw, YawState()) ==
        YawFrame(rotationSnap, rotationAnimation, old(YawState()), yaw, turnInput, stepLeft, stepRight, dt)
    {
      PendingRotation := PendingRotation + turnInput;
      var left, right;
      newYaw, left, right := ApplyRatchet(yaw, stepLeft, stepRight);
      newYaw := AnimateTurn(newYaw, dt);
      newYaw := ApplySnapStep(newYaw, left, right);
    }

    /** The ratchet on the pending rotation. */
    method ApplyRatchet(yaw: real, stepLeft: bool, stepRight: bool)
      returns (newYaw: real, left: bool, right: bool)
      modifies this`PendingRotation
      ensures Ratcheted(PendingRotation, newYaw, left, right) ==
        Ratchet(rotationSnap, old(PendingRotation), yaw, stepLeft, stepRight)
    {
      newYaw, left, right := yaw, stepLeft, stepRight;
      if rotationSnap {
        if Abs(PendingRotation) > ROTATION_RATCHET {
          if PendingRotation > 0.0 {
            right := true;
          } else {
            left := true;
          }
          PendingRotation := PendingRotation - Sign(PendingRotation) * ROTATION_RATCHET;
        }
      } else {
        newYaw := newYaw + PendingRotation;
        PendingRotation := 0.0;
      }
    }

    /** A running snap animation moves the yaw toward the target. */
    method AnimateTurn(yaw: real, dt: real) returns (newYaw: real)
      modifies this`animating
      ensures Animated(newYaw, animating) == Animate(rotationAnimation, old(animating), targetYaw, yaw, dt)
    {
      newYaw := yaw;
      if rotationAnimation > 0.0 && animating {
        var turned := TurnToward(rotationAnimation, targetYaw, yaw, dt);
        var passed := (AngleDifference(targetYaw, turned) < 0.0) != (AngleDifference(targetYaw, yaw) < 0.0);
        if passed {
          animating := false;
          newYaw := targetYaw;
        } else {
          newYaw := turned;
        }
      }
    }

    /** The snap step: exactly one request turns by one ratchet. */
    method ApplySnapStep(yaw: real, stepLeft: bool, stepRight: bool) returns (newYaw: real)
      modifies this`targetYaw, this`animating
      ensures Snapped(newYaw, targetYaw, animating) ==
        SnapStep(stepLeft, stepRight, rotationAnimation, yaw, old(targetYaw), old(animating))
    {
      newYaw := yaw;
      if stepLeft != stepRight {
        var change := if stepRight then ROTATION_RATCHET else -ROTATION_RATCHET;
        if rotationAnimation > 0.0 {
          targetYaw := Rem360(newYaw + change);
          animating := true;
        } else {
          newYaw := newYaw + change;
        }
      }
    }

    /** Switching snap turning discards any pending rotation. */
    method SetRotationSnap(value: bool)
      modifies this`rotationSnap, this`PendingRotation
      ensures rotationSnap == value && PendingRotation == 0.0
    {
      rotationSnap := value;
      PendingRotation := 0.0;
    }

    /** Changing the animation speed discards any pending rotation. */
    method SetRotationAnimation(value: real)
      modifies this`rotationAnimation, this`PendingRotation
      ensures rotationAnimation == value && PendingRotation == 0.0
    {
      rotationAnimation := value;
      PendingRotation := 0.0;
    }
  }
}
