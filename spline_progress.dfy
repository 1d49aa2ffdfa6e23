/** The end-point logic of `VR.MoveAlongSpline`: what happens to the curve
    parameter, the direction flag and the two completion latches once the
    spline has advanced the parameter by arc length.

    The advance itself belongs to the spline and is not computed here: the
    progress it returns is an input of `Boundary`, and `Advance` receives the
    spline's advance as a function of (progress, signed distance). */
module SplineProgress {

  import opened FloatMath

  /** The integer travel-mode tags that callers pass in. */
  const TRAVEL_MODE_ONCE: int := 1
  const TRAVEL_MODE_LOOP: int := 2
  const TRAVEL_MODE_TO_AND_FRO: int := 3

  /** The three wrap policies: clamp, wrap around, reflect. */
  datatype TravelMode = Once | Loop | PingPong

  /** How a travel-mode tag is dispatched: 1 clamps, 2 loops, and every
      other tag, not only 3, reflects. */
  function ModeOf(travelMode: int): (m: TravelMode)
    ensures m == Once <==> travelMode == TRAVEL_MODE_ONCE
    ensures m == Loop <==> travelMode == TRAVEL_MODE_LOOP
    ensures m == PingPong <==> travelMode != TRAVEL_MODE_ONCE && travelMode != TRAVEL_MODE_LOOP
  {
    if travelMode == TRAVEL_MODE_ONCE then Once
    else if travelMode == TRAVEL_MODE_LOOP then Loop
    else PingPong
  }

  /** The state that `VR` keeps between ticks for spline travel. */
  datatype Tracker = Tracker(
    progress: real,
    isGoingForward: bool,
    calledAt1: bool,   // completion already reported at the 1 end
    calledAt0: bool)   // completion already reported at the 0 end

  /** The outcome of one tick: the new state and whether the completion
      event was raised. */
  datatype Step = Step(tracker: Tracker, fired: bool)

  /** Whether the boundary check looks at the 1 end (true) or the 0 end. */
  predicate MovingForward(speed: real, isGoingForward: bool)
  {
    (speed > 0.0) == isGoingForward
  }

  /** The signed speed handed to the spline: the configured speed, reversed
      while the tracker is going backward. The spline is pushed toward the
      end that the boundary check then inspects. */
  function TargetSpeed(speed: real, isGoingForward: bool): (v: real)
    ensures Abs(v) == Abs(speed)
    ensures speed != 0.0 ==> (v > 0.0 <==> MovingForward(speed, isGoingForward))
    ensures speed == 0.0 ==> v == 0.0
  {
    if isGoingForward then speed else -speed
  }

  /** The relaxation band at the end the tracker is heading for. */
  predicate InEndBand(forward: bool, p: real, relax: real)
  {
    if forward then p >= 1.0 - relax else p <= relax
  }

  /** The completion latch of the end the tracker is heading for. */
  function Latch(t: Tracker, forward: bool): bool
  {
    if forward then t.calledAt1 else t.calledAt0
  }

  /** The end point of the curve on the given side. */
  function EndPoint(forward: bool): real
  {
    if forward then 1.0 else 0.0
  }

  /** The boundary logic applied after the spline moved the parameter of
      `t` to `p`. */
  function Boundary(t: Tracker, speed: real, travelMode: int, relax: real, p: real): (s: Step)
    // the event is edge-triggered: it fires on arrival in the band at the
    // end being approached, and only when that end's latch is clear
    ensures var fwd := MovingForward(speed, t.isGoingForward);
      s.fired <==> InEndBand(fwd, p, relax) && !Latch(t, fwd)
    // the latch of that end ends up recording whether the tick ended in its band
    ensures var fwd := MovingForward(speed, t.isGoingForward);
      Latch(s.tracker, fwd) == InEndBand(fwd, p, relax)
    // the latch of the other end is neither read nor written
    ensures var fwd := MovingForward(speed, t.isGoingForward);
      Latch(s.tracker, !fwd) == Latch(t, !fwd)
    // outside the band the advanced parameter and the direction are kept
    ensures var fwd := MovingForward(speed, t.isGoingForward);
      !InEndBand(fwd, p, relax) ==> s.tracker.progress == p && s.tracker.isGoingForward == t.isGoingForward
    // Once: parked exactly on the end point, direction kept
    ensures var fwd := MovingForward(speed, t.isGoingForward);
      InEndBand(fwd, p, relax) && ModeOf(travelMode) == Once ==>
        s.tracker.progress == EndPoint(fwd) && s.tracker.isGoingForward == t.isGoingForward
    // Loop: one whole traversal is taken off (forward) or added (backward),
    // so the point on a closed curve is the same; direction kept
    ensures var fwd := MovingForward(speed, t.isGoingForward);
      InEndBand(fwd, p, relax) && ModeOf(travelMode) == Loop ==>
        s.tracker.progress - p == EndPoint(!fwd) - EndPoint(fwd) && s.tracker.isGoingForward == t.isGoingForward
    // to and fro: the overshoot is mirrored about the end point, and the
    // direction is reversed exactly once, so the next tick heads for the other end
    ensures var fwd := MovingForward(speed, t.isGoingForward);
      InEndBand(fwd, p, relax) && ModeOf(travelMode) == PingPong ==>
        s.tracker.progress - EndPoint(fwd) == EndPoint(fwd) - p &&
        s.tracker.isGoingForward == !t.isGoingForward &&
        MovingForward(speed, s.tracker.isGoingForward) == !fwd
    // an advance that overshoots by at most one traversal is brought back
    // to within the relaxation band of [0, 1]
    ensures var fwd := MovingForward(speed, t.isGoingForward);
      InEndBand(fwd, p, relax) && -1.0 <= p <= 2.0 && relax >= 0.0 ==>
        -relax <= s.tracker.progress <= 1.0 + relax
  {
    var fwd := MovingForward(speed, t.isGoingForward);
    if fwd then
      if p >= 1.0 - relax then
        var fired := !t.calledAt1;
        var t' := t.(calledAt1 := true);
        match ModeOf(travelMode)
        case Once => Step(t'.(progress := 1.0), fired)
        case Loop => Step(t'.(progress := p - 1.0), fired)
        case PingPong => Step(t'.(progress := 2.0 - p, isGoingForward := !t.isGoingForward), fired)
      else
        Step(t.(progress := p, calledAt1 := false), false)
    else
      if p <= relax then
        var fired := !t.calledAt0;
        var t' := t.(calledAt0 := true);
        match ModeOf(travelMode)
        case Once => Step(t'.(progress := 0.0), fired)
        case Loop => Step(t'.(progress := p + 1.0), fired)
        case PingPong => Step(t'.(progress := -p, isGoingForward := !t.isGoingForward), fired)
      else
        Step(t.(progress := p, calledAt0 := false), false)
  }

  /** The signed arc length the spline is asked to travel in `dt` seconds. */
  function Distance(speed: real, isGoingForward: bool, dt: real): (d: real)
    // over a positive frame time the spline is pushed toward the end that
    // the boundary check then inspects
    ensures dt > 0.0 && speed != 0.0 ==> (d > 0.0 <==> MovingForward(speed, isGoingForward))
    ensures dt > 0.0 && speed != 0.0 ==> (d < 0.0 <==> !MovingForward(speed, isGoingForward))
  {
    TargetSpeed(speed, isGoingForward) * dt
  }

  /** The spline's arc-length advance: the parameter reached from `progress`
      after travelling the signed `distance` along the curve. */
  function Along(moveAlong: (real, real) -> real, progress: real, distance: real): real
  {
    moveAlong(progress, distance)
  }

  /** One whole tick: the spline advances the parameter by the signed speed
      times the frame time, then the boundary logic runs. */
  function Advance(t: Tracker, speed: real, dt: real, travelMode: int, relax: real,
                   moveAlong: (real, real) -> real): (s: Step)
    // the event and the latches follow where the spline left the parameter
    ensures var fwd, p := MovingForward(speed, t.isGoingForward), Along(moveAlong, t.progress, Distance(speed, t.isGoingForward, dt));
      (s.fired <==> InEndBand(fwd, p, relax) && !Latch(t, fwd)) &&
      Latch(s.tracker, fwd) == InEndBand(fwd, p, relax) &&
      Latch(s.tracker, !fwd) == Latch(t, !fwd)
    // a tick that ends outside the band keeps the spline's parameter and the direction
    ensures var fwd, p := MovingForward(speed, t.isGoingForward), Along(moveAlong, t.progress, Distance(speed, t.isGoingForward, dt));
      !InEndBand(fwd, p, relax) ==> s.tracker.progress == p && s.tracker.isGoingForward == t.isGoingForward
  {
    Boundary(t, speed, travelMode, relax, Along(moveAlong, t.progress, Distance(speed, t.isGoingForward, dt)))
  }

  /** The state after a run of ticks and the number of completion events. */
  datatype Run = Run(tracker: Tracker, fires: nat)

  /** Ticks at a fixed speed whose spline advances returned `ps` in turn. */
  function RunTicks(t: Tracker, speed: real, travelMode: int, relax: real, ps: seq<real>): Run
    decreases |ps|
  {
    if ps == [] then Run(t, 0)
    else
      var s := Boundary(t, speed, travelMode, relax, ps[0]);
      var rest := RunTicks(s.tracker, speed, travelMode, relax, ps[1..]);
      Run(rest.tracker, rest.fires + if s.fired then 1 else 0)
  }

  /** Reference count of completions: the number of times the sequence of
      parameters enters the end band from outside it, `wasIn` saying whether
      the parameter was in the band before the first tick. */
  function Entries(wasIn: bool, forward: bool, ps: seq<real>, relax: real): nat
    decreases |ps|
  {
    if ps == [] then 0
    else
      var isIn := InEndBand(forward, ps[0], relax);
      (if isIn && !wasIn then 1 else 0) + Entries(isIn, forward, ps[1..], relax)
  }

  /** Without reflection the direction never changes, and the completion
      event fires exactly once for each entry into the end band: a latch that
      is set counts as already being in the band. */
  lemma {:induction false} FiresOncePerEntry(t: Tracker, speed: real, travelMode: int, relax: real, ps: seq<real>)
    requires ModeOf(travelMode) != PingPong
    ensures var fwd := MovingForward(speed, t.isGoingForward);
      RunTicks(t, speed, travelMode, relax, ps).fires == Entries(Latch(t, fwd), fwd, ps, relax)
    ensures RunTicks(t, speed, travelMode, relax, ps).tracker.isGoingForward == t.isGoingForward
    decreases |ps|
  {
    if ps != [] {
      var s := Boundary(t, speed, travelMode, relax, ps[0]);
      FiresOncePerEntry(s.tracker, speed, travelMode, relax, ps[1..]);
    }
  }

  /** While the parameter dwells in the end band, only the first tick can
      report completion. */
  lemma {:induction false} DwellEntersAtMostOnce(wasIn: bool, forward: bool, ps: seq<real>, relax: real)
    requires forall i :: 0 <= i < |ps| ==> InEndBand(forward, ps[i], relax)
    ensures Entries(wasIn, forward, ps, relax) == if wasIn || ps == [] then 0 else 1
    decreases |ps|
  {
    if ps != [] {
      DwellEntersAtMostOnce(true, forward, ps[1..], relax);
    }
  }

  /** Completion fires exactly once per continuous dwell in the end band
      (clamping and looping modes): once if the latch was clear, never if it
      was already set, and the latch is left set. */
  lemma FiresOncePerDwell(t: Tracker, speed: real, travelMode: int, relax: real, ps: seq<real>)
    requires ModeOf(travelMode) != PingPong && ps != []
    requires forall i :: 0 <= i < |ps| ==> InEndBand(MovingForward(speed, t.isGoingForward), ps[i], relax)
    ensures var fwd := MovingForward(speed, t.isGoingForward);
      RunTicks(t, speed, travelMode, relax, ps).fires == if Latch(t, fwd) then 0 else 1
  {
    FiresOncePerEntry(t, speed, travelMode, relax, ps);
    DwellEntersAtMostOnce(Latch(t, MovingForward(speed, t.isGoingForward)), MovingForward(speed, t.isGoingForward), ps, relax);
  }
}
