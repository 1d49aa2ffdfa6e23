/** The speed controller of the ride: trigger volumes tagged along the
    track switch between three speed modes, and each frame the follower's
    speed is ramped linearly toward the speed of the new mode.

    The pure functions give the transition of one trigger and of one frame;
    the classes below hold the same state in fields, as the components do,
    and their methods are proved to perform those transitions. */
module SpeedControl {

  /** The three speed modes (tags 1, 2 and 3 of the component). */
  datatype SpeedMode = Normal | Drop | ClimbUp

  /** The inspector settings of the component. */
  datatype Settings = Settings(
    normalSpeed: real,
    dropSpeed: real,
    climbUpSpeed: real,
    speedChangeAcceleration: real)

  /** The settings the component ships with. */
  const DEFAULT_SETTINGS: Settings := Settings(15.0, 30.0, 9.0, 5.0)

  /** The controller's own fields together with the follower's speed. */
  datatype Controller = Controller(
    speedMode: SpeedMode,
    previousSpeedMode: SpeedMode,
    changeSpeed: bool,
    speed: real)

  /** The state once the component has started: both modes normal, no ramp,
      and the follower running at the normal speed. */
  function Started(cfg: Settings): (c: Controller)
    ensures c.speedMode == Normal && c.previousSpeedMode == Normal
    ensures !c.changeSpeed && c.speed == cfg.normalSpeed
  {
    Controller(Normal, Normal, false, cfg.normalSpeed)
  }

  datatype Option<T> = None | Some(value: T)

  /** The mode a trigger tag selects, if any. */
  function ModeForTag(tag: string): (m: Option<SpeedMode>)
    ensures tag == "normal_speed" <==> m == Some(Normal)
    ensures tag == "speed_boost" <==> m == Some(Drop)
    ensures tag == "slow_down" <==> m == Some(ClimbUp)
  {
    if tag == "normal_speed" then Some(Normal)
    else if tag == "speed_boost" then Some(Drop)
    else if tag == "slow_down" then Some(ClimbUp)
    else None
  }

  /** Entering a trigger volume with the given tag. */
  function TriggerEnter(c: Controller, tag: string): (r: Controller)
    // the mode held before the call is remembered, whatever the tag
    ensures r.previousSpeedMode == c.speedMode
    // a recognised tag selects its mode and asks for a speed change
    ensures ModeForTag(tag).Some? ==> r.speedMode == ModeForTag(tag).value && r.changeSpeed
    // any other tag leaves the mode and the change request alone
    ensures ModeForTag(tag).None? ==> r.speedMode == c.speedMode && r.changeSpeed == c.changeSpeed
    // the speed itself only changes frame by frame
    ensures r.speed == c.speed
  {
    var c' := c.(previousSpeedMode := c.speedMode);
    match ModeForTag(tag)
    case Some(m) => c'.(speedMode := m, changeSpeed := true)
    case None => c'
  }

  /** The ramp a pair (previous mode, mode) calls for. */
  datatype Ramp = Down(target: real) | Up(target: real) | Hold

  /** Only four pairs ramp: slowing for a climb or back from a drop, and
      speeding up back from a climb or into a drop. Every other pair,
      including a mode entered twice, holds the speed. */
  function RampFor(cfg: Settings, previous: SpeedMode, current: SpeedMode): (r: Ramp)
    ensures r == Down(cfg.climbUpSpeed) <== previous == Normal && current == ClimbUp
    ensures r == Up(cfg.normalSpeed) <== previous == ClimbUp && current == Normal
    ensures r == Up(cfg.dropSpeed) <== previous == Normal && current == Drop
    ensures r == Down(cfg.normalSpeed) <== previous == Drop && current == Normal
    ensures r == Hold <==> previous == current || (previous == ClimbUp && current == Drop) ||
                           (previous == Drop && current == ClimbUp)
  {
    match (previous, current)
    case (Normal, ClimbUp) => Down(cfg.climbUpSpeed)
    case (ClimbUp, Normal) => Up(cfg.normalSpeed)
    case (Normal, Drop) => Up(cfg.dropSpeed)
    case (Drop, Normal) => Down(cfg.normalSpeed)
    case _ => Hold
  }

  /** The speed change of one ramping frame of `dt` seconds. */
  function SpeedStep(cfg: Settings, dt: real): (d: real)
    ensures cfg.speedChangeAcceleration > 0.0 && dt > 0.0 ==> d > 0.0
  {
    cfg.speedChangeAcceleration * dt
  }

  /** One frame of `dt` seconds. */
  function Tick(cfg: Settings, c: Controller, dt: real): (r: Controller)
    // without a pending change nothing happens
    ensures !c.changeSpeed ==> r == c
    // the modes are never touched by a frame
    ensures r.speedMode == c.speedMode && r.previousSpeedMode == c.previousSpeedMode
    // ramping down: one step of acceleration times frame time, stopping once
    // the speed is at or below the target
    ensures c.changeSpeed && RampFor(cfg, c.previousSpeedMode, c.speedMode).Down? ==>
      var target := RampFor(cfg, c.previousSpeedMode, c.speedMode).target;
      c.speed - r.speed == SpeedStep(cfg, dt) &&
      (r.changeSpeed <==> r.speed > target)
    // ramping up: the same step upward, stopping at or above the target
    ensures c.changeSpeed && RampFor(cfg, c.previousSpeedMode, c.speedMode).Up? ==>
      var target := RampFor(cfg, c.previousSpeedMode, c.speedMode).target;
      r.speed - c.speed == SpeedStep(cfg, dt) &&
      (r.changeSpeed <==> r.speed < target)
    // any other pair leaves the speed alone and the change pending
    ensures c.changeSpeed && RampFor(cfg, c.previousSpeedMode, c.speedMode) == Hold ==> r == c
  {
    if c.changeSpeed then
      var step := SpeedStep(cfg, dt);
      match RampFor(cfg, c.previousSpeedMode, c.speedMode)
      case Down(target) =>
        var speed := c.speed - step;
        c.(speed := speed, changeSpeed := !(speed <= target))
      case Up(target) =>
        var speed := c.speed + step;
        c.(speed := speed, changeSpeed := !(speed >= target))
      case Hold => c
    else
      c
  }

  /** The state after `k` frames of `dt` seconds each. */
  function Frames(cfg: Settings, c: Controller, dt: real, k: nat): Controller
  {
    if k == 0 then c else Tick(cfg, Frames(cfg, c, dt, k - 1), dt)
  }

  /** An upward ramp from below its target climbs by one step per frame
      while below it, stops on the first frame at or above it, overshooting
      by less than one step, and has stopped once enough frames have passed. */
  lemma {:induction false} RampUpRun(cfg: Settings, c: Controller, dt: real, k: nat)
    requires c.changeSpeed && RampFor(cfg, c.previousSpeedMode, c.speedMode).Up?
    requires SpeedStep(cfg, dt) > 0.0
    requires c.speed < RampFor(cfg, c.previousSpeedMode, c.speedMode).target
    ensures var r, target, step := Frames(cfg, c, dt, k), RampFor(cfg, c.previousSpeedMode, c.speedMode).target,
                                   SpeedStep(cfg, dt);
      r.speedMode == c.speedMode && r.previousSpeedMode == c.previousSpeedMode &&
      (r.changeSpeed ==> r.speed == c.speed + k as real * step && r.speed < target) &&
      (!r.changeSpeed ==> target <= r.speed < target + step) &&
      (r.changeSpeed <==> c.speed + k as real * step < target)
  {
    if k > 0 {
      RampUpRun(cfg, c, dt, k - 1);
      var step := SpeedStep(cfg, dt);
      assert c.speed + k as real * step == c.speed + (k - 1) as real * step + step;
    }
  }

  /** The mirror image for a downward ramp from above its target. */
  lemma {:induction false} RampDownRun(cfg: Settings, c: Controller, dt: real, k: nat)
    requires c.changeSpeed && RampFor(cfg, c.previousSpeedMode, c.speedMode).Down?
    requires SpeedStep(cfg, dt) > 0.0
    requires c.speed > RampFor(cfg, c.previousSpeedMode, c.speedMode).target
    ensures var r, target, step := Frames(cfg, c, dt, k), RampFor(cfg, c.previousSpeedMode, c.speedMode).target,
                                   SpeedStep(cfg, dt);
      r.speedMode == c.speedMode && r.previousSpeedMode == c.previousSpeedMode &&
      (r.changeSpeed ==> r.speed == c.speed - k as real * step && r.speed > target) &&
      (!r.changeSpeed ==> target - step < r.speed <= target) &&
      (r.changeSpeed <==> c.speed - k as real * step > target)
  {
    if k > 0 {
      RampDownRun(cfg, c, dt, k - 1);
      var step := SpeedStep(cfg, dt);
      assert c.speed - k as real * step == c.speed - (k - 1) as real * step - step;
    }
  }

  /** A pair that holds keeps the whole state, change request included,
      frame after frame: the speed is frozen until the next trigger. */
  lemma {:induction false} HoldFreezes(cfg: Settings, c: Controller, dt: real, k: nat)
    requires RampFor(cfg, c.previousSpeedMode, c.speedMode) == Hold
    ensures Frames(cfg, c, dt, k) == c
  {
    if k > 0 {
      HoldFreezes(cfg, c, dt, k - 1);
    }
  }

  /** Passing a second trigger of the same tag while its ramp is running
      makes the previous mode equal the mode, so the ramp stops where it is
      and the change request stays pending. */
  lemma {:induction false} SameTagReentryFreezes(cfg: Settings, c: Controller, tag: string, dt: real, k: nat)
    requires ModeForTag(tag).Some?
    ensures var twice := TriggerEnter(TriggerEnter(c, tag), tag);
      twice.changeSpeed && twice.speed == c.speed && Frames(cfg, twice, dt, k) == twice
  {
    var twice := TriggerEnter(TriggerEnter(c, tag), tag);
    HoldFreezes(cfg, twice, dt, k);
  }

  /** With the shipped settings, a speed boost entered just after the start
      asks for a ramp from the normal mode into the drop mode at speed 15. */
  lemma BoostFromStart()
    ensures TriggerEnter(Started(DEFAULT_SETTINGS), "speed_boost") == Controller(Drop, Normal, true, 15.0)
    ensures RampFor(DEFAULT_SETTINGS, Normal, Drop) == Up(30.0)
  {
    assert "speed_boost" != "normal_speed" by { assert "speed_boost"[0] != "normal_speed"[0]; }
  }

  /** That boost raises the speed from 15 by 5 units per second while below
      30, and the ramp has stopped, at no more than one step past 30, once 15
      units of speed have been added. */
  lemma BoostFromNormalSpeed(c: Controller, dt: real, k: nat)
    requires c == Controller(Drop, Normal, true, 15.0) && dt > 0.0
    ensures SpeedStep(DEFAULT_SETTINGS, dt) == 5.0 * dt
    ensures var r, step := Frames(DEFAULT_SETTINGS, c, dt, k), SpeedStep(DEFAULT_SETTINGS, dt);
      r.speedMode == Drop &&
      (15.0 + k as real * step < 30.0 ==> r.speed == 15.0 + k as real * step && r.changeSpeed) &&
      (k as real * step >= 15.0 ==> !r.changeSpeed && 30.0 <= r.speed < 30.0 + step)
  {
    assert RampFor(DEFAULT_SETTINGS, c.previousSpeedMode, c.speedMode) == Up(30.0);
    RampUpRun(DEFAULT_SETTINGS, c, dt, k);
    var r, step := Frames(DEFAULT_SETTINGS, c, dt, k), SpeedStep(DEFAULT_SETTINGS, dt);
    var climbed := k as real * step;
    assert r.changeSpeed <==> 15.0 + climbed < 30.0;
  }

  /** The spline follower whose speed the controller drives. */
  class SplineFollower {
    var speed: real

    constructor (speed: real)
      ensures this.speed == speed
    {
      this.speed := speed;
    }
  }

  /** The controller component. */
  class SpeedController {
    var normalSpeed: real
    var dropSpeed: real
    var climbUpSpeed: real
    var speedChangeAcceleration: real
    var speedMode: SpeedMode
    var previousSpeedMode: SpeedMode
    var changeSpeed: bool
    const splineFollower: SplineFollower

    /** The settings as currently configured. */
    function Config(): Settings
      reads this
    {
      Settings(normalSpeed, dropSpeed, climbUpSpeed, speedChangeAcceleration)
    }

    /** The abstract state: the controller's fields and the follower's speed. */
    function State(): Controller
      reads this, splineFollower
    {
      Controller(speedMode, previousSpeedMode, changeSpeed, splineFollower.speed)
    }

    /** The field initialisers: shipped settings, normal mode, no change. */
    constructor (follower: SplineFollower)
      ensures splineFollower == follower
      ensures Config() == DEFAULT_SETTINGS
      ensures speedMode == Normal && previousSpeedMode == Normal && !changeSpeed
    {
      splineFollower := follower;
      normalSpeed, dropSpeed, climbUpSpeed := 15.0, 30.0, 9.0;
      speedChangeAcceleration := 5.0;
      speedMode, previousSpeedMode := Normal, Normal;
      changeSpeed := false;
    }

    /** Start: the follower is set going at the normal speed. */
    method Start()
      modifies splineFollower
      ensures splineFollower.speed == normalSpeed
      ensures speedMode == Normal && previousSpeedMode == Normal && !changeSpeed ==> State() == Started(Config())
    {
      splineFollower.speed := normalSpeed;
    }

    /** A trigger volume with tag `tag` was entered. */
    method OnTriggerEnter(tag: string)
      modifies this`speedMode, this`previousSpeedMode, this`changeSpeed
      ensures State() == TriggerEnter(old(State()), tag)
    {
      previousSpeedMode := speedMode;
      if tag == "normal_speed" {
        speedMode := Normal;
        changeSpeed := true;
      } else if tag == "speed_boost" {
        speedMode := Drop;
        changeSpeed := true;
      } else if tag == "slow_down" {
        speedMode := ClimbUp;
        changeSpeed := true;
      }
    }

    /** One frame of `dt` seconds. */
    method Update(dt: real)
      modifies this`changeSpeed, splineFollower
      ensures State() == Tick(Config(), old(State()), dt)
    {
      if changeSpeed {
        if previousSpeedMode == Normal && speedMode == ClimbUp {
          splineFollower.speed := splineFollower.speed - speedChangeAcceleration * dt;
          if splineFollower.speed <= climbUpSpeed {
            changeSpeed := false;
          }
        } else if previousSpeedMode == ClimbUp && speedMode == Normal {
          splineFollower.speed := splineFollower.speed + speedChangeAcceleration * dt;
          if splineFollower.speed >= normalSpeed {
            changeSpeed := false;
          }
        } else if previousSpeedMode == Normal && speedMode == Drop {
          splineFollower.speed := splineFollower.speed + speedChangeAcceleration * dt;
          if splineFollower.speed >= dropSpeed {
            changeSpeed := false;
          }
        } else if previousSpeedMode == Drop && speedMode == Normal {
          splineFollower.speed := splineFollower.speed - speedChangeAcceleration * dt;
          if splineFollower.speed <= normalSpeed {
            changeSpeed := false;
          }
        }
      }
    }
  }
}
