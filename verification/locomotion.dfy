/**
 Camera-relative locomotion (`ThirdPersonController`): the rate-limited horizontal speed,
 the ground stamp, the coyote-time jump and asymmetric gravity, stepped once per frame in
 a fixed order.

 The per-frame rules are pure functions on a `Kinematics` value; the class
 `ThirdPersonController` holds the same numbers as fields and its `Update` is proved to
 step them exactly as `Step` says. Directions are reduced to whether the flattened,
 normalised move direction is non-zero (its length is then 1); the sphere cast, the
 capsule's contact flag and the square root behind the jump speed are inputs.
 */
module Locomotion {
  import opened Mathf

  /** The inspector settings the modelled state depends on. */
  datatype MoveSettings = MoveSettings(
    moveSpeed: real,
    sprintSpeed: real,
    acceleration: real,
    deceleration: real,
    airControl: real,
    jumpHeight: real,
    gravity: real,
    fallMultiplier: real,
    coyoteTime: real)
  {
    /** Non-negative speeds, rates and gravity, and `airControl` within its [0, 1] slider. */
    predicate Physical()
    {
      && moveSpeed >= 0.0 && sprintSpeed >= 0.0
      && acceleration >= 0.0 && deceleration >= 0.0
      && 0.0 <= airControl <= 1.0
      && gravity >= 0.0 && fallMultiplier >= 0.0
    }

    /** The faster of the two target speeds. */
    function TopSpeed(): real
    {
      if moveSpeed < sprintSpeed then sprintSpeed else moveSpeed
    }
  }

  /** The values the component ships with. */
  const DefaultSettings := MoveSettings(4.0, 6.5, 12.0, 14.0, 0.5, 1.3, 20.0, 1.5, 0.1)

  /** How long after the last ground contact acceleration still uses the grounded rates. */
  const GroundedGrace: real := 0.02

  /** The vertical velocity a grounded, falling character is reset to, to keep it seated. */
  const GroundedBias: real := -2.0

  /** The squared horizontal speed above which the character turns to face its motion. */
  const FacingThreshold: real := 0.0001

  /**
   `jumpSpeed` is `sqrt(2 * gravity * jumpHeight)`: the launch speed whose apex under
   constant gravity is `jumpHeight`.
   */
  predicate IsJumpSpeed(s: MoveSettings, jumpSpeed: real)
  {
    jumpSpeed >= 0.0 && jumpSpeed * jumpSpeed == 2.0 * s.gravity * s.jumpHeight
  }

  /** The state the controller carries from frame to frame. */
  datatype Kinematics = Kinematics(currentSpeed: real, velocityY: real, lastGroundedTime: real)

  /**
   What one frame reads: whether the move direction is non-zero, the sprint and jump
   buttons, the capsule's contact flag, whether the downward probe hit, the clock and the
   frame time.
   */
  datatype FrameInput = FrameInput(
    hasDirection: bool,
    sprintHeld: bool,
    jumpPressed: bool,
    ccGrounded: bool,
    probeHit: bool,
    now: real,
    dt: real)

  /** A face to turn to; computed by the engine and only ever kept or replaced here. */
  datatype Rotation = Rotation(x: real, y: real, z: real, w: real)

  /** The displacement handed to the capsule: along the move direction, and up. */
  datatype Displacement = Displacement(horizontal: real, vertical: real)

  /** `GroundCheck`: the downward probe hit, or else the capsule reports contact. */
  predicate GroundCheck(ccGrounded: bool, probeHit: bool)
    ensures probeHit ==> GroundCheck(ccGrounded, probeHit)
    ensures !probeHit ==> GroundCheck(ccGrounded, probeHit) == ccGrounded
  {
    probeHit || ccGrounded
  }

  /** `IsGrounded`: contact now, or contact within the last `GroundedGrace` seconds. */
  predicate IsGrounded(ccGrounded: bool, now: real, lastGroundedTime: real)
    ensures ccGrounded ==> IsGrounded(ccGrounded, now, lastGroundedTime)
    ensures !ccGrounded && now <= lastGroundedTime + GroundedGrace ==> IsGrounded(ccGrounded, now, lastGroundedTime)
    ensures !ccGrounded && now > lastGroundedTime + GroundedGrace ==> !IsGrounded(ccGrounded, now, lastGroundedTime)
  {
    ccGrounded || now - lastGroundedTime <= GroundedGrace
  }

  /**
   The speed the character ramps toward: the sprint or walk speed times the length of the
   move direction, which is 1 when there is a direction and 0 when there is none. With
   non-negative speeds it lies in [0, TopSpeed].
   */
  function TargetSpeed(s: MoveSettings, hasDirection: bool, sprintHeld: bool): (r: real)
    ensures !hasDirection ==> r == 0.0
    ensures hasDirection && sprintHeld ==> r == s.sprintSpeed
    ensures hasDirection && !sprintHeld ==> r == s.moveSpeed
    ensures s.Physical() ==> 0.0 <= r <= s.TopSpeed()
  {
    if hasDirection then (if sprintHeld then s.sprintSpeed else s.moveSpeed) else 0.0
  }

  /** The acceleration rate in the air, `acceleration * airControl`: at most the grounded rate. */
  function AirAcceleration(s: MoveSettings): (rate: real)
    ensures s.Physical() ==> 0.0 <= rate <= s.acceleration
  {
    ScaleBounds(s.acceleration, s.airControl);
    s.acceleration * s.airControl
  }

  /**
   The deceleration rate in the air, `deceleration * (0.5 + 0.5 * airControl)`: the blend
   keeps at least half the grounded rate, so braking never vanishes in the air.
   */
  function AirDeceleration(s: MoveSettings): (rate: real)
    ensures s.Physical() ==> s.deceleration / 2.0 <= rate <= s.deceleration
  {
    HalfScaleBounds(s.deceleration, AirBrakeFactor(s.airControl));
    assert s.Physical() ==> 0.5 <= AirBrakeFactor(s.airControl) <= 1.0;
    assert s.Physical() ==> s.deceleration * AirBrakeFactor(s.airControl) <= s.deceleration;
    s.deceleration * AirBrakeFactor(s.airControl)
  }

  /** The share of the grounded deceleration kept in the air: `0.5 + 0.5 * airControl`. */
  function AirBrakeFactor(airControl: real): (f: real)
    ensures 0.0 <= airControl <= 1.0 ==> 0.5 <= f <= 1.0
    ensures airControl == 0.0 ==> f == 0.5
    ensures airControl == 1.0 ==> f == 1.0
  {
    0.5 + 0.5 * airControl
  }

  /** Scaling a non-negative `x` by a factor `f` in [1/2, 1] keeps it in [x / 2, x]. */
  lemma HalfScaleBounds(x: real, f: real)
    ensures x >= 0.0 && 0.5 <= f <= 1.0 ==> x / 2.0 <= x * f
    ensures x >= 0.0 && 0.5 <= f <= 1.0 ==> x * f <= x
  {
    if x >= 0.0 && 0.5 <= f <= 1.0 {
      MulLe(0.5, f, x);
      MulLe(f, 1.0, x);
    }
  }

  /**
   The rate the speed ramps at: the acceleration rate when speeding up and the
   deceleration rate otherwise, each the grounded one when `grounded` and the airborne one
   when not.
   */
  function SelectRate(s: MoveSettings, targetSpeed: real, currentSpeed: real, grounded: bool): (rate: real)
    ensures targetSpeed > currentSpeed && grounded ==> rate == s.acceleration
    ensures targetSpeed > currentSpeed && !grounded ==> rate == AirAcceleration(s)
    ensures targetSpeed <= currentSpeed && grounded ==> rate == s.deceleration
    ensures targetSpeed <= currentSpeed && !grounded ==> rate == AirDeceleration(s)
    ensures s.Physical() ==> rate >= 0.0
    ensures s.Physical() && targetSpeed > currentSpeed ==> rate <= s.acceleration
    ensures s.Physical() && targetSpeed <= currentSpeed
      ==> s.deceleration / 2.0 <= rate <= s.deceleration
  {
    var accel := if grounded then s.acceleration else AirAcceleration(s);
    var decc := if grounded then s.deceleration else AirDeceleration(s);
    if targetSpeed > currentSpeed then accel else decc
  }

  /** Scaling a non-negative `x` by a factor `f` in [0, 1] gives at most `x`. */
  lemma ScaleBounds(x: real, f: real)
    ensures x >= 0.0 && 0.0 <= f <= 1.0 ==> 0.0 <= x * f <= x
  {
    if x >= 0.0 && 0.0 <= f <= 1.0 {
      MulLe(0.0, f, x);
      MulLe(f, 1.0, x);
    }
  }

  lemma NonNegativeProduct(x: real, y: real)
    ensures x >= 0.0 && y >= 0.0 ==> x * y >= 0.0
  {
    if x >= 0.0 && y >= 0.0 {
      MulLe(0.0, x, y);
    }
  }

  /**
   The speed ramp: the current speed moves toward the target by at most `rate * dt` and
   never past it.
   */
  function SpeedStep(current: real, target: real, rate: real, dt: real): (r: real)
    ensures rate >= 0.0 && dt >= 0.0 && current <= target ==> current <= r <= target
    ensures rate >= 0.0 && dt >= 0.0 && target <= current ==> target <= r <= current
    ensures rate >= 0.0 && dt >= 0.0 ==> Abs(r - current) <= rate * dt
    ensures r == target || Abs(r - current) == Abs(rate * dt)
  {
    NonNegativeProduct(rate, dt);
    MoveTowards(current, target, rate * dt)
  }

  /**
   The ground stamp: when grounded, the grounded time becomes `now` and a falling
   vertical velocity is reset to `GroundedBias`; a rising or resting one is kept.
   */
  function GroundStamp(k: Kinematics, grounded: bool, now: real): (r: Kinematics)
    ensures r.currentSpeed == k.currentSpeed
    ensures grounded ==> r.lastGroundedTime == now
    ensures !grounded ==> r == k
    ensures grounded && k.velocityY < 0.0 ==> r.velocityY == GroundedBias
    ensures k.velocityY >= 0.0 ==> r.velocityY == k.velocityY
  {
    if grounded then
      k.(lastGroundedTime := now, velocityY := if k.velocityY < 0.0 then GroundedBias else k.velocityY)
    else k
  }

  /** Gravity, made stronger by `fallMultiplier` while falling. */
  function Gravity(s: MoveSettings, velocityY: real, dt: real): (r: real)
    ensures velocityY < 0.0 ==> r == velocityY - s.gravity * s.fallMultiplier * dt
    ensures velocityY >= 0.0 ==> r == velocityY - s.gravity * dt
    ensures s.Physical() && dt >= 0.0 ==> r <= velocityY
  {
    var g := s.gravity * (if velocityY < 0.0 then s.fallMultiplier else 1.0);
    NonNegativeProduct(s.gravity, s.fallMultiplier);
    NonNegativeProduct(g, dt);
    velocityY - g * dt
  }

  /** The jump fires on a press when grounded now or grounded within `coyoteTime`. */
  predicate JumpFires(s: MoveSettings, jumpPressed: bool, grounded: bool, now: real, lastGroundedTime: real)
    ensures JumpFires(s, jumpPressed, grounded, now, lastGroundedTime) ==> jumpPressed
    ensures jumpPressed && grounded ==> JumpFires(s, jumpPressed, grounded, now, lastGroundedTime)
    ensures jumpPressed && !grounded
      ==> (JumpFires(s, jumpPressed, grounded, now, lastGroundedTime) <==> now <= lastGroundedTime + s.coyoteTime)
  {
    jumpPressed && (grounded || now - lastGroundedTime <= s.coyoteTime)
  }

  /**
   The ramped speed of a frame: toward the target speed at the rate `SelectRate` picks,
   with the grounded test made against the grounded time from before this frame's stamp.
   */
  function RampedSpeed(s: MoveSettings, k: Kinematics, input: FrameInput): real
  {
    var target := TargetSpeed(s, input.hasDirection, input.sprintHeld);
    SpeedStep(k.currentSpeed, target, SelectRate(s, target, k.currentSpeed,
      IsGrounded(input.ccGrounded, input.now, k.lastGroundedTime)), input.dt)
  }

  /** The jump phase: a firing jump sets the vertical velocity to `jumpSpeed`. */
  function Launch(s: MoveSettings, k: Kinematics, jumpPressed: bool, grounded: bool, now: real, jumpSpeed: real): (r: Kinematics)
    ensures r.currentSpeed == k.currentSpeed && r.lastGroundedTime == k.lastGroundedTime
    ensures JumpFires(s, jumpPressed, grounded, now, k.lastGroundedTime) ==> r.velocityY == jumpSpeed
    ensures !JumpFires(s, jumpPressed, grounded, now, k.lastGroundedTime) ==> r == k
  {
    if JumpFires(s, jumpPressed, grounded, now, k.lastGroundedTime) then k.(velocityY := jumpSpeed) else k
  }

  /**
   One frame of `Update`, in the source's order: ramp the speed, stamp the ground, jump,
   apply gravity. Only the speed ramp reads the grounded time from before the stamp.
   */
  function Step(s: MoveSettings, k: Kinematics, input: FrameInput, jumpSpeed: real): (r: Kinematics)
    ensures r.currentSpeed == RampedSpeed(s, k, input)
    ensures GroundCheck(input.ccGrounded, input.probeHit) ==> r.lastGroundedTime == input.now
    ensures !GroundCheck(input.ccGrounded, input.probeHit) ==> r.lastGroundedTime == k.lastGroundedTime
  {
    var grounded := GroundCheck(input.ccGrounded, input.probeHit);
    var stamped := GroundStamp(k.(currentSpeed := RampedSpeed(s, k, input)), grounded, input.now);
    var launched := Launch(s, stamped, input.jumpPressed, grounded, input.now, jumpSpeed);
    launched.(velocityY := Gravity(s, launched.velocityY, input.dt))
  }

  /**
   The speed ramp within a frame: the new speed lies between the old speed and the
   target, the step is at most the selected rate times `dt`, and the rate is chosen by
   `IsGrounded` against the grounded time from before this frame's stamp.
   */
  lemma StepRampsSpeed(s: MoveSettings, k: Kinematics, input: FrameInput, jumpSpeed: real)
    requires s.Physical() && input.dt >= 0.0
    ensures var r := Step(s, k, input, jumpSpeed);
      var target := TargetSpeed(s, input.hasDirection, input.sprintHeld);
      var rate := SelectRate(s, target, k.currentSpeed, IsGrounded(input.ccGrounded, input.now, k.lastGroundedTime));
      && (k.currentSpeed <= target ==> k.currentSpeed <= r.currentSpeed <= target)
      && (target <= k.currentSpeed ==> target <= r.currentSpeed <= k.currentSpeed)
      && Abs(r.currentSpeed - k.currentSpeed) <= rate * input.dt
  {
    var target := TargetSpeed(s, input.hasDirection, input.sprintHeld);
    var rate := SelectRate(s, target, k.currentSpeed, IsGrounded(input.ccGrounded, input.now, k.lastGroundedTime));
    assert Step(s, k, input, jumpSpeed).currentSpeed == SpeedStep(k.currentSpeed, target, rate, input.dt);
  }

  /** With non-negative speeds, a speed in [0, TopSpeed] stays there. */
  lemma StepKeepsSpeedInRange(s: MoveSettings, k: Kinematics, input: FrameInput, jumpSpeed: real)
    requires s.Physical() && input.dt >= 0.0
    requires 0.0 <= k.currentSpeed <= s.TopSpeed()
    ensures 0.0 <= Step(s, k, input, jumpSpeed).currentSpeed <= s.TopSpeed()
  {
    StepRampsSpeed(s, k, input, jumpSpeed);
  }

  /**
   The jump: it fires exactly when the button is pressed and the character is grounded
   now or was within `coyoteTime`, measured from the grounded time before this frame.
   Gravity then runs in the same frame, so a frame that jumps ends at `jumpSpeed - gravity * dt`.
   */
  lemma StepJump(s: MoveSettings, k: Kinematics, input: FrameInput, jumpSpeed: real)
    requires s.Physical() && input.dt >= 0.0 && IsJumpSpeed(s, jumpSpeed)
    ensures var grounded := GroundCheck(input.ccGrounded, input.probeHit);
      JumpFires(s, input.jumpPressed, grounded, input.now, k.lastGroundedTime)
      ==> Step(s, k, input, jumpSpeed).velocityY == jumpSpeed - s.gravity * input.dt
  {
  }

  /**
   Without a jump the vertical velocity is the ground-stamped velocity under gravity: a
   falling character that touches ground restarts from `GroundedBias`, and no airborne
   character is sped upward.
   */
  lemma StepWithoutJump(s: MoveSettings, k: Kinematics, input: FrameInput, jumpSpeed: real)
    requires s.Physical() && input.dt >= 0.0
    ensures var grounded := GroundCheck(input.ccGrounded, input.probeHit);
      var r := Step(s, k, input, jumpSpeed);
      !JumpFires(s, input.jumpPressed, grounded, input.now, k.lastGroundedTime)
      ==> && r.velocityY == Gravity(s, GroundStamp(k, grounded, input.now).velocityY, input.dt)
          && (grounded && k.velocityY < 0.0 ==> r.velocityY <= GroundedBias)
          && (!grounded ==> r.velocityY <= k.velocityY)
  {
  }

  /** The engine's loop: `Update` once per frame. */
  ghost function RunSteps(s: MoveSettings, k: Kinematics, frames: seq<FrameInput>, jumpSpeed: real): Kinematics
    decreases |frames|
  {
    if frames == [] then k
    else RunSteps(s, Step(s, k, frames[0], jumpSpeed), frames[1..], jumpSpeed)
  }

  /** Over any sequence of frames the speed stays in [0, TopSpeed] once it starts there. */
  lemma {:induction false} RunStepsKeepsSpeedInRange(
    s: MoveSettings, k: Kinematics, frames: seq<FrameInput>, jumpSpeed: real)
    requires s.Physical() && forall i :: 0 <= i < |frames| ==> frames[i].dt >= 0.0
    requires 0.0 <= k.currentSpeed <= s.TopSpeed()
    ensures 0.0 <= RunSteps(s, k, frames, jumpSpeed).currentSpeed <= s.TopSpeed()
    decreases |frames|
  {
    if frames != [] {
      StepKeepsSpeedInRange(s, k, frames[0], jumpSpeed);
      RunStepsKeepsSpeedInRange(s, Step(s, k, frames[0], jumpSpeed), frames[1..], jumpSpeed);
    }
  }

  /**
   The displacement given to the capsule for one frame: the horizontal velocity (the move
   direction, of length 0 or 1, times the speed) and the vertical velocity, each times `dt`.
   */
  function Motion(hasDirection: bool, speed: real, velocityY: real, dt: real): (m: Displacement)
    ensures !hasDirection ==> m.horizontal == 0.0
    ensures speed >= 0.0 && dt >= 0.0 ==> m.horizontal >= 0.0
    ensures velocityY <= 0.0 && dt >= 0.0 ==> m.vertical <= 0.0
  {
    NonNegativeProduct(speed, dt);
    NonNegativeProduct(-velocityY, dt);
    Displacement((if hasDirection then speed else 0.0) * dt, velocityY * dt)
  }

  /** The squared length of the horizontal velocity: the move direction has length 0 or 1. */
  function HorizontalSqrMagnitude(hasDirection: bool, speed: real): (m: real)
    ensures !hasDirection ==> m == 0.0
    ensures m >= 0.0
  {
    if hasDirection then speed * speed else 0.0
  }

  /** The character turns only when its horizontal velocity is not negligible. */
  predicate TurnsToFace(hasDirection: bool, speed: real)
    ensures TurnsToFace(hasDirection, speed) ==> hasDirection && speed != 0.0
  {
    HorizontalSqrMagnitude(hasDirection, speed) > FacingThreshold
  }

  /**
   For a non-negative speed the facing guard is a speed threshold: the character turns
   exactly when it has a move direction and moves faster than 0.01 units per second.
   */
  lemma FacingNeedsSpeed(hasDirection: bool, speed: real)
    requires speed >= 0.0
    ensures TurnsToFace(hasDirection, speed) <==> hasDirection && speed > 0.01
  {
    if speed > 0.01 {
      MulLt(0.01, speed, speed);
      MulLt(0.01, speed, 0.01);
    } else {
      MulLe(speed, 0.01, speed);
      MulLe(speed, 0.01, 0.01);
    }
  }

  /**
   The locomotion component. `hasCamera` says whether a camera transform is bound;
   `facing` is the body's rotation.
   */
  class ThirdPersonController {
    const settings: MoveSettings
    const hasCamera: bool
    var currentSpeed: real
    var velocityY: real
    var lastGroundedTime: real
    var facing: Rotation

    function State(): Kinematics
      reads this
    {
      Kinematics(currentSpeed, velocityY, lastGroundedTime)
    }

    ghost predicate Valid()
      reads this
    {
      settings.Physical() && 0.0 <= currentSpeed <= settings.TopSpeed()
    }

    /** A freshly added component: private fields at their zero defaults. */
    constructor (settings: MoveSettings, hasCamera: bool, facing: Rotation)
      ensures this.settings == settings && this.hasCamera == hasCamera && this.facing == facing
      ensures State() == Kinematics(0.0, 0.0, 0.0)
      ensures settings.Physical() ==> Valid()
    {
      this.settings := settings;
      this.hasCamera := hasCamera;
      this.facing := facing;
      currentSpeed, velocityY, lastGroundedTime := 0.0, 0.0, 0.0;
    }

    /**
     `Update` for one frame. `jumpSpeed` stands for the square root the source takes and
     `turned` for the rotation it slerps toward the motion. Returns the displacement given
     to the capsule, or nothing when no camera is bound and the frame is skipped.
     */
    method Update(input: FrameInput, jumpSpeed: real, turned: Rotation) returns (moved: Option<Displacement>)
      requires IsJumpSpeed(settings, jumpSpeed)
      modifies this
      ensures !hasCamera ==> moved.None? && State() == old(State()) && facing == old(facing)
      ensures hasCamera ==> State() == Step(settings, old(State()), input, jumpSpeed)
      ensures hasCamera ==> moved == Some(Motion(input.hasDirection, currentSpeed, velocityY, input.dt))
      ensures hasCamera ==> facing == if TurnsToFace(input.hasDirection, currentSpeed) then turned else old(facing)
      ensures old(Valid()) && input.dt >= 0.0 ==> Valid()
    {
      if !hasCamera {
        return None;
      }
      ghost var before := State();
      RampSpeed(input);
      var grounded := GroundCheck(input.ccGrounded, input.probeHit);
      StampGround(grounded, input.now);
      Jump(input.jumpPressed, grounded, input.now, jumpSpeed);
      velocityY := Gravity(settings, velocityY, input.dt);

      moved := Some(Motion(input.hasDirection, currentSpeed, velocityY, input.dt));

      if TurnsToFace(input.hasDirection, currentSpeed) {
        facing := turned;
      }
      if before.currentSpeed >= 0.0 && settings.Physical() && input.dt >= 0.0 && before.currentSpeed <= settings.TopSpeed() {
        StepKeepsSpeedInRange(settings, before, input, jumpSpeed);
      }
    }

    /**
     The speed ramp of `Update`: toward the target speed at the acceleration or
     deceleration rate, grounded or airborne by the grounded time not yet stamped.
     */
    method RampSpeed(input: FrameInput)
      modifies this`currentSpeed
      ensures currentSpeed == RampedSpeed(settings, old(State()), input)
    {
      var targetSpeed := TargetSpeed(settings, input.hasDirection, input.sprintHeld);
      var accel := if IsGrounded(input.ccGrounded, input.now, lastGroundedTime)
        then settings.acceleration else AirAcceleration(settings);
      var decc := if IsGrounded(input.ccGrounded, input.now, lastGroundedTime)
        then settings.deceleration else AirDeceleration(settings);
      if targetSpeed > currentSpeed {
        currentSpeed := SpeedStep(currentSpeed, targetSpeed, accel, input.dt);
      } else {
        currentSpeed := SpeedStep(currentSpeed, targetSpeed, decc, input.dt);
      }
    }

    /** The ground stamp of `Update`: record the contact time and seat a falling body. */
    method StampGround(grounded: bool, now: real)
      modifies this`lastGroundedTime, this`velocityY
      ensures State() == GroundStamp(old(State()), grounded, now)
    {
      if grounded {
        lastGroundedTime := now;
        if velocityY < 0.0 {
          velocityY := GroundedBias;
        }
      }
    }

    /** The jump of `Update`, tested after the stamp: a press while grounded or within `coyoteTime`. */
    method Jump(jumpPressed: bool, grounded: bool, now: real, jumpSpeed: real)
      modifies this`velocityY
      ensures State() == Launch(settings, old(State()), jumpPressed, grounded, now, jumpSpeed)
    {
      var canCoyote := now - lastGroundedTime <= settings.coyoteTime;
      if jumpPressed && (grounded || canCoyote) {
        velocityY := jumpSpeed;
      }
    }
  }
}
