# Third-person camera and locomotion, modelled in Dafny

This project models the per-frame state updates of two Unity components. Numbers are
Dafny `real`s.

- **`ThirdPersonCamera`** is an orbit camera.
  - Look input turns its yaw and pitch, and pitch is clamped.
  - Zoom input changes a desired distance, clamped to `[minDistance, maxDistance]`.
  - Each late update eases the current distance toward the desired distance.
  - A sphere cast from the pivot pushes the camera in front of any geometry in the way. The push-in never goes nearer than 40% of `minDistance`.
- **`ThirdPersonController`** is a camera-relative character mover.
  - Its horizontal speed ramps toward a walk or sprint target. The ramp is rate-limited, and the air rates are reduced.
  - A ground check stamps the time of the last ground contact and seats a falling body.
  - A jump is allowed within a coyote-time window after leaving the ground.
  - Gravity is stronger while falling.
  - The body turns to face its motion when it moves fast enough.

The model has three files:

- `mathf.dfy` (module `Mathf`) holds the `UnityEngine.Mathf` helpers the components call, written from Unity's definitions: `Clamp`, `Lerp`, `MoveTowards`, `Repeat` and `Sign`. It also holds an `Option` type for optional query results.
- `orbit_camera.dfy` (module `OrbitCamera`) states each camera rule as a pure function on an `Orbit` value (yaw, pitch, desired and current distance). The class `ThirdPersonCamera` holds the same fields. Its `Start`, `Update` and `LateUpdate` are proved to step them exactly as those functions say. Lemmas prove that the camera's ranges hold under any sequence of frames.
- `locomotion.dfy` (module `Locomotion`) follows the same pattern. `Step` is one frame of `ThirdPersonController.Update` on a `Kinematics` value (current speed, vertical velocity, last grounded time), in the source's fixed order:
  1. choose the rate;
  2. ramp the speed;
  3. stamp the ground;
  4. jump;
  5. apply gravity.

  The class `ThirdPersonController` runs the same steps on its fields. It is proved equal to `Step` and to keep the speed invariant.

Engine results become parameters:

- **Camera:**
  - the sphere-cast hit distance is an `Option<real>`;
  - the easing factor `1 - exp(-distanceDamp * dt)` is a number `smoothing`, and `Lerp` clamps it to [0, 1];
  - the initial camera-to-pivot separation and Euler angles are parameters.
- **Controller:**
  - the capsule's contact flag and the downward probe's result are booleans;
  - `Time.time` and `Time.deltaTime` are `now` and `dt`;
  - the jump speed `sqrt(2 * gravity * jumpHeight)` is a parameter constrained by `IsJumpSpeed`;
  - the slerped facing rotation is an opaque `Rotation` value, which is either kept or replaced.

Two behaviours of the code are worth stating plainly:

- **Target speed is not proportional to stick deflection.** The code multiplies the walk or sprint speed by the length of the *normalised* camera-relative direction, which is 0 or 1, so a half-deflected stick gives full speed (`Assets/Scripts/ThirdPersonController.cs:82-85`). `TargetSpeed` states this.
- **Occlusion never changes `currentDistance`.** `LateUpdate` only places the camera nearer (`Assets/Scripts/ThirdPersonCameraController.cs:119-126`). The model keeps the two apart: `currentDistance` is the eased state, and `placedDistance` is where `LateUpdate` put the camera.

## Model

| member | source | states |
|---|---|---|
| Mathf.Clamp | Assets/Scripts/ThirdPersonCameraController.cs:88 | `Mathf.Clamp`: below `min` gives `min`; otherwise above `max` gives `max`; otherwise the value. Every input's result is pinned, and for a non-empty range it lies in the range. |
| Mathf.Lerp | Assets/Scripts/ThirdPersonCameraController.cs:108 | `Mathf.Lerp` with `t` clamped to [0, 1]. The result lies between the two ends and is never farther from `b` than `a` was. It is `a` for `t <= 0` and `b` for `t >= 1`. For `t` in [0, 1] the gap left to `b` is exactly `(1 - t) * (b - a)`. |
| Mathf.MoveTowards | Assets/Scripts/ThirdPersonController.cs:90-92 | `Mathf.MoveTowards`: the target when it is within `maxDelta`. Otherwise it moves exactly `maxDelta` from the current value. For a non-negative step it stays between current and target and moves at most `maxDelta`. |
| Mathf.Repeat | Assets/Scripts/ThirdPersonCameraController.cs:144 | `Mathf.Repeat` for a positive length: the result is in `[0, length)` and differs from `t` by a whole number of lengths. |
| OrbitCamera.NormalizePitch | Assets/Scripts/ThirdPersonCameraController.cs:142-146 | The pitch is in [-180, 180) and differs from the Euler x angle by whole turns of 360. |
| OrbitCamera.NormalizePitchUnique | Assets/Scripts/ThirdPersonCameraController.cs:142-146 | The result is the only angle in [-180, 180) a whole number of turns from the input. |
| OrbitCamera.NormalizePitchFixesHalfTurn | Assets/Scripts/ThirdPersonCameraController.cs:141-146 | An angle already in [-180, 180) is returned unchanged. Normalising is idempotent. |
| OrbitCamera.StartOrbit | Assets/Scripts/ThirdPersonCameraController.cs:51-57 | With ordered ranges, the seeded pitch and both distances are in range. Current equals desired, and yaw is the Euler y angle. An in-range separation and an in-range normalised pitch are kept exactly; out-of-range ones saturate at the nearer bound. |
| OrbitCamera.UpdateOrbit | Assets/Scripts/ThirdPersonCameraController.cs:82-93 | Yaw changes by exactly `lookX * mouseXSensitivity * dt` and is not wrapped. Pitch and the desired distance stay in their ranges for any input. The zoom is subtracted unscaled by `dt`. In range the new pitch and distance are exact; an overshoot saturates at the bound it crossed. The current distance is untouched, and `InRange` is preserved. |
| OrbitCamera.SmoothDistance | Assets/Scripts/ThirdPersonCameraController.cs:108 | For a factor `t` in [0, 1] the gap left to the desired distance is exactly `(1 - t)` times the old gap. The eased distance lies between the old distance and the desired one, and is never farther from the desired one. The other fields are unchanged, and the ranges are preserved for every settings value. |
| OrbitCamera.CameraDistance | Assets/Scripts/ThirdPersonCameraController.cs:114-124 | With no hit, or a separation of at most 0.001, the camera stays at the separation. With a hit it lies in `[0.4 * minDistance, dist]`. It is either at most `hit - collisionBuffer` or exactly the floor, and it is exactly `hit - collisionBuffer` when that is in range. |
| OrbitCamera.RunFramesKeepsRange | Assets/Scripts/ThirdPersonCameraController.cs:82-108 | Pitch and both distances stay in their ranges under any sequence of `Update` + `LateUpdate` frames. |
| OrbitCamera.EaseNeverOvershoots | Assets/Scripts/ThirdPersonCameraController.cs:108 | Repeated easing with no new zoom keeps the distance between its start and the desired distance. It never overshoots. |
| OrbitCamera.ThirdPersonCamera.constructor | Assets/Scripts/ThirdPersonCameraController.cs:35-38 | A new component is enabled with its private state at zero. |
| OrbitCamera.ThirdPersonCamera.Start | Assets/Scripts/ThirdPersonCameraController.cs:42-60 | Without a target it disables itself and changes no state. With one, the state is `StartOrbit`, and with ordered ranges it satisfies the camera invariant. |
| OrbitCamera.ThirdPersonCamera.Update | Assets/Scripts/ThirdPersonCameraController.cs:82-93 | The new state is `UpdateOrbit` of the old one. It touches only yaw, pitch and desired distance, and it preserves the invariant. |
| OrbitCamera.ThirdPersonCamera.LateUpdate | Assets/Scripts/ThirdPersonCameraController.cs:95-127 | Without a target nothing changes. Yaw, pitch and desired distance are never modified. The state becomes `SmoothDistance`, and the camera is placed at `CameraDistance` of `\|currentDistance\|`. Under the invariant, the placement lies in `[0.4 * minDistance, currentDistance]`. |
| Locomotion.GroundCheck | Assets/Scripts/ThirdPersonController.cs:126-136 | A probe hit reports grounded; without one the capsule's contact flag decides. |
| Locomotion.IsGrounded | Assets/Scripts/ThirdPersonController.cs:138-141 | Grounded on contact, or without contact exactly when `now` is within 0.02 s of the last grounded time. |
| Locomotion.JumpFires | Assets/Scripts/ThirdPersonController.cs:105-106 | Never fires without a press; a press while grounded fires; a press while not grounded fires exactly when `now` is within `coyoteTime` of the last grounded time. |
| Locomotion.TurnsToFace | Assets/Scripts/ThirdPersonController.cs:118-119 | The body turns only with a move direction and a non-zero speed; `FacingNeedsSpeed` gives the exact threshold. |
| Locomotion.TargetSpeed | Assets/Scripts/ThirdPersonController.cs:82-85 | 0 without a move direction. Otherwise `sprintSpeed` when sprint is held and `moveSpeed` when not. With non-negative speeds it lies in `[0, max(moveSpeed, sprintSpeed)]`. |
| Locomotion.AirAcceleration | Assets/Scripts/ThirdPersonController.cs:86 | The airborne acceleration `acceleration * airControl` lies in `[0, acceleration]`. |
| Locomotion.AirBrakeFactor | Assets/Scripts/ThirdPersonController.cs:87 | `0.5 + 0.5 * airControl` lies in [0.5, 1]. It is 0.5 with no air control and 1 with full air control. |
| Locomotion.AirDeceleration | Assets/Scripts/ThirdPersonController.cs:87 | The airborne deceleration lies in `[deceleration / 2, deceleration]`. |
| Locomotion.SelectRate | Assets/Scripts/ThirdPersonController.cs:86-92 | The full case table: acceleration or deceleration, grounded or airborne. The chosen rate is non-negative, at most `acceleration` when speeding up, and in `[deceleration / 2, deceleration]` when slowing down. |
| Locomotion.SpeedStep | Assets/Scripts/ThirdPersonController.cs:89-92 | The new speed lies between the old speed and the target. It moves at most `rate * dt`, and reaches the target or moves exactly `rate * dt`. |
| Locomotion.GroundStamp | Assets/Scripts/ThirdPersonController.cs:97-102 | Grounded: the stamp time is `now`, and a negative vertical velocity becomes exactly -2. A non-negative velocity is kept, and nothing changes when not grounded. |
| Locomotion.Gravity | Assets/Scripts/ThirdPersonController.cs:109-111 | Subtracts `gravity * fallMultiplier * dt` when falling and `gravity * dt` otherwise. With non-negative parameters it never raises the vertical velocity. |
| Locomotion.Launch | Assets/Scripts/ThirdPersonController.cs:104-107 | A firing jump sets the vertical velocity to the jump speed. Otherwise nothing changes, and the speed and grounded time are never touched. |
| Locomotion.Step | Assets/Scripts/ThirdPersonController.cs:64-111 | One frame in the source's order. The speed is the ramped speed, and the grounded time is `now` exactly when the ground check passes. |
| Locomotion.StepRampsSpeed | Assets/Scripts/ThirdPersonController.cs:84-92 | Within a frame the speed moves toward the target without overshooting and by at most `rate * dt`. The rate is chosen by `IsGrounded` with the grounded time from before this frame's stamp. |
| Locomotion.StepKeepsSpeedInRange | Assets/Scripts/ThirdPersonController.cs:84-92 | A speed in `[0, max(moveSpeed, sprintSpeed)]` stays there after a frame. |
| Locomotion.StepJump | Assets/Scripts/ThirdPersonController.cs:104-111 | A press while grounded, or within `coyoteTime` of the previous contact, ends the frame at `jumpSpeed - gravity * dt`. |
| Locomotion.StepWithoutJump | Assets/Scripts/ThirdPersonController.cs:96-111 | Without a jump, the vertical velocity is gravity applied to the stamped velocity. A falling body that touches ground ends at or below -2, and no airborne body is sped upward. |
| Locomotion.RunStepsKeepsSpeedInRange | Assets/Scripts/ThirdPersonController.cs:84-92 | Over any sequence of frames with non-negative `dt`, the speed stays in `[0, max(moveSpeed, sprintSpeed)]`. |
| Locomotion.Motion | Assets/Scripts/ThirdPersonController.cs:113-115 | No horizontal motion without a direction. The horizontal motion is non-negative for a non-negative speed, and there is no upward motion for a non-positive vertical velocity. |
| Locomotion.HorizontalSqrMagnitude | Assets/Scripts/ThirdPersonController.cs:118-119 | The squared horizontal speed is non-negative and zero without a direction. |
| Locomotion.FacingNeedsSpeed | Assets/Scripts/ThirdPersonController.cs:118-123 | For a non-negative speed, the body turns exactly when it has a direction and its speed exceeds 0.01. |
| Locomotion.ThirdPersonController.constructor | Assets/Scripts/ThirdPersonController.cs:37-39 | A new component starts with speed, vertical velocity and grounded time at zero. It is valid for physical settings. |
| Locomotion.ThirdPersonController.Update | Assets/Scripts/ThirdPersonController.cs:64-124 | Without a camera nothing changes and nothing moves. Otherwise the new state is `Step` of the old one, and the capsule is moved by `Motion`. Facing is replaced only when `TurnsToFace`. The speed invariant is preserved. |
| Locomotion.ThirdPersonController.RampSpeed | Assets/Scripts/ThirdPersonController.cs:84-92 | The speed becomes the ramped speed of the frame. Only the speed changes. |
| Locomotion.ThirdPersonController.StampGround | Assets/Scripts/ThirdPersonController.cs:97-102 | The state becomes `GroundStamp` of the old one. |
| Locomotion.ThirdPersonController.Jump | Assets/Scripts/ThirdPersonController.cs:104-107 | The state becomes `Launch` of the old one: the jump is tested after the stamp. |

## Left out

- **Rotation.** The camera's rotation slerp (`Quaternion.Euler`, `Slerp`) is not modelled. Neither is the character's `LookRotation`/`Slerp` facing. The facing is an opaque `Rotation` value that is either kept or replaced.
- **Pivot.** The smoothed pivot position (`Vector3.Lerp` of `currentPivotPos`) and the world-space camera position are not modelled. The camera placement is the scalar distance from the pivot.
- **`Mathf.Exp` and `Mathf.Sqrt`.** The easing factor and the jump speed are parameters. The jump speed is constrained by `IsJumpSpeed`.
- **Vector geometry.** The camera-forward flattening, `Vector2.ClampMagnitude` and the normalised move direction are reduced to the boolean `hasDirection`. The direction's length is 1 when it is non-zero.
- **Unity physics.** `Physics.SphereCast`, `CharacterController.Move`, `isGrounded` and `skinWidth` are engine calls. Their results are inputs: the hit distance, `probeHit` and `ccGrounded`. `Move` receives the returned displacement.
- **Input and cursor.** Input System wiring (`OnEnable`/`OnDisable`, `ReadValue`, button queries) becomes plain parameters. Cursor locking (`ApplyCursorLock`, `OnToggleCursor`), `Debug.LogWarning` and `Awake`'s camera lookup are not modelled. `Awake`'s lookup is summarised by the `hasCamera` flag.
- **Float rounding.** IEEE float rounding is not modelled. The model uses real numbers, and the 0.001, 0.0001 and 0.02 thresholds are exact comparisons.
- **Disabling.** `ThirdPersonCamera.Start` records `enabled := false` without a target. That the engine then stops calling `Update` and `LateUpdate` is not modelled.
- **Camera separation.** `OrbitCamera.ThirdPersonCamera.LateUpdate` takes the cast separation as `|currentDistance|`: the rotated forward vector has length one. Floating-point error in that length is not modelled.
- **Repeat.** `Mathf.Repeat` requires a positive length. The only call passes 360.
