/**
 The orbit camera (`ThirdPersonCamera`): yaw, pitch and zoom distance driven by look and
 zoom input, the current distance eased toward the zoom distance, and the collision
 push-in that keeps the camera in front of geometry between it and its pivot.

 The per-frame rules are pure functions on an `Orbit` value; the class
 `ThirdPersonCamera` holds the same four numbers as fields and its methods are proved
 to step them exactly as those functions say.
 */
module OrbitCamera {
  import opened Mathf

  /** The inspector settings the modelled state depends on. */
  datatype CameraSettings = CameraSettings(
    mouseXSensitivity: real,
    mouseYSensitivity: real,
    minPitch: real,
    maxPitch: real,
    minDistance: real,
    maxDistance: real,
    collisionBuffer: real)
  {
    /** Both configured ranges are non-empty. */
    predicate Ordered()
    {
      minPitch <= maxPitch && minDistance <= maxDistance
    }
  }

  /** The values the component ships with. */
  const DefaultSettings := CameraSettings(150.0, 120.0, -35.0, 70.0, 1.2, 6.0, 0.1)

  /** Separations at or below this are too short to give a direction to cast along. */
  const MinCastSeparation: real := 0.001

  /** The push-in never brings the camera closer to the pivot than this share of `minDistance`. */
  const PushInFloor: real := 0.4

  /** Yaw and pitch in degrees; the zoom distance and the eased distance the camera sits at. */
  datatype Orbit = Orbit(yaw: real, pitch: real, desiredDistance: real, currentDistance: real)

  /** The camera invariant: pitch and both distances inside their configured ranges. */
  predicate InRange(s: CameraSettings, o: Orbit)
  {
    && s.minPitch <= o.pitch <= s.maxPitch
    && s.minDistance <= o.desiredDistance <= s.maxDistance
    && s.minDistance <= o.currentDistance <= s.maxDistance
  }

  /**
   `NormalizePitch`: brings an Euler x angle into [-180, 180) by whole turns, so that an
   angle just under 360 reads as a small negative pitch before it is clamped.
   */
  function NormalizePitch(xAngle: real): (r: real)
    ensures -180.0 <= r < 180.0
    ensures IsMultipleOf(xAngle - r, 360.0)
  {
    var shifted := Repeat(xAngle + 180.0, 360.0);
    assert (xAngle + 180.0) - shifted == xAngle - (shifted - 180.0);
    shifted - 180.0
  }

  /** The normalised pitch is the only angle in [-180, 180) a whole number of turns from the input. */
  lemma NormalizePitchUnique(xAngle: real, y: real)
    requires -180.0 <= y < 180.0
    requires IsMultipleOf(xAngle - y, 360.0)
    ensures NormalizePitch(xAngle) == y
  {
    var r := NormalizePitch(xAngle);
    var i :| xAngle - r == Times(i, 360.0);
    var j :| xAngle - y == Times(j, 360.0);
    assert r - y == (j - i) as real * 360.0;
  }

  /** An angle already in [-180, 180) is left as it is, and normalising twice changes nothing. */
  lemma NormalizePitchFixesHalfTurn(xAngle: real)
    ensures -180.0 <= xAngle < 180.0 ==> NormalizePitch(xAngle) == xAngle
    ensures NormalizePitch(NormalizePitch(xAngle)) == NormalizePitch(xAngle)
  {
    var r := NormalizePitch(xAngle);
    assert r - r == Times(0, 360.0);
    NormalizePitchUnique(r, r);
    if -180.0 <= xAngle < 180.0 {
      assert xAngle - xAngle == Times(0, 360.0);
      NormalizePitchUnique(xAngle, xAngle);
    }
  }

  /**
   `Start` with a target: the zoom distance is the initial separation from the pivot,
   clamped to the distance range, the eased distance starts there too, yaw is the
   transform's y angle and pitch its normalised x angle clamped to the pitch range.
   */
  function StartOrbit(s: CameraSettings, separation: real, eulerX: real, eulerY: real): (r: Orbit)
    ensures s.Ordered() ==> InRange(s, r)
    ensures r.currentDistance == r.desiredDistance
    ensures r.yaw == eulerY
    ensures s.minDistance <= separation <= s.maxDistance ==> r.desiredDistance == separation
    ensures s.minPitch <= NormalizePitch(eulerX) <= s.maxPitch ==> r.pitch == NormalizePitch(eulerX)
    ensures separation < s.minDistance ==> r.desiredDistance == s.minDistance
    ensures separation >= s.minDistance && separation > s.maxDistance ==> r.desiredDistance == s.maxDistance
    ensures NormalizePitch(eulerX) < s.minPitch ==> r.pitch == s.minPitch
    ensures NormalizePitch(eulerX) >= s.minPitch && NormalizePitch(eulerX) > s.maxPitch ==> r.pitch == s.maxPitch
  {
    var desired := Clamp(separation, s.minDistance, s.maxDistance);
    Orbit(eulerY, Clamp(NormalizePitch(eulerX), s.minPitch, s.maxPitch), desired, desired)
  }

  /**
   `Update`: yaw turns by the horizontal look input and is never wrapped or clamped; pitch
   turns against the vertical look input and is clamped; the zoom input is taken off the
   zoom distance as it is, not scaled by the frame time, and the result clamped. The eased
   distance is not touched.
   */
  function UpdateOrbit(s: CameraSettings, o: Orbit, lookX: real, lookY: real, zoom: real, dt: real): (r: Orbit)
    ensures r.yaw - o.yaw == lookX * s.mouseXSensitivity * dt
    ensures s.minPitch <= s.maxPitch ==> s.minPitch <= r.pitch <= s.maxPitch
    ensures s.minDistance <= s.maxDistance ==> s.minDistance <= r.desiredDistance <= s.maxDistance
    ensures s.minPitch <= o.pitch - lookY * s.mouseYSensitivity * dt <= s.maxPitch
      ==> r.pitch == o.pitch - lookY * s.mouseYSensitivity * dt
    ensures s.minDistance <= o.desiredDistance - zoom <= s.maxDistance
      ==> r.desiredDistance == o.desiredDistance - zoom
    ensures o.pitch - lookY * s.mouseYSensitivity * dt < s.minPitch ==> r.pitch == s.minPitch
    ensures var p := o.pitch - lookY * s.mouseYSensitivity * dt;
      p >= s.minPitch && p > s.maxPitch ==> r.pitch == s.maxPitch
    ensures o.desiredDistance - zoom < s.minDistance ==> r.desiredDistance == s.minDistance
    ensures var d := o.desiredDistance - zoom;
      d >= s.minDistance && d > s.maxDistance ==> r.desiredDistance == s.maxDistance
    ensures r.currentDistance == o.currentDistance
    ensures InRange(s, o) ==> InRange(s, r)
  {
    var yaw := o.yaw + lookX * s.mouseXSensitivity * dt;
    var pitch := Clamp(o.pitch - lookY * s.mouseYSensitivity * dt, s.minPitch, s.maxPitch);
    var desired := Clamp(o.desiredDistance - zoom, s.minDistance, s.maxDistance);
    o.(yaw := yaw, pitch := pitch, desiredDistance := desired)
  }

  /**
   The distance part of `LateUpdate`: the eased distance moves the fraction `t` of the way
   to the zoom distance (`t` stands for `1 - exp(-distanceDamp * dt)`), leaving the share
   `1 - t` of the gap. It ends between
   where it was and the zoom distance, never farther from the zoom distance than before,
   and nothing else changes.
   */
  function SmoothDistance(o: Orbit, t: real): (r: Orbit)
    ensures o.currentDistance <= o.desiredDistance
      ==> o.currentDistance <= r.currentDistance <= o.desiredDistance
    ensures o.desiredDistance <= o.currentDistance
      ==> o.desiredDistance <= r.currentDistance <= o.currentDistance
    ensures Abs(o.desiredDistance - r.currentDistance) <= Abs(o.desiredDistance - o.currentDistance)
    ensures 0.0 <= t <= 1.0 ==>
      o.desiredDistance - r.currentDistance == (1.0 - t) * (o.desiredDistance - o.currentDistance)
    ensures r.yaw == o.yaw && r.pitch == o.pitch && r.desiredDistance == o.desiredDistance
    ensures forall s: CameraSettings :: InRange(s, o) ==> InRange(s, r)
  {
    o.(currentDistance := Lerp(o.currentDistance, o.desiredDistance, t))
  }

  /**
   The collision push-in of `LateUpdate`: how far from the pivot the camera is placed,
   given the unoccluded separation `dist` and the sphere cast's hit distance, if any. With
   no usable direction or no hit the camera stays at `dist`; with a hit it is pulled in to
   `collisionBuffer` short of the hit, but never past `dist` and never nearer than 40% of
   `minDistance`.
   */
  function CameraDistance(s: CameraSettings, dist: real, hit: Option<real>): (r: real)
    ensures dist <= MinCastSeparation || hit.None? ==> r == dist
    ensures dist > MinCastSeparation && hit.Some? && PushInFloor * s.minDistance <= dist
      ==> PushInFloor * s.minDistance <= r <= dist
    ensures dist > MinCastSeparation && hit.Some?
      ==> r <= hit.value - s.collisionBuffer || r == PushInFloor * s.minDistance
    ensures dist > MinCastSeparation && hit.Some?
      && PushInFloor * s.minDistance <= hit.value - s.collisionBuffer <= dist
      ==> r == hit.value - s.collisionBuffer
  {
    if dist > MinCastSeparation && hit.Some? then
      Clamp(hit.value - s.collisionBuffer, PushInFloor * s.minDistance, dist)
    else
      dist
  }

  /** The input one frame of the camera consumes. */
  datatype CameraFrame = CameraFrame(lookX: real, lookY: real, zoom: real, dt: real, smoothing: real)

  /** The engine's loop with a target bound: `Update`, then `LateUpdate`, once per frame. */
  ghost function RunFrames(s: CameraSettings, o: Orbit, frames: seq<CameraFrame>): Orbit
    decreases |frames|
  {
    if frames == [] then o
    else
      var f := frames[0];
      RunFrames(s, SmoothDistance(UpdateOrbit(s, o, f.lookX, f.lookY, f.zoom, f.dt), f.smoothing), frames[1..])
  }

  /** Pitch and both distances stay in their ranges under any sequence of frames. */
  lemma {:induction false} RunFramesKeepsRange(s: CameraSettings, o: Orbit, frames: seq<CameraFrame>)
    requires InRange(s, o)
    ensures InRange(s, RunFrames(s, o, frames))
    decreases |frames|
  {
    if frames != [] {
      var f := frames[0];
      var next := SmoothDistance(UpdateOrbit(s, o, f.lookX, f.lookY, f.zoom, f.dt), f.smoothing);
      RunFramesKeepsRange(s, next, frames[1..]);
    }
  }

  /** Easing repeatedly, with no new zoom input, by the factors `ts`. */
  ghost function EaseRepeatedly(o: Orbit, ts: seq<real>): Orbit
    decreases |ts|
  {
    if ts == [] then o else EaseRepeatedly(SmoothDistance(o, ts[0]), ts[1..])
  }

  /**
   Easing converges without overshoot: after any number of frames the eased distance lies
   between where it started and the zoom distance, and it is no farther from the zoom
   distance than it was.
   */
  lemma {:induction false} EaseNeverOvershoots(o: Orbit, ts: seq<real>)
    ensures var r := EaseRepeatedly(o, ts);
      && r.desiredDistance == o.desiredDistance
      && (o.currentDistance <= o.desiredDistance ==> o.currentDistance <= r.currentDistance <= o.desiredDistance)
      && (o.desiredDistance <= o.currentDistance ==> o.desiredDistance <= r.currentDistance <= o.currentDistance)
    decreases |ts|
  {
    if ts != [] {
      EaseNeverOvershoots(SmoothDistance(o, ts[0]), ts[1..]);
    }
  }

  /**
   The camera component. `hasTarget` says whether a target transform is bound;
   `placedDistance` is how far from the pivot `LateUpdate` last put the camera.
   */
  class ThirdPersonCamera {
    const settings: CameraSettings
    const hasTarget: bool
    var enabled: bool
    var yaw: real
    var pitch: real
    var desiredDistance: real
    var currentDistance: real
    var placedDistance: real

    function State(): Orbit
      reads this
    {
      Orbit(yaw, pitch, desiredDistance, currentDistance)
    }

    ghost predicate Valid()
      reads this
    {
      InRange(settings, State())
    }

    /** A freshly added component: private fields at their zero defaults, enabled. */
    constructor (settings: CameraSettings, hasTarget: bool)
      ensures this.settings == settings && this.hasTarget == hasTarget
      ensures enabled && State() == Orbit(0.0, 0.0, 0.0, 0.0) && placedDistance == 0.0
    {
      this.settings := settings;
      this.hasTarget := hasTarget;
      enabled := true;
      yaw, pitch, desiredDistance, currentDistance := 0.0, 0.0, 0.0, 0.0;
      placedDistance := 0.0;
    }

    /**
     `Start`, given the initial separation between the camera and the pivot and the
     camera's initial Euler angles. Without a target the component disables itself and
     seeds nothing.
     */
    method Start(separation: real, eulerX: real, eulerY: real)
      modifies this
      ensures !hasTarget ==> !enabled && State() == old(State())
      ensures hasTarget ==> enabled == old(enabled)
      ensures hasTarget ==> State() == StartOrbit(settings, separation, eulerX, eulerY)
      ensures hasTarget && settings.Ordered() ==> Valid()
      ensures placedDistance == old(placedDistance)
    {
      if !hasTarget {
        enabled := false;
        return;
      }
      desiredDistance := Clamp(separation, settings.minDistance, settings.maxDistance);
      currentDistance := desiredDistance;
      yaw := eulerY;
      pitch := Clamp(NormalizePitch(eulerX), settings.minPitch, settings.maxPitch);
    }

    /** `Update`, given the frame's look and zoom input and frame time. */
    method Update(lookX: real, lookY: real, zoom: real, dt: real)
      modifies this`yaw, this`pitch, this`desiredDistance
      ensures State() == UpdateOrbit(settings, old(State()), lookX, lookY, zoom, dt)
      ensures currentDistance == old(currentDistance) && placedDistance == old(placedDistance)
      ensures old(Valid()) ==> Valid()
    {
      yaw := yaw + lookX * settings.mouseXSensitivity * dt;
      pitch := pitch - lookY * settings.mouseYSensitivity * dt;
      pitch := Clamp(pitch, settings.minPitch, settings.maxPitch);
      desiredDistance := Clamp(desiredDistance - zoom, settings.minDistance, settings.maxDistance);
    }

    /**
     The distance and collision part of `LateUpdate`, given the easing factor for this
     frame and the result of the sphere cast from the pivot toward the camera. The
     separation it casts over is the length of the eased offset, `|currentDistance|`.
     */
    method LateUpdate(smoothing: real, hit: Option<real>)
      modifies this`currentDistance, this`placedDistance
      ensures yaw == old(yaw) && pitch == old(pitch) && desiredDistance == old(desiredDistance)
      ensures !hasTarget ==> currentDistance == old(currentDistance) && placedDistance == old(placedDistance)
      ensures hasTarget ==> State() == SmoothDistance(old(State()), smoothing)
      ensures hasTarget ==> placedDistance == CameraDistance(settings, Abs(currentDistance), hit)
      ensures old(Valid()) ==> Valid()
      ensures old(Valid()) && hasTarget && settings.minDistance >= 0.0
        ==> PushInFloor * settings.minDistance <= placedDistance <= currentDistance
    {
      if !hasTarget {
        return;
      }
      currentDistance := Lerp(currentDistance, desiredDistance, smoothing);
      var dist := Abs(currentDistance);
      placedDistance := dist;
      if dist > MinCastSeparation {
        if hit.Some? {
          placedDistance := Clamp(hit.value - settings.collisionBuffer, PushInFloor * settings.minDistance, dist);
        }
      }
    }
  }
}
