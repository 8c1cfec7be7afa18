/** The mode flags, angles and positions of the world camera (ext/world/Camera.hpp). Positions are
    kept normalized (world units divided by 1000); the view vectors and matrices that
    `updateCameraVectors` recomputes after each change are not part of this model. */
module Cameras {
  import opened Prelude

  /** `DEF_YAW` and `DEF_PITCH`. */
  const DEF_YAW: real := 0.0
  const DEF_PITCH: real := 0.0

  /** `DEF_UPVECTOR`. */
  const DEF_UPVECTOR: Vec3 := Vec3(0.0, 1.0, 0.0)

  /** The world is measured in thousandths of a normalized unit. */
  const WORLD_SCALE: real := 1000.0

  /** `CameraConfig_t`: a normalized start position, start angles in radians, the up vector, the
      smooth and target flags, and three interpolation delays. */
  datatype CameraConfig = CameraConfig(
    position: Vec3,
    yaw: real,
    pitch: real,
    roll: real,
    upVector: Vec3,
    smooth: bool,
    target: bool,
    lerpPosition: real,
    lerpAngle: real,
    lerpDistance: real)

  /** A configuration that gives position and angles and keeps every other member's default. */
  function Preset(position: Vec3, yaw: real, pitch: real, roll: real, smooth: bool, target: bool): (c: CameraConfig)
    ensures c.position == position && c.yaw == yaw && c.pitch == pitch && c.roll == roll
    ensures c.upVector == DEF_UPVECTOR && c.smooth == smooth && c.target == target
    ensures c.lerpPosition == 10.0 && c.lerpAngle == 15.0 && c.lerpDistance == 5.0
  {
    CameraConfig(position, yaw, pitch, roll, DEF_UPVECTOR, smooth, target, 10.0, 15.0, 5.0)
  }

  /** `CAM_FOLLOW`: at the origin with the default angles, smooth, in target mode. */
  const CAM_FOLLOW: CameraConfig := Preset(Vec3(0.0, 0.0, 0.0), DEF_YAW, DEF_PITCH, 0.0, true, true)

  /** `CAM_INITIAL`: as `CAM_FOLLOW`, but not in target mode. */
  const CAM_INITIAL: CameraConfig := Preset(Vec3(0.0, 0.0, 0.0), DEF_YAW, DEF_PITCH, 0.0, true, false)

  /** Everything the modelled members of `Camera` read or write, as one value. */
  datatype CameraState = CameraState(
    config: CameraConfig,
    position: Vec3,
    interpolatedPosition: Vec3,
    upVector: Vec3,
    yaw: real,
    pitch: real,
    roll: real,
    smooth: bool,
    animateConfigChange: bool,
    targetMode: bool,
    targetYaw: real,
    targetPosition: Vec3)

  /** `Camera`. `config` is the configuration `CONFIG` points to. */
  class Camera {
    var config: CameraConfig
    var position: Vec3
    var interpolatedPosition: Vec3
    var upVector: Vec3
    var yaw: real
    var pitch: real
    var roll: real
    var smooth: bool
    var animateConfigChange: bool
    var targetMode: bool
    var targetYaw: real
    var targetPosition: Vec3

    function State(): CameraState
      reads this
    {
      CameraState(config, position, interpolatedPosition, upVector, yaw, pitch, roll,
                  smooth, animateConfigChange, targetMode, targetYaw, targetPosition)
    }

    /** Animating towards a new configuration and following a target never go on together. */
    predicate ModesExclusive()
      reads this
    {
      animateConfigChange ==> !targetMode
    }

    /** `getPosition()`: the normalized position in world units; dividing it by 1000 gives the
        stored position back. */
    function GetPosition(): (p: Vec3)
      reads this
      ensures Divide3(p, WORLD_SCALE) == position
    {
      var p := Scale3(position, WORLD_SCALE);
      assert p.x / WORLD_SCALE == position.x;
      assert p.y / WORLD_SCALE == position.y;
      assert p.z / WORLD_SCALE == position.z;
      p
    }

    /** `setPitch(rads)`. */
    method SetPitch(rads: real)
      modifies this
      ensures State() == old(State()).(pitch := rads)
    {
      pitch := rads;
    }

    /** `setRoll(rads)`. */
    method SetRoll(rads: real)
      modifies this
      ensures State() == old(State()).(roll := rads)
    {
      roll := rads;
    }

    /** `setYaw(rads)`. */
    method SetYaw(rads: real)
      modifies this
      ensures State() == old(State()).(yaw := rads)
    {
      yaw := rads;
    }

    /** `setHeight(h)`: only the normalized y coordinate changes. */
    method SetHeight(h: real)
      modifies this
      ensures State() == old(State()).(position := old(position).(y := h))
    {
      position := position.(y := h);
    }

    /** `setX(x)`: only the normalized x coordinate changes. */
    method SetX(x: real)
      modifies this
      ensures State() == old(State()).(position := old(position).(x := x))
    {
      position := position.(x := x);
    }

    /** `setZ(z)`: only the normalized z coordinate changes. */
    method SetZ(z: real)
      modifies this
      ensures State() == old(State()).(position := old(position).(z := z))
    {
      position := position.(z := z);
    }

    /** `updateCameraVectors()`. Its body is not part of this model: it recomputes the view
        vectors, and the up vector may be among them, so after a call nothing is promised about
        `upVector` while every other modelled field stays as it was. */
    method UpdateCameraVectors()
      modifies this
      ensures State() == old(State()).(upVector := upVector)
    {
    }

    /** `stepPitch(delta)`: the pitch grows by `delta`; then the view vectors are recomputed. */
    method StepPitch(delta: real)
      modifies this
      ensures State() == old(State()).(pitch := old(pitch) + delta, upVector := upVector)
    {
      pitch := pitch + delta;
      UpdateCameraVectors();
    }

    /** `stepRoll(delta)`: the roll grows by `delta`; then the view vectors are recomputed. */
    method StepRoll(delta: real)
      modifies this
      ensures State() == old(State()).(roll := old(roll) + delta, upVector := upVector)
    {
      roll := roll + delta;
      UpdateCameraVectors();
    }

    /** `stepYaw(delta)`: the yaw grows by `delta`; then the view vectors are recomputed. */
    method StepYaw(delta: real)
      modifies this
      ensures State() == old(State()).(yaw := old(yaw) + delta, upVector := upVector)
    {
      yaw := yaw + delta;
      UpdateCameraVectors();
    }

    /** `follow(target)` for a target at world position `tpos` with rotation `trot`: the target
        position is stored normalized, so scaling it back gives `tpos`; the target yaw is the
        negated y rotation (the first assignment, `pi/2 - rot.y`, is overwritten). */
    method Follow(tpos: Vec3, trot: Vec3)
      modifies this
      ensures State() == old(State()).(targetPosition := Divide3(tpos, WORLD_SCALE), targetYaw := -trot.y)
      ensures Scale3(targetPosition, WORLD_SCALE) == tpos
    {
      targetPosition := targetPosition.(x := tpos.x / WORLD_SCALE);
      targetPosition := targetPosition.(y := tpos.y / WORLD_SCALE);
      targetPosition := targetPosition.(z := tpos.z / WORLD_SCALE);
      targetYaw := 3.14159265358979 / 2.0 - trot.y;
      targetYaw := -trot.y;
      DivideThenScale(tpos, WORLD_SCALE);
    }

    /** `setConfig(c, animate)`: the two flags come from `c`, and the camera animates towards
        `c` only outside target mode. Without animation the position (both the current and the
        interpolated one) and the angles jump to `c`'s; with it they stay where they are, for the
        update loop to move them. Either way the modes are exclusive after. The up vector is set
        from `c` and then handed to `updateCameraVectors`. */
    method SetConfig(c: CameraConfig, animate: bool)
      modifies this
      ensures config == c
      ensures smooth == c.smooth && targetMode == c.target
      ensures animateConfigChange <==> !c.target && animate
      ensures !animate ==> position == c.position && interpolatedPosition == c.position
      ensures !animate ==> yaw == c.yaw && pitch == c.pitch && roll == c.roll
      ensures animate ==> position == old(position) && interpolatedPosition == old(interpolatedPosition)
      ensures animate ==> yaw == old(yaw) && pitch == old(pitch) && roll == old(roll)
      ensures targetYaw == old(targetYaw) && targetPosition == old(targetPosition)
      ensures ModesExclusive()
    {
      config := c;
      upVector := c.upVector;
      smooth := c.smooth;
      targetMode := c.target;
      animateConfigChange := !targetMode && animate;
      if !animate {
        interpolatedPosition := c.position;
        position := interpolatedPosition;
        yaw := c.yaw;
        pitch := c.pitch;
        roll := c.roll;
      }
      UpdateCameraVectors();
    }

    /** `setTargetMode(enable)`: any configuration animation is cancelled, so the modes are
        exclusive after. */
    method SetTargetMode(enable: bool)
      modifies this
      ensures State() == old(State()).(targetMode := enable, animateConfigChange := false)
      ensures ModesExclusive()
    {
      targetMode := enable;
      animateConfigChange := false;
    }

    /** `toggleTargetMode()`: flips target mode and leaves the animation flag alone. */
    method ToggleTargetMode()
      modifies this
      ensures State() == old(State()).(targetMode := !old(targetMode))
    {
      targetMode := !targetMode;
    }
  }

  /** Toggling target mode twice restores the camera. */
  method ToggleTwice(cam: Camera)
    modifies cam
    ensures cam.State() == old(cam.State())
  {
    cam.ToggleTargetMode();
    cam.ToggleTargetMode();
  }

  /** A step is undone by the opposite step, up to the recomputed up vector. */
  method StepYawAndBack(cam: Camera, delta: real)
    modifies cam
    ensures cam.State() == old(cam.State()).(upVector := cam.upVector)
  {
    cam.StepYaw(delta);
    cam.StepYaw(-delta);
  }

  /** Unlike `setTargetMode(true)`, `toggleTargetMode` entered while a configuration animation
      is running keeps that animation on: the camera then animates and follows at once. */
  method ToggleDuringAnimation(cam: Camera, c: CameraConfig)
    requires !c.target
    modifies cam
    ensures !cam.ModesExclusive()
  {
    cam.SetConfig(c, true);
    cam.ToggleTargetMode();
  }

  /** After a configuration change without animation, `getPosition` reports the configured
      position in world units. */
  method ConfiguredPosition(cam: Camera, c: CameraConfig) returns (p: Vec3)
    modifies cam
    ensures p == Scale3(c.position, WORLD_SCALE)
    ensures Divide3(p, WORLD_SCALE) == c.position
  {
    cam.SetConfig(c, false);
    p := cam.GetPosition();
  }
}
