/**
 * The two per-frame drivers of the scene: the animation driver, which ticks the store
 * once per frame, and the camera rig, which moves the camera 2% of the way toward a
 * point derived from the camera offset.
 */
module Scene {

  import opened Numeric
  import opened Store

  /** Fraction of the remaining way the rig closes each frame. */
  const RigFraction: real := 0.02

  /** Camera height that a zero offset aims at. */
  const BaseHeight: real := 4.0

  function RigTargetX(offset: Vec2): real
  {
    offset.x * 5.0
  }

  function RigTargetY(offset: Vec2): real
  {
    BaseHeight + offset.y * 3.0
  }

  /** One rig step along one axis: `c += (target - c) * 0.02`. */
  function RigStep(current: real, target: real): real
  {
    Lerp(current, target, RigFraction)
  }

  /** The rig step `n` frames in a row toward the same target. */
  function RigSteps(current: real, target: real, n: nat): real
    decreases n
  {
    if n == 0 then current else RigSteps(RigStep(current, target), target, n - 1)
  }

  /** The position of the default camera. */
  class Camera {
    var x: real
    var y: real
    var z: real

    constructor ()
      ensures x == 0.0 && y == 4.0 && z == 20.0
    {
      x, y, z := 0.0, 4.0, 20.0;
    }
  }

  /** `CameraRig`'s frame callback: x and y step toward their targets; z is not touched. */
  method CameraRigFrame(camera: Camera, cameraOffset: Vec2)
    modifies camera
    ensures camera.x == RigStep(old(camera.x), RigTargetX(cameraOffset))
    ensures camera.y == RigStep(old(camera.y), RigTargetY(cameraOffset))
    ensures camera.z == old(camera.z)
  {
    camera.x := camera.x + (cameraOffset.x * 5.0 - camera.x) * 0.02;
    camera.y := camera.y + (4.0 + cameraOffset.y * 3.0 - camera.y) * 0.02;
  }

  /** `AnimationDriver`'s frame callback: exactly one `tick` with the frame's delta. */
  method AnimationDriverFrame(store: AppStore, delta: real)
    modifies store
    ensures store.State() == Ticked(old(store.State()), delta)
  {
    store.Tick(delta);
  }

  // ---------------------------------------------------------------------------
  // Properties

  /** Each frame leaves 98% of the gap, never overshoots, and keeps a camera at its target there. */
  lemma RigStepSpec(current: real, target: real)
    ensures target - RigStep(current, target) == 0.98 * (target - current)
    ensures Abs(target - RigStep(current, target)) == 0.98 * Abs(target - current)
    ensures Between(current, target, RigStep(current, target))
    ensures RigStep(target, target) == target
  {
    LerpGap(current, target, RigFraction);
    LerpBetween(current, target, RigFraction);
  }

  /** After `n` frames toward a fixed target the gap is 0.98^n of the initial gap. */
  lemma {:induction false} RigStepsGap(current: real, target: real, n: nat)
    decreases n
    ensures target - RigSteps(current, target, n) == Pow(0.98, n) * (target - current)
  {
    if n > 0 {
      RigStepSpec(current, target);
      RigStepsGap(RigStep(current, target), target, n - 1);
      assert Pow(0.98, n - 1) * (0.98 * (target - current)) == Pow(0.98, n) * (target - current);
    }
  }

  /** Offsets in [-1, 1] put the rig target in [-5, 5] x [1, 7]. */
  lemma RigTargetBounds(offset: Vec2)
    requires -1.0 <= offset.x <= 1.0 && -1.0 <= offset.y <= 1.0
    ensures -5.0 <= RigTargetX(offset) <= 5.0
    ensures 1.0 <= RigTargetY(offset) <= 7.0
    ensures RigTargetX(Vec2(0.0, 0.0)) == 0.0 && RigTargetY(Vec2(0.0, 0.0)) == BaseHeight
  {
  }
}
