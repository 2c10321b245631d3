/**
 * The star on the tree top: each frame it rises from just above the tree toward the
 * chaos height, shrinks, and spins with time.
 */
module TreeStar {

  import opened Geometry

  const TreeHeight: real := 8.0

  const TargetY: real := TreeHeight + 1.2
  const ChaosY: real := 12.0

  /** `MathUtils.lerp(targetY, chaosY, progress * 0.5)`: the star only goes half way. */
  function StarY(progress: real): real
  {
    Mix(TargetY, ChaosY, progress * 0.5)
  }

  function StarScale(progress: real): real
  {
    Mix(1.0, 0.5, progress)
  }

  function StarYaw(elapsed: real): real
  {
    elapsed * 0.5
  }

  /** The star's group. */
  class StarGroup {
    var position: Vec3
    var rotation: Vec3
    var scale: Vec3

    constructor ()
      ensures position == Vec3(0.0, TargetY, 0.0)
      ensures rotation == Vec3(0.0, 0.0, 0.0) && scale == Vec3(1.0, 1.0, 1.0)
    {
      position := Vec3(0.0, TargetY, 0.0);
      rotation := Vec3(0.0, 0.0, 0.0);
      scale := Vec3(1.0, 1.0, 1.0);
    }

    /** The frame callback: writes the height, the yaw and a uniform scale, and nothing else. */
    method Frame(progress: real, elapsed: real)
      modifies this
      ensures position == old(position).(y := StarY(progress))
      ensures rotation == old(rotation).(y := StarYaw(elapsed))
      ensures scale == Vec3(StarScale(progress), StarScale(progress), StarScale(progress))
    {
      var y := TargetY * (1.0 - progress * 0.5) + ChaosY * (progress * 0.5);
      position := position.(y := y);
      rotation := rotation.(y := elapsed * 0.5);
      var s := 1.0 * (1.0 - progress) + 0.5 * progress;
      scale := Vec3(s, s, s);
    }
  }

  // ---------------------------------------------------------------------------
  // Properties

  /** The endpoints: 9.2 above the ground on the tree, 12 in chaos. */
  lemma Endpoints()
    ensures TargetY == 9.2 && ChaosY == 12.0
    ensures StarY(0.0) == TargetY && StarScale(0.0) == 1.0
  {
  }

  /** The height is 9.2 + 1.4 p: within [9.2, 10.6] for p in [0, 1], so it never reaches the chaos height. */
  lemma StarYSpec(progress: real)
    ensures StarY(progress) == 9.2 + 1.4 * progress
    ensures 0.0 <= progress <= 1.0 ==> 9.2 <= StarY(progress) <= 10.6 < ChaosY
  {
  }

  /** The scale is 1 - p / 2: within [0.5, 1] for p in [0, 1], and it never grows with progress. */
  lemma StarScaleSpec(p: real, q: real)
    ensures StarScale(p) == 1.0 - 0.5 * p
    ensures 0.0 <= p <= 1.0 ==> 0.5 <= StarScale(p) <= 1.0
    ensures p <= q ==> StarScale(q) <= StarScale(p)
  {
  }
}
