/**
 * The photo cards: twelve records spaced evenly around a climbing ring, each with
 * a chaos spot and small random tilts; the pose each card's group takes per frame; and
 * the hues of the placeholder gradient painted on each card.
 */
module Polaroids {

  import opened Numeric
  import opened Geometry

  const PolaroidCount: nat := 12
  const TreeHeight: real := 8.0
  const TreeRadius: real := 3.0
  const ChaosRadius: real := 10.0

  /** Positions, the base tilt as an Euler triple (x pitch, y yaw, z roll), and the picture shown. */
  datatype PolaroidData = PolaroidData(targetPos: Vec3, chaosPos: Vec3, rotation: Vec3, imageIndex: nat)

  /** The five `Math.random()` draws one card consumes, in the order they are made. */
  datatype PolaroidDraws = PolaroidDraws(thetaU: real, phiU: real, radiusU: real, pitchU: real, rollU: real)

  predicate ValidDraws(d: PolaroidDraws)
  {
    Unit(d.thetaU) && Unit(d.phiU) && Unit(d.radiusU) && Unit(d.pitchU) && Unit(d.rollU)
  }

  // ---------------------------------------------------------------------------
  // Layout of one card

  /** The middle of the card's twelfth of the ring's height. */
  function Fraction(i: nat): real
  {
    (i as real + 0.5) / PolaroidCount as real
  }

  function Height(i: nat): real
  {
    2.0 + Fraction(i) * (TreeHeight - 3.0)
  }

  function Radius(i: nat): real
  {
    (TreeRadius * (1.0 - Fraction(i) * 0.7)) * 1.1
  }

  function Angle(i: nat): real
  {
    i as real * (PI * 2.0) / PolaroidCount as real + PI / 6.0
  }

  function TargetPosition(m: MathLib, i: nat): Vec3
  {
    Vec3(m.cos(Angle(i)) * Radius(i), Height(i), m.sin(Angle(i)) * Radius(i))
  }

  /** The generated tilt: a small random pitch and roll, and a yaw facing away from the axis. */
  function BaseRotation(i: nat, d: PolaroidDraws): Vec3
  {
    Vec3((d.pitchU - 0.5) * 0.3, Angle(i) + PI, (d.rollU - 0.5) * 0.2)
  }

  function PolaroidAt(m: MathLib, i: nat, d: PolaroidDraws): PolaroidData
  {
    PolaroidData(TargetPosition(m, i), ChaosPosition(m, ChaosRadius, d.thetaU, d.phiU, d.radiusU), BaseRotation(i, d), i)
  }

  /** `generatePolaroids`: one record per index, in index order, showing picture `i`. */
  method GeneratePolaroids(m: MathLib, draws: seq<PolaroidDraws>) returns (polaroids: seq<PolaroidData>)
    requires |draws| == PolaroidCount
    requires forall i :: 0 <= i < |draws| ==> ValidDraws(draws[i])
    ensures |polaroids| == PolaroidCount
    ensures forall i :: 0 <= i < PolaroidCount ==> polaroids[i] == PolaroidAt(m, i, draws[i])
    ensures forall i :: 0 <= i < PolaroidCount ==> polaroids[i].imageIndex == i
  {
    polaroids := [];
    for i := 0 to PolaroidCount
      invariant |polaroids| == i
      invariant forall j :: 0 <= j < i ==> polaroids[j] == PolaroidAt(m, j, draws[j])
    {
      polaroids := polaroids + [PolaroidAt(m, i, draws[i])];
    }
  }

  // ---------------------------------------------------------------------------
  // The per-frame pose

  /** Cards travel at most 70% of the way to their chaos spot. */
  function PolaroidPosition(data: PolaroidData, progress: real): Vec3
  {
    Lerp3(data.targetPos, data.chaosPos, progress * 0.7)
  }

  /**
   * Facing outward from the axis plus a full turn per unit of progress; pitch grows by
   * (1 + p) and roll by (1 + 2p). The generated yaw is not read.
   */
  function PolaroidRotation(m: MathLib, data: PolaroidData, progress: real): Vec3
  {
    var pos := PolaroidPosition(data, progress);
    Vec3(Pitch(data, progress), m.atan2(pos.x, pos.z) + progress * PI * 2.0, Roll(data, progress))
  }

  function Pitch(data: PolaroidData, progress: real): real
  {
    data.rotation.x * (1.0 + progress)
  }

  function Roll(data: PolaroidData, progress: real): real
  {
    data.rotation.z * (1.0 + progress * 2.0)
  }

  /** One card's group, with the position it last interpolated to. */
  class PolaroidGroup {
    var currentPos: Vec3
    var position: Vec3
    var rotation: Vec3

    /** The interpolated position starts as a copy of the tree spot; the group itself at the origin. */
    constructor (data: PolaroidData)
      ensures currentPos == data.targetPos
      ensures position == Vec3(0.0, 0.0, 0.0) && rotation == Vec3(0.0, 0.0, 0.0)
    {
      currentPos := data.targetPos;
      position := Vec3(0.0, 0.0, 0.0);
      rotation := Vec3(0.0, 0.0, 0.0);
    }

    /** The frame callback of `Polaroid`. */
    method Frame(m: MathLib, data: PolaroidData, progress: real)
      modifies this
      ensures currentPos == PolaroidPosition(data, progress)
      ensures position == currentPos
      ensures rotation == PolaroidRotation(m, data, progress)
    {
      var pos := Lerp3(data.targetPos, data.chaosPos, progress * 0.7);
      currentPos := pos;
      position := pos;
      var baseRotation := m.atan2(pos.x, pos.z);
      var yaw := baseRotation + progress * PI * 2.0;
      var pitch := data.rotation.x * (1.0 + progress);
      var roll := data.rotation.z * (1.0 + progress * 2.0);
      rotation := Vec3(pitch, yaw, roll);
      assert pos == PolaroidPosition(data, progress);
      assert rotation == PolaroidRotation(m, data, progress);
    }
  }

  // ---------------------------------------------------------------------------
  // The placeholder picture

  function Hue(imageIndex: nat): (h: nat)
    ensures h < 360
  {
    (imageIndex * 30) % 360
  }

  /** The hue of the gradient's second stop, 60 degrees on. */
  function SecondHue(hue: nat): (h: nat)
    ensures h < 360
  {
    (hue + 60) % 360
  }

  // ---------------------------------------------------------------------------
  // Properties

  /** Heights rise through (2, 7) and radii shrink through (0.99, 3.3) as the index grows. */
  lemma LayoutSpec(i: nat, j: nat)
    requires i < PolaroidCount && j < PolaroidCount
    ensures 0.0 < Fraction(i) < 1.0
    ensures 2.0 < Height(i) < 7.0 && 0.99 < Radius(i) < 3.3
    ensures i < j ==> Height(i) < Height(j) && Radius(j) < Radius(i)
  {
  }

  /** Cards are spaced a twelfth of a turn apart, starting at PI / 6, and the generated yaw faces away from the axis. */
  lemma AngleSpec(i: nat, d: PolaroidDraws)
    ensures Angle(i + 1) - Angle(i) == PI / 6.0
    ensures Angle(0) == PI / 6.0
    ensures BaseRotation(i, d).y == Angle(i) + PI
  {
  }

  /** The base pitch lies in [-0.15, 0.15) and the base roll in [-0.1, 0.1). */
  lemma BaseTiltBounds(i: nat, d: PolaroidDraws)
    requires ValidDraws(d)
    ensures -0.15 <= BaseRotation(i, d).x < 0.15
    ensures -0.1 <= BaseRotation(i, d).z < 0.1
  {
  }

  /** A generated card carries its layout and picture `i`. */
  lemma PolaroidAtSpec(m: MathLib, i: nat, d: PolaroidDraws)
    ensures PolaroidAt(m, i, d).imageIndex == i
    ensures PolaroidAt(m, i, d).targetPos.y == Height(i)
    ensures PolaroidAt(m, i, d).rotation == BaseRotation(i, d)
  {
  }

  /** For progress in [0, 1] a card stays within 70% of the way from its tree spot, and is on it at progress 0. */
  lemma PositionSpec(data: PolaroidData, progress: real)
    requires 0.0 <= progress <= 1.0
    ensures 0.0 <= progress * 0.7 <= 0.7
    ensures PolaroidPosition(data, 0.0) == data.targetPos
    ensures var p := PolaroidPosition(data, progress);
      && Between(data.targetPos.x, data.chaosPos.x, p.x)
      && Between(data.targetPos.y, data.chaosPos.y, p.y)
      && Between(data.targetPos.z, data.chaosPos.z, p.z)
    ensures var p := PolaroidPosition(data, progress);
      && Abs(data.chaosPos.x - p.x) >= 0.3 * Abs(data.chaosPos.x - data.targetPos.x)
      && Abs(data.chaosPos.y - p.y) >= 0.3 * Abs(data.chaosPos.y - data.targetPos.y)
      && Abs(data.chaosPos.z - p.z) >= 0.3 * Abs(data.chaosPos.z - data.targetPos.z)
  {
    var t := progress * 0.7;
    LerpBetween(data.targetPos.x, data.chaosPos.x, t);
    LerpBetween(data.targetPos.y, data.chaosPos.y, t);
    LerpBetween(data.targetPos.z, data.chaosPos.z, t);
    ShortOfEnd(data.targetPos.x, data.chaosPos.x, t);
    ShortOfEnd(data.targetPos.y, data.chaosPos.y, t);
    ShortOfEnd(data.targetPos.z, data.chaosPos.z, t);
  }

  /** A step of at most 70% of the way leaves at least 30% of it. */
  lemma ShortOfEnd(a: real, b: real, t: real)
    requires 0.0 <= t <= 0.7
    ensures Abs(b - Lerp(a, b, t)) >= 0.3 * Abs(b - a)
  {
    LerpGap(a, b, t);
    MulMono(Abs(b - a), 0.3, 1.0 - t);
  }

  /** Scaling a tilt by a factor in [1, k] keeps its sign and multiplies its bound by at most k. */
  lemma AmplifiedTilt(base: real, factor: real, bound: real, k: real)
    requires 1.0 <= factor <= k && Abs(base) <= bound
    ensures Abs(base * factor) <= bound * k
    ensures base > 0.0 ==> base * factor > 0.0
    ensures base < 0.0 ==> base * factor < 0.0
  {
    if base >= 0.0 {
      MulMono(base, factor, k);
      MulMono(k, base, bound);
      MulNonNeg(base, factor);
      if base > 0.0 { MulPos(base, factor); }
    } else {
      MulMono(-base, factor, k);
      MulMono(k, -base, bound);
      MulPos(-base, factor);
      assert (-base) * factor == -(base * factor);
    }
  }

  /**
   * The pitch of `PolaroidRotation` equals the generated one at progress 0, keeps its sign,
   * and for progress in [0, 1] stays within 0.3 radians.
   */
  lemma PitchSpec(data: PolaroidData, progress: real)
    requires 0.0 <= progress <= 1.0 && Abs(data.rotation.x) <= 0.15
    ensures Pitch(data, 0.0) == data.rotation.x
    ensures Abs(Pitch(data, progress)) <= 0.3
    ensures data.rotation.x > 0.0 ==> Pitch(data, progress) > 0.0
    ensures data.rotation.x < 0.0 ==> Pitch(data, progress) < 0.0
  {
    AmplifiedTilt(data.rotation.x, 1.0 + progress, 0.15, 2.0);
  }

  /**
   * The roll of `PolaroidRotation` equals the generated one at progress 0, keeps its sign,
   * and for progress in [0, 1] stays within 0.3 radians.
   */
  lemma RollSpec(data: PolaroidData, progress: real)
    requires 0.0 <= progress <= 1.0 && Abs(data.rotation.z) <= 0.1
    ensures Roll(data, 0.0) == data.rotation.z
    ensures Abs(Roll(data, progress)) <= 0.3
    ensures data.rotation.z > 0.0 ==> Roll(data, progress) > 0.0
    ensures data.rotation.z < 0.0 ==> Roll(data, progress) < 0.0
  {
    AmplifiedTilt(data.rotation.z, 1.0 + progress * 2.0, 0.1, 3.0);
  }

  /** The yaw is the outward facing angle plus exactly 2 PI times progress, and ignores the generated yaw. */
  lemma YawSpec(m: MathLib, data: PolaroidData, progress: real, otherYaw: real)
    ensures var pos := PolaroidPosition(data, progress);
      PolaroidRotation(m, data, progress).y - m.atan2(pos.x, pos.z) == 2.0 * PI * progress
    ensures PolaroidRotation(m, data.(rotation := data.rotation.(y := otherYaw)), progress)
            == PolaroidRotation(m, data, progress)
  {
    var other := data.(rotation := data.rotation.(y := otherYaw));
    assert other.targetPos == data.targetPos && other.chaosPos == data.chaosPos;
    var pos := PolaroidPosition(data, progress);
    assert PolaroidPosition(other, progress) == pos;
    var x, z := data.rotation.x * (1.0 + progress), data.rotation.z * (1.0 + progress * 2.0);
    assert other.rotation.x * (1.0 + progress) == x && other.rotation.z * (1.0 + progress * 2.0) == z;
    assert PolaroidRotation(m, other, progress) == Vec3(x, m.atan2(pos.x, pos.z) + progress * PI * 2.0, z);
  }

  /** The twelve cards get twelve different hues, 30 degrees apart, and both stops are valid hues. */
  lemma HueSpec(i: nat)
    requires i < PolaroidCount
    ensures Hue(i) == 30 * i
    ensures SecondHue(Hue(i)) == (30 * i + 60) % 360
  {
  }

  /** Two different cards of the twelve never share a hue. */
  lemma HuesDistinct(i: nat, j: nat)
    requires i < PolaroidCount && j < PolaroidCount && i != j
    ensures Hue(i) != Hue(j)
  {
    HueSpec(i);
    HueSpec(j);
  }

  /** Hues repeat every twelve pictures. */
  lemma HuePeriod(i: nat)
    ensures Hue(i + 12) == Hue(i)
  {
    assert (i + 12) * 30 == i * 30 + 360;
  }
}
