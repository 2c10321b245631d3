/**
 * The foliage particles: a golden-angle spiral of points on the cone, a chaos point for
 * each, the three flat buffers the particle geometry reads (positions and chaos
 * positions at stride 3, sizes at stride 1), the vertex shader's blend and brightness,
 * and the progress uniform updated each frame.
 */
module Foliage {

  import opened Numeric
  import opened Geometry

  const ParticleCount: nat := 15000
  const TreeHeight: real := 8.0
  const TreeRadius: real := 3.0
  const ChaosRadius: real := 12.0

  /** The golden angle in radians, as written. */
  const GoldenAngle: real := 2.399963

  /** The six `Math.random()` draws one particle consumes, in the order they are made. */
  datatype FoliageDraws = FoliageDraws(jitterXU: real, jitterZU: real, thetaU: real, phiU: real, radiusU: real, sizeU: real)

  predicate ValidDraws(d: FoliageDraws)
  {
    Unit(d.jitterXU) && Unit(d.jitterZU) && Unit(d.thetaU) && Unit(d.phiU) && Unit(d.radiusU) && Unit(d.sizeU)
  }

  // ---------------------------------------------------------------------------
  // `generateConePosition` and `generateChaosPosition`

  function Fraction(i: nat, total: nat): real
    requires total > 0
  {
    i as real / total as real
  }

  function ConeHeight(i: nat, total: nat): real
    requires total > 0
  {
    1.0 + Fraction(i, total) * TreeHeight
  }

  function ConeRadius(i: nat, total: nat): real
    requires total > 0
  {
    TreeRadius * (1.0 - Fraction(i, total) * 0.95)
  }

  function ConeAngle(i: nat): real
  {
    i as real * GoldenAngle
  }

  /** The random spread applied to a horizontal coordinate. */
  function Jitter(u: real): (j: real)
    ensures Unit(u) ==> 0.7 <= j < 1.3
  {
    0.7 + u * 0.6
  }

  /** A point near the cone surface; x and z each take their own jitter draw. */
  function ConePosition(m: MathLib, i: nat, total: nat, jitterXU: real, jitterZU: real): Vec3
    requires total > 0
  {
    var r := ConeRadius(i, total);
    var a := ConeAngle(i);
    Vec3(m.cos(a) * r * Jitter(jitterXU), ConeHeight(i, total), m.sin(a) * r * Jitter(jitterZU))
  }

  function FoliageChaos(m: MathLib, d: FoliageDraws): Vec3
  {
    ChaosPosition(m, ChaosRadius, d.thetaU, d.phiU, d.radiusU)
  }

  function ParticleSize(u: real): (s: real)
    ensures Unit(u) ==> 0.02 <= s < 0.05
  {
    0.02 + u * 0.03
  }

  /** Coordinate `k` (0 for x, 1 for y, 2 for z) of a vector. */
  function Component(v: Vec3, k: nat): real
  {
    if k == 0 then v.x else if k == 1 then v.y else v.z
  }

  /** Slots 3i, 3i + 1 and 3i + 2 of a buffer's contents hold `v`. */
  predicate SlotsHold(contents: seq<real>, i: nat, v: Vec3)
  {
    3 * i + 2 < |contents| && contents[3 * i] == v.x && contents[3 * i + 1] == v.y && contents[3 * i + 2] == v.z
  }

  /** Particle `i`'s point on the cone, from its own draws. */
  function TreePoint(m: MathLib, draws: seq<FoliageDraws>, i: nat): Vec3
    requires i < |draws| == ParticleCount
  {
    ConePosition(m, i, ParticleCount, draws[i].jitterXU, draws[i].jitterZU)
  }

  /** A stride-3 buffer whose every triple holds its element has coordinate n % 3 of element n / 3 in slot n. */
  lemma SlotsCover(contents: seq<real>, points: seq<Vec3>)
    requires |contents| == 3 * |points|
    requires forall i :: 0 <= i < |points| ==> SlotsHold(contents, i, points[i])
    ensures forall n :: 0 <= n < |contents| ==> contents[n] == Component(points[n / 3], n % 3)
  {
    forall n | 0 <= n < |contents|
      ensures contents[n] == Component(points[n / 3], n % 3)
    {
      var j, k := n / 3, n % 3;
      assert n == 3 * j + k;
      assert SlotsHold(contents, j, points[j]);
    }
  }

  /** The stride-3 layout of a list of points: the x, y and z of each point, in order. */
  function Flatten(points: seq<Vec3>): (r: seq<real>)
    ensures |r| == 3 * |points|
  {
    if |points| == 0 then []
    else
      var last := points[|points| - 1];
      Flatten(points[..|points| - 1]) + [last.x, last.y, last.z]
  }

  /** Triple i of the layout holds point i. */
  lemma {:induction false} FlattenSlots(points: seq<Vec3>)
    ensures forall i :: 0 <= i < |points| ==> SlotsHold(Flatten(points), i, points[i])
  {
    if |points| > 0 {
      var init := points[..|points| - 1];
      var last := points[|points| - 1];
      FlattenSlots(init);
      var r := Flatten(points);
      assert r == Flatten(init) + [last.x, last.y, last.z];
      forall i | 0 <= i < |points|
        ensures SlotsHold(r, i, points[i])
      {
        if i < |init| {
          assert SlotsHold(Flatten(init), i, init[i]);
        }
      }
    }
  }

  /** Slot n of the layout holds coordinate n % 3 of point n / 3. */
  lemma FlattenComponents(points: seq<Vec3>)
    ensures forall n :: 0 <= n < 3 * |points| ==> Flatten(points)[n] == Component(points[n / 3], n % 3)
  {
    FlattenSlots(points);
    SlotsCover(Flatten(points), points);
  }

  /** Writes `v` into slots 3i, 3i + 1 and 3i + 2 of a stride-3 buffer and leaves every other slot alone. */
  method WriteTriple(buffer: array<real>, i: nat, v: Vec3)
    requires 3 * i + 2 < buffer.Length
    modifies buffer
    ensures buffer[..3 * i + 3] == old(buffer[..3 * i]) + [v.x, v.y, v.z]
    ensures buffer[3 * i + 3..] == old(buffer[3 * i + 3..])
  {
    buffer[i * 3] := v.x;
    buffer[i * 3 + 1] := v.y;
    buffer[i * 3 + 2] := v.z;
  }

  /**
   * The `useMemo` loop: element `i`'s cone point fills `positions[3i..3i+2]`, its chaos
   * point `chaosPositions[3i..3i+2]`, and its size `sizes[i]`.
   */
  method PackParticles(treePoints: seq<Vec3>, chaosPoints: seq<Vec3>, particleSizes: seq<real>)
    returns (positions: array<real>, chaosPositions: array<real>, sizes: array<real>)
    requires |chaosPoints| == |treePoints| && |particleSizes| == |treePoints|
    ensures fresh(positions) && fresh(chaosPositions) && fresh(sizes)
    ensures positions[..] == Flatten(treePoints) && chaosPositions[..] == Flatten(chaosPoints)
    ensures sizes[..] == particleSizes
  {
    var count := |treePoints|;
    positions := new real[3 * count](_ => 0.0);
    chaosPositions := new real[3 * count](_ => 0.0);
    sizes := new real[count](_ => 0.0);
    for i := 0 to count
      invariant positions[..3 * i] == Flatten(treePoints[..i])
      invariant chaosPositions[..3 * i] == Flatten(chaosPoints[..i])
      invariant sizes[..i] == particleSizes[..i]
    {
      WriteTriple(positions, i, treePoints[i]);
      assert treePoints[..i + 1][..i] == treePoints[..i];
      WriteTriple(chaosPositions, i, chaosPoints[i]);
      assert chaosPoints[..i + 1][..i] == chaosPoints[..i];
      sizes[i] := particleSizes[i];
    }
    assert treePoints[..count] == treePoints && chaosPoints[..count] == chaosPoints;
    assert sizes[..] == sizes[..count] && particleSizes[..count] == particleSizes;
    assert positions[..] == positions[..3 * count] && chaosPositions[..] == chaosPositions[..3 * count];
  }

  /** The foliage buffers for 15000 particles, each particle from its own draws. */
  method FillBuffers(m: MathLib, draws: seq<FoliageDraws>)
    returns (positions: array<real>, chaosPositions: array<real>, sizes: array<real>)
    requires |draws| == ParticleCount
    ensures fresh(positions) && fresh(chaosPositions) && fresh(sizes)
    ensures positions.Length == 3 * ParticleCount && chaosPositions.Length == 3 * ParticleCount
    ensures sizes.Length == ParticleCount
    ensures forall i :: 0 <= i < ParticleCount ==> SlotsHold(positions[..], i, TreePoint(m, draws, i))
    ensures forall i :: 0 <= i < ParticleCount ==> SlotsHold(chaosPositions[..], i, FoliageChaos(m, draws[i]))
    ensures forall i :: 0 <= i < ParticleCount ==> sizes[i] == ParticleSize(draws[i].sizeU)
  {
    var treePoints := seq(ParticleCount, i requires 0 <= i < ParticleCount => TreePoint(m, draws, i));
    var chaosPoints := seq(ParticleCount, i requires 0 <= i < ParticleCount => FoliageChaos(m, draws[i]));
    var particleSizes := seq(ParticleCount, i requires 0 <= i < ParticleCount => ParticleSize(draws[i].sizeU));
    positions, chaosPositions, sizes := PackParticles(treePoints, chaosPoints, particleSizes);
    FlattenSlots(treePoints);
    FlattenSlots(chaosPoints);
    forall i | 0 <= i < ParticleCount
      ensures SlotsHold(positions[..], i, TreePoint(m, draws, i))
      ensures SlotsHold(chaosPositions[..], i, FoliageChaos(m, draws[i]))
    {
      assert SlotsHold(positions[..], i, treePoints[i]);
      assert SlotsHold(chaosPositions[..], i, chaosPoints[i]);
    }
  }

  // ---------------------------------------------------------------------------
  // The vertex shader, as arithmetic

  /** The blended position: raw progress, no per-particle weight. */
  function VertexPosition(formed: Vec3, chaos: Vec3, uProgress: real): Vec3
  {
    Mix3(formed, chaos, uProgress)
  }

  /** `0.5 + 0.5 * sin(position.y * 2.0 + uProgress * 3.14159)`, from the formed height. */
  function Brightness(m: MathLib, formedY: real, uProgress: real): real
  {
    0.5 + 0.5 * m.sin(formedY * 2.0 + uProgress * 3.14159)
  }

  /** The material's uniforms: only `uProgress` changes, starting from 0. */
  class ShaderUniforms {
    var uProgress: real

    constructor ()
      ensures uProgress == 0.0
    {
      uProgress := 0.0;
    }
  }

  /** The frame callback: copy the store's progress into the uniform, if the material exists. */
  method FoliageFrame(material: ShaderUniforms?, progress: real)
    modifies material
    ensures material != null ==> material.uProgress == progress
  {
    if material != null {
      material.uProgress := progress;
    }
  }

  // ---------------------------------------------------------------------------
  // Properties

  /** Index over count lies in [0, 1) and grows with the index. */
  lemma FractionSpec(i: nat, j: nat, total: nat)
    requires i < total && j < total
    ensures 0.0 <= Fraction(i, total) < 1.0
    ensures i < j ==> Fraction(i, total) < Fraction(j, total)
  {
    var n := total as real;
    DivInUnit(i as real, n);
    if i < j {
      DivStrictMono(i as real, j as real, n);
    }
  }

  /** Heights rise through [1, 9) with the index. */
  lemma ConeHeightSpec(i: nat, j: nat, total: nat)
    requires i < total && j < total
    ensures 1.0 <= ConeHeight(i, total) < 9.0
    ensures i < j ==> ConeHeight(i, total) < ConeHeight(j, total)
  {
    FractionSpec(i, j, total);
  }

  /** Radii shrink through (0.15, 3] with the index; the angle is the golden angle times the index. */
  lemma ConeRadiusSpec(i: nat, j: nat, total: nat)
    requires i < total && j < total
    ensures 0.15 < ConeRadius(i, total) <= 3.0
    ensures i < j ==> ConeRadius(j, total) < ConeRadius(i, total)
    ensures ConeAngle(i) == 2.399963 * i as real
  {
    FractionSpec(i, j, total);
  }

  /** The two horizontal coordinates use their own draws: changing the z draw leaves x alone, and the reverse. */
  lemma JitterIndependent(m: MathLib, i: nat, total: nat, ux: real, uz: real, ux2: real, uz2: real)
    requires total > 0 && Unit(ux) && Unit(uz) && Unit(ux2) && Unit(uz2)
    ensures ConePosition(m, i, total, ux, uz).x == ConePosition(m, i, total, ux, uz2).x
    ensures ConePosition(m, i, total, ux, uz).z == ConePosition(m, i, total, ux2, uz).z
    ensures ConePosition(m, i, total, ux, uz).y == ConeHeight(i, total)
  {
  }

  /** The chaos distance is at most 12, the cloud is centred 4 above the origin, and lies in the ball of radius 12 there. */
  lemma FoliageChaosSpec(m: MathLib, d: FoliageDraws)
    requires ValidDraws(d) && Pythagorean(m) && CbrtOfUnit(m)
    ensures 0.0 <= ChaosRadialDistance(m, ChaosRadius, d.radiusU) <= 12.0
    ensures var p := FoliageChaos(m, d);
      var r := ChaosRadius * m.cbrt(d.radiusU);
      p.y - ChaosCentreY == r * m.sin(m.acos(2.0 * d.phiU - 1.0)) * m.sin(d.thetaU * PI * 2.0)
    ensures DistanceSquared(FoliageChaos(m, d), Vec3(0.0, ChaosCentreY, 0.0)) <= 144.0
  {
    ChaosInSphere(m, ChaosRadius, d.thetaU, d.phiU, d.radiusU);
  }

  /** The blend is the formed point at progress 0 and the chaos point at progress 1. */
  lemma VertexPositionSpec(formed: Vec3, chaos: Vec3, uProgress: real)
    ensures VertexPosition(formed, chaos, 0.0) == formed
    ensures VertexPosition(formed, chaos, 1.0) == chaos
    ensures VertexPosition(formed, chaos, uProgress) == Lerp3(formed, chaos, uProgress)
  {
    Mix3IsLerp3(formed, chaos, uProgress);
  }

  /** Given sine's range, brightness lies in [0, 1]. */
  lemma BrightnessBounds(m: MathLib, formedY: real, uProgress: real)
    requires SinCosBounded(m)
    ensures 0.0 <= Brightness(m, formedY, uProgress) <= 1.0
  {
    assert -1.0 <= m.sin(formedY * 2.0 + uProgress * 3.14159) <= 1.0;
  }
}
