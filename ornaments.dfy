/**
 * The ornaments: 120 records laid out on a spiral around the cone, each of one of
 * three kinds (ball, gift, light) with its own colours, size and weight; the per-kind
 * lists the three instanced meshes draw; and the pose each frame writes into a mesh slot.
 */
module Ornaments {

  import opened Numeric
  import opened Geometry

  const OrnamentCount: nat := 120
  const TreeHeight: real := 8.0
  const TreeRadius: real := 3.0
  const ChaosRadius: real := 10.0

  datatype Kind = Ball | Gift | Light

  datatype OrnamentType = OrnamentType(kind: Kind, colors: seq<string>, weight: real)

  /** The three kinds, in the order a type draw indexes them. */
  const OrnamentTypes: seq<OrnamentType> := [
    OrnamentType(Ball, ["#FFD700", "#C41E3A", "#1E90FF", "#FFD700", "#FF69B4"], 0.5),
    OrnamentType(Gift, ["#C41E3A", "#228B22", "#4169E1", "#FFD700"], 1.5),
    OrnamentType(Light, ["#FFD700", "#FFFFFF", "#FFE4B5"], 0.2)
  ]

  datatype OrnamentData = OrnamentData(
    targetPos: Vec3,
    chaosPos: Vec3,
    color: string,
    scale: real,
    kind: Kind,
    weight: real)

  /** The six `Math.random()` draws one ornament consumes, in the order they are made. */
  datatype OrnamentDraws = OrnamentDraws(typeU: real, colorU: real, thetaU: real, phiU: real, radiusU: real, scaleU: real)

  predicate ValidDraws(d: OrnamentDraws)
  {
    Unit(d.typeU) && Unit(d.colorU) && Unit(d.thetaU) && Unit(d.phiU) && Unit(d.radiusU) && Unit(d.scaleU)
  }

  // ---------------------------------------------------------------------------
  // Layout of one ornament

  /** `Math.floor(u * n)`: a draw in [0, 1) picks a valid index into an array of length n. */
  function FloorIndex(u: real, n: nat): (k: nat)
    requires Unit(u) && n > 0
    ensures k < n
    ensures k as real <= u * n as real < k as real + 1.0
  {
    var size := n as real;
    var x := u * size;
    MulNonNeg(u, size);
    MulStrictMono(size, u, 1.0);
    assert size * u == x && size * 1.0 == size;
    assert 0.0 <= x < size;
    x.Floor
  }

  /** Fraction of the way up the spiral. */
  function Fraction(i: nat): real
  {
    i as real / OrnamentCount as real
  }

  function Height(i: nat): real
  {
    1.5 + Fraction(i) * (TreeHeight - 1.0)
  }

  function Radius(i: nat): real
  {
    TreeRadius * (1.0 - Fraction(i) * 0.85) * 0.85
  }

  function Angle(i: nat): real
  {
    i as real * 0.5
  }

  function TargetPosition(m: MathLib, i: nat): Vec3
  {
    Vec3(m.cos(Angle(i)) * Radius(i), Height(i), m.sin(Angle(i)) * Radius(i))
  }

  /** Size before the random factor: lights smallest, gifts largest. */
  function BaseScale(kind: Kind): real
  {
    match kind
    case Light => 0.08
    case Gift => 0.25
    case Ball => 0.15
  }

  function ScaleFactor(u: real): (f: real)
    requires Unit(u)
    ensures 0.8 <= f < 1.2
  {
    0.8 + u * 0.4
  }

  /** The record built in iteration `i` from that iteration's draws. */
  function OrnamentAt(m: MathLib, i: nat, d: OrnamentDraws): OrnamentData
    requires ValidDraws(d)
  {
    var ornamentType := OrnamentTypes[FloorIndex(d.typeU, |OrnamentTypes|)];
    var colorIndex := FloorIndex(d.colorU, |ornamentType.colors|);
    OrnamentData(
      TargetPosition(m, i),
      ChaosPosition(m, ChaosRadius, d.thetaU, d.phiU, d.radiusU),
      ornamentType.colors[colorIndex],
      BaseScale(ornamentType.kind) * ScaleFactor(d.scaleU),
      ornamentType.kind,
      ornamentType.weight)
  }

  /** `generateOrnaments`: one record per index, in index order. */
  method GenerateOrnaments(m: MathLib, draws: seq<OrnamentDraws>) returns (ornaments: seq<OrnamentData>)
    requires |draws| == OrnamentCount
    requires forall i :: 0 <= i < |draws| ==> ValidDraws(draws[i])
    ensures |ornaments| == OrnamentCount
    ensures forall i :: 0 <= i < OrnamentCount ==> ornaments[i] == OrnamentAt(m, i, draws[i])
  {
    ornaments := [];
    var i := 0;
    while i < OrnamentCount
      invariant 0 <= i <= OrnamentCount
      invariant |ornaments| == i
      invariant forall j :: 0 <= j < i ==> ornaments[j] == OrnamentAt(m, j, draws[j])
    {
      ornaments := ornaments + [OrnamentAt(m, i, draws[i])];
      i := i + 1;
    }
  }

  // ---------------------------------------------------------------------------
  // The per-kind lists and the per-frame pose

  /** `ornaments.filter((o) => o.type === kind)`. */
  function OfKind(os: seq<OrnamentData>, kind: Kind): (r: seq<OrnamentData>)
    ensures |r| <= |os|
    ensures forall j :: 0 <= j < |r| ==> r[j].kind == kind
  {
    if |os| == 0 then []
    else (if os[0].kind == kind then [os[0]] else []) + OfKind(os[1..], kind)
  }

  /** The values one `setMatrixAt` / `setColorAt` pair writes into a mesh slot. */
  datatype Instance = Instance(position: Vec3, yaw: real, scale: real, color: string)

  /** Every kind moves along the segment from its tree spot toward its chaos spot, scaled by its weight. */
  function PosePosition(o: OrnamentData, progress: real): Vec3
  {
    Lerp3(o.targetPos, o.chaosPos, progress * o.weight)
  }

  function Pulse(m: MathLib, elapsed: real, i: nat): real
  {
    1.0 + m.sin(elapsed * 3.0 + i as real) * 0.3
  }

  /**
   * The pose of the `i`-th ornament of a kind: gifts spin with time, lights pulse in size,
   * balls neither; the shared dummy object keeps its zero yaw where nothing sets it.
   */
  function InstancePose(m: MathLib, kind: Kind, o: OrnamentData, i: nat, progress: real, elapsed: real): Instance
  {
    match kind
    case Ball => Instance(PosePosition(o, progress), 0.0, o.scale, o.color)
    case Gift => Instance(PosePosition(o, progress), elapsed * 0.5 + i as real, o.scale, o.color)
    case Light => Instance(PosePosition(o, progress), 0.0, o.scale * Pulse(m, elapsed, i), o.color)
  }

  /**
   * The frame callback of `BallOrnaments`, `GiftOrnaments` or `LightOrnaments`: slot `i`
   * of that kind's mesh receives the pose of the `i`-th ornament of that kind.
   */
  method RenderKind(m: MathLib, kind: Kind, mesh: array<Instance>, ornaments: seq<OrnamentData>,
                    progress: real, elapsed: real)
    requires mesh.Length == |OfKind(ornaments, kind)|
    modifies mesh
    ensures forall i :: 0 <= i < mesh.Length ==>
      mesh[i] == InstancePose(m, kind, OfKind(ornaments, kind)[i], i, progress, elapsed)
  {
    var list := OfKind(ornaments, kind);
    for i := 0 to |list|
      invariant forall j :: 0 <= j < i ==> mesh[j] == InstancePose(m, kind, list[j], j, progress, elapsed)
    {
      mesh[i] := InstancePose(m, kind, list[i], i, progress, elapsed);
    }
  }

  // ---------------------------------------------------------------------------
  // Properties of the layout

  /** Heights climb from 1.5 toward 8.5 in equal steps of 7/120. */
  lemma HeightSpec(i: nat, j: nat)
    requires i < OrnamentCount && j < OrnamentCount
    ensures 1.5 <= Height(i) < 8.5
    ensures i < j ==> Height(i) < Height(j)
    ensures Height(i) == 1.5 + 7.0 * i as real / 120.0
  {
  }

  /** Radii shrink from 2.55 as the spiral climbs, and stay positive. */
  lemma RadiusSpec(i: nat, j: nat)
    requires i < OrnamentCount && j < OrnamentCount
    ensures 0.0 < Radius(i) <= 2.55
    ensures i < j ==> Radius(j) < Radius(i)
    ensures Angle(i) == 0.5 * i as real
  {
  }

  /** Which kind a type draw selects: thirds of [0, 1), in table order. */
  lemma TypeDraw(u: real)
    requires Unit(u)
    ensures u < 1.0 / 3.0 ==> OrnamentTypes[FloorIndex(u, 3)].kind == Ball
    ensures 1.0 / 3.0 <= u < 2.0 / 3.0 ==> OrnamentTypes[FloorIndex(u, 3)].kind == Gift
    ensures 2.0 / 3.0 <= u ==> OrnamentTypes[FloorIndex(u, 3)].kind == Light
  {
  }

  /** A generated record carries its type's kind, one of its type's colours, weight, and a scale within 20% of its base size. */
  lemma OrnamentAtSpec(m: MathLib, i: nat, d: OrnamentDraws)
    requires ValidDraws(d)
    ensures var ty := OrnamentTypes[FloorIndex(d.typeU, 3)];
      var o := OrnamentAt(m, i, d);
      && o.kind == ty.kind && o.weight == ty.weight
      && o.color in ty.colors
    ensures var o := OrnamentAt(m, i, d);
      && (o.kind == Ball ==> o.weight == 0.5)
      && (o.kind == Gift ==> o.weight == 1.5)
      && (o.kind == Light ==> o.weight == 0.2)
      && BaseScale(o.kind) * 0.8 <= o.scale < BaseScale(o.kind) * 1.2
    ensures OrnamentAt(m, i, d).targetPos == TargetPosition(m, i)
  {
    var o := OrnamentAt(m, i, d);
    var f := ScaleFactor(d.scaleU);
    match o.kind
    case Ball => assert o.scale == 0.15 * f;
    case Gift => assert o.scale == 0.25 * f;
    case Light => assert o.scale == 0.08 * f;
  }

  /** Every chaos spot lies inside the ball of radius 10 around (0, 4, 0). */
  lemma OrnamentChaosInSphere(m: MathLib, i: nat, d: OrnamentDraws)
    requires ValidDraws(d) && Pythagorean(m) && CbrtOfUnit(m)
    ensures DistanceSquared(OrnamentAt(m, i, d).chaosPos, Vec3(0.0, ChaosCentreY, 0.0)) <= 100.0
  {
    ChaosInSphere(m, ChaosRadius, d.thetaU, d.phiU, d.radiusU);
  }

  // ---------------------------------------------------------------------------
  // Properties of the partition

  /** Concatenation is associative. */
  lemma AppendAssoc<T>(x: seq<T>, y: seq<T>, z: seq<T>)
    ensures (x + y) + z == x + (y + z)
  {
  }

  lemma {:induction false} OfKindAppend(a: seq<OrnamentData>, b: seq<OrnamentData>, kind: Kind)
    ensures OfKind(a + b, kind) == OfKind(a, kind) + OfKind(b, kind)
  {
    if |a| > 0 {
      var share := if a[0].kind == kind then [a[0]] else [];
      assert (a + b)[0] == a[0] && (a + b)[1..] == a[1..] + b;
      OfKindAppend(a[1..], b, kind);
      AppendAssoc(share, OfKind(a[1..], kind), OfKind(b, kind));
    } else {
      assert a + b == b;
    }
  }

  /** Filtering a non-empty list: the head's multiset share of the list of kind `k`. */
  lemma KindStep(os: seq<OrnamentData>, k: Kind)
    requires |os| > 0
    ensures multiset(OfKind(os, k))
            == (if os[0].kind == k then multiset{os[0]} else multiset{}) + multiset(OfKind(os[1..], k))
  {
    var share := if os[0].kind == k then [os[0]] else [];
    assert OfKind(os, k) == share + OfKind(os[1..], k);
  }

  /** The three filtered lists, as one multiset. */
  ghost function Parts(os: seq<OrnamentData>): multiset<OrnamentData>
  {
    multiset(OfKind(os, Ball)) + multiset(OfKind(os, Gift)) + multiset(OfKind(os, Light))
  }

  /** Adding one element to any of three multisets adds it to their union. */
  lemma UnionWithOne<T>(one: multiset<T>, a: multiset<T>, b: multiset<T>, c: multiset<T>)
    ensures (one + a) + b + c == one + (a + b + c)
    ensures a + (one + b) + c == one + (a + b + c)
    ensures a + b + (one + c) == one + (a + b + c)
  {
  }

  /** The head of a non-empty list lands in exactly one of the three lists. */
  lemma PartsStep(os: seq<OrnamentData>)
    requires |os| > 0
    ensures Parts(os) == multiset{os[0]} + Parts(os[1..])
  {
    var one, rest := multiset{os[0]}, os[1..];
    var mb, mg, ml := multiset(OfKind(rest, Ball)), multiset(OfKind(rest, Gift)), multiset(OfKind(rest, Light));
    KindStep(os, Ball);
    KindStep(os, Gift);
    KindStep(os, Light);
    UnionWithOne(one, mb, mg, ml);
    match os[0].kind
    case Ball =>
      assert Parts(os) == (one + mb) + mg + ml;
    case Gift =>
      assert Parts(os) == mb + (one + mg) + ml;
    case Light =>
      assert Parts(os) == mb + mg + (one + ml);
  }

  /** A non-empty list's multiset is its head's plus its tail's. */
  lemma MultisetOfCons<T>(s: seq<T>)
    requires |s| > 0
    ensures multiset(s) == multiset{s[0]} + multiset(s[1..])
  {
    assert s == [s[0]] + s[1..];
  }

  /** The three lists split the ornaments: together they hold each record exactly as often. */
  lemma {:induction false} KindsPartition(os: seq<OrnamentData>)
    ensures multiset(OfKind(os, Ball)) + multiset(OfKind(os, Gift)) + multiset(OfKind(os, Light)) == multiset(os)
  {
    if |os| > 0 {
      KindsPartition(os[1..]);
      PartsStep(os);
      MultisetOfCons(os);
    }
  }

  /** Hence their sizes add up to the number of ornaments. */
  lemma KindsPartitionSizes(os: seq<OrnamentData>)
    ensures |OfKind(os, Ball)| + |OfKind(os, Gift)| + |OfKind(os, Light)| == |os|
  {
    KindsPartition(os);
    var b, g, l := OfKind(os, Ball), OfKind(os, Gift), OfKind(os, Light);
    assert |multiset(b) + multiset(g) + multiset(l)| == |multiset(os)|;
  }

  /**
   * The ornament at index `j` sits in the list of its kind at the slot that counts the
   * same-kind ornaments before it (slot 0 for the first of its kind).
   */
  lemma SlotOf(os: seq<OrnamentData>, j: nat)
    requires j < |os|
    ensures var k := os[j].kind;
      var s := |OfKind(os[..j], k)|;
      s < |OfKind(os, k)| && OfKind(os, k)[s] == os[j]
  {
    var k := os[j].kind;
    assert os == os[..j] + os[j..];
    OfKindAppend(os[..j], os[j..], k);
    assert os[j..][0] == os[j];
  }

  /** The list of a kind keeps the original order: an earlier ornament sits at an earlier slot. */
  lemma SlotOrder(os: seq<OrnamentData>, i: nat, j: nat)
    requires i < j < |os| && os[i].kind == os[j].kind
    ensures var k := os[j].kind; |OfKind(os[..i], k)| < |OfKind(os[..j], k)|
  {
    var k := os[j].kind;
    assert os[..j] == os[..i] + os[i..j];
    OfKindAppend(os[..i], os[i..j], k);
    assert os[i..j][0] == os[i];
  }

  // ---------------------------------------------------------------------------
  // Properties of the pose

  /** At progress 0 every ornament sits on its tree spot. */
  lemma PoseAtRest(o: OrnamentData)
    ensures PosePosition(o, 0.0) == o.targetPos
  {
    LerpBetween(o.targetPos.x, o.chaosPos.x, 0.0);
    LerpBetween(o.targetPos.y, o.chaosPos.y, 0.0);
    LerpBetween(o.targetPos.z, o.chaosPos.z, 0.0);
  }

  /** Balls and lights (weight at most 1) stay on the segment between their two spots for progress in [0, 1]. */
  lemma PoseBetween(o: OrnamentData, progress: real)
    requires 0.0 <= progress <= 1.0 && 0.0 <= o.weight <= 1.0
    ensures var p := PosePosition(o, progress);
      && Between(o.targetPos.x, o.chaosPos.x, p.x)
      && Between(o.targetPos.y, o.chaosPos.y, p.y)
      && Between(o.targetPos.z, o.chaosPos.z, p.z)
  {
    MulNonNeg(progress, o.weight);
    MulMono(progress, o.weight, 1.0);
    var t := progress * o.weight;
    LerpBetween(o.targetPos.x, o.chaosPos.x, t);
    LerpBetween(o.targetPos.y, o.chaosPos.y, t);
    LerpBetween(o.targetPos.z, o.chaosPos.z, t);
  }

  /** With no clamp, a gift (weight 1.5) passes its chaos spot on every axis where the two spots differ once progress exceeds 2/3. */
  lemma GiftOvershoots(o: OrnamentData, progress: real)
    requires o.weight == 1.5 && progress > 2.0 / 3.0
    ensures var p := PosePosition(o, progress);
      && (o.targetPos.x < o.chaosPos.x ==> p.x > o.chaosPos.x)
      && (o.chaosPos.x < o.targetPos.x ==> p.x < o.chaosPos.x)
      && (o.targetPos.y < o.chaosPos.y ==> p.y > o.chaosPos.y)
      && (o.chaosPos.y < o.targetPos.y ==> p.y < o.chaosPos.y)
      && (o.targetPos.z < o.chaosPos.z ==> p.z > o.chaosPos.z)
      && (o.chaosPos.z < o.targetPos.z ==> p.z < o.chaosPos.z)
  {
    var t := progress * o.weight;
    assert t > 1.0;
    if o.targetPos.x != o.chaosPos.x { LerpOvershoots(o.targetPos.x, o.chaosPos.x, t); }
    if o.targetPos.y != o.chaosPos.y { LerpOvershoots(o.targetPos.y, o.chaosPos.y, t); }
    if o.targetPos.z != o.chaosPos.z { LerpOvershoots(o.targetPos.z, o.chaosPos.z, t); }
  }

  /** A gift's yaw depends on time and slot only, never on progress. */
  lemma GiftYaw(m: MathLib, o: OrnamentData, i: nat, p1: real, p2: real, elapsed: real)
    ensures InstancePose(m, Gift, o, i, p1, elapsed).yaw == elapsed * 0.5 + i as real
    ensures InstancePose(m, Gift, o, i, p1, elapsed) == InstancePose(m, Gift, o, i, p2, elapsed).(position := PosePosition(o, p1))
  {
  }

  /** A light's pulsing size stays within 30% of its scale. */
  lemma LightPulseBounds(m: MathLib, o: OrnamentData, i: nat, progress: real, elapsed: real)
    requires SinCosBounded(m) && o.scale >= 0.0
    ensures 0.7 * o.scale <= InstancePose(m, Light, o, i, progress, elapsed).scale <= 1.3 * o.scale
  {
    var c := o.scale;
    var sine := m.sin(elapsed * 3.0 + i as real);
    var pulse := Pulse(m, elapsed, i);
    assert -1.0 <= sine <= 1.0 && pulse == 1.0 + sine * 0.3;
    assert 0.7 <= pulse <= 1.3;
    MulMono(c, 0.7, pulse);
    MulMono(c, pulse, 1.3);
    assert c * 0.7 <= c * pulse <= c * 1.3;
    assert InstancePose(m, Light, o, i, progress, elapsed).scale == c * pulse;
    assert c * 0.7 == 0.7 * c && c * 1.3 == 1.3 * c;
  }

}
