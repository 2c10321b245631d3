/**
 * The three.js and GLSL vocabulary the animation core is written in: 3D vectors,
 * linear interpolation, the transcendental functions of `Math`, and the
 * inverse-transform sampler that places a point inside the chaos sphere.
 */
module Geometry {

  import opened Numeric

  datatype Vec3 = Vec3(x: real, y: real, z: real)

  /** `Math.PI` as a double. */
  const PI: real := 3.141592653589793

  /** Height of the centre of every chaos cloud above the origin. */
  const ChaosCentreY: real := 4.0

  /**
   * `Math.sin`, `Math.cos`, `Math.acos`, `Math.cbrt` and `Math.atan2`. Their values
   * are not modelled; the predicates below state the few facts that properties need.
   */
  datatype MathLib = MathLib(
    sin: real -> real,
    cos: real -> real,
    acos: real -> real,
    cbrt: real -> real,
    atan2: (real, real) -> real)

  ghost predicate SinCosBounded(m: MathLib)
  {
    && (forall a :: -1.0 <= m.sin(a) <= 1.0)
    && (forall a :: -1.0 <= m.cos(a) <= 1.0)
  }

  ghost predicate Pythagorean(m: MathLib)
  {
    forall a :: m.sin(a) * m.sin(a) + m.cos(a) * m.cos(a) == 1.0
  }

  ghost predicate CbrtOfUnit(m: MathLib)
  {
    forall u :: 0.0 <= u <= 1.0 ==> 0.0 <= m.cbrt(u) <= 1.0
  }

  /** The range of one `Math.random()` draw. */
  predicate Unit(u: real)
  {
    0.0 <= u < 1.0
  }

  /** Component-wise `Vector3.lerpVectors`. */
  function Lerp3(a: Vec3, b: Vec3, t: real): Vec3
  {
    Vec3(Lerp(a.x, b.x, t), Lerp(a.y, b.y, t), Lerp(a.z, b.z, t))
  }

  /** Interpolation as GLSL `mix` and `MathUtils.lerp` compute it: x * (1 - a) + y * a. */
  function Mix(x: real, y: real, a: real): real
  {
    x * (1.0 - a) + y * a
  }

  function Mix3(a: Vec3, b: Vec3, t: real): Vec3
  {
    Vec3(Mix(a.x, b.x, t), Mix(a.y, b.y, t), Mix(a.z, b.z, t))
  }

  /** Over the reals the two interpolation formulas agree. */
  lemma MixIsLerp(x: real, y: real, a: real)
    ensures Mix(x, y, a) == Lerp(x, y, a)
  {
  }

  lemma Mix3IsLerp3(a: Vec3, b: Vec3, t: real)
    ensures Mix3(a, b, t) == Lerp3(a, b, t)
  {
    MixIsLerp(a.x, b.x, t);
    MixIsLerp(a.y, b.y, t);
    MixIsLerp(a.z, b.z, t);
  }

  function ChaosRadialDistance(m: MathLib, radius: real, radiusU: real): (r: real)
    requires CbrtOfUnit(m) && Unit(radiusU) && radius >= 0.0
    ensures 0.0 <= r <= radius
  {
    assert 0.0 <= m.cbrt(radiusU) <= 1.0;
    radius * m.cbrt(radiusU)
  }

  /**
   * A point of the chaos cloud: azimuth `thetaU * 2 * PI`, polar angle
   * `acos(2 * phiU - 1)`, radial distance `radius * cbrt(radiusU)`, shifted up by 4.
   */
  function ChaosPosition(m: MathLib, radius: real, thetaU: real, phiU: real, radiusU: real): Vec3
  {
    var theta := thetaU * PI * 2.0;
    var phi := m.acos(2.0 * phiU - 1.0);
    var r := radius * m.cbrt(radiusU);
    Vec3(r * m.sin(phi) * m.cos(theta), r * m.sin(phi) * m.sin(theta) + ChaosCentreY, r * m.cos(phi))
  }

  function DistanceSquared(a: Vec3, b: Vec3): real
  {
    (a.x - b.x) * (a.x - b.x) + (a.y - b.y) * (a.y - b.y) + (a.z - b.z) * (a.z - b.z)
  }

  /** Every chaos point lies inside the sphere of the given radius centred at (0, 4, 0). */
  lemma ChaosInSphere(m: MathLib, radius: real, thetaU: real, phiU: real, radiusU: real)
    requires Pythagorean(m) && CbrtOfUnit(m)
    requires radius >= 0.0 && Unit(radiusU)
    ensures DistanceSquared(ChaosPosition(m, radius, thetaU, phiU, radiusU), Vec3(0.0, ChaosCentreY, 0.0))
            <= radius * radius
  {
    var theta := thetaU * PI * 2.0;
    var phi := m.acos(2.0 * phiU - 1.0);
    var r := ChaosRadialDistance(m, radius, radiusU);
    var sp, cp, st, ct := m.sin(phi), m.cos(phi), m.sin(theta), m.cos(theta);
    var p := ChaosPosition(m, radius, thetaU, phiU, radiusU);
    assert sp * sp + cp * cp == 1.0;
    assert st * st + ct * ct == 1.0;
    calc {
      DistanceSquared(p, Vec3(0.0, ChaosCentreY, 0.0));
      (r * sp * ct) * (r * sp * ct) + (r * sp * st) * (r * sp * st) + (r * cp) * (r * cp);
      r * r * (sp * sp * (ct * ct + st * st) + cp * cp);
      r * r * (sp * sp + cp * cp);
      r * r;
    }
    assert r * r <= radius * r <= radius * radius;
  }
}
