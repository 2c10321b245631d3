/** Small facts about real arithmetic shared by the animation modules. */
module Numeric {

  function Abs(x: real): (r: real)
    ensures r >= 0.0
    ensures r == x || r == -x
  {
    if x < 0.0 then -x else x
  }

  function Max(a: real, b: real): (r: real)
    ensures r >= a && r >= b
    ensures r == a || r == b
  {
    if a < b then b else a
  }

  /** `x` lies on the closed segment between `a` and `b`, in either orientation. */
  predicate Between(a: real, b: real, x: real)
  {
    (a <= x <= b) || (b <= x <= a)
  }

  lemma MulNonNeg(c: real, d: real)
    requires c >= 0.0 && d >= 0.0
    ensures c * d >= 0.0
  {
  }

  lemma MulPos(c: real, d: real)
    requires c > 0.0 && d > 0.0
    ensures c * d > 0.0
  {
  }

  /** Multiplying by a non-negative factor keeps the order of its operands. */
  lemma MulMono(c: real, x: real, y: real)
    requires c >= 0.0 && x <= y
    ensures c * x <= c * y
  {
    MulNonNeg(c, y - x);
    assert c * y - c * x == c * (y - x);
  }

  /** Dividing by a positive number and multiplying back gives the original value. */
  lemma DivCancel(x: real, d: real)
    requires d > 0.0
    ensures (x / d) * d == x && d * (x / d) == x
  {
  }

  /** Multiplying by a positive factor keeps a strict order. */
  lemma MulStrictMono(c: real, x: real, y: real)
    requires c > 0.0 && x < y
    ensures c * x < c * y
  {
    MulPos(c, y - x);
    assert c * y - c * x == c * (y - x);
  }

  /** A quotient by a positive divisor keeps the order of the dividends. */
  lemma DivStrictMono(x: real, y: real, d: real)
    requires d > 0.0 && x < y
    ensures x / d < y / d
  {
    var qx, qy := x / d, y / d;
    DivCancel(x, d);
    DivCancel(y, d);
    if qy <= qx {
      MulMono(d, qy, qx);
      assert false;
    }
  }

  /** A non-negative number below a positive divisor has its quotient in [0, 1). */
  lemma DivInUnit(x: real, d: real)
    requires d > 0.0 && 0.0 <= x < d
    ensures 0.0 <= x / d < 1.0
  {
    DivCancel(0.0, d);
    DivCancel(d, d);
    if 0.0 < x {
      DivStrictMono(0.0, x, d);
    }
    DivStrictMono(x, d, d);
  }

  /**
   * Moving the fraction `t` of the way from `a` to `b`: `Vector3.lerpVectors`, the
   * store's smoothing step and the camera rig all compute a + (b - a) * t.
   */
  function Lerp(a: real, b: real, t: real): real
  {
    a + (b - a) * t
  }

  /** A fraction in [0, 1] of a non-negative amount lies between 0 and that amount. */
  lemma ScaledNonNeg(g: real, t: real)
    requires 0.0 <= t <= 1.0 && g >= 0.0
    ensures 0.0 <= g * t <= g
  {
    MulNonNeg(g, t);
    MulNonNeg(g, 1.0 - t);
  }

  /** A fraction in [0, 1] of a negative amount lies between that amount and 0. */
  lemma ScaledNeg(g: real, t: real)
    requires 0.0 <= t <= 1.0 && g < 0.0
    ensures g <= g * t <= 0.0
  {
    MulNonNeg(-g, t);
    MulNonNeg(-g, 1.0 - t);
  }

  /** Interpolation starts at its first endpoint, ends at its second, and stays between them in between. */
  lemma LerpBetween(a: real, b: real, t: real)
    ensures Lerp(a, b, 0.0) == a && Lerp(a, b, 1.0) == b
    ensures 0.0 <= t <= 1.0 ==> Between(a, b, Lerp(a, b, t))
  {
    assert Lerp(a, b, 0.0) == a && Lerp(a, b, 1.0) == b;
    if 0.0 <= t <= 1.0 {
      var g := b - a;
      var d := g * t;
      assert Lerp(a, b, t) == a + d;
      if g >= 0.0 {
        ScaledNonNeg(g, t);
      } else {
        ScaledNeg(g, t);
      }
      ShiftBetween(a, b, d);
    }
  }

  /** Moving from `a` by a part of the way to `b` stays between them. */
  lemma ShiftBetween(a: real, b: real, d: real)
    requires b - a >= 0.0 ==> 0.0 <= d <= b - a
    requires b - a < 0.0 ==> b - a <= d <= 0.0
    ensures Between(a, b, a + d)
  {
  }

  /** What is left of the way after the step: the fraction 1 - t of the original gap. */
  lemma LerpGap(a: real, b: real, t: real)
    requires t <= 1.0
    ensures b - Lerp(a, b, t) == (1.0 - t) * (b - a)
    ensures Abs(b - Lerp(a, b, t)) == (1.0 - t) * Abs(b - a)
  {
    var g := b - a;
    assert b - Lerp(a, b, t) == (1.0 - t) * g;
    if g >= 0.0 {
      MulNonNeg(1.0 - t, g);
    } else {
      MulNonNeg(1.0 - t, -g);
      assert (1.0 - t) * (-g) == -((1.0 - t) * g);
    }
  }

  /** A factor above 1 carries the point past the second endpoint. */
  lemma LerpOvershoots(a: real, b: real, t: real)
    requires t > 1.0 && a != b
    ensures a < b ==> Lerp(a, b, t) > b
    ensures b < a ==> Lerp(a, b, t) < b
  {
    assert Lerp(a, b, t) - b == (b - a) * (t - 1.0);
    if a < b {
      MulPos(b - a, t - 1.0);
    } else {
      MulPos(a - b, t - 1.0);
      assert (a - b) * (t - 1.0) == -((b - a) * (t - 1.0));
    }
  }

  function Pow(b: real, n: nat): real
  {
    if n == 0 then 1.0 else b * Pow(b, n - 1)
  }

  lemma {:induction false} PowUnitInterval(b: real, n: nat)
    requires 0.0 <= b <= 1.0
    ensures 0.0 <= Pow(b, n) <= 1.0
  {
    if n > 0 {
      var p := Pow(b, n - 1);
      PowUnitInterval(b, n - 1);
      assert Pow(b, n) == b * p;
      MulNonNeg(b, p);
      MulMono(b, p, 1.0);
      assert b * p <= b * 1.0 == b;
    }
  }

  lemma {:induction false} PowAdd(b: real, m: nat, n: nat)
    ensures Pow(b, m + n) == Pow(b, m) * Pow(b, n)
  {
    if m > 0 {
      PowAdd(b, m - 1, n);
      assert Pow(b, m + n) == b * Pow(b, m - 1 + n);
    }
  }

  /** Powers of a base in [0, 1] never grow with the exponent. */
  lemma {:induction false} PowNonIncreasing(b: real, m: nat, n: nat)
    requires 0.0 <= b <= 1.0
    requires m <= n
    ensures Pow(b, n) <= Pow(b, m)
  {
    if m < n {
      var p := Pow(b, n - 1);
      PowNonIncreasing(b, m, n - 1);
      PowUnitInterval(b, n - 1);
      assert Pow(b, n) == b * p;
      MulMono(p, b, 1.0);
      assert p * b == b * p;
    }
  }
}
