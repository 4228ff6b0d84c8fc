/**
 * The small part of three.js's math that the animation code relies on:
 * MathUtils.lerp, the mutable Vector3 with its in-place copy/lerp, and the
 * trigonometry, which is kept abstract (any pair of functions bounded by 1).
 * Everything is over mathematical reals, not IEEE doubles.
 */
module ThreeMath {

  /** Math.PI, taken as a positive constant. */
  const Pi: real := 3.141592653589793

  function Abs(v: real): real { if v < 0.0 then -v else v }

  function Min(a: real, b: real): real { if a <= b then a else b }

  /** THREE.MathUtils.lerp(a, b, t) = (1 - t) * a + t * b. */
  function Lerp(a: real, b: real, t: real): real { (1.0 - t) * a + t * b }

  /** v scaled n times by f: what n frames of easing toward 0 with factor f leave of v. */
  function Decay(f: real, v: real, n: nat): real { if n == 0 then v else f * Decay(f, v, n - 1) }

  /** |v| k <= |o|: v is at most a k-th of o in magnitude. */
  predicate ShrunkBy(v: real, o: real, k: real) { Abs(v) * k <= Abs(o) }

  /** Lerp toward 0 with speed t scales by 1 - t. */
  lemma LerpToZero(a: real, t: real)
    ensures Lerp(a, 0.0, t) == (1.0 - t) * a
  {
  }

  /** Easing: the remaining distance to the target shrinks by the factor 1 - t. */
  lemma LerpGap(a: real, b: real, t: real)
    ensures Lerp(a, b, t) - b == (1.0 - t) * (a - b)
  {
  }

  lemma MulRight(u: real, w: real, p: real)
    requires 0.0 <= p && u <= w
    ensures u * p <= w * p
  {
  }

  lemma MulPos(u: real, w: real)
    requires 0.0 < u && 0.0 < w
    ensures 0.0 < u * w
  {
  }

  /** Squaring is monotone on the non-negative reals. */
  lemma SquareMono(u: real, w: real)
    requires 0.0 <= u <= w
    ensures 0.0 <= u * u <= w * w
  {
    MulRight(0.0, u, u);
    MulRight(u, w, u);
    MulRight(u, w, w);
    assert w * u == u * w;
  }

  /** One more step of decay by f <= 1 - a keeps the bound and raises the divisor by a. */
  lemma DecayStep(f: real, a: real, x: real, o: real, k: real)
    requires 0.0 <= a && 0.0 <= f <= 1.0 - a && k >= 1.0 && ShrunkBy(x, o, k)
    ensures ShrunkBy(f * x, o, k + a)
  {
    var m := Abs(x);
    assert Abs(f * x) == f * m;
    FactorBound(f, a, k);
    MulRight(f * (k + a), k, m);
    assert f * m * (k + a) == m * (f * (k + a));
  }

  /** A step factor f <= 1 - a times the raised divisor k + a stays within k. */
  lemma FactorBound(f: real, a: real, k: real)
    requires 0.0 <= a && 0.0 <= f <= 1.0 - a && k >= 1.0
    ensures f * (k + a) <= k
  {
    MulRight(f, 1.0 - a, k + a);
    MulRight(1.0, k + a, a);
    assert (1.0 - a) * (k + a) == k + a - a * (k + a);
  }

  /**
   * Repeated easing toward 0 with factor f <= 1 - a falls at least as fast as
   * 1 / (1 + n a), so it reaches any neighbourhood of 0 in finitely many steps.
   */
  lemma {:induction false} DecaySettles(f: real, a: real, v: real, n: nat, k: real)
    requires 0.0 <= a && 0.0 <= f <= 1.0 - a && k == 1.0 + a * (n as real)
    ensures ShrunkBy(Decay(f, v, n), v, k)
  {
    if n > 0 {
      var k0 := 1.0 + a * ((n - 1) as real);
      DecaySettles(f, a, v, n - 1, k0);
      DecayStep(f, a, Decay(f, v, n - 1), v, k0);
    }
  }

  /** An immutable 3-vector value. */
  datatype Vec3 = Vec3(x: real, y: real, z: real) {
    /** Vector3.lerp(v, alpha): each coordinate moves by (v - this) * alpha. */
    function LerpToward(v: Vec3, alpha: real): Vec3 {
      Vec3(x + (v.x - x) * alpha, y + (v.y - y) * alpha, z + (v.z - z) * alpha)
    }

    function Add(v: Vec3): Vec3 { Vec3(x + v.x, y + v.y, z + v.z) }

    function Sub(v: Vec3): Vec3 { Vec3(x - v.x, y - v.y, z - v.z) }

    function Scale(s: real): Vec3 { Vec3(x * s, y * s, z * s) }
  }

  const Zero: Vec3 := Vec3(0.0, 0.0, 0.0)

  /** A three.js Vector3: a mutable object whose identity is shared by reference. */
  class Vector3 {
    var x: real
    var y: real
    var z: real

    function Value(): Vec3
      reads this
    {
      Vec3(x, y, z)
    }

    constructor (x0: real, y0: real, z0: real)
      ensures Value() == Vec3(x0, y0, z0)
    {
      x, y, z := x0, y0, z0;
    }

    /** Vector3.copy(v). */
    method Copy(v: Vec3)
      modifies this
      ensures Value() == v
    {
      x, y, z := v.x, v.y, v.z;
    }

    /** Vector3.lerp(v, alpha), in place. */
    method Lerp(v: Vec3, alpha: real)
      modifies this
      ensures Value() == old(Value()).LerpToward(v, alpha)
    {
      x := x + (v.x - x) * alpha;
      y := y + (v.y - y) * alpha;
      z := z + (v.z - z) * alpha;
    }
  }

  /**
   * Math.sin and Math.cos, left abstract: any pair of functions. Only the bound
   * |sin|, |cos| <= 1 (predicate Bounded) and, where a lemma says so, the
   * half-turn identity sin(t + Pi) == -sin(t) or the period 2 Pi are assumed of them.
   */
  datatype Trig = Trig(sin: real -> real, cos: real -> real)

  ghost predicate Bounded(trig: Trig) {
    (forall t :: -1.0 <= trig.sin(t) <= 1.0) && (forall t :: -1.0 <= trig.cos(t) <= 1.0)
  }

  ghost predicate HalfTurnOdd(trig: Trig) {
    forall t :: trig.sin(t + Pi) == -trig.sin(t)
  }

  /** A full turn changes neither function. */
  ghost predicate Periodic(trig: Trig) {
    (forall t :: trig.sin(t + 2.0 * Pi) == trig.sin(t)) && (forall t :: trig.cos(t + 2.0 * Pi) == trig.cos(t))
  }
}
