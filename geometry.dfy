/** Unity's Vector2 arithmetic over the reals: the vector helpers the brushes use
    (subtraction, scaling, sqrMagnitude, magnitude, normalized, Distance, Reflect).
    The square root inside magnitude is an oracle: a total function the caller supplies,
    constrained by IsSqrt wherever a proof needs its meaning. */
module Geometry {

  datatype Vec2 = Vec2(x: real, y: real) {
    function Plus(o: Vec2): Vec2 { Vec2(x + o.x, y + o.y) }
    function Minus(o: Vec2): Vec2 { Vec2(x - o.x, y - o.y) }
    function Times(k: real): Vec2 { Vec2(x * k, y * k) }
  }

  const Zero := Vec2(0.0, 0.0)

  /** Unity's kEpsilon used by Vector2.normalized */
  const NormalizeEpsilon: real := 0.00001

  function Dot(a: Vec2, b: Vec2): real { a.x * b.x + a.y * b.y }

  /** z component of the 3D cross product: zero exactly when a and b are parallel */
  function Cross(a: Vec2, b: Vec2): real { a.x * b.y - a.y * b.x }

  function SqrMagnitude(v: Vec2): (r: real)
    ensures r >= 0.0
  {
    SquareNonNegative(v.x);
    SquareNonNegative(v.y);
    v.x * v.x + v.y * v.y
  }

  /** Only the zero vector has squared magnitude zero */
  lemma SqrMagnitudePositive(v: Vec2)
    requires v != Zero
    ensures 0.0 < SqrMagnitude(v)
  {
    calc {
      SqrMagnitude(v);
    ==
      v.x * v.x + v.y * v.y;
    >  { SumOfSquaresPositive(v.x, v.y); }
      0.0;
    }
  }

  lemma SumOfSquaresPositive(a: real, b: real)
    requires a != 0.0 || b != 0.0
    ensures a * a + b * b > 0.0
  {
    SquareNonNegative(a);
    SquareNonNegative(b);
  }

  function Abs(r: real): real { if r < 0.0 then -r else r }

  /** Mathf.Ceil: the least integer not below r */
  function Ceil(r: real): (n: int)
    ensures r <= n as real < r + 1.0
  {
    var f := r.Floor;
    if f as real == r then f else f + 1
  }

  /** The property every square-root oracle must have */
  ghost predicate IsSqrt(sqrt: real -> real) {
    forall x :: 0.0 <= x ==> 0.0 <= sqrt(x) && sqrt(x) * sqrt(x) == x
  }

  function Magnitude(sqrt: real -> real, v: Vec2): real { sqrt(SqrMagnitude(v)) }

  function Distance(sqrt: real -> real, a: Vec2, b: Vec2): real { Magnitude(sqrt, a.Minus(b)) }

  /** Vector2.normalized: the zero vector when the magnitude is at most kEpsilon */
  function Normalized(sqrt: real -> real, v: Vec2): Vec2 {
    var m := Magnitude(sqrt, v);
    if m > NormalizeEpsilon then v.Times(1.0 / m) else Zero
  }

  /** Vector2.Reflect(inDirection, inNormal) = -2 (inNormal . inDirection) inNormal + inDirection */
  function Reflect(v: Vec2, n: Vec2): Vec2 { n.Times(-2.0 * Dot(n, v)).Plus(v) }

  lemma SquareNonNegative(a: real)
    ensures a * a >= 0.0
    ensures a != 0.0 ==> a * a > 0.0
  {
    if a < 0.0 {
      MulPositive(-a, -a);
    } else if a > 0.0 {
      MulPositive(a, a);
    }
  }

  lemma MulPositive(a: real, b: real)
    requires a > 0.0 && b > 0.0
    ensures a * b > 0.0
  {}

  /** Law of reflection about a unit normal: the normal component changes sign, the
      tangential component and the speed are kept. */
  lemma ReflectLaw(v: Vec2, n: Vec2)
    requires SqrMagnitude(n) == 1.0
    ensures Dot(Reflect(v, n), n) == -Dot(v, n)
    ensures Cross(n, Reflect(v, n)) == Cross(n, v)
    ensures SqrMagnitude(Reflect(v, n)) == SqrMagnitude(v)
  {
    var d := Dot(n, v);
    var r := Reflect(v, n);
    assert r == Vec2(v.x - 2.0 * d * n.x, v.y - 2.0 * d * n.y);
    calc {
      Dot(r, n);
      v.x * n.x + v.y * n.y - 2.0 * d * (n.x * n.x + n.y * n.y);
      d - 2.0 * d * 1.0;
      -d;
    }
    calc {
      SqrMagnitude(r);
      (v.x - 2.0 * d * n.x) * (v.x - 2.0 * d * n.x) + (v.y - 2.0 * d * n.y) * (v.y - 2.0 * d * n.y);
      v.x * v.x + v.y * v.y - 4.0 * d * (v.x * n.x + v.y * n.y) + 4.0 * d * d * (n.x * n.x + n.y * n.y);
      SqrMagnitude(v) - 4.0 * d * d + 4.0 * d * d * 1.0;
      SqrMagnitude(v);
    }
  }

  /** Reflecting twice about the same unit normal gives back the original vector */
  lemma ReflectInvolution(v: Vec2, n: Vec2)
    requires SqrMagnitude(n) == 1.0
    ensures Reflect(Reflect(v, n), n) == v
  {
    var d := Dot(n, v);
    var r := Reflect(v, n);
    ReflectLaw(v, n);
    assert Dot(n, r) == -d;
    assert Reflect(r, n) == Vec2(r.x + 2.0 * d * n.x, r.y + 2.0 * d * n.y);
  }

  /** For a non-negative bound, comparing a magnitude with it is the same as comparing
      the squared magnitude with the squared bound. */
  lemma MagnitudeBelow(sqrt: real -> real, v: Vec2, bound: real)
    requires IsSqrt(sqrt)
    requires bound >= 0.0
    ensures Magnitude(sqrt, v) < bound <==> SqrMagnitude(v) < bound * bound
  {
    var s := SqrMagnitude(v);
    var m := sqrt(s);
    assert 0.0 <= m && m * m == s;
    if m < bound {
      assert m * m <= m * bound <= bound * bound by { MulLeft(m, m, bound); MulRight(m, bound, bound); }
      assert m * m < bound * bound by {
        if m * m == bound * bound { SquareMonotone(m, bound); }
      }
    } else {
      assert bound * bound <= m * m by { SquareLeMono(bound, m); }
    }
  }

  lemma MulLeft(k: real, a: real, b: real)
    requires k >= 0.0 && a <= b
    ensures k * a <= k * b
  {}

  lemma MulRight(a: real, b: real, k: real)
    requires k >= 0.0 && a <= b
    ensures a * k <= b * k
  {}

  lemma SquareLeMono(a: real, b: real)
    requires 0.0 <= a <= b
    ensures a * a <= b * b
  {
    MulLeft(a, a, b);
    MulRight(a, b, b);
  }

  lemma SquareMonotone(a: real, b: real)
    requires 0.0 <= a < b
    ensures a * a < b * b
  {
    MulPositive(b - a, b + a);
  }

  /** Scaling a vector by k scales its squared magnitude by k * k */
  lemma SqrMagnitudeScale(v: Vec2, k: real)
    ensures SqrMagnitude(v.Times(k)) == k * k * SqrMagnitude(v)
  {
    calc {
      SqrMagnitude(v.Times(k));
    ==
      (v.x * k) * (v.x * k) + (v.y * k) * (v.y * k);
    ==
      k * k * (v.x * v.x + v.y * v.y);
    }
  }

  /** A square-root oracle is monotone: it keeps and reflects the order of its arguments */
  lemma SqrtMonotone(sqrt: real -> real, s: real, t: real)
    requires IsSqrt(sqrt)
    requires 0.0 <= s && 0.0 <= t
    ensures sqrt(s) <= sqrt(t) <==> s <= t
  {
    var a, b := sqrt(s), sqrt(t);
    assert 0.0 <= a && a * a == s;
    assert 0.0 <= b && b * b == t;
    if a <= b {
      SquareLeMono(a, b);
    } else {
      SquareMonotone(b, a);
    }
  }

  /** A vector longer than kEpsilon normalizes to a unit vector pointing the same way */
  lemma NormalizedIsUnit(sqrt: real -> real, v: Vec2)
    requires IsSqrt(sqrt)
    requires Magnitude(sqrt, v) > NormalizeEpsilon
    ensures SqrMagnitude(Normalized(sqrt, v)) == 1.0
    ensures Cross(Normalized(sqrt, v), v) == 0.0 && Dot(Normalized(sqrt, v), v) > 0.0
  {
    var m := Magnitude(sqrt, v);
    var k := 1.0 / m;
    assert m * m == SqrMagnitude(v);
    assert k * m == 1.0;
    var u := v.Times(k);
    calc {
      SqrMagnitude(u);
      (v.x * k) * (v.x * k) + (v.y * k) * (v.y * k);
      (v.x * v.x + v.y * v.y) * (k * k);
      (m * m) * (k * k);
      (k * m) * (k * m);
      1.0;
    }
    calc {
      Dot(u, v);
      (v.x * v.x + v.y * v.y) * k;
      (m * m) * k;
      m * (k * m);
      m;
    }
  }
}
