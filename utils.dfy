/** The static helpers of Utils: the texture fill and the "not yet past B" test the
    bouncing-ball brush uses to detect that a dot would cross the next boundary hit. */
module Utils {
  import opened Geometry
  import opened Colors
  import opened Textures

  /** World units per texture pixel used when sprites are created */
  const PIXELS_PER_UNIT: int := 100

  /** True when point is no farther from a than b is: the squared distance from a to
      point is at most the squared distance from a to b. It is meant for points on the
      ray from a through b, where it says "point has not gone past b". */
  predicate IsPointBetweenAB(a: Vec2, b: Vec2, point: Vec2) {
    SqrMagnitude(point.Minus(a)) <= SqrMagnitude(b.Minus(a))
  }

  /** Read with real distances: point lies within the circle about a through b */
  lemma BetweenIsDistanceComparison(sqrt: real -> real, a: Vec2, b: Vec2, point: Vec2)
    requires IsSqrt(sqrt)
    ensures IsPointBetweenAB(a, b, point) <==> Distance(sqrt, point, a) <= Distance(sqrt, b, a)
  {
    SqrtMonotone(sqrt, SqrMagnitude(point.Minus(a)), SqrMagnitude(b.Minus(a)));
  }

  /** Both ends of the segment count as between */
  lemma BetweenInclusiveEnds(a: Vec2, b: Vec2)
    ensures IsPointBetweenAB(a, b, a)
    ensures IsPointBetweenAB(a, b, b)
  {
    assert a.Minus(a) == Zero;
  }

  /** On the ray a + t (b - a), t >= 0, with a != b, the test holds exactly up to t = 1 */
  lemma BetweenOnRay(a: Vec2, b: Vec2, t: real)
    requires a != b && t >= 0.0
    ensures IsPointBetweenAB(a, b, a.Plus(b.Minus(a).Times(t))) <==> t <= 1.0
  {
    var d := b.Minus(a);
    var s := SqrMagnitude(d);
    assert a.Plus(d.Times(t)).Minus(a) == d.Times(t);
    SqrMagnitudeScale(d, t);
    assert d != Zero;
    SqrMagnitudePositive(d);
    if t <= 1.0 {
      SquareLeMono(t, 1.0);
      MulRight(t * t, 1.0, s);
    } else {
      SquareMonotone(1.0, t);
      ScaleAboveOne(t * t, s);
    }
  }

  lemma ScaleAboveOne(k: real, s: real)
    requires k > 1.0 && s > 0.0
    ensures k * s > s
  {
    MulPositive(k - 1.0, s);
  }

  /** A degenerate segment (a == b) admits only the point a itself */
  lemma BetweenDegenerate(a: Vec2, point: Vec2)
    ensures IsPointBetweenAB(a, a, point) <==> point == a
  {
    assert a.Minus(a) == Zero;
    if point != a {
      assert point.Minus(a) != Zero by {
        assert point == a.Plus(point.Minus(a));
      }
      SqrMagnitudePositive(point.Minus(a));
    }
  }

  /** The test only looks at the distance from a, not the direction: a point behind a,
      on the backward ray and no farther than b, is accepted too. */
  lemma BetweenBehindStart(a: Vec2, b: Vec2, t: real)
    requires 0.0 <= t <= 1.0
    ensures IsPointBetweenAB(a, b, a.Minus(b.Minus(a).Times(t)))
  {
    var d := b.Minus(a);
    var s := SqrMagnitude(d);
    assert a.Minus(d.Times(t)).Minus(a) == d.Times(-t);
    SqrMagnitudeScale(d, -t);
    assert (-t) * (-t) == t * t;
    SquareLeMono(t, 1.0);
    MulRight(t * t, 1.0, s);
    assert SqrMagnitude(a.Minus(d.Times(t)).Minus(a)) == t * t * s <= s;
  }

  /** The pixel buffer of setTextureColor: `length` copies of one colour */
  method FillBuffer(length: nat, color: Color) returns (buffer: seq<Color>)
    ensures |buffer| == length
    ensures forall i :: 0 <= i < length ==> buffer[i] == color
  {
    var pixels := new Color[length];
    for startColorIdx := 0 to length
      invariant forall i :: 0 <= i < startColorIdx ==> pixels[i] == color
    {
      pixels[startColorIdx] := color;
    }
    buffer := pixels[..];
  }

  /** setTextureColor: every pixel of the texture becomes `color` */
  method SetTextureColor(texture: Texture2D, color: Color)
    requires texture.Valid()
    modifies texture
    ensures texture.Valid()
    ensures texture.pixels == Filled(texture.width, texture.height, color)
  {
    var pixels := FillBuffer(texture.width * texture.height, color);
    texture.SetPixels(pixels);
    RowMajorUniform(pixels, texture.width, texture.height, color);
  }
}
