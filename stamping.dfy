/** What the brushes send to the GPU: a stamp request ("blit") onto the paint board's
    render texture. The render texture is modelled by the sequence of blits it has
    received; the shader's own pixel work is not modelled. */
module Stamping {
  import opened Geometry
  import opened Colors

  type Positive = n: int | n > 0 witness 1

  datatype Option<T> = None | Some(value: T)

  /** Resource paths of the two stamping shaders */
  const STAMP_BLIT: string := "Shaders/StampBlit"
  const STAMP_BLIT_WITH_ROTATION: string := "Shaders/StampBlitWithRotation"

  /** One Graphics.Blit through a stamping material, with the shader parameters it was given:
      the stamp texture, the stamp centre in UV space, the stamp size in pixels, the colour,
      the material, and the rotation angle when one was set. */
  datatype Blit = Blit(
    stamp: string,
    positionUV: Vec2,
    widthPixels: int,
    heightPixels: int,
    color: Color,
    material: string,
    rotationDegrees: Option<real>)

  class RenderTexture {
    const width: Positive
    const height: Positive
    /** Every stamp drawn onto this texture, oldest first */
    var blits: seq<Blit>

    constructor (width: Positive, height: Positive)
      ensures this.width == width && this.height == height && blits == []
    {
      this.width := width;
      this.height := height;
      blits := [];
    }
  }

  /** The paint board's on-screen rectangle; only its identity matters here */
  class RectTransform {
    constructor () {}
  }

  /** Unity's LayerMask: a bit mask of physics layers */
  datatype LayerMask = LayerMask(value: int)

  /** Pixel position to UV space: each coordinate divided by the texture's size */
  function PositionUV(positionPixels: Vec2, width: Positive, height: Positive): Vec2 {
    Vec2(positionPixels.x / width as real, positionPixels.y / height as real)
  }

  /** Positions on the texture, [0, width] x [0, height], land in the unit square, and the
      UV position scaled back by the texture size is the pixel position again. */
  lemma PositionUVRoundTrip(positionPixels: Vec2, width: Positive, height: Positive)
    ensures PositionUV(positionPixels, width, height).x * width as real == positionPixels.x
    ensures PositionUV(positionPixels, width, height).y * height as real == positionPixels.y
    ensures 0.0 <= positionPixels.x <= width as real && 0.0 <= positionPixels.y <= height as real ==>
      0.0 <= PositionUV(positionPixels, width, height).x <= 1.0 &&
      0.0 <= PositionUV(positionPixels, width, height).y <= 1.0
  {
    var w, h := width as real, height as real;
    var uv := PositionUV(positionPixels, width, height);
    assert uv.x * w == positionPixels.x;
    assert uv.y * h == positionPixels.y;
    if 0.0 <= positionPixels.x <= w && 0.0 <= positionPixels.y <= h {
      DivideWithin(positionPixels.x, w);
      DivideWithin(positionPixels.y, h);
    }
  }

  lemma DivideWithin(p: real, size: real)
    requires 0.0 < size && 0.0 <= p <= size
    ensures 0.0 <= p / size <= 1.0
  {
    var q := p / size;
    assert q * size == p;
    if q > 1.0 {
      MulPositive(q - 1.0, size);
      assert false;
    }
  }

  /** The rotation material is picked only for a strictly positive angle */
  function MaterialFor(rotationAngle: real, plain: string, withRotation: string): string {
    if rotationAngle > 0.0 then withRotation else plain
  }

  /** The rotation parameter is set for every non-zero angle */
  function RotationFor(rotationAngle: real): Option<real> {
    if rotationAngle != 0.0 then Some(rotationAngle) else None
  }

  /** The two choices disagree on negative angles: the plain material is used, yet the
      rotation parameter is still set (on a material whose shader does not read it). */
  lemma NegativeAngleMismatch(rotationAngle: real, plain: string, withRotation: string)
    requires plain != withRotation
    ensures MaterialFor(rotationAngle, plain, withRotation) == withRotation <==> rotationAngle > 0.0
    ensures RotationFor(rotationAngle).Some? <==> rotationAngle != 0.0
    ensures rotationAngle < 0.0 ==>
      MaterialFor(rotationAngle, plain, withRotation) == plain && RotationFor(rotationAngle) == Some(rotationAngle)
  {}
}
