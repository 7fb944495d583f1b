/** Unity's CPU-side Texture2D: a width by height grid of colours addressed
    (x, y), read with GetPixel and written with SetPixel or SetPixels. */
module Textures {
  import opened Colors

  /** Pixels indexed [x][y]: one column of `height` colours per x */
  type Grid = seq<seq<Color>>

  ghost predicate IsGrid(g: Grid, width: int, height: int) {
    |g| == width && forall x :: 0 <= x < width ==> |g[x]| == height
  }

  function Filled(width: nat, height: nat, c: Color): (g: Grid)
    ensures IsGrid(g, width, height)
  {
    seq(width, _ => seq(height, _ => c))
  }

  /** Unity's SetPixels takes the colours row after row: entry y * width + x is pixel (x, y) */
  function RowMajor(colors: seq<Color>, width: nat, height: nat): (g: Grid)
    requires |colors| == width * height
    ensures IsGrid(g, width, height)
  {
    seq(width, x requires 0 <= x < width => Column(colors, width, height, x))
  }

  function Column(colors: seq<Color>, width: nat, height: nat, x: nat): (col: seq<Color>)
    requires |colors| == width * height && x < width
    ensures |col| == height
  {
    seq(height, y requires 0 <= y < height => RowMajorIndex(x, y, width, height); colors[y * width + x])
  }

  lemma RowMajorAt(colors: seq<Color>, width: nat, height: nat, x: int, y: int)
    requires |colors| == width * height
    requires 0 <= x < width && 0 <= y < height
    ensures 0 <= y * width + x < |colors|
    ensures RowMajor(colors, width, height)[x][y] == colors[y * width + x]
  {
    RowMajorIndex(x, y, width, height);
  }

  /** A buffer holding one colour everywhere becomes a texture filled with it */
  lemma RowMajorUniform(colors: seq<Color>, width: nat, height: nat, c: Color)
    requires |colors| == width * height
    requires forall i :: 0 <= i < |colors| ==> colors[i] == c
    ensures RowMajor(colors, width, height) == Filled(width, height, c)
  {
    var g, f := RowMajor(colors, width, height), Filled(width, height, c);
    forall x | 0 <= x < width
      ensures g[x] == f[x]
    {
      forall y | 0 <= y < height
        ensures g[x][y] == c
      {
        RowMajorAt(colors, width, height, x, y);
      }
    }
  }

  lemma RowMajorIndex(x: int, y: int, width: int, height: int)
    requires 0 <= x < width && 0 <= y < height
    ensures 0 <= y * width + x < width * height
  {
    assert y * width <= (height - 1) * width by {
      assert (height - 1) * width - y * width == (height - 1 - y) * width;
    }
    assert (height - 1) * width + width == height * width;
  }

  class Texture2D {
    const width: nat
    const height: nat
    var pixels: Grid

    ghost predicate Valid()
      reads this
    {
      IsGrid(pixels, width, height)
    }

    constructor (width: nat, height: nat, fill: Color)
      ensures Valid() && this.width == width && this.height == height
      ensures pixels == Filled(width, height, fill)
    {
      this.width := width;
      this.height := height;
      pixels := Filled(width, height, fill);
    }

    function GetPixel(x: int, y: int): Color
      reads this
      requires Valid() && 0 <= x < width && 0 <= y < height
    {
      pixels[x][y]
    }

    method SetPixel(x: int, y: int, color: Color)
      requires Valid() && 0 <= x < width && 0 <= y < height
      modifies this
      ensures Valid()
      ensures pixels == old(pixels)[x := old(pixels)[x][y := color]]
    {
      pixels := pixels[x := pixels[x][y := color]];
    }

    /** Replaces every pixel from a row-major buffer of exactly width * height colours;
        RowMajorAt says where each buffer entry lands. */
    method SetPixels(colors: seq<Color>)
      requires Valid() && |colors| == width * height
      modifies this
      ensures Valid()
      ensures pixels == RowMajor(colors, width, height)
    {
      pixels := RowMajor(colors, width, height);
    }
  }
}
