/** The physics ball: every draw event stamps the ball sprite onto the background
    texture once per dot, clipping to the texture and skipping transparent sprite
    pixels, and each dot takes the next colour of a five-colour queue. */
module Ball {
  import opened Geometry
  import opened Colors
  import opened Textures

  /** Minimum time between two draw events of FixedUpdate */
  const TIME_BETWEEN_DRAWS: real := 0.05

  /** Whether background pixel (i, j) is covered by an opaque stamp pixel when the
      stamp's corner is at (startX, startY) */
  ghost predicate Covers(stamp: Grid, sw: int, sh: int, startX: int, startY: int, i: int, j: int)
    requires IsGrid(stamp, sw, sh)
  {
    0 <= i - startX < sw && 0 <= j - startY < sh && stamp[i - startX][j - startY].a != 0.0
  }

  /** The background after one dot: the stamp centred at (ballX, ballY), with the
      centre found by halving the stamp size in integers, paints `color` exactly on
      the background pixels its opaque pixels cover. */
  ghost function Stamped(bg: Grid, w: nat, h: nat, stamp: Grid, sw: nat, sh: nat, ballX: int, ballY: int, color: Color): (r: Grid)
    requires IsGrid(bg, w, h) && IsGrid(stamp, sw, sh)
    ensures IsGrid(r, w, h)
  {
    seq(w, i requires 0 <= i < w => seq(h, j requires 0 <= j < h =>
      if Covers(stamp, sw, sh, ballX - sw / 2, ballY - sh / 2, i, j) then color else bg[i][j]))
  }

  /** Placement: sprite pixel (x, y) lands on background pixel (ballX - sw/2 + x, ballY - sh/2 + y);
      when that pixel is on the background and the sprite pixel is not fully transparent it
      takes the dot's colour. */
  lemma StampedPlacesPixel(bg: Grid, w: nat, h: nat, stamp: Grid, sw: nat, sh: nat, ballX: int, ballY: int, color: Color, x: int, y: int)
    requires IsGrid(bg, w, h) && IsGrid(stamp, sw, sh)
    requires 0 <= x < sw && 0 <= y < sh && stamp[x][y].a != 0.0
    requires 0 <= ballX - sw / 2 + x < w && 0 <= ballY - sh / 2 + y < h
    ensures Stamped(bg, w, h, stamp, sw, sh, ballX, ballY, color)[ballX - sw / 2 + x][ballY - sh / 2 + y] == color
  {
    var i, j := ballX - sw / 2 + x, ballY - sh / 2 + y;
    assert i - (ballX - sw / 2) == x && j - (ballY - sh / 2) == y;
  }

  /** Every background pixel that changes takes the dot's colour and lies under an opaque
      sprite pixel; transparent sprite pixels and off-texture positions never cause a write. */
  lemma StampedChangesOnlyCovered(bg: Grid, w: nat, h: nat, stamp: Grid, sw: nat, sh: nat, ballX: int, ballY: int, color: Color, i: int, j: int)
    requires IsGrid(bg, w, h) && IsGrid(stamp, sw, sh)
    requires 0 <= i < w && 0 <= j < h
    requires Stamped(bg, w, h, stamp, sw, sh, ballX, ballY, color)[i][j] != bg[i][j]
    ensures Stamped(bg, w, h, stamp, sw, sh, ballX, ballY, color)[i][j] == color
    ensures exists x, y ::
      && 0 <= x < sw && 0 <= y < sh && stamp[x][y].a != 0.0
      && i == ballX - sw / 2 + x && j == ballY - sh / 2 + y
  {
    var x, y := i - (ballX - sw / 2), j - (ballY - sh / 2);
    assert 0 <= x < sw && 0 <= y < sh && stamp[x][y].a != 0.0;
  }

  /** The queue operation of one dot: the head moves to the tail */
  function Rotate<T>(q: seq<T>): (r: seq<T>)
    ensures |r| == |q|
  {
    if q == [] then [] else q[1..] + [q[0]]
  }

  function RotateN<T>(q: seq<T>, n: nat): (r: seq<T>)
    ensures |r| == |q|
  {
    if n == 0 then q else Rotate(RotateN(q, n - 1))
  }

  /** After n dots the queue is the original one read from position n onwards, cyclically */
  lemma {:induction false} RotateNAt<T>(q: seq<T>, n: nat, i: int)
    requires 0 <= i < |q|
    ensures RotateN(q, n)[i] == q[(i + n) % |q|]
  {
    if n == 0 {
      ModOfSmall(i, |q|);
    } else {
      var p := RotateN(q, n - 1);
      if i < |q| - 1 {
        RotateNAt(q, n - 1, i + 1);
        assert RotateN(q, n)[i] == p[i + 1];
      } else {
        RotateNAt(q, n - 1, 0);
        assert RotateN(q, n)[i] == p[0];
        assert i + n == (n - 1) + |q|;
        ModAddPeriod(n - 1, |q|);
      }
    }
  }

  /** A full cycle of |q| dots restores the original order */
  lemma RotateFullCycle<T>(q: seq<T>)
    ensures RotateN(q, |q|) == q
  {
    var m := |q|;
    var r := RotateN(q, m);
    forall i | 0 <= i < m
      ensures r[i] == q[i]
    {
      RotateNAt(q, m, i);
      ModAddPeriod(i, m);
      ModOfSmall(i, m);
    }
  }

  /** Division with remainder is unique */
  lemma DivModUnique(a: int, m: int, d: int, r: int)
    requires m > 0 && 0 <= r < m && a == d * m + r
    ensures a / m == d && a % m == r
  {
    var d', r' := a / m, a % m;
    assert a == d' * m + r' && 0 <= r' < m;
    assert (d - d') * m == r' - r;
    if d - d' >= 1 {
      MulAtLeast(d - d', m);
      assert false;
    } else if d' - d >= 1 {
      MulAtLeast(d' - d, m);
      assert false;
    }
  }

  lemma MulAtLeast(k: int, m: int)
    requires k >= 1 && m > 0
    ensures k * m >= m
  {
    assert k * m == (k - 1) * m + m;
  }

  lemma ModOfSmall(i: int, m: int)
    requires 0 <= i < m
    ensures i % m == i
  {
    DivModUnique(i, m, 0, i);
  }

  lemma ModAddPeriod(a: int, m: int)
    requires m > 0
    ensures (a + m) % m == a % m
  {
    DivModUnique(a + m, m, a / m + 1, a % m);
  }

  /** The background after a batch of dots: dot k is stamped over dot k - 1 in colour
      q[k % |q|], the queue entry that is at the head when that dot is drawn. */
  ghost function Trail(bg: Grid, w: nat, h: nat, stamp: Grid, sw: nat, sh: nat, centres: seq<(int, int)>, q: seq<Color>): (r: Grid)
    requires IsGrid(bg, w, h) && IsGrid(stamp, sw, sh) && |q| > 0
    ensures IsGrid(r, w, h)
    decreases |centres|
  {
    if centres == [] then bg
    else
      var k := |centres| - 1;
      Stamped(Trail(bg, w, h, stamp, sw, sh, centres[..k], q), w, h, stamp, sw, sh, centres[k].0, centres[k].1, q[k % |q|])
  }

  /** A pixel that no dot of the batch covers keeps its colour; a pixel that changes ends
      up in one of the queue's colours. */
  lemma {:induction false} TrailKeepsUncovered(bg: Grid, w: nat, h: nat, stamp: Grid, sw: nat, sh: nat, centres: seq<(int, int)>, q: seq<Color>, i: int, j: int)
    requires IsGrid(bg, w, h) && IsGrid(stamp, sw, sh) && |q| > 0
    requires 0 <= i < w && 0 <= j < h
    ensures (forall k :: 0 <= k < |centres| ==>
              !Covers(stamp, sw, sh, centres[k].0 - sw / 2, centres[k].1 - sh / 2, i, j)) ==>
            Trail(bg, w, h, stamp, sw, sh, centres, q)[i][j] == bg[i][j]
    ensures Trail(bg, w, h, stamp, sw, sh, centres, q)[i][j] == bg[i][j] ||
            Trail(bg, w, h, stamp, sw, sh, centres, q)[i][j] in q
    decreases |centres|
  {
    if centres != [] {
      var k := |centres| - 1;
      assert centres[..k][..] == centres[..k];
      forall k' | 0 <= k' < k ensures centres[..k][k'] == centres[k'] {}
      TrailKeepsUncovered(bg, w, h, stamp, sw, sh, centres[..k], q, i, j);
    }
  }

  class Ball {
    /** The paint layer the ball draws on */
    const bgTexture: Texture2D
    /** The ball's own sprite, used as the stamp */
    const ballTexture: Texture2D
    var colorsQueue: seq<Color>
    var previousDrawPos: Vec2
    /** Time since the most recent draw event */
    var elapsed: real

    ghost predicate Valid()
      reads this, bgTexture, ballTexture
    {
      bgTexture.Valid() && ballTexture.Valid() && bgTexture != ballTexture && |colorsQueue| == 5
    }

    ghost function Background(): Grid
      reads this, bgTexture
    {
      bgTexture.pixels
    }

    /** Awake: the queue starts as blue, green, yellow, red, magenta and the last draw
        position is the ball's spawn position. */
    constructor Awake(position: Vec2, bgTexture: Texture2D, ballTexture: Texture2D)
      requires bgTexture.Valid() && ballTexture.Valid() && bgTexture != ballTexture
      ensures Valid() && this.bgTexture == bgTexture && this.ballTexture == ballTexture
      ensures colorsQueue == Rainbow && previousDrawPos == position && elapsed == 0.0
    {
      this.bgTexture := bgTexture;
      this.ballTexture := ballTexture;
      colorsQueue := Rainbow;
      previousDrawPos := position;
      elapsed := 0.0;
    }

    /** FixedUpdate: accumulate the frame time and draw a batch of dots up to the ball's
        current position once TIME_BETWEEN_DRAWS has passed. `centres` are the pixel
        centres of the dots between the last draw position and `position`. */
    method FixedUpdate(deltaTime: real, position: Vec2, centres: seq<(int, int)>)
      requires Valid()
      modifies this, bgTexture
      ensures Valid()
      ensures old(elapsed) + deltaTime < TIME_BETWEEN_DRAWS ==>
        elapsed == old(elapsed) + deltaTime && previousDrawPos == old(previousDrawPos) &&
        colorsQueue == old(colorsQueue) && Background() == old(Background())
      ensures old(elapsed) + deltaTime >= TIME_BETWEEN_DRAWS ==>
        DrewBatch(old(Background()), old(colorsQueue), position, centres)
    {
      elapsed := elapsed + deltaTime;
      if elapsed < TIME_BETWEEN_DRAWS {
        return;
      }
      DrawDots(position, centres);
    }

    /** OnCollisionEnter2D: draw straight away, up to the contact point */
    method OnCollisionEnter2D(deltaTime: real, contact: Vec2, centres: seq<(int, int)>)
      requires Valid()
      modifies this, bgTexture
      ensures Valid() && DrewBatch(old(Background()), old(colorsQueue), contact, centres)
    {
      elapsed := elapsed + deltaTime;
      DrawDots(contact, centres);
    }

    /** The state after a batch: all dots on the background, the queue rotated once per
        dot, the last draw position at the target and the timer reset. */
    ghost predicate DrewBatch(bg0: Grid, q0: seq<Color>, targetPos: Vec2, centres: seq<(int, int)>)
      reads this, bgTexture, ballTexture
      requires Valid() && IsGrid(bg0, bgTexture.width, bgTexture.height) && |q0| > 0
    {
      && Background() == Trail(bg0, bgTexture.width, bgTexture.height,
                               ballTexture.pixels, ballTexture.width, ballTexture.height, centres, q0)
      && colorsQueue == RotateN(q0, |centres|)
      && previousDrawPos == targetPos && elapsed == 0.0
    }

    /** DrawDots: one dot per centre, in order */
    method DrawDots(targetPos: Vec2, centres: seq<(int, int)>)
      requires Valid()
      modifies this, bgTexture
      ensures Valid() && DrewBatch(old(Background()), old(colorsQueue), targetPos, centres)
    {
      for k := 0 to |centres|
        invariant Valid()
        invariant Background() == Trail(old(Background()), bgTexture.width, bgTexture.height,
          ballTexture.pixels, ballTexture.width, ballTexture.height, centres[..k], old(colorsQueue))
        invariant colorsQueue == RotateN(old(colorsQueue), k)
      {
        RotateNAt(old(colorsQueue), k, 0);
        DrawDot(centres[k].0, centres[k].1);
        assert centres[..k + 1][..k] == centres[..k];
      }
      assert centres[..|centres|] == centres;
      previousDrawPos := targetPos;
      elapsed := 0.0;
    }

    /** DrawDot: dequeue a colour, stamp the ball sprite centred at (ballX, ballY) in that
        colour, and enqueue the colour again. */
    method DrawDot(ballX: int, ballY: int)
      requires Valid()
      modifies this`colorsQueue, bgTexture
      ensures Valid()
      ensures Background() == Stamped(old(Background()), bgTexture.width, bgTexture.height,
        ballTexture.pixels, ballTexture.width, ballTexture.height, ballX, ballY, old(colorsQueue)[0])
      ensures colorsQueue == Rotate(old(colorsQueue))
    {
      var color := colorsQueue[0];
      colorsQueue := colorsQueue[1..];
      var w, h := bgTexture.width, bgTexture.height;
      var sw, sh := ballTexture.width, ballTexture.height;
      var startX := ballX - sw / 2;
      var startY := ballY - sh / 2;
      ghost var bg0 := bgTexture.pixels;
      for x := 0 to sw
        modifies bgTexture
        invariant bgTexture.Valid()
        invariant forall i, j :: 0 <= i < w && 0 <= j < h ==>
          bgTexture.pixels[i][j] ==
            if Covers(ballTexture.pixels, sw, sh, startX, startY, i, j) && i - startX < x then color else bg0[i][j]
      {
        for y := 0 to sh
          modifies bgTexture
          invariant bgTexture.Valid()
          invariant forall i, j :: 0 <= i < w && 0 <= j < h ==>
            bgTexture.pixels[i][j] ==
              if Covers(ballTexture.pixels, sw, sh, startX, startY, i, j) &&
                 (i - startX < x || (i - startX == x && j - startY < y))
              then color else bg0[i][j]
        {
          var bgX := startX + x;
          var bgY := startY + y;
          if 0 <= bgX < w && 0 <= bgY < h && ballTexture.GetPixel(x, y).a != 0.0 {
            bgTexture.SetPixel(bgX, bgY, color);
          }
        }
      }
      colorsQueue := colorsQueue + [color];
      ghost var r := Stamped(bg0, w, h, ballTexture.pixels, sw, sh, ballX, ballY, color);
      forall i | 0 <= i < w
        ensures bgTexture.pixels[i] == r[i]
      {
      }
    }
  }
}
