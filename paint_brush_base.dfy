/** PaintBrushBase: the round paint brush. A press stamps one white circle; every move
    then stamps circles DRAW_DISTANCE apart along the straight line from the last stamp
    towards the input position, stopping once at most DRAW_DISTANCE is left. */
module PaintBrushBase {
  import opened Geometry
  import opened Colors
  import opened Stamping
  import opened InputTracking
  import BrushBase

  const DEFAULT_SIZE: int := 15
  const STAMP_RESOURCE: string := "Textures/Circle"
  const DRAW_DISTANCE: int := 1

  /** How many times the loop of OnInputMove runs for a distance d: it subtracts
      DRAW_DISTANCE while more than DRAW_DISTANCE is left. */
  function StampCount(d: real): nat {
    if d > 1.0 then Ceil(d) - 1 else 0
  }

  /** StampCount(d) is the largest k whose last step still started with more than one
      unit left, d - (k - 1) > 1; after it at most one unit is left; and d <= 1 gives none. */
  lemma StampCountMeaning(d: real, k: nat)
    ensures d - StampCount(d) as real <= 1.0
    ensures StampCount(d) > 0 ==> d - (StampCount(d) - 1) as real > 1.0
    ensures 1 <= k ==> (d - (k - 1) as real > 1.0 <==> k <= StampCount(d))
    ensures d <= 1.0 ==> StampCount(d) == 0
  {
    if d > 1.0 {
      var c := Ceil(d);
      assert d <= c as real < d + 1.0;
    }
  }

  /** Each stamp is one unit along the direction from the one before it (from `from`
      for the first) */
  lemma PathStampsStep(sqrt: real -> real, from: Vec2, to: Vec2, k: nat)
    requires k < |PathStamps(sqrt, from, to)|
    ensures var ps := PathStamps(sqrt, from, to);
      ps[k] == (if k == 0 then from else ps[k - 1]).Plus(Normalized(sqrt, to.Minus(from)).Times(1.0))
  {
    var u := Normalized(sqrt, to.Minus(from));
    var ps := PathStamps(sqrt, from, to);
    assert ps[k] == from.Plus(u.Times((k + 1) as real));
    if k > 0 {
      assert ps[k - 1] == from.Plus(u.Times(k as real));
      StepAlong(from, u, k as real);
    }
  }

  lemma StepAlong(from: Vec2, u: Vec2, n: real)
    ensures from.Plus(u.Times(n)).Plus(u.Times(1.0)) == from.Plus(u.Times(n + 1.0))
  {
    assert u.x * n + u.x * 1.0 == u.x * (n + 1.0);
    assert u.y * n + u.y * 1.0 == u.y * (n + 1.0);
  }

  /** Where the stamps of one move land: the i-th is i + 1 steps of one unit from `from`
      along the normalized direction towards `to`. */
  function PathStamps(sqrt: real -> real, from: Vec2, to: Vec2): (ps: seq<Vec2>)
    ensures |ps| == StampCount(Magnitude(sqrt, to.Minus(from)))
  {
    var direction := to.Minus(from);
    var unit := Normalized(sqrt, direction);
    seq(StampCount(Magnitude(sqrt, direction)), i => from.Plus(unit.Times((i + 1) as real)))
  }

  /** Every stamp of a move lies on the segment from `from` to `to`, strictly inside it:
      the i-th is at fraction (i + 1) / d of the way, d being the segment length, so the
      stamps move away from `from` in order and never reach `to`. */
  lemma PathStampsOnSegment(sqrt: real -> real, from: Vec2, to: Vec2, i: int)
    requires IsSqrt(sqrt)
    requires 0 <= i < |PathStamps(sqrt, from, to)|
    ensures var d := Magnitude(sqrt, to.Minus(from));
      && d > 1.0
      && 0.0 < (i + 1) as real / d < 1.0
      && PathStamps(sqrt, from, to)[i] == from.Plus(to.Minus(from).Times((i + 1) as real / d))
  {
    var v := to.Minus(from);
    var d := Magnitude(sqrt, v);
    var n := (i + 1) as real;
    StampCountMeaning(d, i + 1);
    assert d > 1.0 && n < d;
    DivideBelowOne(n, d);
    var u := Normalized(sqrt, v);
    assert u == v.Times(1.0 / d);
    assert PathStamps(sqrt, from, to)[i] == from.Plus(u.Times(n));
    ScaleTwice(v, d, n);
  }

  lemma ScaleTwice(v: Vec2, d: real, n: real)
    requires d != 0.0
    ensures v.Times(1.0 / d).Times(n) == v.Times(n / d)
  {
    assert v.x * (1.0 / d) * n == v.x * (n / d);
    assert v.y * (1.0 / d) * n == v.y * (n / d);
  }

  lemma DivideBelowOne(n: real, d: real)
    requires 0.0 < n < d
    ensures 0.0 < n / d < 1.0
  {
    var q := n / d;
    assert q * d == n;
    if q <= 0.0 {
      MulRight(q, 0.0, d);
      assert false;
    }
    if q >= 1.0 {
      MulRight(1.0, q, d);
      assert false;
    }
  }

  /** The blits of a sequence of stamp positions, as OnInputStart and OnInputMove issue them */
  function StampBlits(stampTexture: string, positions: seq<Vec2>, width: Positive, height: Positive, material: string): (bs: seq<Blit>)
    ensures |bs| == |positions|
  {
    seq(|positions|, i requires 0 <= i < |positions| =>
      Blit(stampTexture, PositionUV(positions[i], width, height), DEFAULT_SIZE, DEFAULT_SIZE, White, material, None))
  }

  class PaintBrushBase {
    const brush: BrushBase.BrushBase
    /** The square-root oracle behind Vector2.magnitude */
    const sqrt: real -> real
    var stampTexture: string
    var previousDrawLocation: Vec2

    constructor (sqrt: real -> real)
      ensures fresh(brush) && this.sqrt == sqrt && stampTexture == ""
      ensures brush.paintBoardRT == null && !brush.inputStarted
    {
      brush := new BrushBase.BrushBase();
      this.sqrt := sqrt;
      stampTexture := "";
      previousDrawLocation := Zero;
    }

    /** Init of BrushBase, then the OnInit override */
    method Init(paintBoardRT: RenderTexture, paintBoardTransform: RectTransform, boundaryMask: LayerMask)
      modifies brush`paintBoardRT, brush`paintBoardTransform, brush`boundaryMask
      modifies brush`stampMaterial, brush`stampMaterialWithRotation, this`stampTexture
      ensures brush.paintBoardRT == paintBoardRT && brush.paintBoardTransform == paintBoardTransform
      ensures brush.boundaryMask == boundaryMask && brush.stampMaterial == STAMP_BLIT
      ensures brush.stampMaterialWithRotation == STAMP_BLIT_WITH_ROTATION
      ensures brush.Positions() == old(brush.Positions()) && brush.inputStarted == old(brush.inputStarted)
      ensures stampTexture == STAMP_RESOURCE
    {
      brush.Init(paintBoardRT, paintBoardTransform, boundaryMask);
      OnInit();
    }

    /** OnInit: load the circle texture */
    method OnInit()
      modifies this`stampTexture
      ensures stampTexture == STAMP_RESOURCE
    {
      stampTexture := STAMP_RESOURCE;
    }

    /** StartInput of BrushBase, then the OnInputStart override */
    method StartInput(position: Vec2)
      requires brush.paintBoardRT != null
      modifies brush`inputStartPosition, brush`currentInputPosition, brush`previousInputPosition, brush`inputStarted
      modifies brush.paintBoardRT, this`previousDrawLocation
      ensures brush.Positions() == Started(position) && brush.inputStarted
      ensures brush.paintBoardRT == old(brush.paintBoardRT)
      ensures brush.paintBoardRT.blits == old(brush.paintBoardRT.blits) +
        StampBlits(stampTexture, [position], brush.paintBoardRT.width, brush.paintBoardRT.height, brush.stampMaterial)
      ensures previousDrawLocation == position
    {
      brush.StartInput(position);
      OnInputStart();
    }

    /** MoveInput of BrushBase, then the OnInputMove override */
    method MoveInput(position: Vec2)
      requires brush.inputStarted ==> brush.paintBoardRT != null
      modifies brush`currentInputPosition, brush`previousInputPosition, brush.paintBoardRT, this`previousDrawLocation
      ensures brush.Positions() == Moved(old(brush.Positions()), position)
      ensures brush.inputStarted == old(brush.inputStarted) && brush.paintBoardRT == old(brush.paintBoardRT)
      ensures !brush.inputStarted ==> previousDrawLocation == old(previousDrawLocation) && (brush.paintBoardRT != null ==> unchanged(brush.paintBoardRT))
      ensures brush.inputStarted ==> MovedStamps(old(previousDrawLocation), position, old(brush.paintBoardRT.blits))
    {
      brush.MoveInput(position);
      OnInputMove();
    }

    /** EndInput of BrushBase; the brush keeps no OnInputEnd override */
    method EndInput()
      modifies brush`inputStarted
      ensures !brush.inputStarted && brush.Positions() == old(brush.Positions())
      ensures brush.paintBoardRT == old(brush.paintBoardRT)
    {
      brush.EndInput();
    }

    /** OnInputStart: a single white DEFAULT_SIZE x DEFAULT_SIZE stamp at the current
        input position, which becomes the previous draw location. */
    method OnInputStart()
      requires brush.paintBoardRT != null
      modifies brush.paintBoardRT, this`previousDrawLocation
      ensures brush.paintBoardRT.blits == old(brush.paintBoardRT.blits) +
        StampBlits(stampTexture, [brush.currentInputPosition], brush.paintBoardRT.width, brush.paintBoardRT.height, brush.stampMaterial)
      ensures previousDrawLocation == brush.currentInputPosition
    {
      brush.StampTextureToRenderTexture(stampTexture, brush.currentInputPosition, DEFAULT_SIZE, DEFAULT_SIZE, White, 0.0);
      previousDrawLocation := brush.currentInputPosition;
    }

    /** The effect of OnInputMove while input is active, given the state before it: the
        PathStamps from the previous draw location to the current input position, and the
        previous draw location moved onto the last of them. */
    ghost predicate MovedStamps(from: Vec2, to: Vec2, blits0: seq<Blit>)
      reads this, brush, brush.paintBoardRT
      requires brush.paintBoardRT != null
    {
      var stamps := PathStamps(sqrt, from, to);
      && brush.paintBoardRT.blits == blits0 + StampBlits(stampTexture, stamps,
           brush.paintBoardRT.width, brush.paintBoardRT.height, brush.stampMaterial)
      && previousDrawLocation == if stamps == [] then from else stamps[|stamps| - 1]
    }

    /** OnInputMove: the fixed-step stamping loop */
    method OnInputMove()
      requires brush.inputStarted ==> brush.paintBoardRT != null
      modifies brush.paintBoardRT, this`previousDrawLocation
      ensures !brush.inputStarted ==> previousDrawLocation == old(previousDrawLocation) && (brush.paintBoardRT != null ==> unchanged(brush.paintBoardRT))
      ensures brush.inputStarted ==> MovedStamps(old(previousDrawLocation), brush.currentInputPosition, old(brush.paintBoardRT.blits))
    {
      if !brush.inputStarted {
        return;
      }
      var rt := brush.paintBoardRT;
      var direction := brush.currentInputPosition.Minus(previousDrawLocation);
      var distanceRemaining := Magnitude(sqrt, direction);
      ghost var from, d := previousDrawLocation, distanceRemaining;
      ghost var stamps := PathStamps(sqrt, from, brush.currentInputPosition);
      ghost var k: nat := 0;
      while distanceRemaining > DRAW_DISTANCE as real
        invariant distanceRemaining == d - k as real && k <= |stamps|
        invariant previousDrawLocation == if k == 0 then from else stamps[k - 1]
        invariant rt.blits == old(rt.blits) + StampBlits(stampTexture, stamps[..k], rt.width, rt.height, brush.stampMaterial)
        decreases |stamps| - k
      {
        StampCountMeaning(d, k + 1);
        PathStampsStep(sqrt, from, brush.currentInputPosition, k);
        var pos := previousDrawLocation.Plus(Normalized(sqrt, direction).Times(DRAW_DISTANCE as real));
        brush.StampTextureToRenderTexture(stampTexture, pos, DEFAULT_SIZE, DEFAULT_SIZE, White, 0.0);
        previousDrawLocation := pos;
        distanceRemaining := distanceRemaining - DRAW_DISTANCE as real;
        assert stamps[..k + 1] == stamps[..k] + [stamps[k]];
        k := k + 1;
      }
      StampCountMeaning(d, k + 1);
      assert stamps[..k] == stamps;
    }
  }
}
