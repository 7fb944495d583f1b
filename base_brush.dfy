/** BaseBrush: the older brush base the bouncing-ball brush derives from. Same
    references and positions as BrushBase but no inputStarted flag; the position
    updates are public methods the derived brush calls, the hooks are empty, and
    stamping always goes through the one plain material. */
module BaseBrush {
  import opened Geometry
  import opened Colors
  import opened Stamping
  import opened InputTracking

  class BaseBrush {
    var paintBoardRT: RenderTexture?
    var paintBoardTransform: RectTransform?
    var boundaryMask: LayerMask
    var inputStartPosition: Vec2
    var currentInputPosition: Vec2
    var previousInputPosition: Vec2
    /** Resource path of the loaded material; empty until Init */
    var stampMaterial: string

    ghost function Positions(): InputPositions
      reads this
    {
      InputPositions(inputStartPosition, currentInputPosition, previousInputPosition)
    }

    constructor ()
      ensures paintBoardRT == null && paintBoardTransform == null
      ensures Positions() == Started(Zero) && stampMaterial == ""
    {
      paintBoardRT := null;
      paintBoardTransform := null;
      boundaryMask := LayerMask(0);
      inputStartPosition, currentInputPosition, previousInputPosition := Zero, Zero, Zero;
      stampMaterial := "";
    }

    /** Init: store exactly the three given references and load the stamping material */
    method Init(paintBoardRT: RenderTexture, paintBoardTransform: RectTransform, boundaryMask: LayerMask)
      modifies this`paintBoardRT, this`paintBoardTransform, this`boundaryMask, this`stampMaterial
      ensures this.paintBoardRT == paintBoardRT && this.paintBoardTransform == paintBoardTransform
      ensures this.boundaryMask == boundaryMask && stampMaterial == STAMP_BLIT
      ensures Positions() == old(Positions())
    {
      this.paintBoardRT := paintBoardRT;
      this.paintBoardTransform := paintBoardTransform;
      this.boundaryMask := boundaryMask;
      stampMaterial := STAMP_BLIT;
    }

    method CleanUp()
      ensures unchanged(this)
    {}

    method FixedUpdate()
      ensures unchanged(this)
    {}

    method OnInputStart()
      ensures unchanged(this)
    {}

    /** UpdateInputStartPosition: start, current and previous all become `position` */
    method UpdateInputStartPosition(position: Vec2)
      modifies this`inputStartPosition, this`currentInputPosition, this`previousInputPosition
      ensures Positions() == Started(position)
    {
      inputStartPosition := position;
      currentInputPosition := position;
      previousInputPosition := position;
    }

    method OnInputMove()
      ensures unchanged(this)
    {}

    /** UpdateInputCurrentPosition: previous takes the old current, current takes
        `position`, the start is kept */
    method UpdateInputCurrentPosition(position: Vec2)
      modifies this`currentInputPosition, this`previousInputPosition
      ensures Positions() == Moved(old(Positions()), position)
    {
      previousInputPosition := currentInputPosition;
      currentInputPosition := position;
    }

    method OnInputEnd()
      ensures unchanged(this)
    {}

    /** StampTextureToRenderTexture: one blit through the plain material at the UV
        position of positionPixels, without rotation */
    method StampTextureToRenderTexture(stampTexture: string, positionPixels: Vec2, stampWidth: int, stampHeight: int, color: Color)
      requires paintBoardRT != null
      modifies paintBoardRT
      ensures paintBoardRT.blits == old(paintBoardRT.blits) + [
        Blit(stampTexture, PositionUV(positionPixels, paintBoardRT.width, paintBoardRT.height),
             stampWidth, stampHeight, color, stampMaterial, None)]
    {
      var positionUV := Vec2(positionPixels.x / paintBoardRT.width as real, positionPixels.y / paintBoardRT.height as real);
      paintBoardRT.blits := paintBoardRT.blits + [Blit(stampTexture, positionUV, stampWidth, stampHeight, color, stampMaterial, None)];
    }
  }
}
