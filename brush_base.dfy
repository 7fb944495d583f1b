/** BrushBase: the base of the paint brushes. It keeps the paint board references, the
    input positions and the inputStarted flag, and stamps textures through one of two
    materials. The virtual hooks (OnInit, OnInputStart, OnInputMove, OnInputEnd) are
    empty here; a brush that overrides them calls them after the matching BrushBase
    operation, as PaintBrushBase does. */
module BrushBase {
  import opened Geometry
  import opened Colors
  import opened Stamping
  import opened InputTracking

  class BrushBase {
    var paintBoardRT: RenderTexture?
    var paintBoardTransform: RectTransform?
    var boundaryMask: LayerMask
    var inputStartPosition: Vec2
    var currentInputPosition: Vec2
    var previousInputPosition: Vec2
    var inputStarted: bool
    /** Resource paths of the loaded materials; empty until Init */
    var stampMaterial: string
    var stampMaterialWithRotation: string

    ghost function Positions(): InputPositions
      reads this
    {
      InputPositions(inputStartPosition, currentInputPosition, previousInputPosition)
    }

    /** A new brush: no references, positions at the origin, no input */
    constructor ()
      ensures paintBoardRT == null && paintBoardTransform == null && !inputStarted
      ensures Positions() == Started(Zero)
      ensures stampMaterial == "" && stampMaterialWithRotation == ""
    {
      paintBoardRT := null;
      paintBoardTransform := null;
      boundaryMask := LayerMask(0);
      inputStartPosition, currentInputPosition, previousInputPosition := Zero, Zero, Zero;
      inputStarted := false;
      stampMaterial, stampMaterialWithRotation := "", "";
    }

    /** Init: store the three references and load both stamping materials */
    method Init(paintBoardRT: RenderTexture, paintBoardTransform: RectTransform, boundaryMask: LayerMask)
      modifies this`paintBoardRT, this`paintBoardTransform, this`boundaryMask
      modifies this`stampMaterial, this`stampMaterialWithRotation
      ensures this.paintBoardRT == paintBoardRT && this.paintBoardTransform == paintBoardTransform
      ensures this.boundaryMask == boundaryMask
      ensures stampMaterial == STAMP_BLIT && stampMaterialWithRotation == STAMP_BLIT_WITH_ROTATION
      ensures Positions() == old(Positions()) && inputStarted == old(inputStarted)
    {
      this.paintBoardRT := paintBoardRT;
      this.paintBoardTransform := paintBoardTransform;
      this.boundaryMask := boundaryMask;
      stampMaterial := STAMP_BLIT;
      stampMaterialWithRotation := STAMP_BLIT_WITH_ROTATION;
      OnInit();
    }

    method OnInit()
      ensures unchanged(this)
    {}

    method CleanUp()
      ensures unchanged(this)
    {}

    method FixedUpdate()
      ensures unchanged(this)
    {}

    /** StartInput: a press at `position` sets all three positions to it and raises inputStarted */
    method StartInput(position: Vec2)
      modifies this`inputStartPosition, this`currentInputPosition, this`previousInputPosition, this`inputStarted
      ensures Positions() == Started(position) && inputStarted
    {
      inputStartPosition := position;
      currentInputPosition := position;
      previousInputPosition := position;
      inputStarted := true;
      OnInputStart();
    }

    /** MoveInput: previous takes the old current, current takes `position` */
    method MoveInput(position: Vec2)
      modifies this`currentInputPosition, this`previousInputPosition
      ensures Positions() == Moved(old(Positions()), position)
    {
      previousInputPosition := currentInputPosition;
      currentInputPosition := position;
      OnInputMove();
    }

    /** EndInput: lowers inputStarted; the positions stay as they were */
    method EndInput()
      modifies this`inputStarted
      ensures !inputStarted && Positions() == old(Positions())
    {
      inputStarted := false;
      OnInputEnd();
    }

    method OnInputStart()
      ensures unchanged(this)
    {}

    method OnInputMove()
      ensures unchanged(this)
    {}

    method OnInputEnd()
      ensures unchanged(this)
    {}

    /** StampTextureToRenderTexture: one blit onto the paint board at the UV position of
        positionPixels, through the rotation material only for a positive angle, with the
        rotation parameter set for any non-zero angle. */
    method StampTextureToRenderTexture(stampTexture: string, positionPixels: Vec2, stampWidth: int, stampHeight: int, color: Color, rotationAngle: real)
      requires paintBoardRT != null
      modifies paintBoardRT
      ensures paintBoardRT.blits == old(paintBoardRT.blits) + [
        Blit(stampTexture, PositionUV(positionPixels, paintBoardRT.width, paintBoardRT.height),
             stampWidth, stampHeight, color,
             MaterialFor(rotationAngle, stampMaterial, stampMaterialWithRotation),
             RotationFor(rotationAngle))]
    {
      var material := if rotationAngle > 0.0 then stampMaterialWithRotation else stampMaterial;
      var positionUV := Vec2(positionPixels.x / paintBoardRT.width as real, positionPixels.y / paintBoardRT.height as real);
      var rotation := None;
      if rotationAngle != 0.0 {
        rotation := Some(rotationAngle);
      }
      paintBoardRT.blits := paintBoardRT.blits + [Blit(stampTexture, positionUV, stampWidth, stampHeight, color, material, rotation)];
    }
  }
}
