/** BouncingBallBrush: a drag past DISTANCE_TO_MOVE launches a ball along the drag
    direction; every fixed update it advances STEPS_PER_INTERVAL dots of one palette
    colour, and a dot that would pass the next predicted boundary hit is put on the hit
    point instead, where the velocity is reflected and the next hit is predicted.
    The physics raycast and the camera conversions are oracles supplied on construction. */
module BouncingBallBrush {
  import opened Geometry
  import opened Colors
  import opened Stamping
  import opened InputTracking
  import opened Utils
  import BaseBrush

  const STEPS_PER_INTERVAL: nat := 4
  const DISTANCE_TO_MOVE: real := 50.0
  const FORCE_SPEED_RATIO: real := 1000.0
  /** The ball stamp is 27 x 27 pixels */
  const DOT_SIZE: int := 27
  const BALL_TEXTURE: string := "Textures/Ball"

  datatype EBallState = NotStarted | InputStarted | Started

  /** A collider the raycast can hit, identified by a number; NoCollider is C#'s null */
  datatype Collider = NoCollider | Collider(id: int)

  /** Physics2D.Raycast's result. A miss is the default struct: no collider, both
      vectors zero; `if (hitInfo)` tests for a collider. */
  datatype RaycastHit2D = RaycastHit2D(collider: Collider, point: Vec2, normal: Vec2)

  const NoHit := RaycastHit2D(NoCollider, Zero, Zero)

  /** The raycast oracle: origin, direction and the collider disabled during the cast */
  type Raycast = (Vec2, Vec2, Collider) -> RaycastHit2D

  /** A hit with a collider has a unit normal, as Unity's hit normals are */
  predicate UnitNormal(h: RaycastHit2D) {
    h.collider.Collider? ==> SqrMagnitude(h.normal) == 1.0
  }

  ghost predicate UnitNormals(raycast: Raycast) {
    forall origin, direction, disabled :: UnitNormal(raycast(origin, direction, disabled))
  }

  /** The palette index after one DrawDots call */
  function NextColourIdx(i: int): (r: int)
    ensures 0 <= r < |Rainbow|
  {
    (i + 1) % |Rainbow|
  }

  /** The palette index after `calls` DrawDots calls */
  function ColourIdxAfter(i: int, calls: nat): int {
    if calls == 0 then i else NextColourIdx(ColourIdxAfter(i, calls - 1))
  }

  /** The index advances by one per call modulo five, so the colours repeat every five calls */
  lemma ColourIdxCycle(i: int, calls: nat)
    requires 0 <= i < |Rainbow|
    ensures ColourIdxAfter(i, calls) == (i + calls) % 5
    ensures ColourIdxAfter(i, calls + 5) == ColourIdxAfter(i, calls)
  {
    ColourIdxAfterMod(i, calls);
    ColourIdxAfterMod(i, calls + 5);
    ModStep(i + calls);
  }

  lemma {:induction false} ColourIdxAfterMod(i: int, calls: nat)
    requires 0 <= i < |Rainbow|
    ensures ColourIdxAfter(i, calls) == (i + calls) % 5
  {
    if calls > 0 {
      ColourIdxAfterMod(i, calls - 1);
      ModNext(i + calls - 1);
    }
  }

  lemma ModNext(n: int)
    requires n >= 0
    ensures (n % 5 + 1) % 5 == (n + 1) % 5
  {}

  lemma ModStep(n: int)
    requires n >= 0
    ensures (n + |Rainbow|) % 5 == n % 5
  {}

  /** The part of the brush state that moves the ball */
  datatype Flight = Flight(startPos: Vec2, velocity: Vec2, hitInfo: RaycastHit2D, previousDrawPos: Vec2)

  /** UpdateVelocityInfo: the segment restarts at p; after a hit the velocity is reflected
      about its normal and that collider is disabled while the next hit is cast */
  function Retarget(f: Flight, p: Vec2, raycast: Raycast): (g: Flight)
    ensures g.startPos == p && g.previousDrawPos == f.previousDrawPos
    ensures g.hitInfo == raycast(p, g.velocity, f.hitInfo.collider)
  {
    var v := if f.hitInfo.collider.Collider? then Reflect(f.velocity, f.hitInfo.normal) else f.velocity;
    Flight(p, v, raycast(p, v, f.hitInfo.collider), f.previousDrawPos)
  }

  /** The candidate position of the next dot: distancePerStep along the velocity */
  function Candidate(f: Flight, distancePerStep: real, sqrt: real -> real): Vec2 {
    f.previousDrawPos.Plus(Normalized(sqrt, f.velocity).Times(distancePerStep))
  }

  /** One iteration of DrawDots' loop; the dot drawn is the new previousDrawPos */
  function Step(f: Flight, distancePerStep: real, sqrt: real -> real, raycast: Raycast): Flight {
    var pos := Candidate(f, distancePerStep, sqrt);
    if IsPointBetweenAB(f.startPos, f.hitInfo.point, pos) then f.(previousDrawPos := pos)
    else Retarget(f, f.hitInfo.point, raycast).(previousDrawPos := f.hitInfo.point)
  }

  function Advance(f: Flight, n: nat, distancePerStep: real, sqrt: real -> real, raycast: Raycast): Flight {
    if n == 0 then f else Step(Advance(f, n - 1, distancePerStep, sqrt, raycast), distancePerStep, sqrt, raycast)
  }

  /** The dots of n steps, in drawing order; the last one is where the ball now is */
  function DotsOf(f: Flight, n: nat, distancePerStep: real, sqrt: real -> real, raycast: Raycast): (dots: seq<Vec2>)
    ensures |dots| == n
    ensures n > 0 ==> dots[n - 1] == Advance(f, n, distancePerStep, sqrt, raycast).previousDrawPos
  {
    if n == 0 then [] else DotsOf(f, n - 1, distancePerStep, sqrt, raycast) + [Advance(f, n, distancePerStep, sqrt, raycast).previousDrawPos]
  }

  /** No dot passes the predicted hit: every dot is within the current segment's circle */
  lemma StepNeverPassesHit(f: Flight, distancePerStep: real, sqrt: real -> real, raycast: Raycast)
    ensures IsPointBetweenAB(f.startPos, f.hitInfo.point, Step(f, distancePerStep, sqrt, raycast).previousDrawPos)
  {
    BetweenInclusiveEnds(f.startPos, f.hitInfo.point);
  }

  /** A dot that stays inside the segment is the candidate itself and leaves the course
      (start, velocity, next hit) alone */
  lemma StepInsideKeepsCourse(f: Flight, distancePerStep: real, sqrt: real -> real, raycast: Raycast)
    requires IsPointBetweenAB(f.startPos, f.hitInfo.point, Candidate(f, distancePerStep, sqrt))
    ensures var g := Step(f, distancePerStep, sqrt, raycast);
      && g.previousDrawPos == Candidate(f, distancePerStep, sqrt)
      && g.startPos == f.startPos && g.velocity == f.velocity && g.hitInfo == f.hitInfo
  {}

  /** When the ball is moving, a dot that stays inside the segment lies exactly
      distancePerStep from the previous dot */
  lemma StepAlongCourse(f: Flight, distancePerStep: real, sqrt: real -> real, raycast: Raycast)
    requires IsSqrt(sqrt) && Magnitude(sqrt, f.velocity) > NormalizeEpsilon
    requires IsPointBetweenAB(f.startPos, f.hitInfo.point, Candidate(f, distancePerStep, sqrt))
    ensures SqrMagnitude(Step(f, distancePerStep, sqrt, raycast).previousDrawPos.Minus(f.previousDrawPos))
      == distancePerStep * distancePerStep
  {
    var u := Normalized(sqrt, f.velocity);
    StepInsideKeepsCourse(f, distancePerStep, sqrt, raycast);
    assert Candidate(f, distancePerStep, sqrt).Minus(f.previousDrawPos) == u.Times(distancePerStep);
    NormalizedIsUnit(sqrt, f.velocity);
    SqrMagnitudeScale(u, distancePerStep);
  }

  /** A dot that would pass the hit is drawn on the hit point, where the next segment
      starts; after a real hit the velocity is mirrored about the unit normal: its normal
      component changes sign and its speed is kept. */
  lemma StepClampReflects(f: Flight, distancePerStep: real, sqrt: real -> real, raycast: Raycast)
    requires !IsPointBetweenAB(f.startPos, f.hitInfo.point, Candidate(f, distancePerStep, sqrt))
    requires UnitNormal(f.hitInfo)
    ensures var g := Step(f, distancePerStep, sqrt, raycast);
      && g.previousDrawPos == f.hitInfo.point && g.startPos == f.hitInfo.point
      && g.hitInfo == raycast(f.hitInfo.point, g.velocity, f.hitInfo.collider)
      && SqrMagnitude(g.velocity) == SqrMagnitude(f.velocity)
      && (f.hitInfo.collider.Collider? ==> Dot(g.velocity, f.hitInfo.normal) == -Dot(f.velocity, f.hitInfo.normal))
      && (f.hitInfo.collider.NoCollider? ==> g.velocity == f.velocity)
  {
    if f.hitInfo.collider.Collider? {
      ReflectLaw(f.velocity, f.hitInfo.normal);
    }
  }

  /** While every hit has a unit normal, the ball never changes speed */
  lemma {:induction false} AdvanceKeepsSpeed(f: Flight, n: nat, distancePerStep: real, sqrt: real -> real, raycast: Raycast)
    requires UnitNormal(f.hitInfo) && UnitNormals(raycast)
    ensures var g := Advance(f, n, distancePerStep, sqrt, raycast);
      SqrMagnitude(g.velocity) == SqrMagnitude(f.velocity) && UnitNormal(g.hitInfo)
  {
    if n > 0 {
      var h := Advance(f, n - 1, distancePerStep, sqrt, raycast);
      AdvanceKeepsSpeed(f, n - 1, distancePerStep, sqrt, raycast);
      if !IsPointBetweenAB(h.startPos, h.hitInfo.point, Candidate(h, distancePerStep, sqrt)) {
        StepClampReflects(h, distancePerStep, sqrt, raycast);
      }
    }
  }

  /** A launch whose state still holds a hit from an earlier stroke reflects the new drag
      velocity about that stale normal: any velocity not parallel to the old boundary is
      bent, because OnInputEnd never clears the hit. */
  lemma StaleHitBendsLaunch(f: Flight, p: Vec2, raycast: Raycast)
    requires f.hitInfo.collider.Collider? && SqrMagnitude(f.hitInfo.normal) == 1.0
    requires Dot(f.velocity, f.hitInfo.normal) != 0.0
    ensures Retarget(f, p, raycast).velocity != f.velocity
    ensures Dot(Retarget(f, p, raycast).velocity, f.hitInfo.normal) == -Dot(f.velocity, f.hitInfo.normal)
  {
    ReflectLaw(f.velocity, f.hitInfo.normal);
    assert Dot(f.hitInfo.normal, f.velocity) == Dot(f.velocity, f.hitInfo.normal);
  }

  /** The launch velocity: the drag from the start position, scaled by the mouse speed
      over the last frame, divided by PIXELS_PER_UNIT and by FORCE_SPEED_RATIO */
  function LaunchVelocity(sqrt: real -> real, start: Vec2, previous: Vec2, position: Vec2, deltaTime: real): Vec2
    requires deltaTime > 0.0
  {
    var speed := Abs(Distance(sqrt, previous, position)) / deltaTime;
    position.Minus(start).Times(speed / PIXELS_PER_UNIT as real).Times(1.0 / FORCE_SPEED_RATIO)
  }

  /** The ball is launched along the drag: parallel to it and never against it */
  lemma LaunchAlongDrag(sqrt: real -> real, start: Vec2, previous: Vec2, position: Vec2, deltaTime: real)
    requires deltaTime > 0.0
    ensures var v, drag := LaunchVelocity(sqrt, start, previous, position, deltaTime), position.Minus(start);
      Cross(v, drag) == 0.0 && Dot(v, drag) >= 0.0
  {
    var drag := position.Minus(start);
    var speed := Abs(Distance(sqrt, previous, position)) / deltaTime;
    var k1, k2 := speed / 100.0, 1.0 / 1000.0;
    assert speed >= 0.0;
    var k := k1 * k2;
    assert k >= 0.0 by { MulLeft(k1, 0.0, k2); }
    ScaleParallel(drag, k1, k2);
  }

  lemma ScaleParallel(d: Vec2, k1: real, k2: real)
    requires k1 * k2 >= 0.0
    ensures Cross(d.Times(k1).Times(k2), d) == 0.0 && Dot(d.Times(k1).Times(k2), d) >= 0.0
  {
    var k := k1 * k2;
    assert d.Times(k1).Times(k2) == d.Times(k);
    calc {
      Dot(d.Times(k), d);
    ==
      k * (d.x * d.x + d.y * d.y);
    ==
      k * SqrMagnitude(d);
    }
    MulLeft(k, 0.0, SqrMagnitude(d));
  }

  /** Truncation of a real toward zero, the (int) cast */
  function Truncate(r: real): int {
    if r >= 0.0 then r.Floor else -((-r).Floor)
  }

  /** Truncate drops the fraction and keeps the sign: the result is the integer of largest
      magnitude not beyond r, on r's side of zero */
  lemma TruncateTowardZero(r: real)
    ensures var n := Truncate(r);
      && Abs(n as real) <= Abs(r) < Abs(n as real) + 1.0
      && (n != 0 ==> (n < 0 <==> r < 0.0))
  {}

  class BouncingBallBrush {
    const base: BaseBrush.BaseBrush
    const sqrt: real -> real
    const raycast: Raycast
    /** Camera.main.ScreenToWorldPoint and WorldToScreenPoint, and the camera's pixel size */
    const screenToWorld: Vec2 -> Vec2
    const worldToScreen: Vec2 -> Vec2
    const cameraWidth: Positive
    const cameraHeight: Positive

    var stampTexture: string
    var stampMaterial: string
    var colourIdx: int
    var previousDrawPos: Vec2
    var velocity: Vec2
    var distancePerStep: real
    var startPos: Vec2
    var hitInfo: RaycastHit2D
    var currentState: EBallState

    ghost predicate Valid()
      reads this
    {
      0 <= colourIdx < |Rainbow|
    }

    function CurrentFlight(): Flight
      reads this
    {
      Flight(startPos, velocity, hitInfo, previousDrawPos)
    }

    /** A move to `position` launches the ball: input has started and the mouse is at
        least DISTANCE_TO_MOVE from where it started */
    predicate Launches(state: EBallState, inputStart: Vec2, position: Vec2) {
      state == InputStarted && Abs(Distance(sqrt, inputStart, position)) >= DISTANCE_TO_MOVE
    }

    /** DrawDot's pixel position on a paint board of the given size: the world position
        through the camera to the screen, rescaled from the camera's pixel size to the
        paint board's and truncated to whole pixels */
    function DotPixels(p: Vec2, width: Positive, height: Positive): Vec2 {
      var s := worldToScreen(p);
      Vec2(Truncate(s.x * width as real / cameraWidth as real) as real,
           Truncate(s.y * height as real / cameraHeight as real) as real)
    }

    /** The stamp of one dot */
    function DotBlit(p: Vec2, color: Color, width: Positive, height: Positive): Blit
      reads this`stampTexture, this`stampMaterial
    {
      Blit(stampTexture, PositionUV(DotPixels(p, width, height), width, height), DOT_SIZE, DOT_SIZE, color, stampMaterial, None)
    }

    /** The blits of n steps of a flight: one per dot, in drawing order, in one colour */
    function BatchBlits(f: Flight, n: nat, distancePerStep: real, color: Color, width: Positive, height: Positive): (bs: seq<Blit>)
      reads this`stampTexture, this`stampMaterial
      ensures |bs| == n
    {
      if n == 0 then []
      else BatchBlits(f, n - 1, distancePerStep, color, width, height) + [DotBlit(Advance(f, n, distancePerStep, sqrt, raycast).previousDrawPos, color, width, height)]
    }

    /** The i-th blit of a batch stamps the i-th dot: a DOT_SIZE square in the batch colour
        at that dot's paint-board pixel */
    lemma {:induction false} BatchBlitsAt(f: Flight, n: nat, distancePerStep: real, color: Color, width: Positive, height: Positive, i: int)
      requires 0 <= i < n
      ensures var b := BatchBlits(f, n, distancePerStep, color, width, height)[i];
        var dot := DotsOf(f, n, distancePerStep, sqrt, raycast)[i];
        && b == DotBlit(dot, color, width, height)
        && b.color == color && b.widthPixels == DOT_SIZE && b.heightPixels == DOT_SIZE
        && b.positionUV == PositionUV(DotPixels(dot, width, height), width, height)
    {
      if i < n - 1 {
        BatchBlitsAt(f, n - 1, distancePerStep, color, width, height, i);
      }
    }

    constructor (sqrt: real -> real, raycast: Raycast, screenToWorld: Vec2 -> Vec2, worldToScreen: Vec2 -> Vec2,
                 cameraWidth: Positive, cameraHeight: Positive)
      ensures Valid() && fresh(base) && base.paintBoardRT == null
      ensures this.sqrt == sqrt && this.raycast == raycast && this.screenToWorld == screenToWorld
      ensures this.worldToScreen == worldToScreen && this.cameraWidth == cameraWidth && this.cameraHeight == cameraHeight
      ensures currentState == NotStarted && colourIdx == 0 && hitInfo == NoHit
    {
      base := new BaseBrush.BaseBrush();
      this.sqrt, this.raycast := sqrt, raycast;
      this.screenToWorld, this.worldToScreen := screenToWorld, worldToScreen;
      this.cameraWidth, this.cameraHeight := cameraWidth, cameraHeight;
      stampTexture, stampMaterial := "", "";
      colourIdx := 0;
      previousDrawPos, velocity, startPos := Zero, Zero, Zero;
      distancePerStep := 0.0;
      hitInfo := NoHit;
      currentState := NotStarted;
    }

    /** Init: the base brush's Init, then the plain stamping material and the ball texture */
    method Init(paintBoardRT: RenderTexture, paintBoardTransform: RectTransform, boundaryMask: LayerMask)
      modifies base`paintBoardRT, base`paintBoardTransform, base`boundaryMask, base`stampMaterial
      modifies this`stampMaterial, this`stampTexture
      ensures base.paintBoardRT == paintBoardRT && base.paintBoardTransform == paintBoardTransform
      ensures base.boundaryMask == boundaryMask && base.Positions() == old(base.Positions())
      ensures base.stampMaterial == STAMP_BLIT && stampMaterial == STAMP_BLIT && stampTexture == BALL_TEXTURE
    {
      base.Init(paintBoardRT, paintBoardTransform, boundaryMask);
      stampMaterial := STAMP_BLIT;
      stampTexture := BALL_TEXTURE;
    }

    /** OnInputStart: record the press and wait for the drag, whatever the state was */
    method OnInputStart(position: Vec2)
      modifies base`inputStartPosition, base`currentInputPosition, base`previousInputPosition, this`currentState
      ensures base.Positions() == InputTracking.Started(position) && currentState == InputStarted
    {
      base.UpdateInputStartPosition(position);
      currentState := InputStarted;
    }

    /** OnInputMove: record the move; launch the ball once the drag is long enough.
        Outside InputStarted, or below the threshold, nothing of the brush changes. */
    method OnInputMove(position: Vec2, deltaTime: real)
      requires deltaTime > 0.0
      modifies base`currentInputPosition, base`previousInputPosition
      modifies this`currentState, this`velocity, this`previousDrawPos, this`distancePerStep, this`startPos, this`hitInfo
      ensures base.Positions() == Moved(old(base.Positions()), position)
      ensures !Launches(old(currentState), old(base.inputStartPosition), position) ==>
        currentState == old(currentState) && CurrentFlight() == old(CurrentFlight()) && distancePerStep == old(distancePerStep)
      ensures Launches(old(currentState), old(base.inputStartPosition), position) ==>
        var launchPoint := screenToWorld(old(base.inputStartPosition));
        var v := LaunchVelocity(sqrt, old(base.inputStartPosition), old(base.currentInputPosition), position, deltaTime);
        && currentState == Started
        && distancePerStep == Magnitude(sqrt, v) / STEPS_PER_INTERVAL as real
        && CurrentFlight() == Retarget(Flight(old(startPos), v, old(hitInfo), launchPoint), launchPoint, raycast)
    {
      base.UpdateInputCurrentPosition(position);
      if currentState != InputStarted {
        return;
      }
      var distance := Abs(Distance(sqrt, base.inputStartPosition, position));
      if distance < DISTANCE_TO_MOVE {
        return;
      }
      currentState := Started;
      var launchPoint := screenToWorld(base.inputStartPosition);
      var speed := Abs(Distance(sqrt, base.previousInputPosition, position)) / deltaTime;
      velocity := position.Minus(base.inputStartPosition).Times(speed / PIXELS_PER_UNIT as real).Times(1.0 / FORCE_SPEED_RATIO);
      previousDrawPos := launchPoint;
      distancePerStep := Magnitude(sqrt, velocity) / STEPS_PER_INTERVAL as real;
      UpdateVelocityInfo(launchPoint);
    }

    /** OnInputEnd: back to NotStarted from any state; the palette index and the last hit stay */
    method OnInputEnd()
      modifies this`currentState
      ensures currentState == NotStarted
    {
      currentState := NotStarted;
    }

    /** UpdateVelocityInfo: restart the segment at p, reflecting at the last hit and casting the next */
    method UpdateVelocityInfo(p: Vec2)
      modifies this`startPos, this`velocity, this`hitInfo
      ensures CurrentFlight() == Retarget(old(CurrentFlight()), p, raycast)
    {
      startPos := p;
      var prevCollider := NoCollider;
      if hitInfo.collider.Collider? {
        velocity := Reflect(velocity, hitInfo.normal);
        prevCollider := hitInfo.collider;
      }
      hitInfo := raycast(p, velocity, prevCollider);
    }

    /** FixedUpdate: a batch of dots only while the ball is running */
    method FixedUpdate()
      requires Valid() && (currentState == Started ==> base.paintBoardRT != null)
      modifies this`colourIdx, this`startPos, this`velocity, this`hitInfo, this`previousDrawPos, base.paintBoardRT
      ensures Valid()
      ensures old(currentState) != Started ==> unchanged(this) && (base.paintBoardRT != null ==> unchanged(base.paintBoardRT))
      ensures old(currentState) == Started ==> DrewBatch(old(colourIdx), old(CurrentFlight()), old(base.paintBoardRT.blits))
    {
      if currentState == Started {
        DrawDots();
      }
    }

    /** The state after one DrawDots call, given the state before it: the palette index
        advanced once, STEPS_PER_INTERVAL steps of the flight taken, and one blit per dot
        in the colour the index pointed at */
    ghost predicate DrewBatch(idx0: int, f0: Flight, blits0: seq<Blit>)
      reads this, base, base.paintBoardRT
      requires 0 <= idx0 < |Rainbow| && base.paintBoardRT != null
    {
      var rt := base.paintBoardRT;
      && colourIdx == NextColourIdx(idx0)
      && CurrentFlight() == Advance(f0, STEPS_PER_INTERVAL, distancePerStep, sqrt, raycast)
      && rt.blits == blits0 + BatchBlits(f0, STEPS_PER_INTERVAL, distancePerStep, Rainbow[idx0], rt.width, rt.height)
    }

    /** DrawDots: take the colour, advance the index, then STEPS_PER_INTERVAL dots */
    method DrawDots()
      requires Valid() && base.paintBoardRT != null
      modifies this`colourIdx, this`startPos, this`velocity, this`hitInfo, this`previousDrawPos, base.paintBoardRT
      ensures Valid() && DrewBatch(old(colourIdx), old(CurrentFlight()), old(base.paintBoardRT.blits))
    {
      var color := Rainbow[colourIdx];
      colourIdx := NextColourIdx(colourIdx);
      DrawSteps(color, STEPS_PER_INTERVAL);
    }

    /** DrawDots' loop, for `steps` iterations: the flight advances `steps` steps and one
        blit per dot is added, in order */
    method DrawSteps(color: Color, steps: nat)
      requires base.paintBoardRT != null
      modifies this`startPos, this`velocity, this`hitInfo, this`previousDrawPos, base.paintBoardRT
      ensures CurrentFlight() == Advance(old(CurrentFlight()), steps, distancePerStep, sqrt, raycast)
      ensures base.paintBoardRT.blits == old(base.paintBoardRT.blits) + BatchBlits(old(CurrentFlight()), steps, distancePerStep, color, base.paintBoardRT.width, base.paintBoardRT.height)
    {
      var rt := base.paintBoardRT;
      ghost var f0 := CurrentFlight();
      for stepIdx := 0 to steps
        invariant CurrentFlight() == Advance(f0, stepIdx, distancePerStep, sqrt, raycast)
        invariant rt.blits == old(rt.blits) + BatchBlits(f0, stepIdx, distancePerStep, color, rt.width, rt.height)
      {
        NextDot(color, f0, stepIdx, old(rt.blits));
      }
    }

    /** One iteration of DrawDots' loop: the candidate dot, clamped onto the hit point
        (restarting the segment there) when it would pass it, drawn and remembered */
    method NextDot(color: Color, ghost f0: Flight, ghost n: nat, ghost blits0: seq<Blit>)
      requires base.paintBoardRT != null
      requires CurrentFlight() == Advance(f0, n, distancePerStep, sqrt, raycast)
      requires base.paintBoardRT.blits == blits0 + BatchBlits(f0, n, distancePerStep, color, base.paintBoardRT.width, base.paintBoardRT.height)
      modifies this`startPos, this`velocity, this`hitInfo, this`previousDrawPos, base.paintBoardRT
      ensures CurrentFlight() == Advance(f0, n + 1, distancePerStep, sqrt, raycast)
      ensures base.paintBoardRT.blits == blits0 + BatchBlits(f0, n + 1, distancePerStep, color, base.paintBoardRT.width, base.paintBoardRT.height)
    {
      var pos := previousDrawPos.Plus(Normalized(sqrt, velocity).Times(distancePerStep));
      if !IsPointBetweenAB(startPos, hitInfo.point, pos) {
        pos := hitInfo.point;
        UpdateVelocityInfo(pos);
      }
      DrawDot(pos, color);
      previousDrawPos := pos;
    }

    /** DrawDot: the world position becomes a paint-board pixel through the camera, then one stamp */
    method DrawDot(pos: Vec2, color: Color)
      requires base.paintBoardRT != null
      modifies base.paintBoardRT
      ensures base.paintBoardRT.blits == old(base.paintBoardRT.blits) + [DotBlit(pos, color, base.paintBoardRT.width, base.paintBoardRT.height)]
    {
      var rt := base.paintBoardRT;
      var ballPixels := DotPixels(pos, rt.width, rt.height);
      StampTextureToRenderTexture(rt, stampTexture, ballPixels, stampMaterial, DOT_SIZE, DOT_SIZE, color);
    }

    /** The brush's own StampTextureToRenderTexture: one blit at the UV position of
        positionPixels through the given material */
    method StampTextureToRenderTexture(renderTexture: RenderTexture, stampTexture: string, positionPixels: Vec2, stampMat: string,
                                       targetWidth: int, targetHeight: int, color: Color)
      modifies renderTexture
      ensures renderTexture.blits == old(renderTexture.blits) + [
        Blit(stampTexture, PositionUV(positionPixels, renderTexture.width, renderTexture.height), targetWidth, targetHeight, color, stampMat, None)]
    {
      var positionUV := Vec2(positionPixels.x / renderTexture.width as real, positionPixels.y / renderTexture.height as real);
      renderTexture.blits := renderTexture.blits + [Blit(stampTexture, positionUV, targetWidth, targetHeight, color, stampMat, None)];
    }
  }
}
