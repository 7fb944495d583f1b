# PaintBall brushes and paint layer, in Dafny

PaintBall is a Unity drawing toy. This project models its painting core:

- **The brushes.** `BouncingBallBrush` launches a ball when a drag is long enough. The ball then stamps a trail of coloured dots, and it bounces off the boundary colliders at the hits a raycast predicts. `PaintBrushBase` stamps white circles at fixed distances along the drag. `BrushBase` and `BaseBrush` are the two bases they derive from, and they keep the input bookkeeping.
- **The physics ball** (`Ball`). It stamps its sprite onto a CPU texture once per dot. Each dot takes the next colour of a five-colour queue.
- **The chunked paint layer** (`TextureManager`). It splits the background into 500 x 500 textures and keeps a set of dirty chunks.
- **The static helpers** of `Utils`:
  - the "not yet past B" test the bouncing ball uses;
  - the fill loop that clears a texture.

## How the model is built

Geometry is over the reals (`Geometry`). Unity's `magnitude` and `normalized` go through a square-root oracle. They are tied to their meaning by `IsSqrt` wherever a proof needs it.

Engine services are parameters of the classes that use them:

- `Physics2D.Raycast` is an oracle from (origin, direction, collider disabled during the cast) to a hit.
- The camera conversions `ScreenToWorldPoint` and `WorldToScreenPoint` are oracles, and so is the camera's pixel size.
- `Time.deltaTime` is a positive argument.

The GPU side works as follows:

- A `RenderTexture` is modelled as the sequence of `Blit` records it has received.
- Each record holds what the shader was given: the stamp, its UV position, its size, its colour, the material, and the rotation when one was set.
- CPU textures (`Texture2D`) are real pixel grids.

Inheritance is modelled by composition. `BouncingBallBrush` holds its `BaseBrush`, `PaintBrushBase` holds its `BrushBase`, and every override calls the base operation explicitly.

The state-changing code is modelled as classes with `modifies` clauses. Each method is proved against a specification function, and the properties the code promises are lemmas about those functions:

- `Advance`/`BatchBlits` for the bouncing ball;
- `Stamped`/`Trail`/`RotateN` for the ball;
- `PathStamps`/`StampBlits` for the paint brush;
- `Pixel` for the paint layer.

To verify: `dafny verify *.dfy` from this directory.

## Model

| member | source | states |
|---|---|---|
| Geometry.Ceil | Assets/Scripts/TextureManager.cs:17-18 | Mathf.Ceil gives the least integer not below its argument: `r <= n < r + 1` |
| Geometry.ReflectLaw | Assets/Scripts/Brushes/BouncingBallBrush.cs:186 | Vector2.Reflect about a unit normal negates the normal component and keeps the tangential component and the squared speed |
| Geometry.ReflectInvolution | Assets/Scripts/Brushes/BouncingBallBrush.cs:186 | Reflecting twice about the same unit normal gives back the original velocity |
| Geometry.NormalizedIsUnit | Assets/Scripts/Brushes/BouncingBallBrush.cs:219 | `velocity.normalized` of a vector longer than kEpsilon has length 1 and points the same way (parallel, positive dot product) |
| Geometry.MagnitudeBelow | Assets/Scripts/Brushes/BouncingBallBrush.cs:137-138 | For a non-negative bound, magnitude below the bound holds exactly when the squared magnitude is below the squared bound, so the launch threshold is a squared-distance test |
| Geometry.SqrtMonotone | Assets/Scripts/Utils.cs:64-75 | Any square-root oracle keeps and reflects order, which lets squared distances stand in for distances |
| Colors.RainbowDistinct | Assets/Scripts/Brushes/BouncingBallBrush.cs:62-64 | The palette blue, green, yellow, red, magenta has five pairwise different colours, so it cycles with period exactly five |
| Textures.RowMajorAt | Assets/Scripts/Utils.cs:32-36 | Entry `y * width + x` of a SetPixels buffer is in range and lands on pixel (x, y) |
| Textures.RowMajorUniform | Assets/Scripts/Utils.cs:32-36 | A buffer holding one colour everywhere becomes a texture filled with that colour |
| Textures.Texture2D.constructor | Assets/Scripts/Utils.cs:14-16 | A new texture of the given size is filled with the given colour |
| Textures.Texture2D.SetPixel | Assets/Scripts/Ball.cs:113 | Exactly pixel (x, y) changes, to the given colour |
| Textures.Texture2D.SetPixels | Assets/Scripts/Utils.cs:36 | The whole texture is replaced by the row-major reading of the buffer |
| Utils.BetweenIsDistanceComparison | Assets/Scripts/Utils.cs:59-75 | IsPointBetweenAB(a, b, p) holds exactly when the distance from a to p is at most the distance from a to b |
| Utils.BetweenInclusiveEnds | Assets/Scripts/Utils.cs:71-75 | The test holds for p == a and for p == b |
| Utils.BetweenOnRay | Assets/Scripts/Utils.cs:50-75 | For p = a + t (b - a) with t >= 0 and a != b, the test holds exactly when t <= 1 |
| Utils.BetweenBehindStart | Assets/Scripts/Utils.cs:50-75 | The test ignores direction: a point behind a, at most as far from a as b is, is accepted |
| Utils.BetweenDegenerate | Assets/Scripts/Utils.cs:59-75 | When a == b the test holds exactly for p == a |
| Utils.FillBuffer | Assets/Scripts/Utils.cs:32-35 | The buffer has exactly `length` entries and every one is the colour |
| Utils.SetTextureColor | Assets/Scripts/Utils.cs:30-37 | Every pixel of the texture becomes the colour, and the size is kept |
| TextureManager.ChunkCountCovers | Assets/Scripts/TextureManager.cs:17-18 | With Ceil(extent / 500) chunks, every pixel column below the extent falls in a chunk, and the last chunk starts inside the background |
| TextureManager.ChunkLocalInjective | Assets/Scripts/TextureManager.cs:58-60 | The mapping (x / 500, x % 500) is injective on non-negative coordinates, so distinct pixels never share a chunk cell |
| TextureManager.TextureManager.Init | Assets/Scripts/TextureManager.cs:15-48 | A Ceil(bgWidth/500) by Ceil(bgHeight/500) grid of new, pairwise distinct, clear 500 x 500 chunks, with an empty dirty set |
| TextureManager.TextureManager.AddChunk | Assets/Scripts/TextureManager.cs:24-46 | One step of init: a new clear chunk is placed at (row, col) and indexed there; every other cell keeps its chunk |
| TextureManager.TextureManager.SetPixel | Assets/Scripts/TextureManager.cs:58-62 | Global pixel (x, y) becomes the colour and every other pixel of every chunk is unchanged. Its chunk is added to the dirty set, and adding it again leaves one entry |
| TextureManager.TextureManager.Apply | Assets/Scripts/TextureManager.cs:67-72 | The dirty set becomes empty |
| TextureManager.TextureManager.ResetPaintLayer | Assets/Scripts/TextureManager.cs:77-82 | Every pixel of every chunk becomes clear and the dirty set becomes empty |
| TextureManager.TextureManager.ClearChunk | Assets/Scripts/TextureManager.cs:78-80 | One chunk is filled with clear and the layer stays well formed |
| Ball.StampedPlacesPixel | Assets/Scripts/Ball.cs:96-113 | Sprite pixel (x, y), opaque and landing on the background at (ballX - w/2 + x, ballY - h/2 + y) with integer halving, takes the dot's colour |
| Ball.StampedChangesOnlyCovered | Assets/Scripts/Ball.cs:99-114 | A background pixel that changes takes the dot's colour and lies under an opaque, in-bounds sprite pixel |
| Ball.RotateNAt | Assets/Scripts/Ball.cs:88-116 | After n dots, queue entry i is entry (i + n) mod the queue length (five) of the original queue |
| Ball.RotateFullCycle | Assets/Scripts/Ball.cs:19-21 | As many dots as the queue is long restore its original order |
| Ball.TrailKeepsUncovered | Assets/Scripts/Ball.cs:71-82 | After a batch, a pixel no dot covers is unchanged, and a changed pixel holds one of the queue's colours |
| Ball.Ball.Awake | Assets/Scripts/Ball.cs:19-37 | The queue starts as the five palette colours in order and the last draw position is the spawn position |
| Ball.Ball.FixedUpdate | Assets/Scripts/Ball.cs:51-57 | Below TIME_BETWEEN_DRAWS of accumulated time nothing but the timer changes. Otherwise a batch is drawn up to the ball's position |
| Ball.Ball.OnCollisionEnter2D | Assets/Scripts/Ball.cs:59-64 | A batch is drawn up to the contact point at once |
| Ball.Ball.DrawDots | Assets/Scripts/Ball.cs:71-82 | All dots are stamped in order, the queue is rotated once per dot, the last draw position becomes the target and the timer is reset |
| Ball.Ball.DrawDot | Assets/Scripts/Ball.cs:88-117 | The background becomes Stamped in the colour at the queue head, and that head moves to the tail |
| Stamping.PositionUVRoundTrip | Assets/Scripts/Brushes/BrushBase.cs:137-141 | UV times the texture size gives back the pixel position, and positions in [0, w] x [0, h] map into the unit square |
| Stamping.NegativeAngleMismatch | Assets/Scripts/Brushes/BrushBase.cs:132-152 | The rotation material is chosen exactly for angle > 0, and the rotation vector is set exactly for angle != 0. A negative angle uses the plain material yet sets the vector |
| InputTracking.ReplayPositions | Assets/Scripts/Brushes/BaseBrush.cs:82-96 | After a start and any number of moves, the start position is the press, current is the last move and previous is the one before |
| BrushBase.BrushBase.constructor | Assets/Scripts/Brushes/BrushBase.cs:10-50 | A new brush has no references, no input and no materials loaded |
| BrushBase.BrushBase.Init | Assets/Scripts/Brushes/BrushBase.cs:53-61 | Stores the three references and loads both materials; positions and inputStarted are untouched |
| BrushBase.BrushBase.OnInit | Assets/Scripts/Brushes/BrushBase.cs:66-67 | Changes nothing |
| BrushBase.BrushBase.CleanUp | Assets/Scripts/Brushes/BrushBase.cs:70-71 | Changes nothing |
| BrushBase.BrushBase.FixedUpdate | Assets/Scripts/Brushes/BrushBase.cs:74-75 | Changes nothing |
| BrushBase.BrushBase.StartInput | Assets/Scripts/Brushes/BrushBase.cs:78-84 | start = current = previous = position, and inputStarted is set |
| BrushBase.BrushBase.MoveInput | Assets/Scripts/Brushes/BrushBase.cs:87-91 | previous takes the old current and current takes the position; start and inputStarted are kept |
| BrushBase.BrushBase.EndInput | Assets/Scripts/Brushes/BrushBase.cs:94-97 | inputStarted is cleared and all positions are kept |
| BrushBase.BrushBase.OnInputStart | Assets/Scripts/Brushes/BrushBase.cs:102 | Changes nothing |
| BrushBase.BrushBase.OnInputMove | Assets/Scripts/Brushes/BrushBase.cs:107 | Changes nothing |
| BrushBase.BrushBase.OnInputEnd | Assets/Scripts/Brushes/BrushBase.cs:112 | Changes nothing |
| BrushBase.BrushBase.StampTextureToRenderTexture | Assets/Scripts/Brushes/BrushBase.cs:131-160 | Exactly one blit is appended at the UV position, with the given size and colour, the material MaterialFor(angle) and the rotation RotationFor(angle) |
| BaseBrush.BaseBrush.constructor | Assets/Scripts/Brushes/BaseBrush.cs:10-58 | A new brush has no references and no material loaded |
| BaseBrush.BaseBrush.Init | Assets/Scripts/Brushes/BaseBrush.cs:61-67 | Stores exactly the three given references and loads the plain material; positions are untouched |
| BaseBrush.BaseBrush.CleanUp | Assets/Scripts/Brushes/BaseBrush.cs:70-71 | Changes nothing |
| BaseBrush.BaseBrush.FixedUpdate | Assets/Scripts/Brushes/BaseBrush.cs:74-75 | Changes nothing |
| BaseBrush.BaseBrush.OnInputStart | Assets/Scripts/Brushes/BaseBrush.cs:78-79 | Changes nothing |
| BaseBrush.BaseBrush.UpdateInputStartPosition | Assets/Scripts/Brushes/BaseBrush.cs:82-86 | start = current = previous = position |
| BaseBrush.BaseBrush.OnInputMove | Assets/Scripts/Brushes/BaseBrush.cs:89-90 | Changes nothing |
| BaseBrush.BaseBrush.UpdateInputCurrentPosition | Assets/Scripts/Brushes/BaseBrush.cs:93-96 | previous takes the old current and current takes the position; start is kept |
| BaseBrush.BaseBrush.OnInputEnd | Assets/Scripts/Brushes/BaseBrush.cs:99-100 | Changes nothing |
| BaseBrush.BaseBrush.StampTextureToRenderTexture | Assets/Scripts/Brushes/BaseBrush.cs:118-140 | Exactly one blit is appended through the plain material at the UV position, without rotation |
| PaintBrushBase.StampCountMeaning | Assets/Scripts/Brushes/PaintBrushBase.cs:60-66 | The loop runs the largest k with d - (k - 1) > 1 times. It leaves at most DRAW_DISTANCE, and runs zero times when d <= 1 |
| PaintBrushBase.PathStamps | Assets/Scripts/Brushes/PaintBrushBase.cs:59-65 | One stamp position per loop iteration, StampCount(d) in all |
| PaintBrushBase.PathStampsStep | Assets/Scripts/Brushes/PaintBrushBase.cs:59-64 | Each stamp is exactly DRAW_DISTANCE beyond the previous one (the first beyond the start), along the direction fixed before the loop |
| PaintBrushBase.PathStampsOnSegment | Assets/Scripts/Brushes/PaintBrushBase.cs:59-65 | Stamp i lies on the segment at fraction (i + 1) / d, strictly between its ends, so the stamps move away from the start in order and never reach the input position |
| PaintBrushBase.StampBlits | Assets/Scripts/Brushes/PaintBrushBase.cs:47-63 | One white DEFAULT_SIZE x DEFAULT_SIZE blit per stamp position, in order |
| PaintBrushBase.PaintBrushBase.constructor | Assets/Scripts/Brushes/PaintBrushBase.cs:10-34 | A new brush with a new base, no texture loaded and no input |
| PaintBrushBase.PaintBrushBase.Init | Assets/Scripts/Brushes/BrushBase.cs:53-61 | The base Init, then OnInit: references stored, both materials and the circle texture loaded; only those fields change |
| PaintBrushBase.PaintBrushBase.OnInit | Assets/Scripts/Brushes/PaintBrushBase.cs:39-41 | Loads STAMP_RESOURCE as the stamp texture |
| PaintBrushBase.PaintBrushBase.StartInput | Assets/Scripts/Brushes/BrushBase.cs:78-84 | The base StartInput, then the override: positions collapse on the press and exactly one white stamp is drawn there through the loaded plain material; references and materials are not touched |
| PaintBrushBase.PaintBrushBase.MoveInput | Assets/Scripts/Brushes/BrushBase.cs:87-91 | The base MoveInput, then the override: the positions shift and, while input is active, the path stamps of the move are drawn; start, inputStarted, references and materials are not touched. A paint board is needed only while input is active |
| PaintBrushBase.PaintBrushBase.EndInput | Assets/Scripts/Brushes/BrushBase.cs:94-97 | inputStarted is cleared and nothing else of the brush changes |
| PaintBrushBase.PaintBrushBase.OnInputStart | Assets/Scripts/Brushes/PaintBrushBase.cs:46-49 | Exactly one white 15 x 15 stamp at the current input position, which becomes the previous draw location |
| PaintBrushBase.PaintBrushBase.OnInputMove | Assets/Scripts/Brushes/PaintBrushBase.cs:54-67 | Nothing changes without an active input. Otherwise the blits of PathStamps from the previous draw location to the input position are appended, and the last of them becomes the previous draw location. A paint board is needed only while input is active |
| BouncingBallBrush.NextColourIdx | Assets/Scripts/Brushes/BouncingBallBrush.cs:215-216 | The palette index after a call stays in [0, 5) |
| BouncingBallBrush.ColourIdxCycle | Assets/Scripts/Brushes/BouncingBallBrush.cs:214-216 | After n DrawDots calls the index is (i + n) mod 5, so colours repeat every five calls |
| BouncingBallBrush.Retarget | Assets/Scripts/Brushes/BouncingBallBrush.cs:180-199 | The segment restarts at p and the next hit is the raycast from p along the new velocity, with the previous collider disabled |
| BouncingBallBrush.DotsOf | Assets/Scripts/Brushes/BouncingBallBrush.cs:218-231 | n steps draw n dots, and the last one is where the ball ends up |
| BouncingBallBrush.StepNeverPassesHit | Assets/Scripts/Brushes/BouncingBallBrush.cs:219-227 | Every dot drawn passes the IsPointBetweenAB test of its segment: no dot goes beyond the predicted hit |
| BouncingBallBrush.StepInsideKeepsCourse | Assets/Scripts/Brushes/BouncingBallBrush.cs:219-230 | A dot inside the segment is the candidate itself and leaves start, velocity and hit unchanged |
| BouncingBallBrush.StepAlongCourse | Assets/Scripts/Brushes/BouncingBallBrush.cs:219-230 | When the ball moves faster than kEpsilon, a dot inside the segment lies exactly distancePerStep from the previous dot |
| BouncingBallBrush.StepClampReflects | Assets/Scripts/Brushes/BouncingBallBrush.cs:180-230 | A dot past the hit is drawn on the hit point, where the segment restarts. The velocity is reflected (normal component negated, speed kept) and the next hit is cast; with no collider the velocity is kept |
| BouncingBallBrush.AdvanceKeepsSpeed | Assets/Scripts/Brushes/BouncingBallBrush.cs:214-232 | While hits have unit normals, the ball never changes speed over any number of steps |
| BouncingBallBrush.StaleHitBendsLaunch | Assets/Scripts/Brushes/BouncingBallBrush.cs:167-199 | A launch whose state still holds a hit from an earlier stroke gets its fresh velocity reflected about that stale normal |
| BouncingBallBrush.LaunchAlongDrag | Assets/Scripts/Brushes/BouncingBallBrush.cs:153-156 | The launch velocity is parallel to the drag and never against it (non-negative scale) |
| BouncingBallBrush.TruncateTowardZero | Assets/Scripts/Brushes/BouncingBallBrush.cs:242-243 | The (int) cast drops the fraction toward zero and keeps the sign |
| BouncingBallBrush.BouncingBallBrush.BatchBlits | Assets/Scripts/Brushes/BouncingBallBrush.cs:218-231 | n steps issue exactly n blits |
| BouncingBallBrush.BouncingBallBrush.BatchBlitsAt | Assets/Scripts/Brushes/BouncingBallBrush.cs:229-245 | Blit i of a batch stamps dot i: a 27 x 27 stamp in the batch colour at that dot's paint-board pixel |
| BouncingBallBrush.BouncingBallBrush.constructor | Assets/Scripts/Brushes/BouncingBallBrush.cs:62-95 | A new brush is NotStarted with palette index 0 and no hit |
| BouncingBallBrush.BouncingBallBrush.Init | Assets/Scripts/Brushes/BouncingBallBrush.cs:108-113 | The base Init, then the plain material and the ball texture are loaded |
| BouncingBallBrush.BouncingBallBrush.OnInputStart | Assets/Scripts/Brushes/BouncingBallBrush.cs:120-123 | Positions collapse on the press and the state is InputStarted, whatever it was |
| BouncingBallBrush.BouncingBallBrush.OnInputMove | Assets/Scripts/Brushes/BouncingBallBrush.cs:130-161 | The positions shift. Outside InputStarted, or below DISTANCE_TO_MOVE, no brush field changes. At the threshold the state is Started, the velocity is the drag scaled by speed/100/1000, distancePerStep is the velocity magnitude over 4, and the flight restarts at the launch point |
| BouncingBallBrush.BouncingBallBrush.OnInputEnd | Assets/Scripts/Brushes/BouncingBallBrush.cs:167-173 | The state is NotStarted from every state; nothing else changes (palette index and hit included) |
| BouncingBallBrush.BouncingBallBrush.UpdateVelocityInfo | Assets/Scripts/Brushes/BouncingBallBrush.cs:180-199 | The flight becomes Retarget of the old flight at p |
| BouncingBallBrush.BouncingBallBrush.FixedUpdate | Assets/Scripts/Brushes/BouncingBallBrush.cs:204-208 | Outside Started nothing changes. In Started exactly one DrawDots batch is drawn. A paint board is needed only in Started |
| BouncingBallBrush.BouncingBallBrush.DrawDots | Assets/Scripts/Brushes/BouncingBallBrush.cs:214-232 | The index advances once (mod 5). The flight advances STEPS_PER_INTERVAL steps, and one blit per dot is appended, all in the colour the index pointed at |
| BouncingBallBrush.BouncingBallBrush.DrawSteps | Assets/Scripts/Brushes/BouncingBallBrush.cs:218-231 | The loop advances the flight `steps` steps and appends one blit per dot, in order |
| BouncingBallBrush.BouncingBallBrush.NextDot | Assets/Scripts/Brushes/BouncingBallBrush.cs:219-230 | One more step of the flight and one more dot's blit |
| BouncingBallBrush.BouncingBallBrush.DrawDot | Assets/Scripts/Brushes/BouncingBallBrush.cs:239-246 | Exactly one 27 x 27 blit in the given colour at the camera-converted, truncated pixel of the position |
| BouncingBallBrush.BouncingBallBrush.StampTextureToRenderTexture | Assets/Scripts/Brushes/BouncingBallBrush.cs:257-280 | Exactly one blit through the given material at the UV position, with the given size and colour |

## Left out

- Rendering and engine glue is not modelled:
  - `Graphics.Blit`, the shaders' pixel work, `Material.Set*`, `RenderTexture.GetTemporary` and `ClearOutRenderTexture`;
  - `Texture2D.Apply`, `Resources.Load` (a loaded resource is its path string), `Sprite.Create`;
  - `Object.Instantiate`/`Destroy` of the ball and `ballPrefab`, and `Rigidbody2D.AddForce` (`Ball.Init`).
- Physics is an oracle. `Physics2D.Raycast` is a parameter. Toggling `collider.enabled` around the cast is modelled as the cast's "disabled collider" argument, so the collider is enabled again afterwards by construction. Hit normals are taken to be unit vectors only where a lemma says so (`UnitNormal`).
- The camera is an oracle. `Camera.main.ScreenToWorldPoint`/`WorldToScreenPoint` and the camera's pixel size are parameters. The ball object's position is taken to be the point it was instantiated at (`ScreenToWorldPoint(inputStartPosition)`).
- Time and floating point:
  - `Time.deltaTime` is a positive argument.
  - Positions, velocities and colours are reals; IEEE rounding and float accumulation are not modelled.
  - Square root is an oracle.
  - The z component of the Vector3 positions is dropped.
- Ball.Ball.DrawDots: the float `t += 1/steps` lerp loop and the camera conversion of each dot are not modelled. The caller supplies the dots' pixel centres. The number of dots per batch is therefore not tied to `elapsed * BALLS_PER_SECOND`.
- Ball.Ball.FixedUpdate: `transform.position` is an argument, as is the contact point of `OnCollisionEnter2D`.
- BrushBase.BrushBase.StampTextureToRenderTexture: the sin/cos rotation vector is recorded as the angle itself, not as its cosine and sine.
- BrushBase.BrushBase.Init calls the empty hook `OnInit`. PaintBrushBase.PaintBrushBase.Init calls the base Init and then its own OnInit override, which stands in for the virtual dispatch.
- `PrintInputDebug` (debug logging) is not part of this model.
- Mismatched signatures. `BouncingBallBrush` and `PaintBrushBase` do not fit the base classes they derive from:
  - `BouncingBallBrush` overrides `Init(RenderTexture)` (BouncingBallBrush.cs:108) and `OnInputStart`/`OnInputMove`/`OnInputEnd(Vector3)` (lines 120, 130, 167). `BaseBrush` declares no virtual with these shapes: its `Init` takes three arguments and its hooks take none.
  - Inside them it calls `base.Init(paintBoardRT)` (line 109), `base.OnInputStart(position)` (line 121) and `base.OnInputMove(position)` (line 131). `BaseBrush` declares none of these shapes either.
  - The model reads them as the intended operations. Init takes the three arguments of `BaseBrush.Init` and calls it. The hooks take the position. `base.OnInputStart(position)` is `UpdateInputStartPosition(position)` and `base.OnInputMove(position)` is `UpdateInputCurrentPosition(position)`, the position bookkeeping `BaseBrush` offers.
  - `PaintBrushBase` calls a five-argument `StampTextureToRenderTexture` that `BrushBase` does not declare. It is modelled as the six-argument one with rotation angle 0, so the plain material is used and no rotation is set.
- TextureManager.TextureManager.Init: the world-space placement of the chunk sprites, their sorting order and filter mode are not modelled.
- TextureManager.TextureManager.SetPixel: the C# code has no bounds check, so the coordinate must be on the canvas. ChunkCountCovers shows that every pixel inside the background is. The non-negative requirement also sidesteps C#'s truncating `/` and `%`: for x in (-500, 0) the code picks chunk 0 with a negative local coordinate, and Texture2D.SetPixel then handles it by its own rules. That case is not modelled.
- TextureManager.TextureManager.Apply: the GPU upload is not modelled; only the emptied dirty set is.
- Other files are not part of this model:
  - `ArrowStampBrush`, which uses `Random.Range` and fields `PaintBrushBase` lacks;
  - `Manager` (scene setup and key polling);
  - `Utility.cs`, which copies the fill loop modelled from `Utils`;
  - `IBrush`, an interface with no behaviour.

## Notes on the code

- The hit a brush remembers is never cleared by `OnInputEnd`. A later launch therefore reflects its fresh velocity about the old normal, as StaleHitBendsLaunch states. This is modelled as the code behaves.
- `distancePerStep` is fixed at launch (line 159) and never recomputed after a bounce. Since the reflection keeps the speed (AdvanceKeepsSpeed), the dot spacing stays correct.
