# tiny-ball: the drag-to-launch model

A Dafny model of the ball-flinging core of tiny-ball, a browser mini-game
built on the Matter.js physics engine. The player drags the pointer to aim
and releases it to launch a ball at a static target. While aiming, the
game draws a forecast of the flight. A ball that leaves the playfield to the
left or right is recreated at its entry point. A score counts ball/target
collisions.

The engine is replaced by a plain record per body (`Physics.Body` for the
ball with position, velocity, mass, friction and static flag;
`Physics.Block` for the static rectangles) plus a trace of the engine calls
the game makes (`SetVelocity`, `ApplyForce`, `Remove`, `Add`, `AddBlock`,
`SetPosition`, `SetVertices`). All arithmetic is over `real`.

Modules, one per source file or component:

- `Physics` (physics.dfy): the stand-in for the engine.
- `Forecast` (forecast.dfy): the pure definition of the dotted path drawn
  while dragging. It also holds closed forms of that path.
- `BallLaunch` (ball.dfy): the `Ball` class of app/js/ball.js. It holds the
  gesture state, the launch, the forecast loop, the respawn and the spawn
  formula.
- `LegacyWorld` (legacy_world.dfy): the older `World` of the root world.js.
  It keeps the gesture itself and pushes the ball opposite to the drag. It
  draws an aim line, uses a bounds margin of 50 and spawns the ball a full
  radius in. A resize re-places the ball and the ground.
- `Conventions` (conventions.dfy): lemmas that compare the two revisions.
- `Scoring` (scoring.dfy): the collision-pair test and count shared by both
  scoring sites, and the decimal text a score is shown as.
- `Score` (score_counter.dfy): the `ScoreCounter` class.
- `AppWorld` (app_world.dfy): the `World` of app/js/world.js. It covers the
  config defaults, the scale, the ground, the target, the ball it builds
  and the score.

Each class has a `Valid()` invariant that all its methods keep. For `Ball`,
the body is one its engine could have created, and outside a drag the start
point is (0,0). For the older `World`, a drag always has a start point, and
outside one the start point is unset or (0,0). For the score holders, the
counter element always shows the current score.

Event handlers are methods that callers invoke explicitly. Each class keeps
its own engine-call trace in a `trace` field. `Ball.EngineAdvance` stands
for the engine's own step. It moves a non-static body and leaves a static
one alone. No source function corresponds to it; `BallLaunch.PressHoldsBall`
uses it to show that a pressed ball stays put.

Behaviours of the code worth knowing, all modelled as written:

- `onPointerDown` does not check whether a drag is already in progress.
- The launch guard is `|x + y| > 0`. So any drag with equal screen offsets
  (`dx == dy`) launches nothing.
- The entry (0.1, 0.1) on a 600 x 600 canvas with width 20 spawns at
  (70, 530).
- The forecast damps with the body's `friction`.
- In world.js a tap (press and release without a move) sets the current
  pointer to (0,0), so the next press draws an aim line although the
  pointer never moved.

## Model

| member | source | states |
|---|---|---|
| BallLaunch.Ball.constructor | app/js/ball.js:11-31 | absent options default to posX 0, posY 0 and width 20; the body is created at the spawn formula and added to the world; the drag starts idle at (0,0) |
| BallLaunch.Ball.SetIsStatic | app/js/ball.js:183-185 | only the body's static flag changes |
| BallLaunch.Ball.OnPointerDown | app/js/ball.js:42-47 | always starts a drag, even one already in progress: body static, isDragging true, start = current = the event point; no engine call |
| BallLaunch.Ball.OnPointerMove | app/js/ball.js:49-51 | only pointerPos changes, whether or not a drag is active |
| BallLaunch.Ball.OnPointerUp | app/js/ball.js:53-57 | outside a drag nothing changes and no engine call is made; inside a drag the body is released, the impulse calls for the drag are issued, and the gesture is reset to (0,0) |
| BallLaunch.Ball.HandlePointerUp | app/js/ball.js:59-71 | releases the body, hands the flipped and scaled travel to applyImpulse, then resets both pointers to (0,0) and ends the drag |
| BallLaunch.Ball.ResetPointerPositions | app/js/ball.js:73-76 | start and current pointer become (0,0) and nothing else changes |
| BallLaunch.Ball.ApplyImpulse | app/js/ball.js:168-181 | when abs(x+y) > 0 the trace gains SetVelocity(0,0) and then ApplyForce(pos, (x,-y)), and the body's velocity becomes zero; otherwise nothing changes |
| BallLaunch.Ball.AfterUpdate | app/js/ball.js:78-83 | while dragging it returns the forecast of the body before any respawn, otherwise no dots; then the bounds check applies |
| BallLaunch.Ball.CheckOutOfBounds | app/js/ball.js:85-93 | respawns iff x > cWidth + width + 10 or x < -width - 10, ignoring y; a respawn records Remove(old) then Add(new), and the new body is at the spawn formula whatever the exit point |
| BallLaunch.Ball.AddBall | app/js/ball.js:99-118 | the body becomes a fresh circle at (cWidth*posX + width/2, cHeight - cHeight*posY - width/2) with radius width, and it is added to the world |
| BallLaunch.Ball.DrawPredictedPath | app/js/ball.js:123-163 | the loop yields exactly the forecast function of the body position, pointers, mass and friction; it changes nothing, so it is deterministic |
| BallLaunch.DragAndRelease | app/js/ball.js:42-76 | a press, a move and a release end with the ball released and the gesture reset; the trace gains SetVelocity(0,0) then ApplyForce(pos, 0.0003 * (current - start)) and the velocity is zeroed, unless dx == dy (a click among them), when no call is made and the velocity is kept |
| BallLaunch.ReleaseForce | app/js/ball.js:62-181 | the two y flips cancel; a release issues no call iff dx == dy, and otherwise issues SetVelocity(0,0) then ApplyForce(0.0003 * (current - start)) |
| BallLaunch.ClickIsNoLaunch | app/js/ball.js:168-181 | a zero-length drag issues no engine call and leaves the velocity alone |
| BallLaunch.ForecastAlongForce | app/js/ball.js:134-140 | the forecast's initial velocity is the release force scaled by 1900/mass, so it points the way the ball will be pushed |
| BallLaunch.BoundsWindow | app/js/ball.js:85-93 | the ball is kept iff its x lies within [-width-10, cWidth+width+10]; one unit past either side triggers a respawn |
| BallLaunch.SpawnExample | app/js/ball.js:100-102 | entry (0.1, 0.1) on a 600 x 600 canvas with width 20 spawns at (70, 530) |
| BallLaunch.PressHoldsBall | app/js/ball.js:42-47 | a press makes the body static, so an engine step during the drag leaves it where it was, velocity included |
| BallLaunch.LaunchExample | app/js/ball.js:59-71 | a drag from (100,100) to (150,50) issues SetVelocity(0,0) then ApplyForce((0.015, -0.015)) |
| Forecast.PathShape | app/js/ball.js:128-162 | a forecast has exactly 15 dots, and dot i sits at the position after i+1 steps |
| Forecast.AlphaFades | app/js/ball.js:159 | opacities are 1 - i/15: they start at 14/15, strictly decrease, stay in [0,1) and end at exactly 0 |
| Forecast.StepHorizontal | app/js/ball.js:143-156 | horizontally, one step scales the velocity by 1 - friction/2 first and then moves the position by the new velocity |
| Forecast.StepVertical | app/js/ball.js:143-156 | vertically, one step adds the drag and gravity to the velocity first and then moves the position by the new velocity |
| Forecast.HorizontalVelocity | app/js/ball.js:142-151 | after n steps the horizontal velocity is v0.x * (1 - friction/2)^n |
| Forecast.HorizontalClosedForm | app/js/ball.js:142-157 | after n steps the horizontal position is x0 + 0.5 * v0.x * (c + ... + c^n), with c = 1 - friction/2 |
| Forecast.FrictionlessClosedForm | app/js/ball.js:142-157 | with no friction, after n steps the velocity is v0 + (0, 4.905 n) and the position is p0 + n v0/2 + (0, 1.22625 n (n+1)), the semi-implicit Euler parabola |
| Forecast.VerticalWithoutHorizontalDrag | app/js/ball.js:134-157 | a drag with no horizontal component puts every dot on the vertical line through the body's centre |
| Forecast.FirstStepExample | app/js/ball.js:142-156 | force (28.5, -28.5), mass 1, friction 0.01: the first acceleration is (-0.285, 10.095) and the first dot lies at centre + (14.17875, -11.72625) |
| LegacyWorld.World.constructor | world.js:10-51 | starts on the container's size with the ballEntry option, or (0.5, 0.5) when it is absent; ground, target and ball are added in that order; the pointer fields start undefined |
| LegacyWorld.World.AddGround | world.js:111-120 | the ground is static, cWidth x 50 and centred at (cWidth/2, cHeight) |
| LegacyWorld.World.AddTarget | world.js:123-134 | the target is static, 20 x 120 and centred at (cWidth/1.1, cWidth/8) |
| LegacyWorld.World.AddBall | world.js:140-162 | records ballX and ballY, and adds a circle of radius 20 at (cWidth*x + 20, cHeight - cHeight*y - 20) |
| LegacyWorld.World.OnPointerDown | world.js:53-57 | the ball becomes static, the drag starts, and the start is the event point; pointerPosClient is left as it was |
| LegacyWorld.World.OnPointerUp | world.js:58-76 | outside a drag nothing changes; inside a drag the ball is released, the impulse for the travel (end.x - start.x, start.y - end.y) is issued, and start, pos and travel are reset to (0,0) |
| LegacyWorld.World.OnPointerMove | world.js:77-79 | only pointerPosClient changes |
| LegacyWorld.World.ApplyImpulse | world.js:183-196 | when abs(x+y) > 0 the trace gains SetVelocity(0,0) and then ApplyForce(pos, (-0.0003 x, 0.0003 y)); otherwise nothing changes |
| LegacyWorld.World.DrawBallPath | world.js:165-178 | the aim line runs from the ball to ball + (start - current), or is absent while a pointer field is still undefined |
| LegacyWorld.World.AfterUpdate | world.js:85-99 | while dragging it returns the aim line; it respawns iff x > cWidth + 20 + 50 or x < -20 - 50, at the stored entry on the current canvas, recording Remove then Add |
| LegacyWorld.World.ResizeCanvas | world.js:198-228 | the size, render bounds, options and canvas take the new size; the ball moves to the addBall formula for the new size; the ground is centred at (cWidth/2, cHeight) with a cWidth x 50 box |
| LegacyWorld.DragAndRelease | world.js:53-76 | a press at start and a release at end leave the ball released; the trace gains SetVelocity(0,0) then ApplyForce(pos, 0.0003 * (start - end)), opposite to the drag, unless dx == dy, when no call is made |
| LegacyWorld.AimLineShowsForce | world.js:165-196 | with the pointer at the release point, the aim offset is start - end, and the force applied (when dx != dy) is exactly 0.0003 * (start - end), opposite to the drag |
| LegacyWorld.PressBeforePointerIsSet | world.js:48-57 | while pointerPosClient is unset (from construction until the first move or the release of a drag), a press starts the drag and no aim line is drawn |
| LegacyWorld.TapThenPress | world.js:53-76 | after a tap the current pointer is (0,0), so the next press at c draws the aim line from the ball to ball + c although the pointer never moved |
| Conventions.OppositeForces | world.js:183-196 | for the same drag both revisions launch or stay still together, and when they launch the older force is the negation of the newer one |
| Conventions.MarginsNest | world.js:91-94 | every ball the margin-50 rule respawns is also respawned by the margin-10 rule |
| Conventions.MarginsDiffer | world.js:91-94 | a ball 20 units past the margin-10 limit is respawned by the newer rule and kept by the older one |
| Conventions.SpawnOffsets | world.js:143-146 | the older spawn point is the newer one shifted by (+width/2, -width/2) |
| Scoring.ScoresExactly | app/js/scoreCounter.js:18-21 | a pair scores iff it is (ball, target) in that order; (target, ball) never scores, because bodyB is compared with the string itself |
| Scoring.CountIsNumberOfHits | app/js/scoreCounter.js:14-26 | the count of an event equals the number of positions holding a scoring pair |
| Scoring.CountAppend | app/js/scoreCounter.js:14-26 | the count is additive over consecutive events |
| Scoring.CountBounds | app/js/scoreCounter.js:16-25 | an event adds at most one point per pair, and none when no pair is (ball, target) |
| Scoring.NumberToStringRoundTrip | app/js/scoreCounter.js:44-47 | the displayed text is a non-empty digit string that reads back as the score |
| Scoring.NumberToStringInjective | app/js/scoreCounter.js:40-46 | two scores show the same text iff they are equal |
| Score.ScoreCounter.constructor | app/js/scoreCounter.js:7-41 | the score starts at 0 and the element shows "0" |
| Score.ScoreCounter.UpdateScore | app/js/scoreCounter.js:44-47 | the score rises by exactly 1, and the element shows the new score |
| Score.ScoreCounter.OnCollisionStart | app/js/scoreCounter.js:14-26 | one event raises the score by exactly the number of scoring pairs, so the score never decreases, and the element keeps showing it |
| AppWorld.World.constructor | app/js/world.js:4-90 | with ballEntry present, keeps it, and defaults targetEntry to [0.9,0.2]; the score starts at 0; sets the scale; adds ground then target; builds the Ball on the 600 x 600 canvas from the raw config entry |
| AppWorld.World.AddGround | app/js/world.js:119-128 | the ground is static, 600 x 50 and centred at (300, 600) with id "ground" |
| AppWorld.World.AddTarget | app/js/world.js:131-145 | records targetX and targetY; the target is static, 20 x 120 and centred at (600x, 600y) with id "target" |
| AppWorld.World.ResizeCanvas | app/js/world.js:147-157 | the dimension becomes min(width, height) and the scale dimension/600, which is also the canvas's CSS scale; nothing else changes |
| AppWorld.World.UpdateScore | app/js/world.js:113-116 | the score rises by exactly 1, and the element shows the new score |
| AppWorld.World.OnCollisionStart | app/js/world.js:77-89 | one event raises the score by exactly the number of (ball, target) pairs |
| AppWorld.NewWorld | app/js/world.js:58-63 | construction throws iff ballEntry is absent; otherwise the ball's entry is the config's own, so the [0.5,0.5] default never reaches the ball |
| AppWorld.ScaleFits | app/js/world.js:21-26 | scale * 600 is the smaller dimension; the scale fits both dimensions, equals one of them over 600, does not depend on argument order, and the same dimensions give the same scale |
| AppWorld.DefaultTarget | app/js/world.js:15 | without a targetEntry option the target stands at (540, 120) |

## Left out

- The Matter.js engine: integration, collision detection and constraint
  solving are not modelled. A call is recorded in the trace. Collision
  pairs are inputs. Only `setVelocity`, `setPosition` and `setVertices` are
  reflected in the body and block records, because their effect is stated
  by their arguments.
- The mass and friction the engine gives a new circle: they are the input
  `CircleDefaults`. The engine derives the mass from the radius and the
  density. Mass must be positive; the forecast divides by it.
- Floating-point rounding, NaN and Infinity: numbers are `real`. An
  undefined pointer coordinate in world.js is `None`, and it yields no aim
  line.
- Canvas drawing, sprites, CSS styling and DOM creation. Only the computed
  dots, opacities, aim line, CSS scale and displayed score text are
  modelled.
- Event-listener registration, the frame loop (`Runner.run`, `Render.run`,
  `drawCanvas`) and the resize listener: the handlers are methods that
  callers invoke.
- Aliasing between a body and the engine's world: each class holds its
  ball as a value and updates it in place.
- AppWorld.World.constructor: requires `ballEntry` to be present; the
  throwing case is modelled by `AppWorld.NewWorld`.
- The decorative bucket, the relay server, its client and the bootstrapping
  scripts are outside this model. The entry (0.1, 0.1) those scripts pass
  appears only in `BallLaunch.SpawnExample`.
- Score.ScoreCounter and AppWorld.World: the score is an unbounded natural. A JS number
  counts exactly only up to 2^53, and its text switches to exponent form
  from 1e21; neither limit is modelled.
- The commented-out code at the end of world.js and app/js/world.js.
