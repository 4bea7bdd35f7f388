/**
 * The older, world-level variant of the game in world.js at the root of the
 * repository. The gesture is kept by the world itself; a release pushes the
 * ball opposite to the drag, an aim line (not dots) is drawn while dragging,
 * the bounds margin is 50, the ball is offset by its full radius, and a
 * resize re-places the ball and the ground.
 */
module LegacyWorld {
  import opened Physics

  const LegacyForceMultiplier: real := 0.0003
  const LegacyMargin: real := 50.0
  const LegacyBallWidth: real := 20.0
  const LegacyRestitution: real := 0.93
  const DefaultEntry: Vec := Vec(0.5, 0.5)
  const GroundHeight: real := 50.0

  /** The options of `new World(container, worldConfig)` that the world reads. */
  datatype WorldConfig = WorldConfig(ballEntry: Option<Vec>)

  /** The ball entry option, or (0.5, 0.5) when it is absent. */
  function EntryOf(config: WorldConfig): Vec {
    match config.ballEntry
    case Some(e) => e
    case None => DefaultEntry
  }

  /** The centre addBall gives the ball for entry fractions e. */
  function LegacySpawnCentre(cWidth: real, cHeight: real, e: Vec, ballWidth: real): Vec {
    Vec(cWidth * e.x + ballWidth, cHeight - cHeight * e.y - ballWidth)
  }

  /** The out-of-bounds test of the afterUpdate handler: x only, margin 50. */
  predicate LegacyOutOfBounds(x: real, cWidth: real, ballWidth: real) {
    x > cWidth + ballWidth + LegacyMargin || x < 0.0 - ballWidth - LegacyMargin
  }

  /** The pointer travel of a release at `end`, the vertical axis flipped. */
  function LegacyTravel(start: Vec, end: Vec): Vec {
    Vec(end.x - start.x, start.y - end.y)
  }

  /** The engine calls applyImpulse issues: guard |x + y| > 0, force (-0.0003 x, 0.0003 y). */
  function LegacyImpulseCalls(at: Vec, travel: Vec): seq<EngineCall> {
    if Abs(travel.x + travel.y) > 0.0
    then [SetVelocity(Origin), ApplyForce(at, Vec(travel.x * -LegacyForceMultiplier, travel.y * LegacyForceMultiplier))]
    else []
  }

  function LegacyAfterImpulse(b: Body, travel: Vec): Body {
    if Abs(travel.x + travel.y) > 0.0 then b.(vel := Origin) else b
  }

  /** A drawn line segment. */
  datatype Segment = Segment(from: Vec, to: Vec)

  /**
   * The aim line of drawBallPath, from the ball to ball + (start - current).
   * The pointer fields start out as empty arrays, whose elements are
   * undefined; the line then has no numeric endpoint and nothing is drawn.
   */
  function AimLine(ballPos: Vec, start: Option<Vec>, current: Option<Vec>): Option<Segment> {
    match (start, current)
    case (Some(s), Some(c)) => Some(Segment(ballPos, ballPos.Plus(s.Minus(c))))
    case _ => None
  }

  /** The ground: static, as wide as the canvas, 50 high, centred on the bottom edge. */
  function GroundFor(cWidth: real, cHeight: real): Block {
    Block(None, Vec(cWidth / 2.0, cHeight), cWidth, GroundHeight, true)
  }

  /** The target: static, 20 x 120, at (cWidth / 1.1, cWidth / 8); both coordinates come from the width. */
  function TargetFor(cWidth: real): Block {
    Block(None, Vec(cWidth / 1.1, cWidth / 8.0), 20.0, 120.0, true)
  }

  class World {
    var cWidth: real
    var cHeight: real
    const ballEntry: Vec
    const ballWidth: real
    const engine: CircleDefaults

    var ground: Block
    var target: Block
    var ball: Body
    var ballX: real
    var ballY: real

    var isDragging: bool
    var pointerStartClient: Option<Vec>
    var pointerPosClient: Option<Vec>
    var pointerTravel: Option<Vec>

    /** render.bounds.max, render.options width/height and the canvas size. */
    var boundsMax: Vec
    var optionsSize: Vec
    var canvasSize: Vec

    /** Every engine call this world has issued, oldest first. */
    var trace: seq<EngineCall>

    /** The ball is one this world's engine could have created, and the ground spans the canvas. */
    ghost predicate BodiesValid()
      reads this
    {
      && ValidDefaults(engine) && ball.mass > 0.0 && ball.id == "ball" && ball.radius == ballWidth
      && ballWidth == LegacyBallWidth
      && ground == GroundFor(cWidth, cHeight)
    }

    ghost predicate Valid()
      reads this
    {
      && BodiesValid()
      // a drag always has a start point; outside a drag the start is unset or reset
      && (isDragging ==> pointerStartClient.Some?)
      && (!isDragging ==> pointerStartClient == None || pointerStartClient == Some(Origin))
    }

    /** The ball addBall creates for entry fractions e on the current canvas. */
    function SpawnBall(e: Vec): Body
      reads this
    {
      NewCircle("ball", LegacySpawnCentre(cWidth, cHeight, e, ballWidth), ballWidth, LegacyRestitution, engine)
    }

    /** new World(container, worldConfig) for a container of the given client size. */
    constructor (clientWidth: real, clientHeight: real, config: WorldConfig, engine: CircleDefaults)
      requires ValidDefaults(engine)
      ensures Valid()
      ensures cWidth == clientWidth && cHeight == clientHeight && ballEntry == EntryOf(config)
      ensures ground == GroundFor(clientWidth, clientHeight) && target == TargetFor(clientWidth)
      ensures ball == SpawnBall(EntryOf(config)) && ballX == EntryOf(config).x && ballY == EntryOf(config).y
      ensures trace == [AddBlock(ground), AddBlock(target), Add(ball)]
      ensures !isDragging && pointerStartClient == None && pointerPosClient == None && pointerTravel == None
      ensures boundsMax == optionsSize == canvasSize == Vec(clientWidth, clientHeight)
    {
      cWidth := clientWidth;
      cHeight := clientHeight;
      ballEntry := EntryOf(config);
      ballWidth := LegacyBallWidth;
      this.engine := engine;
      boundsMax := Vec(clientWidth, clientHeight);
      optionsSize := Vec(clientWidth, clientHeight);
      canvasSize := Vec(clientWidth, clientHeight);
      trace := [];
      isDragging := false;
      pointerStartClient := None;
      pointerPosClient := None;
      pointerTravel := None;
      new;
      AddGround();
      AddTarget();
      AddBall(ballEntry);
    }

    /** addGround */
    method AddGround()
      modifies this`ground, this`trace
      ensures ground == GroundFor(cWidth, cHeight) && trace == old(trace) + [AddBlock(ground)]
    {
      ground := Block(None, Vec(cWidth / 2.0, cHeight), cWidth, 50.0, true);
      trace := trace + [AddBlock(ground)];
    }

    /** addTarget */
    method AddTarget()
      modifies this`target, this`trace
      ensures target == TargetFor(cWidth) && trace == old(trace) + [AddBlock(target)]
    {
      target := Block(None, Vec(cWidth / 1.1, cWidth / 8.0), 20.0, 120.0, true);
      trace := trace + [AddBlock(target)];
    }

    /** addBall([x, y]): records the entry and adds a ball offset by its full radius. */
    method AddBall(e: Vec)
      requires ValidDefaults(engine) && ballWidth == LegacyBallWidth
      requires ground == GroundFor(cWidth, cHeight)
      modifies this`ball, this`ballX, this`ballY, this`trace
      ensures BodiesValid()
      ensures ballX == e.x && ballY == e.y
      ensures ball == SpawnBall(e) && trace == old(trace) + [Add(ball)]
    {
      ballX := e.x;
      ballY := e.y;
      ball := NewCircle("ball", Vec(cWidth * e.x + ballWidth, cHeight - cHeight * e.y - ballWidth),
                        ballWidth, LegacyRestitution, engine);
      trace := trace + [Add(ball)];
    }

    /** The pointerdown handler: pointerPosClient is left as it was. */
    method OnPointerDown(p: Vec)
      requires Valid()
      modifies this`ball, this`isDragging, this`pointerStartClient
      ensures Valid()
      ensures ball == old(ball).(isStatic := true)
      ensures isDragging && pointerStartClient == Some(p)
    {
      ball := ball.(isStatic := true);
      isDragging := true;
      pointerStartClient := Some(p);
    }

    /** The pointerup handler: the travel is measured to the release point p. */
    method OnPointerUp(p: Vec)
      requires Valid()
      modifies this`ball, this`isDragging, this`pointerStartClient, this`pointerPosClient,
               this`pointerTravel, this`trace
      ensures Valid()
      ensures !old(isDragging) ==>
        ball == old(ball) && !isDragging && pointerStartClient == old(pointerStartClient)
        && pointerPosClient == old(pointerPosClient) && pointerTravel == old(pointerTravel)
        && trace == old(trace)
      ensures old(isDragging) ==>
        var travel := LegacyTravel(old(pointerStartClient).value, p);
        && ball == LegacyAfterImpulse(old(ball).(isStatic := false), travel)
        && trace == old(trace) + LegacyImpulseCalls(old(ball).pos, travel)
        && !isDragging && pointerStartClient == Some(Origin) && pointerPosClient == Some(Origin)
        && pointerTravel == Some(Origin)
    {
      if isDragging {
        ball := ball.(isStatic := false);
        isDragging := false;
        var pointerEndClient := p;
        var start := pointerStartClient.value;
        var travel := Vec(pointerEndClient.x - start.x, start.y - pointerEndClient.y);
        ApplyImpulse(travel);
        pointerStartClient := Some(Origin);
        pointerTravel := Some(Origin);
        pointerPosClient := Some(Origin);
      }
    }

    /** The pointermove handler. */
    method OnPointerMove(p: Vec)
      modifies this`pointerPosClient
      ensures pointerPosClient == Some(p)
    {
      pointerPosClient := Some(p);
    }

    /** applyImpulse([x, y]) */
    method ApplyImpulse(travel: Vec)
      requires BodiesValid()
      modifies this`ball, this`trace
      ensures BodiesValid()
      ensures ball == LegacyAfterImpulse(old(ball), travel)
      ensures trace == old(trace) + LegacyImpulseCalls(old(ball).pos, travel)
    {
      if Abs(travel.x + travel.y) > 0.0 {
        ball := ball.(vel := Origin);
        trace := trace + [SetVelocity(Origin)];
        trace := trace + [ApplyForce(ball.pos, Vec(travel.x * -0.0003, travel.y * 0.0003))];
      }
    }

    /** drawBallPath: reads the state and changes nothing. */
    method DrawBallPath() returns (line: Option<Segment>)
      ensures line == AimLine(ball.pos, pointerStartClient, pointerPosClient)
    {
      if pointerStartClient.Some? && pointerPosClient.Some? {
        var s := pointerStartClient.value;
        var c := pointerPosClient.value;
        line := Some(Segment(ball.pos, Vec(ball.pos.x + (s.x - c.x), ball.pos.y + (s.y - c.y))));
      } else {
        line := None;
      }
    }

    /** The afterUpdate handler: aim line while dragging, then the bounds check against the current canvas. */
    method AfterUpdate() returns (line: Option<Segment>)
      requires Valid()
      modifies this`ball, this`ballX, this`ballY, this`trace
      ensures Valid()
      ensures line == if isDragging then AimLine(old(ball).pos, pointerStartClient, pointerPosClient) else None
      ensures LegacyOutOfBounds(old(ball).pos.x, cWidth, ballWidth) ==>
        ball == SpawnBall(ballEntry) && ballX == ballEntry.x && ballY == ballEntry.y
        && trace == old(trace) + [Remove(old(ball)), Add(ball)]
      ensures !LegacyOutOfBounds(old(ball).pos.x, cWidth, ballWidth) ==>
        ball == old(ball) && ballX == old(ballX) && ballY == old(ballY) && trace == old(trace)
    {
      line := None;
      if isDragging {
        line := DrawBallPath();
      }
      if ball.pos.x > cWidth + ballWidth + 50.0 || ball.pos.x < 0.0 - ballWidth - 50.0 {
        trace := trace + [Remove(ball)];
        AddBall(ballEntry);
      }
    }

    /** resizeCanvas for a container of the new client size. */
    method ResizeCanvas(clientWidth: real, clientHeight: real)
      requires Valid()
      modifies this`cWidth, this`cHeight, this`boundsMax, this`optionsSize, this`canvasSize,
               this`ball, this`ground, this`trace
      ensures Valid()
      ensures cWidth == clientWidth && cHeight == clientHeight
      ensures boundsMax == optionsSize == canvasSize == Vec(clientWidth, clientHeight)
      ensures ball == old(ball).(pos := LegacySpawnCentre(clientWidth, clientHeight, Vec(ballX, ballY), ballWidth))
      ensures ground == GroundFor(clientWidth, clientHeight)
      ensures trace == old(trace) + [SetPosition(BallBody, ball.pos),
                                     SetPosition(GroundBody, ground.centre),
                                     SetVertices(GroundBody, clientWidth, GroundHeight)]
    {
      cWidth := clientWidth;
      cHeight := clientHeight;
      boundsMax := Vec(cWidth, cHeight);
      optionsSize := Vec(cWidth, cHeight);
      canvasSize := Vec(cWidth, cHeight);
      var ballPos := Vec(cWidth * ballX + ballWidth, cHeight - cHeight * ballY - ballWidth);
      ball := ball.(pos := ballPos);
      trace := trace + [SetPosition(BallBody, ballPos)];
      var groundPos := Vec(cWidth / 2.0, cHeight);
      ground := ground.(centre := groundPos);
      trace := trace + [SetPosition(GroundBody, groundPos)];
      // setVertices with a cWidth x 50 box re-centred on the ground's position
      ground := ground.(width := cWidth, height := 50.0);
      trace := trace + [SetVertices(GroundBody, cWidth, 50.0)];
    }
  }

  /**
   * A whole gesture on the older world: press at start, release at end.
   * The ball ends released; it is pushed with 0.0003 * (start - end) after
   * a velocity reset, unless dx == dy, in which case no engine call is made.
   */
  method DragAndRelease(world: World, start: Vec, end: Vec)
    requires world.Valid()
    modifies world
    ensures world.Valid()
    ensures !world.isDragging && world.pointerStartClient == Some(Origin) && world.pointerPosClient == Some(Origin)
    ensures end.x - start.x == end.y - start.y ==>
      world.trace == old(world.trace) && world.ball == old(world.ball).(isStatic := false)
    ensures end.x - start.x != end.y - start.y ==>
      && world.trace == old(world.trace)
           + [SetVelocity(Origin), ApplyForce(old(world.ball).pos, start.Minus(end).Scale(LegacyForceMultiplier))]
      && world.ball == old(world.ball).(isStatic := false, vel := Origin)
  {
    world.OnPointerDown(start);
    world.OnPointerUp(end);
    AimLineShowsForce(old(world.ball).pos, old(world.ball).pos, start, end);
  }

  /**
   * The aim line shows the direction of the push: when the pointer is at
   * the release point, the line runs from the ball along start - end, and
   * the force a release there applies (if the guard lets it through) is
   * exactly 0.0003 * (start - end), opposite to the drag.
   */
  lemma AimLineShowsForce(ballPos: Vec, at: Vec, start: Vec, end: Vec)
    ensures AimLine(ballPos, Some(start), Some(end)) == Some(Segment(ballPos, ballPos.Plus(start.Minus(end))))
    ensures end.x - start.x == end.y - start.y ==> LegacyImpulseCalls(at, LegacyTravel(start, end)) == []
    ensures end.x - start.x != end.y - start.y ==>
      LegacyImpulseCalls(at, LegacyTravel(start, end))
        == [SetVelocity(Origin), ApplyForce(at, start.Minus(end).Scale(LegacyForceMultiplier))]
  {
  }

  /**
   * While pointerPosClient is unset (from construction until the first move
   * or the release of a drag), a press starts the drag and the aim line is
   * absent.
   */
  method PressBeforePointerIsSet(world: World, p: Vec) returns (line: Option<Segment>)
    requires world.Valid() && world.pointerPosClient == None
    modifies world
    ensures world.Valid() && world.isDragging && world.pointerStartClient == Some(p)
    ensures world.pointerPosClient == None
    ensures line == None
  {
    world.OnPointerDown(p);
    line := world.DrawBallPath();
  }

  /**
   * A tap (press at a, release at b, no move) leaves the current pointer at
   * (0,0), so a later press at c shows an aim line from the ball to ball + c
   * although the pointer has not moved.
   */
  method TapThenPress(world: World, a: Vec, b: Vec, c: Vec) returns (line: Option<Segment>)
    requires world.Valid()
    modifies world
    ensures world.Valid() && world.isDragging && world.pointerPosClient == Some(Origin)
    ensures line == Some(Segment(world.ball.pos, world.ball.pos.Plus(c)))
  {
    world.OnPointerDown(a);
    world.OnPointerUp(b);
    world.OnPointerDown(c);
    line := world.DrawBallPath();
  }
}
