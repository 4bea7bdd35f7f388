/**
 * The world of app/js/world.js: a fixed 600 x 600 playfield scaled to fit
 * its container, a static ground and target, the Ball of app/js/ball.js,
 * and a score raised by collisionStart events.
 */
module AppWorld {
  import opened Physics
  import opened Scoring
  import opened BallLaunch

  const BaseWidth: real := 600.0
  const AppBallWidth: real := 20.0
  const DefaultBallEntry: Vec := Vec(0.5, 0.5)
  const DefaultTargetEntry: Vec := Vec(0.9, 0.2)

  /** The options of `new World(container, worldConfig)` that the world reads. */
  datatype WorldConfig = WorldConfig(ballEntry: Option<Vec>, targetEntry: Option<Vec>)

  function EntryOr(o: Option<Vec>, d: Vec): Vec {
    match o
    case Some(e) => e
    case None => d
  }

  /** The canvas scale for a container of the given client size. */
  function ScaleFor(clientWidth: real, clientHeight: real): real {
    Min(clientWidth, clientHeight) / BaseWidth
  }

  /** The ground: static, 600 x 50, centred at (300, 600). */
  function GroundBlock(): Block {
    Block(Some("ground"), Vec(BaseWidth / 2.0, BaseWidth), BaseWidth, 50.0, true)
  }

  /** The target: static, 20 x 120, centred at 600 times the entry fractions. */
  function TargetBlock(e: Vec): Block {
    Block(Some("target"), Vec(BaseWidth * e.x, BaseWidth * e.y), 20.0, 120.0, true)
  }

  class World {
    const ballEntry: Vec
    const ballWidth: real
    const targetEntry: Vec
    const baseWidth: real

    var score: nat
    /** The counter element's innerHTML. */
    var shown: string
    var dimension: real
    var scale: real
    /** The canvas element's CSS scale. */
    var canvasScale: real

    var ground: Block
    var target: Block
    var targetX: real
    var targetY: real
    var ball: Ball

    var isDragging: bool
    var pointerStartClient: Option<Vec>
    var pointerPosClient: Option<Vec>

    /** Every engine call the world itself has issued, oldest first (the ball keeps its own). */
    var trace: seq<EngineCall>

    ghost predicate Valid()
      reads this
    {
      && shown == NumberToString(score)
      && baseWidth == BaseWidth
      && scale == dimension / BaseWidth
    }

    /**
     * The constructor when `worldConfig.ballEntry` is present; the Ball is
     * built from that array itself, not from the defaulted `ballEntry`. The
     * Ball sees the render's 600 x 600 canvas.
     */
    constructor (clientWidth: real, clientHeight: real, config: WorldConfig, engine: CircleDefaults)
      requires config.ballEntry.Some? && ValidDefaults(engine)
      ensures Valid()
      ensures ballEntry == config.ballEntry.value && ballWidth == AppBallWidth
      ensures targetEntry == EntryOr(config.targetEntry, DefaultTargetEntry)
      ensures score == 0 && shown == "0"
      ensures dimension == Min(clientWidth, clientHeight) && scale == ScaleFor(clientWidth, clientHeight)
      ensures canvasScale == scale
      ensures ground == GroundBlock() && target == TargetBlock(targetEntry)
      ensures targetX == targetEntry.x && targetY == targetEntry.y
      ensures trace == [AddBlock(GroundBlock()), AddBlock(TargetBlock(targetEntry))]
      ensures fresh(ball) && ball.Valid()
      ensures ball.cWidth == BaseWidth && ball.cHeight == BaseWidth && ball.ballWidth == DefaultBallWidth
      ensures ball.posX == config.ballEntry.value.x && ball.posY == config.ballEntry.value.y
      ensures ball.body == ball.SpawnBody() && ball.trace == [Add(ball.SpawnBody())]
      ensures !isDragging && pointerStartClient == None && pointerPosClient == None
    {
      ballEntry := EntryOr(config.ballEntry, DefaultBallEntry);
      ballWidth := AppBallWidth;
      targetEntry := EntryOr(config.targetEntry, DefaultTargetEntry);
      baseWidth := BaseWidth;
      score := 0;
      dimension := Min(clientWidth, clientHeight);
      scale := Min(clientWidth, clientHeight) / BaseWidth;
      trace := [];
      ball := new Ball(BaseWidth, BaseWidth, Some(config.ballEntry.value.x), Some(config.ballEntry.value.y),
                       None, engine);
      isDragging := false;
      pointerStartClient := None;
      pointerPosClient := None;
      shown := NumberToString(0);
      new;
      ResizeCanvas(clientWidth, clientHeight);
      AddGround();
      AddTarget(targetEntry);
    }

    /** addGround */
    method AddGround()
      requires baseWidth == BaseWidth
      modifies this`ground, this`trace
      ensures ground == GroundBlock() && trace == old(trace) + [AddBlock(GroundBlock())]
    {
      ground := Block(Some("ground"), Vec(baseWidth / 2.0, baseWidth), baseWidth, 50.0, true);
      trace := trace + [AddBlock(ground)];
    }

    /** addTarget([x, y]) */
    method AddTarget(e: Vec)
      requires baseWidth == BaseWidth
      modifies this`target, this`targetX, this`targetY, this`trace
      ensures targetX == e.x && targetY == e.y
      ensures target == TargetBlock(e) && trace == old(trace) + [AddBlock(TargetBlock(e))]
    {
      targetX := e.x;
      targetY := e.y;
      target := Block(Some("target"), Vec(baseWidth * e.x, baseWidth * e.y), 20.0, 120.0, true);
      trace := trace + [AddBlock(target)];
    }

    /** resizeCanvas for a container of the given client size: only the scale changes. */
    method ResizeCanvas(clientWidth: real, clientHeight: real)
      requires Valid()
      modifies this`dimension, this`scale, this`canvasScale
      ensures Valid()
      ensures dimension == Min(clientWidth, clientHeight) && scale == ScaleFor(clientWidth, clientHeight)
      ensures canvasScale == scale
    {
      dimension := Min(clientWidth, clientHeight);
      scale := dimension / baseWidth;
      canvasScale := scale;
    }

    /** updateScore */
    method UpdateScore()
      requires Valid()
      modifies this`score, this`shown
      ensures Valid()
      ensures score == old(score) + 1 && shown == NumberToString(old(score) + 1)
    {
      score := score + 1;
      shown := NumberToString(score);
    }

    /** The collisionStart handler, the same rule as the score counter's. */
    method OnCollisionStart(pairs: seq<Pair>)
      requires Valid()
      modifies this`score, this`shown
      ensures Valid()
      ensures score == old(score) + CountHits(pairs)
    {
      for i := 0 to |pairs|
        invariant Valid()
        invariant score == old(score) + CountHits(pairs[..i])
      {
        assert pairs[..i + 1][..i] == pairs[..i];
        if (pairs[i].bodyA.id == "ball" && pairs[i].bodyB.id == "target")
           || (pairs[i].bodyA.id == "target" && BodyStrictEqualsString(pairs[i].bodyB, "ball")) {
          UpdateScore();
        }
      }
      assert pairs[..|pairs|] == pairs;
    }
  }

  /** What `new World(container, worldConfig)` yields: the world, or the TypeError it throws. */
  datatype Outcome = Built(world: World) | ThrewTypeError

  /**
   * new World(container, worldConfig): the Ball is built from the first
   * element of the raw ballEntry option, which throws a TypeError when the
   * option is absent, so the (0.5, 0.5) default never places a ball.
   */
  method NewWorld(clientWidth: real, clientHeight: real, config: WorldConfig, engine: CircleDefaults)
    returns (r: Outcome)
    requires ValidDefaults(engine)
    ensures r.ThrewTypeError? <==> config.ballEntry.None?
    ensures r.Built? ==>
      && fresh(r.world) && r.world.Valid() && r.world.score == 0
      && r.world.ball.posX == config.ballEntry.value.x && r.world.ball.posY == config.ballEntry.value.y
  {
    if config.ballEntry.None? {
      r := ThrewTypeError;
    } else {
      var w := new World(clientWidth, clientHeight, config, engine);
      r := Built(w);
    }
  }

  /**
   * The scale is the smaller client dimension over 600: it fits both
   * dimensions and is reached by one of them. Recomputing it for unchanged
   * dimensions gives the same value.
   */
  lemma ScaleFits(clientWidth: real, clientHeight: real)
    ensures ScaleFor(clientWidth, clientHeight) * BaseWidth == Min(clientWidth, clientHeight)
    ensures ScaleFor(clientWidth, clientHeight) <= clientWidth / BaseWidth
    ensures ScaleFor(clientWidth, clientHeight) <= clientHeight / BaseWidth
    ensures ScaleFor(clientWidth, clientHeight) == clientWidth / BaseWidth
         || ScaleFor(clientWidth, clientHeight) == clientHeight / BaseWidth
    ensures ScaleFor(clientWidth, clientHeight) == ScaleFor(clientHeight, clientWidth)
  {
  }

  /** Without a targetEntry option the target stands at (540, 120). */
  lemma DefaultTarget(ballEntry: Option<Vec>)
    ensures TargetBlock(EntryOr(WorldConfig(ballEntry, None).targetEntry, DefaultTargetEntry))
         == Block(Some("target"), Vec(540.0, 120.0), 20.0, 120.0, true)
  {
  }
}
