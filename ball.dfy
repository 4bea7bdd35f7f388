/**
 * The launchable ball of app/js/ball.js: a pointer gesture (down, move, up)
 * marks the body static while it is aimed, turns the drag into a force on
 * release, draws a forecast of the path while dragging, and recreates the
 * body at its entry point when it leaves the playfield sideways.
 */
module BallLaunch {
  import opened Physics
  import opened Forecast

  const ForceMultiplier: real := 0.0003
  const BoundsMargin: real := 10.0
  const DefaultBallWidth: real := 20.0
  const BallRestitution: real := 0.93

  /** The drag travel with the vertical axis flipped: screen-down becomes world-up. */
  function Travel(start: Vec, current: Vec): Vec {
    Vec(current.x - start.x, (current.y - start.y) * -1.0)
  }

  /** The vector a release hands to applyImpulse. */
  function ImpulseArgument(start: Vec, current: Vec): Vec {
    var travel := Travel(start, current);
    Vec(travel.x * ForceMultiplier, travel.y * ForceMultiplier)
  }

  /** The "has it been dragged" guard of applyImpulse: |x + y| > 0. */
  predicate Dragged(arg: Vec) {
    Abs(arg.x + arg.y) > 0.0
  }

  /** The engine calls applyImpulse issues for a body at `at`. */
  function ImpulseCalls(at: Vec, arg: Vec): seq<EngineCall> {
    if Dragged(arg) then [SetVelocity(Origin), ApplyForce(at, Vec(arg.x, -arg.y))] else []
  }

  /** The body after applyImpulse: setVelocity zeroes its velocity when the guard passes. */
  function AfterImpulse(b: Body, arg: Vec): Body {
    if Dragged(arg) then b.(vel := Origin) else b
  }

  /** The centre of a freshly added ball (addBall). */
  function SpawnCentre(cWidth: real, cHeight: real, posX: real, posY: real, ballWidth: real): Vec {
    Vec(cWidth * posX + ballWidth / 2.0, cHeight - cHeight * posY - ballWidth / 2.0)
  }

  /** The horizontal-only out-of-bounds rule of checkOutOfBounds. */
  predicate OutOfBounds(x: real, cWidth: real, ballWidth: real) {
    x > cWidth + ballWidth + BoundsMargin || x < 0.0 - ballWidth - BoundsMargin
  }

  function OrDefault(o: Option<real>, d: real): real {
    match o
    case Some(v) => v
    case None => d
  }

  class Ball {
    const cWidth: real
    const cHeight: real
    const posX: real
    const posY: real
    const ballWidth: real
    /** What the engine gives every circle this ball creates. */
    const engine: CircleDefaults

    var body: Body
    var isDragging: bool
    var pointerStart: Vec
    var pointerPos: Vec
    /** Every engine call this ball has issued, oldest first. */
    var trace: seq<EngineCall>

    /** The body is one this ball's engine could have created. */
    ghost predicate BodyValid()
      reads this
    {
      ValidDefaults(engine) && body.mass > 0.0 && body.id == "ball" && body.radius == ballWidth
    }

    ghost predicate Valid()
      reads this
    {
      && BodyValid()
      // the start point is reset as soon as a drag ends, and only a press sets it
      && (!isDragging ==> pointerStart == Origin)
    }

    /** The body addBall creates; it depends on nothing but the configuration. */
    function SpawnBody(): Body
      reads this
    {
      NewCircle("ball", SpawnCentre(cWidth, cHeight, posX, posY, ballWidth), ballWidth, BallRestitution, engine)
    }

    /**
     * new Ball({render, posX, posY, ballWidth}); an absent option takes its
     * default (0, 0 and 20). The canvas size is the render's canvas size.
     */
    constructor (canvasWidth: real, canvasHeight: real, posXOption: Option<real>, posYOption: Option<real>,
                 ballWidthOption: Option<real>, engine: CircleDefaults)
      requires ValidDefaults(engine)
      ensures Valid()
      ensures cWidth == canvasWidth && cHeight == canvasHeight
      ensures posX == OrDefault(posXOption, 0.0) && posY == OrDefault(posYOption, 0.0)
      ensures ballWidth == OrDefault(ballWidthOption, DefaultBallWidth) && this.engine == engine
      ensures body == SpawnBody() && trace == [Add(SpawnBody())]
      ensures !isDragging && pointerStart == Origin && pointerPos == Origin
    {
      cWidth := canvasWidth;
      cHeight := canvasHeight;
      posX := OrDefault(posXOption, 0.0);
      posY := OrDefault(posYOption, 0.0);
      ballWidth := OrDefault(ballWidthOption, DefaultBallWidth);
      this.engine := engine;
      isDragging := false;
      pointerStart := Origin;
      pointerPos := Origin;
      new;
      body := SpawnBody();
      trace := [Add(body)];
    }

    /** setIsStatic: writes the flag on the body, nothing else. */
    method SetIsStatic(flag: bool)
      requires BodyValid()
      modifies this`body
      ensures BodyValid()
      ensures body == old(body).(isStatic := flag)
    {
      body := body.(isStatic := flag);
    }

    /** onPointerDown: starts a drag at p, whether or not one is already in progress. */
    method OnPointerDown(p: Vec)
      requires Valid()
      modifies this`body, this`isDragging, this`pointerStart, this`pointerPos
      ensures Valid()
      ensures body == old(body).(isStatic := true)
      ensures isDragging && pointerStart == p && pointerPos == p
    {
      SetIsStatic(true);
      isDragging := true;
      pointerStart := p;
      pointerPos := p;
    }

    /** onPointerMove: records p as the current pointer, dragging or not. */
    method OnPointerMove(p: Vec)
      requires Valid()
      modifies this`pointerPos
      ensures Valid()
      ensures pointerPos == p
    {
      pointerPos := p;
    }

    /** onPointerUp: a release outside a drag changes nothing and calls nothing. */
    method OnPointerUp()
      requires Valid()
      modifies this`body, this`isDragging, this`pointerStart, this`pointerPos, this`trace
      ensures Valid()
      ensures !old(isDragging) ==>
        body == old(body) && !isDragging && pointerStart == old(pointerStart)
        && pointerPos == old(pointerPos) && trace == old(trace)
      ensures old(isDragging) ==>
        var arg := ImpulseArgument(old(pointerStart), old(pointerPos));
        && body == AfterImpulse(old(body).(isStatic := false), arg)
        && trace == old(trace) + ImpulseCalls(old(body).pos, arg)
        && !isDragging && pointerStart == Origin && pointerPos == Origin
    {
      if isDragging {
        HandlePointerUp();
      }
    }

    /** handlePointerUp: ends the drag, releases the body and launches it. */
    method HandlePointerUp()
      requires Valid()
      modifies this`body, this`isDragging, this`pointerStart, this`pointerPos, this`trace
      ensures Valid()
      ensures var arg := ImpulseArgument(old(pointerStart), old(pointerPos));
        && body == AfterImpulse(old(body).(isStatic := false), arg)
        && trace == old(trace) + ImpulseCalls(old(body).pos, arg)
      ensures !isDragging && pointerStart == Origin && pointerPos == Origin
    {
      SetIsStatic(false);
      isDragging := false;
      var travel := Vec(pointerPos.x - pointerStart.x, (pointerPos.y - pointerStart.y) * -1.0);
      ApplyImpulse(Vec(travel.x * ForceMultiplier, travel.y * ForceMultiplier));
      ResetPointerPositions();
    }

    /** resetPointerPositions */
    method ResetPointerPositions()
      requires BodyValid()
      modifies this`pointerStart, this`pointerPos
      ensures Valid()
      ensures pointerStart == Origin && pointerPos == Origin
    {
      pointerStart := Origin;
      pointerPos := Origin;
    }

    /**
     * applyImpulse([x, y]): when |x + y| > 0, zero the velocity and then
     * apply the force (x, -y) at the body's position.
     */
    method ApplyImpulse(arg: Vec)
      requires BodyValid()
      modifies this`body, this`trace
      ensures BodyValid()
      ensures body == AfterImpulse(old(body), arg)
      ensures trace == old(trace) + ImpulseCalls(old(body).pos, arg)
    {
      if Abs(arg.x + arg.y) > 0.0 {
        body := body.(vel := Origin);
        trace := trace + [SetVelocity(Origin)];
        trace := trace + [ApplyForce(body.pos, Vec(arg.x, -arg.y))];
      }
    }

    /** afterUpdate: forecast while dragging (from the body before any respawn), then the bounds check. */
    method AfterUpdate() returns (dots: seq<Dot>)
      requires Valid()
      modifies this`body, this`trace
      ensures Valid()
      ensures dots == if isDragging
        then PredictedPath(old(body).pos, pointerStart, pointerPos, old(body).mass, old(body).friction)
        else []
      ensures OutOfBounds(old(body).pos.x, cWidth, ballWidth) ==>
        body == SpawnBody() && trace == old(trace) + [Remove(old(body)), Add(SpawnBody())]
      ensures !OutOfBounds(old(body).pos.x, cWidth, ballWidth) ==>
        body == old(body) && trace == old(trace)
    {
      dots := [];
      if isDragging {
        dots := DrawPredictedPath();
      }
      CheckOutOfBounds();
    }

    /** checkOutOfBounds: only the x coordinate is tested. */
    method CheckOutOfBounds()
      requires BodyValid()
      modifies this`body, this`trace
      ensures BodyValid()
      ensures OutOfBounds(old(body).pos.x, cWidth, ballWidth) ==>
        body == SpawnBody() && trace == old(trace) + [Remove(old(body)), Add(SpawnBody())]
      ensures !OutOfBounds(old(body).pos.x, cWidth, ballWidth) ==>
        body == old(body) && trace == old(trace)
    {
      if body.pos.x > cWidth + ballWidth + 10.0 || body.pos.x < 0.0 - ballWidth - 10.0 {
        trace := trace + [Remove(body)];
        AddBall();
      }
    }

    /** addBall: creates the body at the spawn formula and adds it to the world. */
    method AddBall()
      requires ValidDefaults(engine)
      modifies this`body, this`trace
      ensures BodyValid()
      ensures body == SpawnBody() && trace == old(trace) + [Add(SpawnBody())]
    {
      body := NewCircle("ball", Vec(cWidth * posX + ballWidth / 2.0, cHeight - cHeight * posY - ballWidth / 2.0),
                        ballWidth, BallRestitution, engine);
      trace := trace + [Add(body)];
    }

    /**
     * drawPredictedPath: the dots of the forecast from the body's position,
     * without drawing them. Reads the state and changes nothing.
     */
    method DrawPredictedPath() returns (dots: seq<Dot>)
      requires body.mass > 0.0
      ensures dots == PredictedPath(body.pos, pointerStart, pointerPos, body.mass, body.friction)
    {
      var x := pointerPos.x;
      var y := pointerPos.y;
      var circleCenter := body.pos;
      var mass := body.mass;
      var frictionAir := body.friction;
      var force := Vec((x - pointerStart.x) * ForceScale, (y - pointerStart.y) * ForceScale);
      var position := circleCenter;
      var velocity := Vec(force.x / mass, force.y / mass);
      ghost var m0 := Motion(circleCenter, velocity);
      dots := [];
      for i := 1 to Steps + 1
        invariant |dots| == i - 1
        invariant Motion(position, velocity) == After(m0, frictionAir, i - 1)
        invariant forall j :: 0 <= j < i - 1 ==> dots[j] == Dot(After(m0, frictionAir, j + 1).pos, Alpha(j + 1))
      {
        ghost var before := Motion(position, velocity);
        var acceleration := Vec(-frictionAir * velocity.x, -frictionAir * velocity.y - Gravity);
        velocity := Vec(velocity.x + acceleration.x * TimeStep, velocity.y + acceleration.y * TimeStep);
        position := Vec(position.x + velocity.x * TimeStep, position.y + velocity.y * TimeStep);
        assert Motion(position, velocity) == Step(before, frictionAir);
        dots := dots + [Dot(position, 1.0 - (i as real) / (Steps as real))];
      }
      ghost var path := PredictedPath(circleCenter, pointerStart, pointerPos, mass, frictionAir);
      assert m0 == Motion(circleCenter, InitialVelocity(pointerStart, pointerPos, mass));
      PathShape(circleCenter, m0.vel, frictionAir);
      assert forall j :: 0 <= j < Steps ==> dots[j] == path[j];
    }

    /**
     * The engine's own step, which the game does not perform: it moves a
     * non-static body and leaves a static one where it is.
     */
    method EngineAdvance(pos: Vec, vel: Vec)
      requires BodyValid()
      modifies this`body
      ensures BodyValid()
      ensures body == if old(body).isStatic then old(body) else old(body).(pos := pos, vel := vel)
    {
      if !body.isStatic {
        body := body.(pos := pos, vel := vel);
      }
    }
  }

  /**
   * A press makes the body static, so an engine step taken while the drag
   * is held leaves the body where it was, velocity included.
   */
  method PressHoldsBall(ball: Ball, p: Vec, pos: Vec, vel: Vec)
    requires ball.Valid()
    modifies ball
    ensures ball.Valid() && ball.isDragging
    ensures ball.body == old(ball.body).(isStatic := true)
    ensures ball.body.pos == old(ball.body).pos && ball.body.vel == old(ball.body).vel
  {
    ball.OnPointerDown(p);
    ball.EngineAdvance(pos, vel);
  }

  /**
   * A whole gesture: press at start, move to current, release. The ball
   * ends released with the gesture reset; it is launched with
   * 0.0003 * (current - start) after a velocity reset, unless dx == dy (a
   * click without movement among them), in which case no engine call is
   * made and the velocity is kept.
   */
  method DragAndRelease(ball: Ball, start: Vec, current: Vec)
    requires ball.Valid()
    modifies ball
    ensures ball.Valid()
    ensures !ball.isDragging && ball.pointerStart == Origin && ball.pointerPos == Origin
    ensures current.x - start.x == current.y - start.y ==>
      ball.trace == old(ball.trace) && ball.body == old(ball.body).(isStatic := false)
    ensures current.x - start.x != current.y - start.y ==>
      && ball.trace == old(ball.trace)
           + [SetVelocity(Origin), ApplyForce(old(ball.body).pos, current.Minus(start).Scale(ForceMultiplier))]
      && ball.body == old(ball.body).(isStatic := false, vel := Origin)
  {
    ball.OnPointerDown(start);
    ball.OnPointerMove(current);
    ball.OnPointerUp();
    ReleaseForce(old(ball.body).pos, start, current);
  }

  /**
   * The two vertical sign flips cancel: a release issues no call at all
   * exactly when the screen drag has dx == dy (a zero-length drag among
   * them), and otherwise zeroes the velocity and then applies exactly
   * 0.0003 * (current - start).
   */
  lemma ReleaseForce(at: Vec, start: Vec, current: Vec)
    ensures current.x - start.x == current.y - start.y ==>
      ImpulseCalls(at, ImpulseArgument(start, current)) == []
    ensures current.x - start.x != current.y - start.y ==>
      ImpulseCalls(at, ImpulseArgument(start, current))
        == [SetVelocity(Origin), ApplyForce(at, current.Minus(start).Scale(ForceMultiplier))]
  {
  }

  /** A click without movement launches nothing and leaves the velocity alone. */
  lemma ClickIsNoLaunch(b: Body, p: Vec)
    ensures ImpulseCalls(b.pos, ImpulseArgument(p, p)) == []
    ensures AfterImpulse(b, ImpulseArgument(p, p)) == b
  {
  }

  /**
   * The forecast starts in the direction the release would push: its
   * initial velocity is the force of a release at the current pointer
   * scaled by 1900 / mass (0.57 / 0.0003 = 1900).
   */
  lemma ForecastAlongForce(start: Vec, current: Vec, mass: real)
    requires mass > 0.0
    ensures InitialVelocity(start, current, mass)
         == current.Minus(start).Scale(ForceMultiplier).Scale(1900.0 / mass)
  {
    var d := current.Minus(start);
    assert ForceScale == ForceMultiplier * 1900.0;
    assert d.x * ForceScale / mass == (1900.0 / mass) * (ForceMultiplier * d.x);
    assert d.y * ForceScale / mass == (1900.0 / mass) * (ForceMultiplier * d.y);
  }

  /**
   * The bounds window: the ball is kept exactly while its centre lies in
   * [-ballWidth - 10, cWidth + ballWidth + 10]; left and right exits are
   * treated alike, and the vertical position plays no part.
   */
  lemma BoundsWindow(x: real, cWidth: real, ballWidth: real)
    ensures !OutOfBounds(x, cWidth, ballWidth)
        <==> -ballWidth - BoundsMargin <= x <= cWidth + ballWidth + BoundsMargin
    ensures OutOfBounds(cWidth + ballWidth + BoundsMargin + 1.0, cWidth, ballWidth)
    ensures OutOfBounds(-ballWidth - BoundsMargin - 1.0, cWidth, ballWidth)
  {
  }

  /** The entry used by the game shell: fractions (0.1, 0.1) on 600 x 600 with width 20 spawn at (70, 530). */
  lemma SpawnExample()
    ensures SpawnCentre(600.0, 600.0, 0.1, 0.1, 20.0) == Vec(70.0, 530.0)
  {
  }

  /** A drag from (100, 100) to (150, 50) zeroes the velocity and then applies (0.015, -0.015). */
  lemma LaunchExample(at: Vec)
    ensures ImpulseCalls(at, ImpulseArgument(Vec(100.0, 100.0), Vec(150.0, 50.0)))
         == [SetVelocity(Origin), ApplyForce(at, Vec(0.015, -0.015))]
  {
  }
}
