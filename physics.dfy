/**
 * The slice of the rigid-body engine (Matter.js) that the game touches.
 * The engine itself is not modelled: a body is a plain record, and every
 * call the game makes into the engine is appended to a trace of EngineCall
 * values that the game objects keep.
 */
module Physics {

  datatype Option<T> = None | Some(value: T)

  /** A point or a vector in canvas coordinates (y grows downwards). */
  datatype Vec = Vec(x: real, y: real) {
    function Plus(o: Vec): Vec { Vec(x + o.x, y + o.y) }
    function Minus(o: Vec): Vec { Vec(x - o.x, y - o.y) }
    function Scale(k: real): Vec { Vec(k * x, k * y) }
    function Neg(): Vec { Vec(-x, -y) }
  }

  const Origin: Vec := Vec(0.0, 0.0)

  function Abs(r: real): real { if r < 0.0 then -r else r }

  function Min(a: real, b: real): real { if a <= b then a else b }

  /** A circle body as the engine exposes it to the game. */
  datatype Body = Body(
    id: string,
    pos: Vec,
    vel: Vec,
    mass: real,
    friction: real,
    radius: real,
    restitution: real,
    isStatic: bool)

  /** A rectangle body (ground, target); `tag` is the `id` option, if any. */
  datatype Block = Block(tag: Option<string>, centre: Vec, width: real, height: real, isStatic: bool)

  /**
   * The values the engine assigns to a newly created circle: its mass
   * (derived by the engine from the radius and density) and its friction.
   */
  datatype CircleDefaults = CircleDefaults(mass: real, friction: real)

  predicate ValidDefaults(d: CircleDefaults) {
    d.mass > 0.0 && d.friction >= 0.0
  }

  /** The body `Bodies.circle(centre.x, centre.y, radius, {id, restitution})` returns. */
  function NewCircle(id: string, centre: Vec, radius: real, restitution: real, d: CircleDefaults): Body {
    Body(id, centre, Origin, d.mass, d.friction, radius, restitution, false)
  }

  /** The bodies an engine call can be aimed at. */
  datatype Handle = BallBody | GroundBody | TargetBody

  /** One call into the engine, in the order the game issues them. */
  datatype EngineCall =
    | SetVelocity(velocity: Vec)                       // Body.setVelocity on the ball
    | ApplyForce(at: Vec, force: Vec)                  // Body.applyForce on the ball
    | Remove(removed: Body)                            // Composite.remove of the ball
    | Add(added: Body)                                 // Composite.add of a new ball
    | AddBlock(block: Block)                           // Composite.add of a rectangle
    | SetPosition(handle: Handle, position: Vec)       // Body.setPosition
    | SetVertices(handle: Handle, width: real, height: real)  // Body.setVertices with a width x height box
}
