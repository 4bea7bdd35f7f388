/**
 * The trajectory forecast drawn while the ball is dragged (ball.js,
 * drawPredictedPath): the drag is turned into an initial velocity and a
 * fixed number of semi-implicit Euler steps is taken, each producing one
 * dot whose opacity fades linearly. This module is the pure specification
 * of that loop; BallLaunch.Ball.DrawPredictedPath is the loop itself.
 */
module Forecast {
  import opened Physics

  const ForceScale: real := 0.57
  const Steps: nat := 15
  const TimeStep: real := 0.5
  const Gravity: real := -9.81

  /** Position and velocity of the forecast point. */
  datatype Motion = Motion(pos: Vec, vel: Vec)

  /** One dot of the forecast: where it is drawn and its opacity. */
  datatype Dot = Dot(pos: Vec, alpha: real)

  /** The velocity the forecast starts from: the scaled drag divided by the mass. */
  function InitialVelocity(start: Vec, current: Vec, mass: real): Vec
    requires mass > 0.0
  {
    var force := Vec((current.x - start.x) * ForceScale, (current.y - start.y) * ForceScale);
    Vec(force.x / mass, force.y / mass)
  }

  /** One step: the velocity is updated first, the position then moves by the new velocity. */
  function Step(m: Motion, friction: real): Motion {
    var acceleration := Vec(-friction * m.vel.x, -friction * m.vel.y - Gravity);
    var vel := Vec(m.vel.x + acceleration.x * TimeStep, m.vel.y + acceleration.y * TimeStep);
    Motion(Vec(m.pos.x + vel.x * TimeStep, m.pos.y + vel.y * TimeStep), vel)
  }

  /** The motion after n steps. */
  function After(m: Motion, friction: real, n: nat): Motion {
    if n == 0 then m else Step(After(m, friction, n - 1), friction)
  }

  /** Opacity of the i-th dot, i counted from 1. */
  function Alpha(i: nat): real {
    1.0 - (i as real) / (Steps as real)
  }

  /** The dots of a forecast starting from centre with velocity v0. */
  function Path(centre: Vec, v0: Vec, friction: real): seq<Dot> {
    seq(Steps, i requires 0 <= i => Dot(After(Motion(centre, v0), friction, i + 1).pos, Alpha(i + 1)))
  }

  /** The forecast drawn for a body at centre, for a drag from start to current. */
  function PredictedPath(centre: Vec, start: Vec, current: Vec, mass: real, friction: real): seq<Dot>
    requires mass > 0.0
  {
    Path(centre, InitialVelocity(start, current, mass), friction)
  }

  /** c^n */
  function Pow(c: real, n: nat): real {
    if n == 0 then 1.0 else c * Pow(c, n - 1)
  }

  /** c + c^2 + ... + c^n */
  function GeomSum(c: real, n: nat): real {
    if n == 0 then 0.0 else GeomSum(c, n - 1) + Pow(c, n)
  }

  /** The forecast has exactly Steps dots, and dot i is the position after i + 1 steps. */
  lemma PathShape(centre: Vec, v0: Vec, friction: real)
    ensures |Path(centre, v0, friction)| == Steps
    ensures forall i :: 0 <= i < Steps ==>
      Path(centre, v0, friction)[i].pos == After(Motion(centre, v0), friction, i + 1).pos
  {
  }

  /** Opacities start just below 1, strictly decrease, and the last one is exactly 0. */
  lemma AlphaFades(centre: Vec, v0: Vec, friction: real)
    ensures Path(centre, v0, friction)[0].alpha == 14.0 / 15.0
    ensures Path(centre, v0, friction)[Steps - 1].alpha == 0.0
    ensures forall i, j :: 0 <= i < j < Steps ==>
      Path(centre, v0, friction)[i].alpha > Path(centre, v0, friction)[j].alpha
    ensures forall i :: 0 <= i < Steps ==>
      0.0 <= Path(centre, v0, friction)[i].alpha < 1.0
  {
  }

  /**
   * Horizontally, one step scales the velocity by 1 - friction * TimeStep
   * first and then moves the position by the new velocity.
   */
  lemma StepHorizontal(m: Motion, friction: real)
    ensures Step(m, friction).vel.x == m.vel.x * (1.0 - friction * TimeStep)
    ensures Step(m, friction).pos.x == m.pos.x + TimeStep * Step(m, friction).vel.x
  {
  }

  /**
   * Vertically, one step applies the drag and gravity (pulling down the
   * screen) to the velocity first and then moves the position by the new
   * velocity.
   */
  lemma StepVertical(m: Motion, friction: real)
    ensures Step(m, friction).vel.y == m.vel.y + TimeStep * (-friction * m.vel.y - Gravity)
    ensures Step(m, friction).pos.y == m.pos.y + TimeStep * Step(m, friction).vel.y
  {
  }

  /** After n steps the horizontal velocity is v0.x * c^n, where c = 1 - friction * TimeStep. */
  lemma {:induction false} HorizontalVelocity(m: Motion, friction: real, n: nat)
    ensures After(m, friction, n).vel.x == m.vel.x * Pow(1.0 - friction * TimeStep, n)
  {
    if n > 0 {
      var c := 1.0 - friction * TimeStep;
      HorizontalVelocity(m, friction, n - 1);
      StepHorizontal(After(m, friction, n - 1), friction);
      var p := Pow(c, n - 1);
      assert After(m, friction, n).vel.x == (m.vel.x * p) * c;
      assert (m.vel.x * p) * c == m.vel.x * (c * p);
    }
  }

  /**
   * Horizontally the forecast is a damped motion: after n steps the position
   * has moved by TimeStep * v0.x * (c + ... + c^n), where c = 1 - friction * TimeStep.
   */
  lemma {:induction false} HorizontalClosedForm(m: Motion, friction: real, n: nat)
    ensures After(m, friction, n).pos.x
         == m.pos.x + TimeStep * (m.vel.x * GeomSum(1.0 - friction * TimeStep, n))
  {
    if n > 0 {
      var c := 1.0 - friction * TimeStep;
      HorizontalClosedForm(m, friction, n - 1);
      HorizontalVelocity(m, friction, n);
      StepHorizontal(After(m, friction, n - 1), friction);
      Distribute(TimeStep, m.vel.x, GeomSum(c, n - 1), Pow(c, n));
    }
  }

  lemma Distribute(t: real, v: real, g: real, p: real)
    ensures t * (v * g) + t * (v * p) == t * (v * (g + p))
  {
  }

  /**
   * Without friction the forecast is the semi-implicit Euler parabola: after
   * n steps the vertical velocity has grown by 4.905 n and the position is
   * centre + n v0 / 2 + (0, 1.22625 n (n + 1)).
   */
  lemma {:induction false} FrictionlessClosedForm(m: Motion, n: nat)
    ensures After(m, 0.0, n).vel == Vec(m.vel.x, m.vel.y + 4.905 * (n as real))
    ensures After(m, 0.0, n).pos == Vec(m.pos.x + (n as real) * m.vel.x / 2.0,
                                        m.pos.y + (n as real) * m.vel.y / 2.0
                                                + 1.22625 * (n as real) * ((n as real) + 1.0))
  {
    if n > 0 {
      FrictionlessClosedForm(m, n - 1);
      var k := (n - 1) as real;
      assert 1.22625 * k * (k + 1.0) + 2.4525 * (k + 1.0) == 1.22625 * (k + 1.0) * (k + 2.0);
    }
  }

  /**
   * Mass 1, friction 0.01 and a drag giving the force (28.5, -28.5): the
   * first acceleration is (-0.285, 10.095), so the first dot lies at
   * centre + (14.17875, -11.72625).
   */
  lemma FirstStepExample(centre: Vec)
    ensures Step(Motion(centre, Vec(28.5, -28.5)), 0.01)
         == Motion(centre.Plus(Vec(14.17875, -11.72625)), Vec(28.3575, -23.4525))
  {
  }

  /**
   * A drag with no horizontal component puts every dot on the vertical line
   * through the body's centre (above or below it, as the drag points).
   */
  lemma VerticalWithoutHorizontalDrag(centre: Vec, start: Vec, current: Vec, mass: real, friction: real)
    requires mass > 0.0
    requires current.x == start.x
    ensures forall i :: 0 <= i < Steps ==>
      PredictedPath(centre, start, current, mass, friction)[i].pos.x == centre.x
  {
    var v0 := InitialVelocity(start, current, mass);
    assert v0.x == 0.0;
    forall i | 0 <= i < Steps
      ensures PredictedPath(centre, start, current, mass, friction)[i].pos.x == centre.x
    {
      HorizontalClosedForm(Motion(centre, v0), friction, i + 1);
    }
  }
}
