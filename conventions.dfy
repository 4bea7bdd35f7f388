/**
 * The two revisions of the launch logic side by side: app/js/ball.js and
 * the older world.js. Both guard the launch the same way, but push in
 * opposite directions, keep the ball in different windows and spawn it at
 * different offsets from the entry point.
 */
module Conventions {
  import opened Physics
  import opened BallLaunch
  import opened LegacyWorld

  /**
   * For the same drag, both revisions launch or stay still together (both
   * skip exactly the drags with dx == dy), and when they launch the older
   * one applies the negated force.
   */
  lemma OppositeForces(at: Vec, start: Vec, end: Vec)
    ensures ImpulseCalls(at, ImpulseArgument(start, end)) == []
        <==> LegacyImpulseCalls(at, LegacyTravel(start, end)) == []
    ensures ImpulseCalls(at, ImpulseArgument(start, end)) != [] ==>
      && |ImpulseCalls(at, ImpulseArgument(start, end))| == 2
      && |LegacyImpulseCalls(at, LegacyTravel(start, end))| == 2
      && ImpulseCalls(at, ImpulseArgument(start, end))[0] == LegacyImpulseCalls(at, LegacyTravel(start, end))[0]
      && ImpulseCalls(at, ImpulseArgument(start, end))[1].force
         == LegacyImpulseCalls(at, LegacyTravel(start, end))[1].force.Neg()
  {
    ReleaseForce(at, start, end);
    AimLineShowsForce(at, at, start, end);
  }

  /** The older window is wider: whatever it throws out, the newer rule throws out too. */
  lemma MarginsNest(x: real, cWidth: real, ballWidth: real)
    ensures LegacyOutOfBounds(x, cWidth, ballWidth) ==> OutOfBounds(x, cWidth, ballWidth)
  {
  }

  /** On a real canvas, a ball 20 units past the newer limit is respawned by one revision and kept by the other. */
  lemma MarginsDiffer(cWidth: real, ballWidth: real)
    requires cWidth >= 0.0 && ballWidth >= 0.0
    ensures OutOfBounds(cWidth + ballWidth + 30.0, cWidth, ballWidth)
    ensures !LegacyOutOfBounds(cWidth + ballWidth + 30.0, cWidth, ballWidth)
  {
  }

  /** The older revision spawns the ball half a width further right and half a width higher. */
  lemma SpawnOffsets(cWidth: real, cHeight: real, e: Vec, ballWidth: real)
    ensures LegacySpawnCentre(cWidth, cHeight, e, ballWidth)
         == SpawnCentre(cWidth, cHeight, e.x, e.y, ballWidth).Plus(Vec(ballWidth / 2.0, -ballWidth / 2.0))
  {
  }
}
