/**
 * The score overlay of app/js/scoreCounter.js: a counter that listens to
 * the engine's collisionStart events and shows the score as the text of
 * a paragraph element.
 */
module Score {
  import opened Scoring

  class ScoreCounter {
    var score: nat
    /** The counter element's innerHTML. */
    var shown: string

    /** The element always shows the current score. */
    ghost predicate Valid()
      reads this
    {
      shown == NumberToString(score)
    }

    /** new ScoreCounter(element, world), which also runs addScore. */
    constructor ()
      ensures Valid() && score == 0 && shown == "0"
    {
      score := 0;
      shown := NumberToString(0);
    }

    /** updateScore: one more point, and the element shows the new score. */
    method UpdateScore()
      requires Valid()
      modifies this
      ensures Valid()
      ensures score == old(score) + 1 && shown == NumberToString(old(score) + 1)
    {
      score := score + 1;
      shown := NumberToString(score);
    }

    /** The collisionStart handler: one point per scoring pair, never fewer points than before. */
    method OnCollisionStart(pairs: seq<Pair>)
      requires Valid()
      modifies this
      ensures Valid()
      ensures score == old(score) + CountHits(pairs)
      ensures score >= old(score)
    {
      for i := 0 to |pairs|
        invariant Valid()
        invariant score == old(score) + CountHits(pairs[..i])
      {
        assert pairs[..i + 1][..i] == pairs[..i];
        if (pairs[i].bodyA.id == "ball" && pairs[i].bodyB.id == "target")
           || (pairs[i].bodyA.id == "target" && BodyStrictEqualsString(pairs[i].bodyB, "ball")) {
          UpdateScore();
        }
      }
      assert pairs[..|pairs|] == pairs;
    }
  }
}
