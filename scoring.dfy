/**
 * The collision-pair scoring rule shared by app/js/scoreCounter.js and
 * app/js/world.js, and the decimal text a score is displayed as.
 */
module Scoring {

  /** A body of a collision pair, as far as scoring looks at it. */
  datatype BodyRef = BodyRef(id: string)

  /** One pair of a collisionStart event. */
  datatype Pair = Pair(bodyA: BodyRef, bodyB: BodyRef)

  /**
   * The second scoring test compares the body object bodyB itself, not its
   * id, with the string "ball"; strict equality between an object and a
   * string is never true.
   */
  predicate BodyStrictEqualsString(b: BodyRef, s: string) {
    false
  }

  /** The test a pair must pass to score. */
  predicate Scores(p: Pair) {
    || (p.bodyA.id == "ball" && p.bodyB.id == "target")
    || (p.bodyA.id == "target" && BodyStrictEqualsString(p.bodyB, "ball"))
  }

  /** The number of scoring pairs, counted from the end. */
  function CountHits(pairs: seq<Pair>): nat {
    if |pairs| == 0 then 0
    else CountHits(pairs[..|pairs| - 1]) + (if Scores(pairs[|pairs| - 1]) then 1 else 0)
  }

  /** The positions of the scoring pairs. */
  function HitIndices(pairs: seq<Pair>): set<int> {
    set i | 0 <= i < |pairs| && Scores(pairs[i])
  }

  /** Only the order (ball, target) scores; (target, ball) and every other pair do not. */
  lemma ScoresExactly(p: Pair)
    ensures Scores(p) <==> p.bodyA.id == "ball" && p.bodyB.id == "target"
    ensures !Scores(Pair(BodyRef("target"), BodyRef("ball")))
  {
  }

  /** The count is the number of positions holding a scoring pair. */
  lemma {:induction false} CountIsNumberOfHits(pairs: seq<Pair>)
    ensures CountHits(pairs) == |HitIndices(pairs)|
  {
    if |pairs| > 0 {
      var init := pairs[..|pairs| - 1];
      var last := |pairs| - 1;
      CountIsNumberOfHits(init);
      if Scores(pairs[last]) {
        assert HitIndices(pairs) == HitIndices(init) + {last};
      } else {
        assert HitIndices(pairs) == HitIndices(init);
      }
    }
  }

  /** Counting two events one after the other is counting their pairs together. */
  lemma {:induction false} CountAppend(a: seq<Pair>, b: seq<Pair>)
    ensures CountHits(a + b) == CountHits(a) + CountHits(b)
  {
    if |b| > 0 {
      var bInit := b[..|b| - 1];
      assert (a + b)[..|a + b| - 1] == a + bInit;
      CountAppend(a, bInit);
    } else {
      assert a + b == a;
    }
  }

  /** Never more than one point per pair; an event without a (ball, target) pair scores nothing. */
  lemma {:induction false} CountBounds(pairs: seq<Pair>)
    ensures CountHits(pairs) <= |pairs|
    ensures (forall i :: 0 <= i < |pairs| ==> !Scores(pairs[i])) ==> CountHits(pairs) == 0
  {
    if |pairs| > 0 {
      CountBounds(pairs[..|pairs| - 1]);
    }
  }

  function DigitChar(d: nat): char
    requires d < 10
  {
    ('0' as int + d) as char
  }

  predicate AllDigits(s: string) {
    forall i :: 0 <= i < |s| ==> '0' <= s[i] <= '9'
  }

  /** The text a non-negative integer number converts to: its decimal digits. */
  function NumberToString(n: nat): string {
    if n < 10 then [DigitChar(n)] else NumberToString(n / 10) + [DigitChar(n % 10)]
  }

  /** The reading of a decimal digit string. */
  function ParseDecimal(s: string): nat
    requires AllDigits(s)
  {
    if |s| == 0 then 0
    else ParseDecimal(s[..|s| - 1]) * 10 + (s[|s| - 1] as int - '0' as int)
  }

  /** The displayed text reads back as the score, so distinct scores show distinct texts. */
  lemma {:induction false} NumberToStringRoundTrip(n: nat)
    ensures AllDigits(NumberToString(n)) && |NumberToString(n)| > 0
    ensures ParseDecimal(NumberToString(n)) == n
  {
    var s := NumberToString(n);
    if n >= 10 {
      NumberToStringRoundTrip(n / 10);
      assert s[..|s| - 1] == NumberToString(n / 10);
    }
  }

  lemma NumberToStringInjective(m: nat, n: nat)
    ensures NumberToString(m) == NumberToString(n) <==> m == n
  {
    NumberToStringRoundTrip(m);
    NumberToStringRoundTrip(n);
  }
}
