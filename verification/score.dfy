/**
 * The score accumulator: an integer score and a real multiplier that the
 * spawner refreshes every tick. Points are base points scaled by the
 * multiplier (never below 0.1) and rounded to the nearest integer, ties to
 * even, as Mathf.RoundToInt does.
 */
module Score {
  import opened Types

  const MinMultiplier: real := 0.1

  /** Nearest integer to x; a tie between two integers goes to the even one. */
  function RoundHalfEven(x: real): (r: int)
    ensures -0.5 <= x - r as real <= 0.5
    ensures x - r as real == 0.5 || x - r as real == -0.5 ==> r % 2 == 0
  {
    var f := x.Floor;
    var d := x - f as real;
    if d < 0.5 then f
    else if d > 0.5 then f + 1
    else if f % 2 == 0 then f else f + 1
  }

  lemma RoundExact(k: int)
    ensures RoundHalfEven(k as real) == k
  {
    var r := RoundHalfEven(k as real);
    assert -0.5 <= (k - r) as real <= 0.5;
  }

  /** The points one AddBasePoints call adds for positive base points. */
  function Gain(basePoints: int, multiplier: real): (r: int)
    requires basePoints > 0
    ensures r >= 0
    ensures -0.5 <= basePoints as real * Max(MinMultiplier, multiplier) - r as real <= 0.5
  {
    var x := basePoints as real * Max(MinMultiplier, multiplier);
    assert x >= 0.1;
    RoundHalfEven(x)
  }

  /** A product that is already whole is added exactly. */
  lemma GainExact(basePoints: int, multiplier: real, k: int)
    requires basePoints > 0 && multiplier >= MinMultiplier
    requires basePoints as real * multiplier == k as real
    ensures Gain(basePoints, multiplier) == k
  {
    RoundExact(k);
  }

  /** Ten base points at multiplier 2 add exactly 20. */
  lemma GainTenAtDouble()
    ensures Gain(10, 2.0) == 20
  {
    GainExact(10, 2.0, 20);
  }

  class ScoreController {
    var score: int
    var multiplier: real

    /** The serialized starting values (0 and 1 by default). */
    constructor (startScore: int, startMultiplier: real)
      ensures score == startScore && multiplier == startMultiplier
    {
      score := startScore;
      multiplier := startMultiplier;
    }

    method AddBasePoints(basePoints: int)
      modifies this
      ensures multiplier == old(multiplier)
      ensures basePoints <= 0 ==> score == old(score)
      ensures basePoints > 0 ==> score == old(score) + Gain(basePoints, old(multiplier))
      ensures score >= old(score)
    {
      if basePoints <= 0 {
        return;
      }
      score := score + Gain(basePoints, multiplier);
    }

    method SetMultiplier(m: real)
      modifies this
      ensures multiplier == Max(MinMultiplier, m) && multiplier >= MinMultiplier
      ensures score == old(score)
    {
      multiplier := Max(MinMultiplier, m);
    }

    method ResetScore(startScore: int, startMult: real)
      modifies this
      ensures score == MaxInt(0, startScore) && score >= 0
      ensures multiplier == Max(MinMultiplier, startMult) && multiplier >= MinMultiplier
    {
      score := MaxInt(0, startScore);
      multiplier := Max(MinMultiplier, startMult);
    }
  }
}
