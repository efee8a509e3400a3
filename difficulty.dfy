/**
 * The difficulty rule: the level goes up whenever the score reaches a
 * multiple of 100, and blockers spawn every 1000 - 50 * level milliseconds.
 */
module Difficulty {

  /** Score step at which the level goes up (the code uses 100). */
  const LevelStep: nat := 100

  /** The period, in milliseconds, that setBlockers gives the spawn interval. */
  function SpawnPeriod(level: int): (ms: int)
    ensures ms > 0 <==> level < 20
    ensures ms == 0 <==> level == 20
    ensures ms <= 1000 <==> level >= 0
  {
    1000 - level * 50
  }

  /** A higher level always spawns strictly more often. */
  lemma SpawnPeriodDecreasing(lower: int, higher: int)
    requires lower < higher
    ensures SpawnPeriod(higher) < SpawnPeriod(lower)
    ensures SpawnPeriod(lower) - SpawnPeriod(higher) == 50 * (higher - lower)
  {
  }

  /** Whether reaching this score raises the level (scoreChanged's test). */
  predicate RaisesLevel(score: int)
  {
    score % LevelStep == 0
  }

  /** The number of scores in (first, last] that raise the level. */
  function Boundaries(first: nat, last: nat): nat
    decreases last
  {
    if last <= first then 0
    else Boundaries(first, last - 1) + (if RaisesLevel(last) then 1 else 0)
  }

  lemma DivStep(n: nat)
    requires n > 0
    ensures n / LevelStep - (n - 1) / LevelStep == (if RaisesLevel(n) then 1 else 0)
  {
    var q, r := n / LevelStep, n % LevelStep;
    assert n == LevelStep * q + r;
    if r == 0 {
      assert n - 1 == LevelStep * (q - 1) + 99;
    } else {
      assert n - 1 == LevelStep * q + (r - 1);
    }
  }

  /**
   * Counting one level per score that scoreChanged sees divisible by 100:
   * going from score `first` to score `last` crosses exactly
   * last / 100 - first / 100 boundaries, so it raises the level that often.
   */
  lemma {:induction false} BoundariesCount(first: nat, last: nat)
    requires first <= last
    ensures Boundaries(first, last) == last / LevelStep - first / LevelStep
    decreases last
  {
    if first < last {
      BoundariesCount(first, last - 1);
      DivStep(last);
    }
  }

  /** Boundaries split at any intermediate score, so per-tick level raises add up. */
  lemma BoundariesSplit(a: nat, b: nat, c: nat)
    requires a <= b <= c
    ensures Boundaries(a, c) == Boundaries(a, b) + Boundaries(b, c)
  {
    BoundariesCount(a, b);
    BoundariesCount(b, c);
    BoundariesCount(a, c);
  }
}
