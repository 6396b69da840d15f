/** Score, high score, hit streak and multiplier (src/classes/score/ScoreManager.ts). */
module ScoreManager {
  import opened Wrappers
  import Multiplier
  import Storage

  /** ScoreManager.ts keeps its own copy of the multiplier table; it is the shared one. */
  function MultiplierThreshold(): (t: map<int, int>)
    ensures t == Multiplier.MultiplierThreshold()
  {
    map[0 := 1, 5 := 2, 10 := 3, 15 := 4, 25 := 5, 35 := 6, 45 := 7, 55 := 8, 70 := 9, 85 := 10]
  }

  /**
   * The multiplier in force after a streak of `hits`: the value of the greatest
   * table key not above `hits`. Because the streak grows one at a time, this is
   * what the sparse lookup in `AddScore` holds.
   */
  function StreakMultiplier(hits: nat): (m: int)
    ensures 1 <= m <= 10
  {
    if hits in MultiplierThreshold() then MultiplierThreshold()[hits] else StreakMultiplier(hits - 1)
  }

  /** A fresh streak: hits 1-4 score x1, hits 5-9 score x2, the 10th scores x3. */
  lemma {:induction false} FreshStreakMultipliers(hits: nat)
    requires 1 <= hits <= 10
    ensures hits < 5 ==> StreakMultiplier(hits) == 1
    ensures 5 <= hits < 10 ==> StreakMultiplier(hits) == 2
    ensures hits == 10 ==> StreakMultiplier(hits) == 3
  {
    if hits != 10 && hits != 5 && hits != 1 {
      FreshStreakMultipliers(hits - 1);
    }
  }

  /** The stored high score: the parsed "score" item, or 0 when nothing is stored. */
  function LoadScore(item: Option<int>): int
  {
    match item
    case Some(v) => v
    case None => 0
  }

  class ScoreManager {
    var score: int
    var highScore: int
    var consecutiveHits: nat
    var multiplier: int

    /** The multiplier is always the table value for the current streak, hence in [1, 10]. */
    ghost predicate Valid()
      reads this
    {
      multiplier == StreakMultiplier(consecutiveHits)
    }

    constructor (storage: Storage.LocalStorage)
      ensures Valid()
      ensures score == 0 && consecutiveHits == 0 && multiplier == 1
      ensures highScore == LoadScore(storage.score)
    {
      score := 0;
      highScore := LoadScore(storage.score);
      consecutiveHits := 0;
      multiplier := 1;
    }

    /** One more hit in the streak, scored at the (possibly raised) multiplier. */
    method AddScore()
      requires Valid()
      modifies this
      ensures Valid() && 1 <= multiplier <= 10
      ensures consecutiveHits == old(consecutiveHits) + 1
      ensures multiplier == if consecutiveHits in MultiplierThreshold()
                            then MultiplierThreshold()[consecutiveHits] else old(multiplier)
      ensures score == old(score) + multiplier && score > old(score)
      ensures highScore == if score > old(highScore) then score else old(highScore)
      ensures highScore >= old(highScore) && highScore >= score
    {
      consecutiveHits := consecutiveHits + 1;
      if consecutiveHits in MultiplierThreshold() {
        multiplier := MultiplierThreshold()[consecutiveHits];
      }
      score := score + 1 * multiplier;
      if score > highScore {
        highScore := score;
      }
    }

    method ResetMultiplier()
      modifies this
      ensures Valid()
      ensures consecutiveHits == 0 && multiplier == 1
      ensures score == old(score) && highScore == old(highScore)
    {
      consecutiveHits := 0;
      multiplier := 1;
    }

    method ResetScore()
      modifies this
      ensures score == 0
      ensures highScore == old(highScore) && consecutiveHits == old(consecutiveHits)
      ensures multiplier == old(multiplier)
    {
      score := 0;
    }

    /** Writes the current score (not the high score) under the key `LoadScore` reads. */
    method SaveScore(storage: Storage.LocalStorage)
      modifies storage
      ensures storage.score == Some(score) && storage.player == old(storage.player)
    {
      storage.score := Some(score);
    }
  }
}
