/** The older score store (src/store/gameStore.ts). */
module LegacyGameStore {

  /** useGameStore. */
  class ScoreStore {
    var score: int

    constructor ()
      ensures score == 0
    {
      score := 0;
    }

    method SetScore(s: int)
      modifies this
      ensures score == s
    {
      score := s;
    }

    method IncrementScoreByValue(value: int)
      modifies this
      ensures score == old(score) + value
    {
      score := score + value;
    }

    method ResetScore()
      modifies this
      ensures score == 0
    {
      score := 0;
    }
  }

  /** Two increments add their sum; a reset then gives 0 whatever came before. */
  method IncrementTwiceThenReset(store: ScoreStore, v1: int, v2: int) returns (afterIncrements: int)
    modifies store
    ensures afterIncrements == old(store.score) + v1 + v2
    ensures store.score == 0
  {
    store.IncrementScoreByValue(v1);
    store.IncrementScoreByValue(v2);
    afterIncrements := store.score;
    store.ResetScore();
  }
}
