/**
 * The game's stores (src/app/game/store/gameStore.ts): the score, the
 * difficulty level and the current view.  Each store is an object whose
 * actions overwrite its one field.
 */
module GameStore {

  /** useGameStore. */
  class ScoreStore {
    var score: int

    constructor ()
      ensures score == 0
    {
      score := 0;
    }

    method SetScore(s: int)
      modifies this
      ensures score == s
    {
      score := s;
    }

    method IncrementScoreByValue(value: int)
      modifies this
      ensures score == old(score) + value
    {
      score := score + value;
    }

    method ResetScore()
      modifies this
      ensures score == 0
    {
      score := 0;
    }
  }

  /** useGeneralGameStore. */
  class GeneralGameStore {
    var difficultyLevel: int

    constructor ()
      ensures difficultyLevel == 1
    {
      difficultyLevel := 1;
    }

    method SetDifficultyLevel(level: int)
      modifies this
      ensures difficultyLevel == level
    {
      difficultyLevel := level;
    }

    method IncrementDifficultyLevel()
      modifies this
      ensures difficultyLevel == old(difficultyLevel) + 1
    {
      difficultyLevel := difficultyLevel + 1;
    }
  }

  datatype GameView = MainScreen | GameScreen

  /** toggleGameView's update: MAIN_SCREEN becomes GAME_SCREEN and back. */
  function ToggledView(view: GameView): (r: GameView)
    ensures r != view
  {
    if view == MainScreen then GameScreen else MainScreen
  }

  /** Toggling twice is the identity. */
  lemma ToggleViewTwice(view: GameView)
    ensures ToggledView(ToggledView(view)) == view
  {
  }

  /** useGameView. */
  class GameViewStore {
    var currentGameView: GameView

    constructor ()
      ensures currentGameView == MainScreen
    {
      currentGameView := MainScreen;
    }

    method SetGameView(view: GameView)
      modifies this
      ensures currentGameView == view
    {
      currentGameView := view;
    }

    method ToggleGameView()
      modifies this
      ensures currentGameView == ToggledView(old(currentGameView))
    {
      currentGameView := if currentGameView == MainScreen then GameScreen else MainScreen;
    }
  }

  /**
   * The three stores are separate objects: an action on one leaves the
   * others as they were (the start and finish buttons of the game page).
   */
  method ToggleLeavesOtherStores(view: GameViewStore, scores: ScoreStore, general: GeneralGameStore)
    modifies view
    ensures view.currentGameView == ToggledView(old(view.currentGameView))
    ensures scores.score == old(scores.score) && general.difficultyLevel == old(general.difficultyLevel)
  {
    view.ToggleGameView();
  }
}
