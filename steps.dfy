/**
 * The step tables of the three difficulty levels
 * (src/app/game/const/STEPS_CONTS.ts) and their lookup
 * (src/app/game/utils/steps.ts).
 */
module Steps {
  import opened GameTypes
  import GameConst

  datatype Step = Step(step: int, equasion: Pattern)

  /** Steps 1 to n: the first three patterns, then PATTERN_X. */
  function Ladder(n: nat): (steps: seq<Step>)
    ensures |steps| == n
  {
    if n == 0 then []
    else Ladder(n - 1) + [Step(n, if n == 1 then GameConst.Pattern1 else if n == 2 then GameConst.Pattern2
                                  else if n == 3 then GameConst.Pattern3 else GameConst.PatternX)]
  }

  /** GAME_STEPS_EASY. */
  const Easy: seq<Step> := [
    Step(1, GameConst.Pattern1),
    Step(2, GameConst.Pattern2),
    Step(3, GameConst.Pattern3),
    Step(4, GameConst.PatternX),
    Step(5, GameConst.PatternX)]

  /** GAME_STEPS_MEDIUM. */
  const Medium: seq<Step> := [
    Step(1, GameConst.Pattern1),
    Step(2, GameConst.Pattern2),
    Step(3, GameConst.Pattern3),
    Step(4, GameConst.PatternX),
    Step(5, GameConst.PatternX),
    Step(6, GameConst.PatternX),
    Step(7, GameConst.PatternX)]

  /** GAME_STEPS_HARD. */
  const Hard: seq<Step> := [
    Step(1, GameConst.Pattern1),
    Step(2, GameConst.Pattern2),
    Step(3, GameConst.Pattern3),
    Step(4, GameConst.PatternX),
    Step(5, GameConst.PatternX),
    Step(6, GameConst.PatternX),
    Step(7, GameConst.PatternX),
    Step(8, GameConst.PatternX),
    Step(9, GameConst.PatternX)]

  /** getGameStepsByDifficulty: levels 1, 2, 3, and the easy table otherwise. */
  function GetGameStepsByDifficulty(level: int): seq<Step>
  {
    match level
    case 1 => Easy
    case 2 => Medium
    case 3 => Hard
    case _ => Easy
  }

  /** Step k of a ladder is numbered k + 1 and uses the pattern for that position. */
  lemma {:induction false} LadderAt(n: nat, k: nat)
    requires k < n
    ensures Ladder(n)[k].step == k + 1
    ensures Ladder(n)[k].equasion ==
      if k == 0 then GameConst.Pattern1 else if k == 1 then GameConst.Pattern2
      else if k == 2 then GameConst.Pattern3 else GameConst.PatternX
  {
    if k < n - 1 {
      LadderAt(n - 1, k);
    }
  }

  /** A shorter ladder is a prefix of a longer one. */
  lemma {:induction false} LadderPrefix(m: nat, n: nat)
    requires m <= n
    ensures Ladder(m) == Ladder(n)[..m]
  {
    if m < n {
      LadderPrefix(m, n - 1);
      assert Ladder(n)[..n - 1] == Ladder(n - 1);
    }
  }

  /** The three tables are the ladders of length 5, 7 and 9. */
  lemma TablesAreLadders()
    ensures Easy == Ladder(5) && Medium == Ladder(7) && Hard == Ladder(9)
  {
    assert Ladder(5) == Easy by {
      assert Ladder(1) == Easy[..1];
      assert Ladder(2) == Easy[..2];
      assert Ladder(3) == Easy[..3];
      assert Ladder(4) == Easy[..4];
    }
    assert Ladder(7) == Medium by {
      assert Ladder(6) == Medium[..6];
    }
    assert Ladder(9) == Hard by {
      assert Ladder(8) == Hard[..8];
    }
  }

  /**
   * Each level's table: its length, step k + 1 at position k, the first three
   * patterns then PATTERN_X; any level other than 2 or 3 gets the easy table.
   */
  lemma StepsByDifficulty(level: int, k: nat)
    requires k < |GetGameStepsByDifficulty(level)|
    ensures |GetGameStepsByDifficulty(level)| == (if level == 2 then 7 else if level == 3 then 9 else 5)
    ensures GetGameStepsByDifficulty(level)[k].step == k + 1
    ensures GetGameStepsByDifficulty(level)[k].equasion ==
      if k == 0 then GameConst.Pattern1 else if k == 1 then GameConst.Pattern2
      else if k == 2 then GameConst.Pattern3 else GameConst.PatternX
  {
    TablesAreLadders();
    LadderAt(|GetGameStepsByDifficulty(level)|, k);
  }

  /** Easy is a prefix of medium, and medium of hard. */
  lemma TablesArePrefixes()
    ensures Easy == Medium[..5] && Medium == Hard[..7]
  {
    TablesAreLadders();
    LadderPrefix(5, 7);
    LadderPrefix(7, 9);
  }
}
