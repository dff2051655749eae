/**
 * Feasibility of the declared patterns: for every draw within the ranges,
 * the answer splits onto the correct tiles, so splitMax9 never throws for
 * them.  The generator dispatches through a name table; as written,
 * game.ts uses LegacyGameConst.Names, which lacks PATTERN_X.
 */
module Feasibility {
  import opened GameTypes
  import Game
  import Split
  import GameConst
  import LegacyGameConst
  import Steps

  /** The answer of a pattern's form ranges over [lo, hi]. */
  predicate AnswersBetween(p: Pattern, names: NameTable, lo: int, hi: int)
  {
    var signs := Game.FormSigns(Game.Dispatch(names, p.name));
    |signs| <= |p.ranges| && Game.LowestSum(signs, p.ranges) == lo && Game.HighestSum(signs, p.ranges) == hi
  }

  /**
   * For a feasible pattern, every answer generateEquasionFromPattern can
   * draw is accepted by splitMax9(answer, numberOfCorrectTiles, 4).
   */
  lemma FeasibleDrawsSplit(p: Pattern, names: NameTable, terms: seq<Term>)
    requires Game.Feasible(p, names)
    requires Game.Signs(terms) == Game.FormSigns(Game.Dispatch(names, p.name))
    requires Game.TermsInRanges(terms, p.ranges)
    requires p.numberOfCorrectTiles > 0
    ensures !Split.Rejected(Game.SignedSum(terms), p.numberOfCorrectTiles, 4)
    ensures 0 <= Game.SignedSum(terms) <= p.numberOfCorrectTiles * Split.MAX
  {
    Game.SignedSumWithin(terms, p.ranges);
  }

  /**
   * Feasible is exact: a pattern that is not feasible (with enough ranges)
   * has a draw whose answer splitMax9 rejects.
   */
  lemma InfeasibleHasBadDraw(p: Pattern, names: NameTable)
    requires RangesOrdered(p)
    requires |Game.FormSigns(Game.Dispatch(names, p.name))| <= |p.ranges|
    requires !Game.Feasible(p, names)
    ensures exists terms ::
      && Game.TermsInRanges(terms, p.ranges)
      && Game.Signs(terms) == Game.FormSigns(Game.Dispatch(names, p.name))
      && !(0 <= Game.SignedSum(terms) <= p.numberOfCorrectTiles * Split.MAX)
  {
    var signs := Game.FormSigns(Game.Dispatch(names, p.name));
    if Game.LowestSum(signs, p.ranges) < 0 {
      var terms := Game.LowestDraw(signs, p.ranges);
      assert Game.TermsInRanges(terms, p.ranges) && Game.Signs(terms) == signs;
    } else {
      var terms := Game.HighestDraw(signs, p.ranges);
      assert Game.TermsInRanges(terms, p.ranges) && Game.Signs(terms) == signs;
    }
  }

  /** PATTERN_1 (both tables): a + b over [7,9] x [11,18] gives [18, 27], at most 3 * 9. */
  lemma Pattern1Feasible()
    ensures Game.Dispatch(LegacyGameConst.Names, GameConst.Pattern1.name) == Game.TwoSum
    ensures Game.Dispatch(GameConst.Names, GameConst.Pattern1.name) == Game.TwoSum
    ensures AnswersBetween(GameConst.Pattern1, LegacyGameConst.Names, 18, 27)
    ensures AnswersBetween(GameConst.Pattern1, GameConst.Names, 18, 27)
    ensures Game.Feasible(GameConst.Pattern1, LegacyGameConst.Names)
    ensures Game.Feasible(GameConst.Pattern1, GameConst.Names)
  {
  }

  /** PATTERN_2: a - b over [22,29] x [6,8] gives [14, 23]. */
  lemma Pattern2Feasible()
    ensures Game.Dispatch(LegacyGameConst.Names, GameConst.Pattern2.name) == Game.Difference
    ensures Game.Dispatch(GameConst.Names, GameConst.Pattern2.name) == Game.Difference
    ensures AnswersBetween(GameConst.Pattern2, LegacyGameConst.Names, 14, 23)
    ensures AnswersBetween(GameConst.Pattern2, GameConst.Names, 14, 23)
    ensures Game.Feasible(GameConst.Pattern2, LegacyGameConst.Names)
    ensures Game.Feasible(GameConst.Pattern2, GameConst.Names)
  {
  }

  /** PATTERN_3: a + b - c over [15,21] x [6,9] x [3,5] gives [16, 27]. */
  lemma Pattern3Feasible()
    ensures Game.Dispatch(LegacyGameConst.Names, GameConst.Pattern3.name) == Game.SumDifference
    ensures Game.Dispatch(GameConst.Names, GameConst.Pattern3.name) == Game.SumDifference
    ensures AnswersBetween(GameConst.Pattern3, LegacyGameConst.Names, 16, 27)
    ensures AnswersBetween(GameConst.Pattern3, GameConst.Names, 16, 27)
    ensures Game.Feasible(GameConst.Pattern3, LegacyGameConst.Names)
    ensures Game.Feasible(GameConst.Pattern3, GameConst.Names)
  {
  }

  /**
   * PATTERN_X as written: the imported table has no PATTERN_X, so the name
   * reaches the a + b branch, which uses only [7,9] and [6,9] and gives [13, 18].
   */
  lemma PatternXFallsThrough()
    ensures Game.Dispatch(LegacyGameConst.Names, GameConst.PatternX.name) == Game.TwoSum
    ensures AnswersBetween(GameConst.PatternX, LegacyGameConst.Names, 13, 18)
    ensures Game.Feasible(GameConst.PatternX, LegacyGameConst.Names)
  {
  }

  /**
   * PATTERN_X dispatched through the table that declares it: a + b + c - d
   * gives [18, 32], within 4 * 9.
   */
  lemma PatternXFourTerms()
    ensures Game.Dispatch(GameConst.Names, GameConst.PatternX.name) == Game.FourTerm
    ensures AnswersBetween(GameConst.PatternX, GameConst.Names, 18, 32)
    ensures Game.Feasible(GameConst.PatternX, GameConst.Names)
  {
  }

  /** The older patterns of src/const/GAME_CONST.ts give the same answer ranges. */
  lemma LegacyPatternsFeasible()
    ensures AnswersBetween(LegacyGameConst.Pattern1, LegacyGameConst.Names, 18, 27)
    ensures AnswersBetween(LegacyGameConst.Pattern2, LegacyGameConst.Names, 14, 23)
    ensures AnswersBetween(LegacyGameConst.Pattern3, LegacyGameConst.Names, 16, 27)
    ensures forall p :: p in LegacyGameConst.Patterns ==>
      RangesOrdered(p) && p.numberOfCorrectTiles == 3 && p.numberOfTiles == 6 && Game.Feasible(p, LegacyGameConst.Names)
  {
  }

  /** Every declared pattern can be generated under either table without a throw. */
  lemma DeclaredPatternsFeasible(p: Pattern, names: NameTable)
    requires p in GameConst.Patterns || p in LegacyGameConst.Patterns
    requires names == GameConst.Names || names == LegacyGameConst.Names
    ensures RangesOrdered(p)
    ensures p.numberOfCorrectTiles == 3 || p.numberOfCorrectTiles == 4
    ensures Game.Feasible(p, names)
  {
    Pattern1Feasible();
    Pattern2Feasible();
    Pattern3Feasible();
    PatternXFallsThrough();
    PatternXFourTerms();
    LegacyPatternsFeasible();
  }

  /**
   * generateTiles ignores number_of_tiles: PATTERN_X declares 6 tiles but
   * the layout for 4 correct tiles has 8.
   */
  lemma PatternXTileCountIgnored()
    ensures GameConst.PatternX.numberOfTiles == 6
    ensures Game.LayoutSize(GameConst.PatternX.numberOfCorrectTiles) == 8
  {
  }

  /** Every step of every difficulty level can be generated without a throw. */
  lemma EveryStepGenerates(level: int, k: nat, names: NameTable)
    requires k < |Steps.GetGameStepsByDifficulty(level)|
    requires names == GameConst.Names || names == LegacyGameConst.Names
    ensures var p := Steps.GetGameStepsByDifficulty(level)[k].equasion;
      && RangesOrdered(p)
      && (p.numberOfCorrectTiles == 3 || p.numberOfCorrectTiles == 4)
      && Game.Feasible(p, names)
  {
    Steps.StepsByDifficulty(level, k);
    DeclaredPatternsFeasible(Steps.GetGameStepsByDifficulty(level)[k].equasion, names);
  }
}
