/**
 * The pattern table of the game (src/app/game/const/GAME_CONST.ts):
 * the name table with PATTERN_X and the four equation patterns.
 */
module GameConst {
  import opened GameTypes

  /** EQUASION_PATTERN_NAME. */
  const Names: NameTable := map[
    "PATTERN_1" := "PATTERN_1",
    "PATTERN_2" := "PATTERN_2",
    "PATTERN_3" := "PATTERN_3",
    "PATTERN_X" := "PATTERN_X"]

  /** a + bb: 7 + 11 = 18 up to 9 + 18 = 27. */
  const Pattern1: Pattern := Pattern(Names["PATTERN_1"], [Range(7, 9), Range(11, 18)], 3, 6)

  /** aa - b. */
  const Pattern2: Pattern := Pattern(Names["PATTERN_2"], [Range(22, 29), Range(6, 8)], 3, 6)

  /** aa + b - c. */
  const Pattern3: Pattern := Pattern(Names["PATTERN_3"], [Range(15, 21), Range(6, 9), Range(3, 5)], 3, 6)

  /** a + b + cc - dd. */
  const PatternX: Pattern := Pattern(Names["PATTERN_X"], [Range(7, 9), Range(6, 9), Range(20, 25), Range(11, 15)], 4, 6)

  /** The four patterns, in declaration order. */
  const Patterns: seq<Pattern> := [Pattern1, Pattern2, Pattern3, PatternX]

  /** Declared shape of every pattern: ordered ranges, name equal to its key, enough tiles. */
  predicate WellDeclared(p: Pattern, key: string)
  {
    && RangesOrdered(p)
    && key in Names && p.name == Names[key]
    && p.numberOfTiles >= p.numberOfCorrectTiles
  }

  lemma PatternsWellDeclared()
    ensures WellDeclared(Pattern1, "PATTERN_1") && |Pattern1.ranges| == 2
    ensures WellDeclared(Pattern2, "PATTERN_2") && |Pattern2.ranges| == 2
    ensures WellDeclared(Pattern3, "PATTERN_3") && |Pattern3.ranges| == 3
    ensures WellDeclared(PatternX, "PATTERN_X") && |PatternX.ranges| == 4
  {
  }
}
