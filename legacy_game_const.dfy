/**
 * The older pattern table (src/const/GAME_CONST.ts).  Its name table is
 * the one game.ts imports; it has no PATTERN_X.
 */
module LegacyGameConst {
  import opened GameTypes

  /** EQUASION_PATTERN_NAME, without PATTERN_X. */
  const Names: NameTable := map[
    "PATTERN_1" := "PATTERN_1",
    "PATTERN_2" := "PATTERN_2",
    "PATTERN_3" := "PATTERN_3"]

  const Pattern1: Pattern := Pattern(Names["PATTERN_1"], [Range(7, 9), Range(11, 18)], 3, 6)

  const Pattern2: Pattern := Pattern(Names["PATTERN_2"], [Range(22, 29), Range(6, 8)], 3, 6)

  const Pattern3: Pattern := Pattern(Names["PATTERN_3"], [Range(15, 21), Range(6, 9), Range(3, 5)], 3, 6)

  const Patterns: seq<Pattern> := [Pattern1, Pattern2, Pattern3]

  /** The table has exactly the keys PATTERN_1, PATTERN_2 and PATTERN_3. */
  lemma NamesHaveNoPatternX()
    ensures Names.Keys == {"PATTERN_1", "PATTERN_2", "PATTERN_3"}
    ensures "PATTERN_X" !in Names
  {
  }
}
