/**
 * Record shapes of the tile game (src/app/game/types/game_types.ts):
 * equation patterns, tiles and the generated equation.
 */
module GameTypes {
  import opened Wrappers

  /** An inclusive operand range [lo, hi]. */
  datatype Range = Range(lo: int, hi: int)

  /** EQUASION_PATTERN_TYPE: a pattern name, one range per operand and the tile counts. */
  datatype Pattern = Pattern(
    name: string,
    ranges: seq<Range>,
    numberOfCorrectTiles: int,
    numberOfTiles: int)

  /** A name table such as EQUASION_PATTERN_NAME: key -> pattern name. */
  type NameTable = map<string, string>

  datatype Sign = Plus | Minus

  /** One signed operand of the equation string (the first is written without a sign). */
  datatype Term = Term(sign: Sign, operand: int)

  datatype Tile = Tile(index: int, value: int, isCorrect: bool)

  /** EQUASION_TRANSFORMED_TYPE; `tilesToClick` is number_of_tiles_to_click, None when unset. */
  datatype TransformedEquation = TransformedEquation(
    name: string,
    terms: seq<Term>,
    correctNumber: int,
    tilesToClick: Option<int>,
    tiles: seq<Tile>,
    options: seq<int>)

  /** Every range of the pattern is a non-empty interval. */
  predicate RangesOrdered(p: Pattern)
  {
    forall k :: 0 <= k < |p.ranges| ==> p.ranges[k].lo <= p.ranges[k].hi
  }
}
