/**
 * The equation and tile generator (src/app/game/utils/game.ts).
 *
 * The random sources are nondeterministic choices: randomIntFromInterval
 * picks any integer of its inclusive interval, Math.random any value of
 * the feasible range in Split.PickPart.
 */
module Game {
  import opened Wrappers
  import opened GameTypes
  import Split

  /** The arithmetic forms generateEquasionFromPattern can build. */
  datatype Form =
    | TwoSum         // a + b
    | Difference     // a - b
    | SumDifference  // a + b - c
    | FourTerm       // a + b + c - d

  /** The sign of each operand of a form, in order. */
  function FormSigns(f: Form): (signs: seq<Sign>)
    ensures 2 <= |signs| <= 4 && signs[0] == Plus
  {
    match f
    case TwoSum => [Plus, Plus]
    case Difference => [Plus, Minus]
    case SumDifference => [Plus, Plus, Minus]
    case FourTerm => [Plus, Plus, Plus, Minus]
  }

  /**
   * `name === table.key` in the source: a key the table lacks reads as
   * undefined, which equals no string.
   */
  predicate NameIs(table: NameTable, key: string, name: string)
  {
    key in table && table[key] == name
  }

  /** The branch of generateEquasionFromPattern that a pattern name reaches. */
  function Dispatch(table: NameTable, name: string): Form
  {
    if NameIs(table, "PATTERN_2", name) then Difference
    else if NameIs(table, "PATTERN_3", name) then SumDifference
    else if NameIs(table, "PATTERN_X", name) then FourTerm
    else TwoSum
  }

  function TermValue(t: Term): int
  {
    if t.sign == Plus then t.operand else -t.operand
  }

  /** The value of the equation string. */
  function SignedSum(terms: seq<Term>): int
  {
    if terms == [] then 0 else TermValue(terms[0]) + SignedSum(terms[1..])
  }

  function Signs(terms: seq<Term>): (signs: seq<Sign>)
    ensures |signs| == |terms| && forall k :: 0 <= k < |terms| ==> signs[k] == terms[k].sign
  {
    seq(|terms|, k requires 0 <= k < |terms| => terms[k].sign)
  }

  /** SignedSum unfolded on equations of two to four terms. */
  lemma SignedSumOfTerms(terms: seq<Term>)
    requires 2 <= |terms| <= 4
    ensures |terms| == 2 ==> SignedSum(terms) == TermValue(terms[0]) + TermValue(terms[1])
    ensures |terms| == 3 ==> SignedSum(terms) == TermValue(terms[0]) + TermValue(terms[1]) + TermValue(terms[2])
    ensures |terms| == 4 ==> SignedSum(terms) == TermValue(terms[0]) + TermValue(terms[1]) + TermValue(terms[2]) + TermValue(terms[3])
  {
    var last := terms[|terms| - 1..];
    assert SignedSum(last) == TermValue(terms[|terms| - 1]) by {
      assert last[1..] == [];
    }
    if |terms| == 3 {
      assert terms[1..][1..] == last;
    } else if |terms| == 4 {
      assert terms[1..][1..][1..] == last;
    } else {
      assert terms[1..] == last;
    }
  }

  /** Operand k of the equation lies in range k of the pattern. */
  predicate TermsInRanges(terms: seq<Term>, ranges: seq<Range>)
  {
    |terms| <= |ranges| &&
    forall k :: 0 <= k < |terms| ==> ranges[k].lo <= terms[k].operand <= ranges[k].hi
  }

  /** The smallest value a form with these signs takes over the ranges. */
  function LowestSum(signs: seq<Sign>, ranges: seq<Range>): int
    requires |signs| <= |ranges|
  {
    if signs == [] then 0
    else (if signs[0] == Plus then ranges[0].lo else -ranges[0].hi) + LowestSum(signs[1..], ranges[1..])
  }

  /** The largest value a form with these signs takes over the ranges. */
  function HighestSum(signs: seq<Sign>, ranges: seq<Range>): int
    requires |signs| <= |ranges|
  {
    if signs == [] then 0
    else (if signs[0] == Plus then ranges[0].hi else -ranges[0].lo) + HighestSum(signs[1..], ranges[1..])
  }

  /** Every draw within the ranges gives a value between LowestSum and HighestSum. */
  lemma {:induction false} SignedSumWithin(terms: seq<Term>, ranges: seq<Range>)
    requires TermsInRanges(terms, ranges)
    ensures LowestSum(Signs(terms), ranges) <= SignedSum(terms) <= HighestSum(Signs(terms), ranges)
  {
    if terms != [] {
      assert Signs(terms)[1..] == Signs(terms[1..]);
      SignedSumWithin(terms[1..], ranges[1..]);
    }
  }

  predicate RangesOrderedUpTo(ranges: seq<Range>, n: int)
  {
    0 <= n <= |ranges| && forall k :: 0 <= k < n ==> ranges[k].lo <= ranges[k].hi
  }

  /** A draw that attains LowestSum: each operand at the end of its range that lowers the sum. */
  function LowestDraw(signs: seq<Sign>, ranges: seq<Range>): (terms: seq<Term>)
    requires RangesOrderedUpTo(ranges, |signs|)
    ensures TermsInRanges(terms, ranges) && Signs(terms) == signs
    ensures SignedSum(terms) == LowestSum(signs, ranges)
  {
    if signs == [] then []
    else
      var rest := LowestDraw(signs[1..], ranges[1..]);
      var terms := [Term(signs[0], if signs[0] == Plus then ranges[0].lo else ranges[0].hi)] + rest;
      assert terms[1..] == rest;
      terms
  }

  /** A draw that attains HighestSum. */
  function HighestDraw(signs: seq<Sign>, ranges: seq<Range>): (terms: seq<Term>)
    requires RangesOrderedUpTo(ranges, |signs|)
    ensures TermsInRanges(terms, ranges) && Signs(terms) == signs
    ensures SignedSum(terms) == HighestSum(signs, ranges)
  {
    if signs == [] then []
    else
      var rest := HighestDraw(signs[1..], ranges[1..]);
      var terms := [Term(signs[0], if signs[0] == Plus then ranges[0].hi else ranges[0].lo)] + rest;
      assert terms[1..] == rest;
      terms
  }

  /** randomIntFromInterval(lo, hi): any integer of [lo, hi]. */
  method RandomIntFromInterval(lo: int, hi: int) returns (x: int)
    requires lo <= hi
    ensures lo <= x <= hi
  {
    x :| lo <= x <= hi;
  }

  /** The errors generating an equation and its tiles can throw. */
  datatype GenError =
    | MissingRange                  // TypeError: pattern[k] is undefined
    | SplitFailed(error: Split.SplitError)

  /** TransformedPattern: the equation string (as signed terms) and its value. */
  datatype Transformed = Transformed(terms: seq<Term>, correctNumber: int)

  /**
   * generateEquasionFromPattern: draws one operand per range of the form the
   * pattern name dispatches to, and evaluates the equation.
   */
  method GenerateEquasionFromPattern(p: Pattern, names: NameTable) returns (r: Result<Transformed, GenError>)
    requires RangesOrdered(p)
    ensures r.Failure? <==> |p.ranges| < |FormSigns(Dispatch(names, p.name))|
    ensures r.Failure? ==> r.error == MissingRange
    ensures r.Success? ==>
      && Signs(r.value.terms) == FormSigns(Dispatch(names, p.name))
      && TermsInRanges(r.value.terms, p.ranges)
      && r.value.correctNumber == SignedSum(r.value.terms)
  {
    var ranges := p.ranges;
    if NameIs(names, "PATTERN_2", p.name) {
      if |ranges| < 2 {
        return Failure(MissingRange);
      }
      var a := RandomIntFromInterval(ranges[0].lo, ranges[0].hi);
      var b := RandomIntFromInterval(ranges[1].lo, ranges[1].hi);
      var terms := [Term(Plus, a), Term(Minus, b)];
      SignedSumOfTerms(terms);
      return Success(Transformed(terms, a - b));
    } else if NameIs(names, "PATTERN_3", p.name) {
      if |ranges| < 3 {
        return Failure(MissingRange);
      }
      var a := RandomIntFromInterval(ranges[0].lo, ranges[0].hi);
      var b := RandomIntFromInterval(ranges[1].lo, ranges[1].hi);
      var c := RandomIntFromInterval(ranges[2].lo, ranges[2].hi);
      var terms := [Term(Plus, a), Term(Plus, b), Term(Minus, c)];
      SignedSumOfTerms(terms);
      return Success(Transformed(terms, a + b - c));
    } else if NameIs(names, "PATTERN_X", p.name) {
      if |ranges| < 4 {
        return Failure(MissingRange);
      }
      var a := RandomIntFromInterval(ranges[0].lo, ranges[0].hi);
      var b := RandomIntFromInterval(ranges[1].lo, ranges[1].hi);
      var c := RandomIntFromInterval(ranges[2].lo, ranges[2].hi);
      var d := RandomIntFromInterval(ranges[3].lo, ranges[3].hi);
      var terms := [Term(Plus, a), Term(Plus, b), Term(Plus, c), Term(Minus, d)];
      SignedSumOfTerms(terms);
      return Success(Transformed(terms, a + b + c - d));
    } else {
      if |ranges| < 2 {
        return Failure(MissingRange);
      }
      var a := RandomIntFromInterval(ranges[0].lo, ranges[0].hi);
      var b := RandomIntFromInterval(ranges[1].lo, ranges[1].hi);
      var terms := [Term(Plus, a), Term(Plus, b)];
      SignedSumOfTerms(terms);
      return Success(Transformed(terms, a + b));
    }
  }

  /** Number of tiles generateTiles lays out: 6 for three correct tiles, 8 otherwise. */
  function LayoutSize(numberOfCorrectTiles: int): int
  {
    if numberOfCorrectTiles == 3 then 6 else 8
  }

  /** The interval the decoy at `index` is drawn from. */
  function DecoyRange(numberOfCorrectTiles: int, index: int): Range
  {
    if numberOfCorrectTiles == 3 then
      (if index == 3 then Range(3, 9) else if index == 4 then Range(3, 8) else Range(3, 7))
    else
      (if index <= 5 then Range(3, 7) else Range(3, 9))
  }

  /** Sum of the values of the tiles marked correct. */
  function SumCorrect(tiles: seq<Tile>): int
  {
    if tiles == [] then 0
    else SumCorrect(tiles[..|tiles| - 1]) + (if tiles[|tiles| - 1].isCorrect then tiles[|tiles| - 1].value else 0)
  }

  /**
   * The layout of generateTiles: tile k has index k, the first
   * `numberOfCorrectTiles` are correct, the rest are decoys drawn from
   * DecoyRange, and every value is a digit.
   */
  predicate LaidOut(tiles: seq<Tile>, numberOfCorrectTiles: int)
  {
    && |tiles| == LayoutSize(numberOfCorrectTiles)
    && forall k :: 0 <= k < |tiles| ==>
      && tiles[k].index == k
      && (tiles[k].isCorrect <==> k < numberOfCorrectTiles)
      && 0 <= tiles[k].value <= Split.MAX
      && (k >= numberOfCorrectTiles ==> DecoyRange(numberOfCorrectTiles, k).lo <= tiles[k].value <= DecoyRange(numberOfCorrectTiles, k).hi)
  }

  /** When the correct tiles are a prefix carrying `split`, their sum is Sum(split). */
  lemma {:induction false} SumCorrectIsSplitSum(tiles: seq<Tile>, split: seq<int>)
    requires |split| <= |tiles|
    requires forall k :: 0 <= k < |tiles| ==> (tiles[k].isCorrect <==> k < |split|)
    requires forall k :: 0 <= k < |split| ==> tiles[k].value == split[k]
    ensures SumCorrect(tiles) == Split.Sum(split)
  {
    if tiles != [] {
      var front := tiles[..|tiles| - 1];
      if |split| == |tiles| {
        SumCorrectIsSplitSum(front, split[..|split| - 1]);
      } else {
        SumCorrectIsSplitSum(front, split);
      }
    }
  }

  /**
   * generateTiles: the split of the answer (minimum hint 4) as the correct
   * tiles, then the decoys.  numberOfTiles is not read.  `split` is the
   * value splitMax9 returned.
   */
  method GenerateTiles(correctAnswer: int, numberOfCorrectTiles: int, numberOfTiles: int)
    returns (r: Result<seq<Tile>, GenError>, ghost split: seq<int>)
    requires numberOfCorrectTiles == 3 || numberOfCorrectTiles == 4
    ensures r.Failure? <==> !(0 <= correctAnswer <= numberOfCorrectTiles * Split.MAX)
    ensures r.Success? ==>
      && Split.IsDigitSplit(split, correctAnswer, numberOfCorrectTiles)
      && LaidOut(r.value, numberOfCorrectTiles)
      && (forall k :: 0 <= k < numberOfCorrectTiles ==> r.value[k].value == split[k])
      && SumCorrect(r.value) == correctAnswer
  {
    ghost var firstPass: seq<int>;
    var correctNumbers: Result<seq<int>, Split.SplitError>;
    if numberOfCorrectTiles == 3 {
      correctNumbers, firstPass := Split.SplitMax9(correctAnswer, numberOfCorrectTiles, 4);
      if correctNumbers.Failure? {
        return Failure(SplitFailed(correctNumbers.error)), [];
      }
      var c := correctNumbers.value;
      var d3 := RandomIntFromInterval(3, 9);
      var d4 := RandomIntFromInterval(3, 8);
      var d5 := RandomIntFromInterval(3, 7);
      var tiles := [
        Tile(0, c[0], true),
        Tile(1, c[1], true),
        Tile(2, c[2], true),
        Tile(3, d3, false),
        Tile(4, d4, false),
        Tile(5, d5, false)
      ];
      SumCorrectIsSplitSum(tiles, c);
      return Success(tiles), c;
    } else {
      correctNumbers, firstPass := Split.SplitMax9(correctAnswer, numberOfCorrectTiles, 4);
      if correctNumbers.Failure? {
        return Failure(SplitFailed(correctNumbers.error)), [];
      }
      var c := correctNumbers.value;
      var d4 := RandomIntFromInterval(3, 7);
      var d5 := RandomIntFromInterval(3, 7);
      var d6 := RandomIntFromInterval(3, 9);
      var d7 := RandomIntFromInterval(3, 9);
      var tiles := [
        Tile(0, c[0], true),
        Tile(1, c[1], true),
        Tile(2, c[2], true),
        Tile(3, c[3], true),
        Tile(4, d4, false),
        Tile(5, d5, false),
        Tile(6, d6, false),
        Tile(7, d7, false)
      ];
      SumCorrectIsSplitSum(tiles, c);
      return Success(tiles), c;
    }
  }

  /**
   * Every draw of the pattern's form gives an answer that splits onto its
   * correct tiles: the form has enough ranges and its value lies in
   * [0, numberOfCorrectTiles * 9].
   */
  predicate Feasible(p: Pattern, names: NameTable)
  {
    var signs := FormSigns(Dispatch(names, p.name));
    && |signs| <= |p.ranges|
    && 0 <= LowestSum(signs, p.ranges)
    && HighestSum(signs, p.ranges) <= p.numberOfCorrectTiles * Split.MAX
  }

  /** What generateEquasionAndTiles returns for pattern `p`. */
  predicate GeneratedFrom(eq: TransformedEquation, p: Pattern, names: NameTable)
  {
    && eq.name == p.name
    && eq.options == []
    && Signs(eq.terms) == FormSigns(Dispatch(names, p.name))
    && TermsInRanges(eq.terms, p.ranges)
    && eq.correctNumber == SignedSum(eq.terms)
    && LaidOut(eq.tiles, p.numberOfCorrectTiles)
    && SumCorrect(eq.tiles) == eq.correctNumber
  }

  /**
   * generateEquasionAndTiles: the equation, then its tiles.  As written it
   * never sets number_of_tiles_to_click.
   */
  method GenerateEquasionAndTiles(p: Pattern, names: NameTable) returns (r: Result<TransformedEquation, GenError>)
    requires RangesOrdered(p)
    requires p.numberOfCorrectTiles == 3 || p.numberOfCorrectTiles == 4
    ensures Feasible(p, names) ==> r.Success?
    ensures r.Success? ==> GeneratedFrom(r.value, p, names) && r.value.tilesToClick == None
  {
    var transformed := GenerateEquasionFromPattern(p, names);
    if transformed.Failure? {
      return Failure(transformed.error);
    }
    var t := transformed.value;
    SignedSumWithin(t.terms, p.ranges);
    ghost var split;
    var tiles;
    tiles, split := GenerateTiles(t.correctNumber, p.numberOfCorrectTiles, p.numberOfTiles);
    if tiles.Failure? {
      return Failure(tiles.error);
    }
    return Success(TransformedEquation(p.name, t.terms, t.correctNumber, None, tiles.value, []));
  }

  /**
   * The generator with number_of_tiles_to_click set to the number of
   * correct tiles, as EQUASION_TRANSFORMED_TYPE requires.
   */
  method GenerateEquasionAndTilesWithClickCount(p: Pattern, names: NameTable) returns (r: Result<TransformedEquation, GenError>)
    requires RangesOrdered(p)
    requires p.numberOfCorrectTiles == 3 || p.numberOfCorrectTiles == 4
    ensures Feasible(p, names) ==> r.Success?
    ensures r.Success? ==> GeneratedFrom(r.value, p, names) && r.value.tilesToClick == Some(p.numberOfCorrectTiles)
  {
    r := GenerateEquasionAndTiles(p, names);
    if r.Success? {
      r := Success(r.value.(tilesToClick := Some(p.numberOfCorrectTiles)));
    }
  }
}
