/**
 * The equation view of the game (src/app/game/components/Equasion.tsx):
 * the set of selected tile indices, its toggle, the selected total and the
 * flags derived from them.
 */
module Equasion {
  import opened Wrappers
  import opened GameTypes
  import Game

  /** handleTileClick's update: remove the index if selected, add it otherwise. */
  function Toggled(selected: set<int>, tileIndex: int): (r: set<int>)
    ensures tileIndex in r <==> tileIndex !in selected
    ensures forall j :: j != tileIndex ==> (j in r <==> j in selected)
  {
    if tileIndex in selected then selected - {tileIndex} else selected + {tileIndex}
  }

  /** Toggling the same index twice restores the selection. */
  lemma ToggleTwice(selected: set<int>, tileIndex: int)
    ensures Toggled(Toggled(selected, tileIndex), tileIndex) == selected
  {
  }

  /** numbersTotal: the sum of the values of the tiles whose index is selected. */
  function SelectedTotal(tiles: seq<Tile>, selected: set<int>): int
  {
    if tiles == [] then 0
    else
      var last := tiles[|tiles| - 1];
      SelectedTotal(tiles[..|tiles| - 1], selected) + (if last.index in selected then last.value else 0)
  }

  /** The flags rendered under the equation. */
  datatype StepStatus = StepStatus(
    numbersTotal: int,
    tilesClickedCount: int,
    isTilesClickOverflow: bool,
    isOverFlow: bool,
    isCorrectSum: bool,
    isTilesCorrectClickCount: bool,
    isStepCorrect: bool)

  /**
   * The derived state of the view.  number_of_tiles_to_click may be unset
   * (None); every comparison with undefined is false.
   */
  function Evaluate(eq: TransformedEquation, selected: set<int>): (s: StepStatus)
    ensures s.numbersTotal == SelectedTotal(eq.tiles, selected) && s.tilesClickedCount == |selected|
    ensures s.isStepCorrect <==> eq.tilesToClick == Some(|selected|) && s.numbersTotal == eq.correctNumber
    ensures s.isOverFlow <==> s.numbersTotal > eq.correctNumber
    ensures s.isTilesClickOverflow <==> eq.tilesToClick.Some? && |selected| > eq.tilesToClick.value
    ensures s.isStepCorrect ==> !s.isOverFlow && !s.isTilesClickOverflow
  {
    var numbersTotal := SelectedTotal(eq.tiles, selected);
    var tilesClickedCount := |selected|;
    var isTilesClickOverflow := eq.tilesToClick.Some? && tilesClickedCount > eq.tilesToClick.value;
    var isOverFlow := numbersTotal > eq.correctNumber;
    var isCorrectSum := numbersTotal == eq.correctNumber;
    var isTilesCorrectClickCount := eq.tilesToClick.Some? && eq.tilesToClick.value == tilesClickedCount;
    var isStepCorrect := isTilesCorrectClickCount && isCorrectSum;
    StepStatus(numbersTotal, tilesClickedCount, isTilesClickOverflow, isOverFlow,
               isCorrectSum, isTilesCorrectClickCount, isStepCorrect)
  }

  /** With non-negative values, selecting more tiles never lowers the total. */
  lemma {:induction false} SelectedTotalMonotone(tiles: seq<Tile>, selected: set<int>, more: set<int>)
    requires selected <= more
    requires forall k :: 0 <= k < |tiles| ==> tiles[k].value >= 0
    ensures SelectedTotal(tiles, selected) <= SelectedTotal(tiles, more)
  {
    if tiles != [] {
      SelectedTotalMonotone(tiles[..|tiles| - 1], selected, more);
    }
  }

  /** So an overflowing selection stays overflowing when tiles are added. */
  lemma OverflowPersists(eq: TransformedEquation, selected: set<int>, more: set<int>)
    requires selected <= more
    requires forall k :: 0 <= k < |eq.tiles| ==> eq.tiles[k].value >= 0
    requires Evaluate(eq, selected).isOverFlow
    ensures Evaluate(eq, more).isOverFlow && !Evaluate(eq, more).isStepCorrect
  {
    SelectedTotalMonotone(eq.tiles, selected, more);
  }

  /** Selecting exactly the indices of the correct tiles totals their sum. */
  lemma {:induction false} SelectingCorrectTiles(tiles: seq<Tile>, selected: set<int>)
    requires forall k :: 0 <= k < |tiles| ==> (tiles[k].index in selected <==> tiles[k].isCorrect)
    ensures SelectedTotal(tiles, selected) == Game.SumCorrect(tiles)
  {
    if tiles != [] {
      SelectingCorrectTiles(tiles[..|tiles| - 1], selected);
    }
  }

  /** The indices 0 .. n - 1. */
  function FirstIndices(n: nat): (s: set<int>)
    ensures |s| == n
    ensures forall k :: k in s <==> 0 <= k < n
  {
    if n == 0 then {} else FirstIndices(n - 1) + {n - 1}
  }

  /**
   * As written the generator leaves number_of_tiles_to_click unset, and then
   * no selection is ever a correct step.
   */
  lemma StepNeverCorrectWithoutClickCount(eq: TransformedEquation, selected: set<int>)
    requires eq.tilesToClick == None
    ensures !Evaluate(eq, selected).isStepCorrect && !Evaluate(eq, selected).isTilesClickOverflow
  {
  }

  /**
   * With the click count set to the number of correct tiles, selecting the
   * correct tiles of a generated equation is a correct step.
   */
  lemma CorrectTilesSolveStep(eq: TransformedEquation, p: Pattern, names: NameTable)
    requires Game.GeneratedFrom(eq, p, names)
    requires eq.tilesToClick == Some(p.numberOfCorrectTiles)
    requires p.numberOfCorrectTiles == 3 || p.numberOfCorrectTiles == 4
    ensures Evaluate(eq, FirstIndices(p.numberOfCorrectTiles)).isStepCorrect
  {
    SelectingCorrectTiles(eq.tiles, FirstIndices(p.numberOfCorrectTiles));
  }

  /**
   * The Equasion component's state: the generated equation (null until
   * the effect has run) and the selected tile indices.
   */
  class EquasionView {
    var eqData: Option<TransformedEquation>
    var selectedTileIndices: set<int>

    constructor ()
      ensures eqData == None && selectedTileIndices == {}
    {
      eqData := None;
      selectedTileIndices := {};
    }

    /**
     * The effect run when the pattern changes: a fresh equation from
     * generateEquasionAndTiles and an empty selection.  As written the
     * equation's click count is unset.  The view's only caller
     * (src/app/game/views/GameScreenView.tsx) passes the four declared
     * patterns, all feasible (Feasibility.DeclaredPatternsFeasible), so
     * the generator does not throw.
     */
    method OnPattern(p: Pattern, names: NameTable) returns (eq: TransformedEquation)
      requires RangesOrdered(p)
      requires p.numberOfCorrectTiles == 3 || p.numberOfCorrectTiles == 4
      requires Game.Feasible(p, names)
      modifies this
      ensures eqData == Some(eq) && selectedTileIndices == {}
      ensures Game.GeneratedFrom(eq, p, names) && eq.tilesToClick == None
    {
      var r := Game.GenerateEquasionAndTiles(p, names);
      eq := r.value;
      eqData := Some(eq);
      selectedTileIndices := {};
    }

    /**
     * The same effect with the click count set to the number of correct
     * tiles, through the corrected generator.
     */
    method OnPatternWithClickCount(p: Pattern, names: NameTable) returns (eq: TransformedEquation)
      requires RangesOrdered(p)
      requires p.numberOfCorrectTiles == 3 || p.numberOfCorrectTiles == 4
      requires Game.Feasible(p, names)
      modifies this
      ensures eqData == Some(eq) && selectedTileIndices == {}
      ensures Game.GeneratedFrom(eq, p, names) && eq.tilesToClick == Some(p.numberOfCorrectTiles)
    {
      var r := Game.GenerateEquasionAndTilesWithClickCount(p, names);
      eq := r.value;
      eqData := Some(eq);
      selectedTileIndices := {};
    }

    /** handleTileClick: toggles one index; the equation is untouched. */
    method HandleTileClick(tileIndex: int)
      modifies this
      ensures selectedTileIndices == Toggled(old(selectedTileIndices), tileIndex)
      ensures eqData == old(eqData)
    {
      var newSet := selectedTileIndices;
      if tileIndex in newSet {
        newSet := newSet - {tileIndex};
      } else {
        newSet := newSet + {tileIndex};
      }
      selectedTileIndices := newSet;
    }

    /** The flags of the current state; None while loading. */
    function Status(): (s: Option<StepStatus>)
      reads this
      ensures s.Some? <==> eqData.Some?
      ensures s.Some? ==> s.value == Evaluate(eqData.value, selectedTileIndices)
    {
      if eqData.None? then None else Some(Evaluate(eqData.value, selectedTileIndices))
    }
  }
}
