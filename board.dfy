// `GameBoard`: the 3x3 grid of cells, written in place by `set_space`, with the
// early-return scan `winner?` and the classifier `game_over`.

module Board {
  import opened Space
  import opened Position
  import opened BoardRules

  class GameBoard {
    /** The 3x3 grid, row-major: `grid[row][column]` is grid[3 * row + column]. The
      * board is never resized. */
    const grid: array<Cell>

    ghost predicate Valid()
    {
      grid.Length == 9
    }

    /** The cells in row-major order (`grid.flatten`). */
    function Cells(): (g: Grid)
      requires Valid()
      reads grid
    {
      grid[..]
    }

    /** `GameBoard.new` with its default `empty_grid`: nine open cells. */
    constructor ()
      ensures Valid() && fresh(grid)
      ensures Cells() == EmptyGrid() && OpenCount(Cells()) == 9
    {
      grid := new Cell[9](k => NewSpace());
      new;
      assert grid[..] == EmptyGrid();
      EmptyGridOpenCount();
    }

    /** `get_space`: the cell at (row, column). */
    function GetSpace(row: Coord, column: Coord): (c: Cell)
      requires Valid()
      reads grid
      ensures c == At(Cells(), row, column)
    {
      grid[3 * row + column]
    }

    /** `set_space`: overwrite one cell with the team's marker, whatever it held; the
      * other eight cells keep their contents (`StampKeepsOthers`). */
    method SetSpace(row: Coord, column: Coord, team: Marker)
      requires Valid()
      modifies grid
      ensures Valid()
      ensures At(Cells(), row, column) == Marked(team)
      ensures Cells() == old(Cells())[3 * row + column := Marked(team)]
    {
      grid[3 * row + column] := Marked(team);
    }

    /** `winner?`: scan `winning_positions` in order, skip a line with a blank cell, and
      * report true at the first line whose cells are all the same. */
    method IsWinner() returns (w: bool)
      requires Valid()
      ensures w <==> Winning(Cells())
      ensures w <==> SomeThreeInARow(Cells())
    {
      var g := Cells();
      var lines := WinningPositions();
      var j := 0;
      WinningIff(g);
      while j < |lines|
        invariant 0 <= j <= |lines|
        invariant forall i :: 0 <= i < j ==> !LineWins(Values(g, lines[i]))
      {
        var values := Values(g, lines[j]);
        if AnyBlank(values) {
          j := j + 1;
          continue;
        }
        if AllSame(values) {
          return true;
        }
        j := j + 1;
      }
      return false;
    }

    /** `draw?`: none of the nine cells is blank. */
    function IsDraw(): (d: bool)
      requires Valid()
      reads grid
      ensures d <==> Full(Cells())
    {
      NoneBlank(Cells())
    }

    /** `game_over`: `:winner` if some line is won, else `:draw` if no cell is open, else
      * `false`. It reads the board and changes nothing. */
    method GameOver() returns (s: Status)
      requires Valid()
      ensures s == Classify(Cells())
    {
      var w := IsWinner();
      if w {
        return Winner;
      }
      if IsDraw() {
        return Draw;
      }
      return NotOver;
    }
  }
}
