// The read-only logic of `GameBoard`: the eight lines of the grid, the line helpers
// that main.rb adds to Array (`all_same?`, `any_blank?`, `none_blank?`), and the
// end-of-game classification `game_over`, all over a row-major snapshot of the grid.

module BoardRules {
  import opened Space
  import opened Position

  /** The nine cells of the board in row-major order (`grid.flatten`). */
  type Grid = g: seq<Cell> | |g| == 9
    witness [Empty, Empty, Empty, Empty, Empty, Empty, Empty, Empty, Empty]

  type Pos = (Coord, Coord)

  /** `grid[row][column]`. */
  function At(g: Grid, r: Coord, c: Coord): Cell {
    g[3 * r + c]
  }

  /** The grid of a new board: nine fresh cells. */
  function EmptyGrid(): (g: Grid)
    ensures forall k :: 0 <= k < 9 ==> IsOpen(g[k])
  {
    [NewSpace(), NewSpace(), NewSpace(), NewSpace(), NewSpace(),
     NewSpace(), NewSpace(), NewSpace(), NewSpace()]
  }

  // ---- the Array helpers, on the values of one line -------------------------------

  /** `all_same?`: every element equals the first one. */
  predicate AllSame(vs: seq<Cell>)
    ensures AllSame(vs) <==> forall i, j :: 0 <= i < |vs| && 0 <= j < |vs| ==> vs[i] == vs[j]
  {
    forall k :: 0 <= k < |vs| ==> vs[k] == vs[0]
  }

  /** `any_blank?`: some element's text strips to nothing, i.e. some cell is open. */
  predicate AnyBlank(vs: seq<Cell>)
    ensures AnyBlank(vs) <==> exists k :: 0 <= k < |vs| && vs[k] == Empty
  {
    exists k :: 0 <= k < |vs| && IsBlank(vs[k])
  }

  /** `none_blank?`: the negation of AnyBlank, i.e. every cell is stamped. */
  predicate NoneBlank(vs: seq<Cell>)
    ensures NoneBlank(vs) <==> forall k :: 0 <= k < |vs| ==> vs[k].Marked?
  {
    !AnyBlank(vs)
  }

  // ---- the eight lines ------------------------------------------------------------

  /** Row r: the cells (r, 0), (r, 1), (r, 2). */
  function RowLine(r: Coord): seq<Pos> {
    [(r, 0), (r, 1), (r, 2)]
  }

  /** A row of the transposed grid, which is column c: the cells (0, c), (1, c), (2, c). */
  function ColumnLine(c: Coord): seq<Pos> {
    [(0, c), (1, c), (2, c)]
  }

  /** `diagonals`: top-left to bottom-right, then top-right to bottom-left. The k-th
    * cell of the first is (k, k), of the second (k, 2 - k). */
  function Diagonals(): (d: seq<seq<Pos>>)
    ensures |d| == 2 && |d[0]| == 3 && |d[1]| == 3
    ensures forall k :: 0 <= k < 3 ==> d[0][k] == (k, k) && d[1][k] == (k, 2 - k)
  {
    [[(0, 0), (1, 1), (2, 2)], [(0, 2), (1, 1), (2, 0)]]
  }

  /** `winning_positions`: `grid + grid.transpose + diagonals`, in that order: eight
    * lines of three positions each. */
  function WinningPositions(): (w: seq<seq<Pos>>)
    ensures |w| == 8
  {
    [RowLine(0), RowLine(1), RowLine(2), ColumnLine(0), ColumnLine(1), ColumnLine(2)]
      + Diagonals()
  }

  /** Line j < 3 of `winning_positions` is row j, line 3 + j is column j (row j of the
    * transposed grid), and lines 6 and 7 are the diagonals. */
  lemma WinningPositionsCells()
    ensures forall j :: 0 <= j < 3 ==> WinningPositions()[j] == RowLine(j)
    ensures forall j :: 0 <= j < 3 ==> WinningPositions()[3 + j] == ColumnLine(j)
    ensures WinningPositions()[6..] == Diagonals()
  {
    var w := WinningPositions();
    assert w[0] == RowLine(0) && w[1] == RowLine(1) && w[2] == RowLine(2);
    assert w[3] == ColumnLine(0) && w[4] == ColumnLine(1) && w[5] == ColumnLine(2);
  }

  /** Each of the eight lines has three positions. */
  lemma LinesOfThree()
    ensures forall j :: 0 <= j < 8 ==> |WinningPositions()[j]| == 3
  {
    WinningPositionsCells();
  }

  /** `position_values`: the cells along a line, one per position, in the line's order. */
  function Values(g: Grid, line: seq<Pos>): (vs: seq<Cell>)
    ensures |vs| == |line|
    ensures forall k :: 0 <= k < |line| ==> vs[k] == At(g, line[k].0, line[k].1)
  {
    seq(|line|, k requires 0 <= k < |line| => At(g, line[k].0, line[k].1))
  }

  /** The test `winner?` applies to one line: not skipped as blank, and all the same. */
  predicate LineWins(vs: seq<Cell>) {
    !AnyBlank(vs) && AllSame(vs)
  }

  /** `winner?` as a property of the grid: some line of `winning_positions` wins. */
  predicate Winning(g: Grid) {
    exists j :: 0 <= j < |WinningPositions()| && LineWins(Values(g, WinningPositions()[j]))
  }

  /** `winner?` holds exactly when some line of `winning_positions` wins, and so exactly
    * when one marker fills all three cells of some line. */
  lemma WinningFilled(g: Grid)
    ensures Winning(g) <==> exists j :: 0 <= j < 8 && LineWins(Values(g, WinningPositions()[j]))
    ensures Winning(g) <==> exists j :: 0 <= j < 8 && LineFilled(g, j)
  {
    WinningLines(g);
  }

  /** Status returned by `game_over`: `:winner`, `:draw` or `false`. */
  datatype Status = Winner | Draw | NotOver

  /** `game_over`: a winning line first, else a full grid is a draw, else play goes on. */
  function Classify(g: Grid): Status {
    if Winning(g) then Winner
    else if NoneBlank(g) then Draw
    else NotOver
  }

  // ---- an independent statement of the rules --------------------------------------

  /** Three cells in a row, column or diagonal all carry marker m, written out cell by cell. */
  ghost predicate ThreeInARow(g: Grid, m: Marker) {
    var x := Marked(m);
    (At(g, 0, 0) == x && At(g, 0, 1) == x && At(g, 0, 2) == x) ||
    (At(g, 1, 0) == x && At(g, 1, 1) == x && At(g, 1, 2) == x) ||
    (At(g, 2, 0) == x && At(g, 2, 1) == x && At(g, 2, 2) == x) ||
    (At(g, 0, 0) == x && At(g, 1, 0) == x && At(g, 2, 0) == x) ||
    (At(g, 0, 1) == x && At(g, 1, 1) == x && At(g, 2, 1) == x) ||
    (At(g, 0, 2) == x && At(g, 1, 2) == x && At(g, 2, 2) == x) ||
    (At(g, 0, 0) == x && At(g, 1, 1) == x && At(g, 2, 2) == x) ||
    (At(g, 0, 2) == x && At(g, 1, 1) == x && At(g, 2, 0) == x)
  }

  ghost predicate SomeThreeInARow(g: Grid) {
    exists m: Marker :: ThreeInARow(g, m)
  }

  /** Every cell of the grid is stamped. */
  ghost predicate Full(g: Grid) {
    forall k :: 0 <= k < 9 ==> g[k] != Empty
  }

  /** A three-cell line wins exactly when its first cell is stamped and the others equal it. */
  lemma LineWinsThree(vs: seq<Cell>)
    requires |vs| == 3
    ensures LineWins(vs) <==> vs[0].Marked? && vs[1] == vs[0] && vs[2] == vs[0]
  {
  }

  /** The values of a line of three positions, spelt out. */
  lemma ValuesThree(g: Grid, line: seq<Pos>)
    requires |line| == 3
    ensures Values(g, line)
         == [At(g, line[0].0, line[0].1), At(g, line[1].0, line[1].1), At(g, line[2].0, line[2].1)]
  {
  }

  /** Line j of `winning_positions` wins exactly when its cells all carry one marker. */
  lemma WinningLine(g: Grid, j: int)
    requires 0 <= j < 8
    ensures LineWins(Values(g, WinningPositions()[j]))
        <==> exists m: Marker :: LineOf(g, j, m)
  {
    var vs := Values(g, WinningPositions()[j]);
    ValuesThree(g, WinningPositions()[j]);
    LineWinsThree(vs);
    if LineWins(vs) {
      assert LineOf(g, j, vs[0].team);
    }
  }

  /** Every line of `winning_positions` wins exactly when one marker fills it. */
  lemma WinningLines(g: Grid)
    ensures forall j :: 0 <= j < 8 ==> (LineWins(Values(g, WinningPositions()[j])) <==> LineFilled(g, j))
  {
    forall j | 0 <= j < 8
      ensures LineWins(Values(g, WinningPositions()[j])) <==> LineFilled(g, j)
    {
      WinningLine(g, j);
    }
  }

  /** All three cells of line j of `winning_positions` carry marker m. */
  ghost predicate LineOf(g: Grid, j: int, m: Marker)
    requires 0 <= j < 8
  {
    var line := WinningPositions()[j];
    forall k :: 0 <= k < 3 ==> At(g, line[k].0, line[k].1) == Marked(m)
  }

  /** One marker fills all three cells of line j of `winning_positions`. */
  ghost predicate LineFilled(g: Grid, j: int)
    requires 0 <= j < 8
  {
    exists m: Marker :: LineOf(g, j, m)
  }

  /** With m fixed, some line of `winning_positions` carries m exactly when m has three
    * in a row, column or diagonal. */
  lemma LineOfIff(g: Grid, m: Marker)
    ensures (exists j :: 0 <= j < 8 && LineOf(g, j, m)) <==> ThreeInARow(g, m)
  {
    var x := Marked(m);
    var L: seq<seq<Pos>> := WinningPositions();
    forall j | 0 <= j < 8
      ensures LineOf(g, j, m)
          <==> At(g, L[j][0].0, L[j][0].1) == x && At(g, L[j][1].0, L[j][1].1) == x
               && At(g, L[j][2].0, L[j][2].1) == x
    {
    }
    if ThreeInARow(g, m) {
      if At(g, 0, 0) == x && At(g, 0, 1) == x && At(g, 0, 2) == x { assert LineOf(g, 0, m); }
      else if At(g, 1, 0) == x && At(g, 1, 1) == x && At(g, 1, 2) == x { assert LineOf(g, 1, m); }
      else if At(g, 2, 0) == x && At(g, 2, 1) == x && At(g, 2, 2) == x { assert LineOf(g, 2, m); }
      else if At(g, 0, 0) == x && At(g, 1, 0) == x && At(g, 2, 0) == x { assert LineOf(g, 3, m); }
      else if At(g, 0, 1) == x && At(g, 1, 1) == x && At(g, 2, 1) == x { assert LineOf(g, 4, m); }
      else if At(g, 0, 2) == x && At(g, 1, 2) == x && At(g, 2, 2) == x { assert LineOf(g, 5, m); }
      else if At(g, 0, 0) == x && At(g, 1, 1) == x && At(g, 2, 2) == x { assert LineOf(g, 6, m); }
      else { assert LineOf(g, 7, m); }
    }
  }

  /** `winner?` holds exactly when some marker has three in a row, three in a column or
    * three on one of the two diagonals. */
  lemma WinningIff(g: Grid)
    ensures Winning(g) <==> SomeThreeInARow(g)
  {
    var L: seq<seq<Pos>> := WinningPositions();
    if Winning(g) {
      var j :| 0 <= j < 8 && LineWins(Values(g, L[j]));
      WinningLine(g, j);
      var m: Marker :| LineOf(g, j, m);
      LineOfIff(g, m);
    }
    if SomeThreeInARow(g) {
      var m: Marker :| ThreeInARow(g, m);
      LineOfIff(g, m);
      var j :| 0 <= j < 8 && LineOf(g, j, m);
      WinningLine(g, j);
    }
  }

  /** `game_over` returns `:winner` exactly when some line is won, `:draw` exactly when no
    * line is won and no cell is open, and `false` exactly when no line is won and some
    * cell is open. */
  lemma ClassifyCases(g: Grid)
    ensures Classify(g) == Winner <==> SomeThreeInARow(g)
    ensures Classify(g) == Draw <==> !SomeThreeInARow(g) && Full(g)
    ensures Classify(g) == NotOver <==> !SomeThreeInARow(g) && exists k :: 0 <= k < 9 && g[k] == Empty
  {
    WinningIff(g);
  }

  /** A full grid is terminal. */
  lemma FullIsTerminal(g: Grid)
    requires Full(g)
    ensures Classify(g) != NotOver
  {
  }

  // ---- counting open cells --------------------------------------------------------

  /** The number of open cells among s. */
  function OpenCount(s: seq<Cell>): (n: nat)
    ensures n <= |s|
    ensures n == 0 <==> forall k :: 0 <= k < |s| ==> s[k] != Empty
  {
    if s == [] then 0
    else (if s[0] == Empty then 1 else 0) + OpenCount(s[1..])
  }

  /** Stamping an open cell leaves exactly one open cell fewer. */
  lemma {:induction false} OpenCountStamp(s: seq<Cell>, k: int, m: Marker)
    requires 0 <= k < |s| && s[k] == Empty
    ensures OpenCount(s[k := Marked(m)]) == OpenCount(s) - 1
  {
    if k > 0 {
      OpenCountStamp(s[1..], k - 1, m);
      assert s[k := Marked(m)][1..] == s[1..][k - 1 := Marked(m)];
    }
  }

  /** Stamping the cell at (row, column) changes that cell and no other. */
  lemma StampKeepsOthers(g: Grid, row: Coord, column: Coord, m: Marker)
    ensures At(g[3 * row + column := Marked(m)], row, column) == Marked(m)
    ensures forall r: Coord, c: Coord :: (r, c) != (row, column) ==>
      At(g[3 * row + column := Marked(m)], r, c) == At(g, r, c)
  {
  }

  /** The grid of a new board has all nine cells open. */
  lemma EmptyGridOpenCount()
    ensures OpenCount(EmptyGrid()) == 9
  {
  }

  // ---- who can complete a line ----------------------------------------------------

  /** If no line was won and stamping one cell with m produces a win, that win is m's:
    * only the player who just moved can complete a line. */
  lemma NewWinIsMovers(g: Grid, k: int, m: Marker, h: Grid)
    requires 0 <= k < 9 && h == g[k := Marked(m)]
    requires !Winning(g)
    requires Winning(h)
    ensures ThreeInARow(h, m)
  {
    WinningFilled(g);
    WinningFilled(h);
    var j :| 0 <= j < 8 && LineFilled(h, j);
    var n: Marker :| LineOf(h, j, n);
    if n != m {
      // the cell stamped with m is not on line j, so line j was already filled in g
      var L: seq<seq<Pos>> := WinningPositions();
      LinesOfThree();
      forall i | 0 <= i < 3 ensures At(g, L[j][i].0, L[j][i].1) == Marked(n) {
        assert At(h, L[j][i].0, L[j][i].1) == Marked(n);
      }
      assert LineOf(g, j, n);
      assert LineFilled(g, j);
      assert false;
    }
    LineOfIff(h, m);
  }

  // ---- two sample positions: a top-row win and a full-board draw -------------------

  /** Cells 2, 5, 6, 7 and 8 (row-major) meet every one of the eight lines, so while they
    * are all open no line is filled and the game goes on. */
  lemma BlockingCellsOpen(g: Grid)
    requires g[2] == Empty && g[5] == Empty && g[6] == Empty && g[7] == Empty && g[8] == Empty
    ensures Classify(g) == NotOver
  {
    ClassifyCases(g);
  }

  /** X plays 1, 2, 3 while O plays 4, 5: X wins along the top row. */
  lemma TopRowWin()
    ensures Classify([Marked('X'), Marked('X'), Marked('X'),
                      Marked('O'), Marked('O'), Empty,
                      Empty, Empty, Empty]) == Winner
    ensures ThreeInARow([Marked('X'), Marked('X'), Marked('X'),
                         Marked('O'), Marked('O'), Empty,
                         Empty, Empty, Empty], 'X')
    ensures !ThreeInARow([Marked('X'), Marked('X'), Marked('X'),
                          Marked('O'), Marked('O'), Empty,
                          Empty, Empty, Empty], 'O')
  {
    var g: Grid := [Marked('X'), Marked('X'), Marked('X'),
                    Marked('O'), Marked('O'), Empty,
                    Empty, Empty, Empty];
    LineOfIff(g, 'X');
    WinningIff(g);
  }

  /** X O X / O X O / O X O has no uniform line and no open cell: a draw. */
  lemma FullBoardDraw()
    ensures Classify([Marked('X'), Marked('O'), Marked('X'),
                      Marked('O'), Marked('X'), Marked('O'),
                      Marked('O'), Marked('X'), Marked('O')]) == Draw
  {
    var g: Grid := [Marked('X'), Marked('O'), Marked('X'),
                    Marked('O'), Marked('X'), Marked('O'),
                    Marked('O'), Marked('X'), Marked('O')];
    WinningIff(g);
    assert !SomeThreeInARow(g);
  }
}
