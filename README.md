# Tic-tac-toe game state, modelled in Dafny

A model of the game logic in `main.rb` of a console tic-tac-toe program: cells
(`Space`), the 3x3 board (`GameBoard`) with its end-of-game classifier, the mapping
from a typed selection 1..9 to a cell, selection checking, and the turn loop of
`Game#play`.

Module layout, one per component of `main.rb`:

- `space.dfy`, module `Space`: a cell is `Empty` (value `' '`) or `Marked(team)`; a
  `Marker` is a character that Ruby's `strip` would not remove, so a stamped cell is
  never blank. `Player` is a name and a marker.
- `position.dfy`, module `Position`: `Row` and `Column` of a selection, and their
  inverse `Selection`.
- `grid.dfy`, module `BoardRules`: a row-major snapshot of the nine cells (`grid.flatten`),
  the eight lines (`winning_positions`: rows, the transposed grid, the two diagonals),
  the Array helpers `all_same?`, `any_blank?`, `none_blank?` as predicates on one line,
  and `game_over` as the function `Classify`. `ThreeInARow` states the rules again,
  cell by cell, as an independent reference.
- `board.dfy`, module `Board`: class `GameBoard` holding the grid in an `array` of nine
  cells, row-major, written in place by `SetSpace`; `IsWinner` is the source's
  early-return scan over the eight lines, as a loop.
- `game.dfy`, module `Game`: class `Game` with the two players, the `current` and
  `other` fields that `SwitchPlayers` exchanges, and `Play`, which consumes a supplied
  sequence of selections instead of reading the console.

Choices the model makes: `game_over` reports only `:winner`, `:draw` or `false`
(never which marker won), and the winner is the current player, as `play` reads it
off after the loop. `get_space` is only called with in-range coordinates, so the
model requires them.

The turn loop of `play` is stated twice. `Run` is a recursive definition over the
selections typed so far. The methods `Turn`, `TakeTurns` and `Play` update the board
and the turn slots in place, and their contracts equate the final grid, the outcome,
the number of moves and the current player with what `Run` gives.

## Model

| member | source | states |
|---|---|---|
| Space.Value | main.rb:20-24 | a cell's value is `' '` exactly when the cell is open; a stamped cell's value is never blank |
| Space.NewSpace | main.rb:22-24 | a fresh cell holds `' '` and is open |
| Space.IsOpen | main.rb:26-28 | `open?` (value is `' '`) holds exactly for the `Empty` cell |
| Space.IsBlank | main.rb:99-101 | a cell's value strips to nothing exactly when the cell is `Empty`, i.e. exactly when it is open |
| Position.Row | main.rb:161-163 | `row(i)` is the r with 3r < i <= 3r + 3, i.e. ceil(i/3) - 1, for every integer i |
| Position.Column | main.rb:165-167 | `column(i)` lies in 0..2 and 3·row(i) + column(i) = i - 1, for every integer i |
| Position.Selection | main.rb:161-167 | the selection for a cell (r, c) is one of 1..9 |
| Position.SelectionInRange | main.rb:157-167 | each i in 1..9 maps to a cell of the grid at row-major index i - 1, and back to i |
| Position.SelectionRoundTrip | main.rb:161-167 | every cell (r, c) is reached by the selection 3r + c + 1 |
| Position.SelectionInjective | main.rb:161-167 | two selections in 1..9 that map to the same cell are equal |
| Position.SelectionExamples | main.rb:161-167 | 1→(0,0), 2→(0,1), 3→(0,2), 4→(1,0), 5→(1,1), 9→(2,2) |
| BoardRules.EmptyGrid | main.rb:64-66 | all nine cells of the default grid are open |
| BoardRules.EmptyGridOpenCount | main.rb:64-66 | a new grid has exactly nine open cells |
| BoardRules.AllSame | main.rb:95-97 | `all_same?` (every element equals the first) holds exactly when all elements are pairwise equal |
| BoardRules.AnyBlank | main.rb:99-101 | `any_blank?` holds exactly when some cell of the line is `Empty` |
| BoardRules.NoneBlank | main.rb:103-105 | `none_blank?` holds exactly when every cell of the line is stamped |
| BoardRules.Values | main.rb:68-70 | `position_values` has one value per position of the line, and the k-th is the cell at the k-th position |
| BoardRules.ValuesThree | main.rb:68-70 | `position_values` of a three-position line is the three cells at those positions |
| BoardRules.Diagonals | main.rb:76-78 | `diagonals` is two lines of three cells: the k-th cell of the first is (k, k), of the second (k, 2 - k) |
| BoardRules.WinningPositions | main.rb:72-74 | `winning_positions` has eight lines |
| BoardRules.WinningPositionsCells | main.rb:72-78 | lines 0-2 of `winning_positions` are the rows, lines 3-5 the columns (the rows of the transposed grid), lines 6-7 the diagonals |
| BoardRules.LinesOfThree | main.rb:72-78 | every line of `winning_positions` has three cells |
| BoardRules.LineWinsThree | main.rb:80-86 | the per-line test of `winner?` (not skipped as blank, then all the same) holds exactly when the first cell is stamped and the other two equal it |
| BoardRules.WinningLine | main.rb:72-86 | line j of `winning_positions` wins exactly when its three cells carry one marker |
| BoardRules.WinningLines | main.rb:72-86 | the same, for all eight lines at once |
| BoardRules.WinningFilled | main.rb:80-86 | `winner?` holds exactly when one of the eight lines wins, and so exactly when one marker fills some line |
| BoardRules.LineOfIff | main.rb:72-78 | the eight lines of `grid + grid.transpose + diagonals` are exactly the three rows, three columns, (0,0)(1,1)(2,2) and (0,2)(1,1)(2,0) |
| BoardRules.WinningIff | main.rb:72-86 | `winner?` holds exactly when some marker fills a row, a column or a diagonal |
| BoardRules.ClassifyCases | main.rb:51-56 | `game_over` (the function `Classify`) is `:winner` exactly when some line is filled by one marker, `:draw` exactly when no line is and no cell is open, `false` exactly when no line is and some cell is open |
| BoardRules.FullIsTerminal | main.rb:51-56 | on a board with no open cell `game_over` is never `false` |
| BoardRules.OpenCountStamp | main.rb:142-145 | stamping an open cell leaves exactly one open cell fewer |
| BoardRules.StampKeepsOthers | main.rb:47-49 | stamping cell (row, column) gives that cell the marker and leaves the other eight as they were |
| BoardRules.NewWinIsMovers | main.rb:125-131 | if no line was won before a move, any win after it is a line of the mover's marker |
| BoardRules.BlockingCellsOpen | main.rb:51-56 | while cells 2, 5, 6, 7 and 8 (row-major) are open, `game_over` is `false` |
| BoardRules.TopRowWin | main.rb:51-56 | X on 1, 2, 3 and O on 4, 5 is classified `:winner`; X has three in a row and O has not |
| BoardRules.FullBoardDraw | main.rb:51-56 | X O X / O X O / O X O is classified `:draw` |
| Board.GameBoard.constructor | main.rb:39-41 | a new board has nine open cells |
| Board.GameBoard.GetSpace | main.rb:43-45 | `get_space(row, column)` is the cell at (row, column) of the grid |
| Board.GameBoard.SetSpace | main.rb:47-49 | `set_space` stamps the team on cell (row, column), whatever it held; the new grid is the old one with that one cell replaced |
| Board.GameBoard.IsWinner | main.rb:80-86 | the scan returns true exactly when some line of `winning_positions` wins, i.e. some marker fills a row, column or diagonal |
| Board.GameBoard.IsDraw | main.rb:88-90 | `draw?` holds exactly when none of the nine cells is open |
| Board.GameBoard.GameOver | main.rb:51-56 | `game_over` returns the classification of the current grid and, having no `modifies` clause, changes nothing |
| Game.ToMoveNext | main.rb:169-173 | one more move hands the turn to the other player |
| Game.Run | main.rb:125-131 | a run applies at most one move per selection, and a run with no move leaves the grid as it was and ends for want of input |
| Game.RunSkip | main.rb:147-155 | selections that are not valid are skipped without changing the run |
| Game.RunExhausted | main.rb:147-155 | when no remaining selection is valid, no move is made |
| Game.RunFirstValid | main.rb:125-131 | the first valid selection is stamped with the mover's marker, and the run then stops on `:winner` or `:draw` or goes on with the other player |
| Game.RunOpenCount | main.rb:142-145 | the moves of a run plus the open cells left equal the open cells at the start |
| Game.RunStamps | main.rb:142-145 | a stamped cell is never overwritten, and every cell stamped during the run carries one of the two players' markers |
| Game.RunEnds | main.rb:125-136 | a run ends in a draw only on a grid classified `:draw`, and runs out of input after a move only while the grid is classified `false` |
| Game.RunWinner | main.rb:125-134 | a run ends in a win only on a grid classified `:winner`, and the winner is the player in the current slot |
| Game.RunCurrent | main.rb:125-131 | turns alternate: after m moves the current slot holds the player who made move m (on a win or a draw) or the one due to make move m + 1 (when input ran out) |
| Game.RunWinnerLine | main.rb:125-134 | from a board with no won line, a run that ends in a win ends with the winner's marker filling a line |
| Game.RunMoveEnds | main.rb:125-128 | a valid first selection whose stamp is classified `:winner` ends the run with a win for the mover |
| Game.RunMoveGoesOn | main.rb:125-130 | a valid first selection whose stamp is classified `false` hands the turn to the other player |
| Game.TopRowRun | main.rb:119-138 | on a new board, selections 1, 4, 2, 5, 3 end after five moves with X on the top row, O on 4 and 5, and X the winner |
| Game.Game.constructor | main.rb:113-117 | a fresh empty board, and the two players as current and other in the order the shuffle chose |
| Game.Game.ValidSelection | main.rb:157-159 | `valid?(i)` holds exactly when 1 <= i <= 9 and cell i - 1 (row-major) is open; so 0, 10 and negatives are always rejected |
| Game.Game.GetSelection | main.rb:147-155 | returns the first valid selection at or after the start, all selections before it being invalid; or reports that none remains, all remaining selections being invalid |
| Game.Game.MakeMove | main.rb:142-145 | the selection is the first valid one, all earlier ones having been rejected; the new grid is the old one with that open cell stamped with the current player's marker; with no valid selection the board is unchanged |
| Game.Game.SwitchPlayers | main.rb:169-173 | current and other are exchanged, and the pair of players is kept |
| Game.Game.Turn | main.rb:125-130 | one pass of the loop: the new grid is the old one with the selected open cell stamped with the mover's marker; the status is `game_over` of the new grid; the players are switched exactly when it is `false`; the pass is the first step of `Run` |
| Game.Game.TakeTurns | main.rb:125-131 | the loop ends with the grid, the moves, the outcome and the current player that `Run` gives for the selections |
| Game.Game.Play | main.rb:119-138 | the game is `Run` of the selections; at most as many moves as open cells (nine from a new board); stops exactly on `:winner` or `:draw`; a win is credited to the player who just moved, whose marker fills a line; turns alternate |
| Game.TopRowGame | main.rb:113-138 | a new game between X (moving first) and O fed 1, 4, 2, 5, 3 is won by X after five moves |

## Left out

- Console I/O: the welcome text, the numbered guide board, the prompts, the
  "unavailable" notice and the final announcement (main.rb:120-123, 127, 133-136,
  149, 153) are not modelled; `Play` returns the outcome instead of printing it.
- `gets.to_i`: the input is a supplied sequence of integers, already converted; text
  that is not a number would convert to 0, which `ValidSelection` always rejects.
- Play: when the supplied selections run out the model stops with `InputExhausted`.
  The program has no such end: at end of input `gets` returns `nil`, `nil.to_i` is 0,
  and `get_selection` prints "Sorry, 0 is unavailable." and asks again, forever.
- Play: the credit "the winner's marker fills a line" is stated for a board that had
  no winning line when `Play` began, which is always the case for the fresh board
  `Game.new` creates.
- The loop of `play` is split into `Turn` (one pass of the loop body) and `TakeTurns`
  (the loop); `Play` calls `GameOver` again after the loop, as main.rb:133 does.
- String rendering: `Player#to_s`, `Space#to_s`, `GameBoard#to_s` are not modelled.
- `players.shuffle`: the random order is the constructor parameter `swapped`.
- `(i / 3.0).ceil`: modelled with exact integer arithmetic; the floating-point
  rounding this would suffer for huge `i` is not modelled (only 1..9 reach `row`).
- The Array monkey-patch: the helpers are predicates on one line of cells.
- The top-level script (main.rb:176-177): `TopRowGame` plays one scripted game
  between Adam and Tom, with the shuffle fixed so that Adam moves first.
- Player: the team is a single non-blank character; longer or blank team strings are
  not modelled, nor is the lack of any check that the two teams differ.
- Space objects: each cell is a value stored in the board's array, not an object of
  its own, so the model has no aliasing between cells (the program creates nine
  distinct objects).
- The optional `grid` argument of `GameBoard.new` (used only for the rendered guide)
  and the optional `board` argument of `Game.new` (never passed) are not modelled.
- Board.GameBoard.GetSpace: requires in-range coordinates. Ruby would wrap a negative
  index, raise `NoMethodError` for a row index past the end (`grid[3]` is `nil`), and
  return `nil` for a column index past the end; none of this is modelled.
