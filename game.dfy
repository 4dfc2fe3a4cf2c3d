// `Game`: the two players, whose turn it is, selection checking, and the
// move / check / switch loop of `play`. Console input is replaced by a supplied
// sequence of already-converted selections (the values `gets.to_i` would return).

module Game {
  import opened Space
  import opened Position
  import opened BoardRules
  import opened Board

  /** How `play` ends: the player who completed a line, a draw, or (in this model only)
    * the supplied selections ran out while the game was still waiting for a move. */
  datatype Outcome = Won(winner: Player) | Drawn | InputExhausted

  /** Whose turn it is after `taken` moves when `first` moved first and `second` second. */
  function ToMove(first: Player, second: Player, taken: nat): Player
    decreases taken
  {
    if taken == 0 then first else ToMove(second, first, taken - 1)
  }

  /** One more move hands the turn to the other player. */
  lemma ToMoveNext(first: Player, second: Player, taken: nat)
    ensures ToMove(first, second, taken + 1) == ToMove(second, first, taken)
  {
  }

  /** The test of `valid?` on a snapshot of the grid: i names one of the nine cells,
    * numbered 1..9 row by row, and that cell is open. */
  predicate ValidOn(g: Grid, i: int) {
    1 <= i <= 9 && g[i - 1] == Empty
  }

  /** Where a run of `play` ends: the final grid, how it ended, the moves applied, and
    * the player in the current slot (the last mover after a win or a draw, the player
    * asked for a selection when the input ran out). */
  datatype Finish = Finish(grid: Grid, outcome: Outcome, moves: nat, current: Player)

  /** The same end reached n moves later. */
  function Later(f: Finish, n: nat): Finish {
    f.(moves := f.moves + n)
  }

  /** The loop of `play`, from grid g with `current` to move and `other` waiting, fed the
    * selections `inputs`: a selection that is not valid is skipped (`get_selection`
    * asks again), a valid one is stamped with the mover's marker (`make_move`), then
    * `game_over` either ends the run or hands the turn to the other player. */
  function Run(g: Grid, current: Player, other: Player, inputs: seq<int>): (f: Finish)
    ensures f.moves <= |inputs|
    ensures f.moves == 0 ==> f == Finish(g, InputExhausted, 0, current)
    decreases |inputs|
  {
    if inputs == [] then Finish(g, InputExhausted, 0, current)
    else if !ValidOn(g, inputs[0]) then Run(g, current, other, inputs[1..])
    else
      var h: Grid := g[inputs[0] - 1 := Marked(current.team)];
      var status := Classify(h);
      if status == Winner then Finish(h, Won(current), 1, current)
      else if status == Draw then Finish(h, Drawn, 1, current)
      else Later(Run(h, other, current, inputs[1..]), 1)
  }

  /** Selections that are not valid on the grid do not change the run. */
  lemma {:induction false} RunSkip(g: Grid, current: Player, other: Player, inputs: seq<int>, from: nat, to: nat)
    requires from <= to <= |inputs|
    requires forall k :: from <= k < to ==> !ValidOn(g, inputs[k])
    ensures Run(g, current, other, inputs[from..]) == Run(g, current, other, inputs[to..])
    decreases |inputs| - from
  {
    if from < to {
      assert inputs[from..][1..] == inputs[from + 1..];
      RunSkip(g, current, other, inputs, from + 1, to);
    }
  }

  /** When no selection from `from` on is valid, the run stops for want of input, with
    * the grid untouched. */
  lemma RunExhausted(g: Grid, current: Player, other: Player, inputs: seq<int>, from: nat)
    requires from <= |inputs|
    requires forall k :: from <= k < |inputs| ==> !ValidOn(g, inputs[k])
    ensures Run(g, current, other, inputs[from..]) == Finish(g, InputExhausted, 0, current)
  {
    RunSkip(g, current, other, inputs, from, |inputs|);
    assert inputs[|inputs|..] == [];
  }

  /** When inputs[next - 1] is the first valid selection from `from` on, the run stamps
    * it with the mover's marker and then stops or goes on as `game_over` says. */
  lemma RunFirstValid(g: Grid, current: Player, other: Player, inputs: seq<int>, from: nat, next: nat)
    requires from < next <= |inputs| && ValidOn(g, inputs[next - 1])
    requires forall k :: from <= k < next - 1 ==> !ValidOn(g, inputs[k])
    ensures var h: Grid := g[inputs[next - 1] - 1 := Marked(current.team)];
      Run(g, current, other, inputs[from..])
        == if Classify(h) == Winner then Finish(h, Won(current), 1, current)
           else if Classify(h) == Draw then Finish(h, Drawn, 1, current)
           else Later(Run(h, other, current, inputs[next..]), 1)
  {
    RunSkip(g, current, other, inputs, from, next - 1);
    assert inputs[next - 1..][1..] == inputs[next..];
  }

  /** Each move of a run stamps one open cell, so the moves plus the open cells left
    * equal the open cells at the start: at most nine moves from a new board. */
  lemma {:induction false} RunOpenCount(g: Grid, current: Player, other: Player, inputs: seq<int>)
    ensures Run(g, current, other, inputs).moves + OpenCount(Run(g, current, other, inputs).grid) == OpenCount(g)
    decreases |inputs|
  {
    if inputs != [] {
      if !ValidOn(g, inputs[0]) {
        RunOpenCount(g, current, other, inputs[1..]);
      } else {
        var h: Grid := g[inputs[0] - 1 := Marked(current.team)];
        OpenCountStamp(g, inputs[0] - 1, current.team);
        RunOpenCount(h, other, current, inputs[1..]);
      }
    }
  }

  /** A stamped cell keeps its marker for the rest of the run, and every cell stamped
    * during the run carries the marker of one of the two players. */
  lemma {:induction false} RunStamps(g: Grid, current: Player, other: Player, inputs: seq<int>)
    ensures forall k :: 0 <= k < 9 && g[k] != Empty ==> Run(g, current, other, inputs).grid[k] == g[k]
    ensures forall k :: 0 <= k < 9 && Run(g, current, other, inputs).grid[k] != g[k] ==>
      Run(g, current, other, inputs).grid[k] in {Marked(current.team), Marked(other.team)}
    decreases |inputs|
  {
    if inputs != [] {
      if !ValidOn(g, inputs[0]) {
        RunStamps(g, current, other, inputs[1..]);
      } else {
        var h: Grid := g[inputs[0] - 1 := Marked(current.team)];
        RunStamps(h, other, current, inputs[1..]);
      }
    }
  }

  /** A run ends in a draw only on a grid `game_over` calls `:draw`, and stops for want
    * of input after a move only while `game_over` still answers `false`. */
  lemma {:induction false} RunEnds(g: Grid, current: Player, other: Player, inputs: seq<int>)
    ensures var f := Run(g, current, other, inputs);
      (f.outcome.Drawn? ==> Classify(f.grid) == Draw) &&
      (f.outcome.InputExhausted? && f.moves > 0 ==> Classify(f.grid) == NotOver)
    decreases |inputs|
  {
    if inputs != [] {
      if !ValidOn(g, inputs[0]) {
        RunEnds(g, current, other, inputs[1..]);
      } else {
        var h: Grid := g[inputs[0] - 1 := Marked(current.team)];
        if Classify(h) == NotOver {
          RunEnds(h, other, current, inputs[1..]);
        }
      }
    }
  }

  /** A run ends in a win only on a grid `game_over` calls `:winner`, and the winner is
    * the player left in the current slot, the one who made the last move. */
  lemma {:induction false} RunWinner(g: Grid, current: Player, other: Player, inputs: seq<int>)
    ensures var f := Run(g, current, other, inputs);
      f.outcome.Won? ==> Classify(f.grid) == Winner && f.outcome.winner == f.current
    decreases |inputs|
  {
    if inputs != [] {
      if !ValidOn(g, inputs[0]) {
        RunWinner(g, current, other, inputs[1..]);
      } else {
        var h: Grid := g[inputs[0] - 1 := Marked(current.team)];
        if Classify(h) == NotOver {
          RunWinner(h, other, current, inputs[1..]);
        }
      }
    }
  }

  /** Turns alternate: after m moves from `current`, the current slot holds the player
    * who made move m when the run ended on a win or a draw, and the player due to make
    * move m + 1 when the input ran out. */
  lemma {:induction false} RunCurrent(g: Grid, current: Player, other: Player, inputs: seq<int>)
    ensures var f := Run(g, current, other, inputs);
      f.current == ToMove(current, other, if f.outcome.InputExhausted? then f.moves else f.moves - 1)
    decreases |inputs|
  {
    if inputs != [] {
      if !ValidOn(g, inputs[0]) {
        RunCurrent(g, current, other, inputs[1..]);
      } else {
        var h: Grid := g[inputs[0] - 1 := Marked(current.team)];
        if Classify(h) == NotOver {
          var f := Run(h, other, current, inputs[1..]);
          assert Run(g, current, other, inputs) == Later(f, 1);
          RunCurrent(h, other, current, inputs[1..]);
          var n := if f.outcome.InputExhausted? then f.moves else f.moves - 1;
          ToMoveNext(current, other, n);
        }
      }
    }
  }

  /** If no line is filled when a run starts, a run that ends in a win ends with the
    * winner's marker filling a row, column or diagonal. */
  lemma {:induction false} RunWinnerLine(g: Grid, current: Player, other: Player, inputs: seq<int>)
    requires !Winning(g)
    ensures var f := Run(g, current, other, inputs);
      f.outcome.Won? ==> ThreeInARow(f.grid, f.outcome.winner.team)
    decreases |inputs|
  {
    if inputs != [] {
      if !ValidOn(g, inputs[0]) {
        RunWinnerLine(g, current, other, inputs[1..]);
      } else {
        var h: Grid := g[inputs[0] - 1 := Marked(current.team)];
        if Classify(h) == Winner {
          NewWinIsMovers(g, inputs[0] - 1, current.team, h);
        } else if Classify(h) == NotOver {
          RunWinnerLine(h, other, current, inputs[1..]);
        }
      }
    }
  }

  /** On a new board, X typing 1, 2, 3 and O typing 4, 5 in between: X fills the top row
    * with the fifth move and is the winner. */
  lemma TopRowRun(x: Player, o: Player)
    requires x.team == 'X' && o.team == 'O'
    ensures Run(EmptyGrid(), x, o, [1, 4, 2, 5, 3])
         == Finish([Marked('X'), Marked('X'), Marked('X'),
                    Marked('O'), Marked('O'), Empty,
                    Empty, Empty, Empty], Won(x), 5, x)
  {
    var X, O, E := Marked('X'), Marked('O'), Empty;
    var g1: Grid := [X, E, E, E, E, E, E, E, E];
    var g2: Grid := [X, E, E, O, E, E, E, E, E];
    var g3: Grid := [X, X, E, O, E, E, E, E, E];
    var g4: Grid := [X, X, E, O, O, E, E, E, E];
    var g5: Grid := [X, X, X, O, O, E, E, E, E];
    assert Marked(x.team) == X && Marked(o.team) == O;
    assert EmptyGrid()[0 := X] == g1 && g1[3 := O] == g2 && g2[1 := X] == g3;
    assert g3[4 := O] == g4 && g4[2 := X] == g5;
    assert [1, 4, 2, 5, 3][1..] == [4, 2, 5, 3] && [4, 2, 5, 3][1..] == [2, 5, 3];
    assert [2, 5, 3][1..] == [5, 3] && [5, 3][1..] == [3];
    BlockingCellsOpen(g1);
    BlockingCellsOpen(g2);
    BlockingCellsOpen(g3);
    BlockingCellsOpen(g4);
    assert Classify(g5) == Winner by { TopRowWin(); }
    RunMoveEnds(g4, g5, x, o, [3]);
    RunMoveGoesOn(g3, g4, o, x, [5, 3]);
    RunMoveGoesOn(g2, g3, x, o, [2, 5, 3]);
    RunMoveGoesOn(g1, g2, o, x, [4, 2, 5, 3]);
    RunMoveGoesOn(EmptyGrid(), g1, x, o, [1, 4, 2, 5, 3]);
  }

  /** A valid first selection whose stamp `game_over` calls `:winner` ends the run. */
  lemma RunMoveEnds(g: Grid, h: Grid, current: Player, other: Player, inputs: seq<int>)
    requires inputs != [] && ValidOn(g, inputs[0])
    requires h == g[inputs[0] - 1 := Marked(current.team)] && Classify(h) == Winner
    ensures Run(g, current, other, inputs) == Finish(h, Won(current), 1, current)
  {
  }

  /** A valid first selection whose stamp `game_over` calls `false` hands the turn over. */
  lemma RunMoveGoesOn(g: Grid, h: Grid, current: Player, other: Player, inputs: seq<int>)
    requires inputs != [] && ValidOn(g, inputs[0])
    requires h == g[inputs[0] - 1 := Marked(current.team)] && Classify(h) == NotOver
    ensures Run(g, current, other, inputs) == Later(Run(h, other, current, inputs[1..]), 1)
  {
  }

  class Game {
    const players: seq<Player>
    const board: GameBoard
    var current: Player
    var other: Player

    /** The board is 3x3 and the two turn slots hold the two players. */
    ghost predicate Valid()
      reads this, board
    {
      board.Valid() && |players| == 2 &&
      ((current, other) == (players[0], players[1]) || (current, other) == (players[1], players[0]))
    }

    /** `Game.new(players)`: a fresh board, and the players in the order `players.shuffle`
      * produced; `swapped` says whether the shuffle reversed them. */
    constructor (players: seq<Player>, swapped: bool)
      requires |players| == 2
      ensures Valid() && fresh(board) && fresh(board.grid)
      ensures this.players == players
      ensures board.Cells() == EmptyGrid()
      ensures current == players[if swapped then 1 else 0]
      ensures other == players[if swapped then 0 else 1]
    {
      this.players := players;
      board := new GameBoard();
      current := players[if swapped then 1 else 0];
      other := players[if swapped then 0 else 1];
    }

    /** `valid?(i)`: i is one of 1..9 and the cell it names is open. Anything else,
      * including the 0 that `to_i` makes of non-numeric text, is rejected. */
    function ValidSelection(i: int): (ok: bool)
      requires board.Valid()
      reads board.grid
      ensures ok <==> 1 <= i <= 9 && board.Cells()[i - 1] == Empty
      ensures ok == ValidOn(board.Cells(), i)
    {
      (0 < i && i < 10) && IsOpen(board.GetSpace(Row(i), Column(i)))
    }

    /** `get_selection`: take selections from inputs[from..] until one is valid. When one
      * is found it is inputs[next - 1] and every selection before it was rejected; when
      * none is, every remaining selection was rejected. */
    method GetSelection(inputs: seq<int>, from: nat) returns (selection: int, next: nat, found: bool)
      requires board.Valid() && from <= |inputs|
      ensures from <= next <= |inputs|
      ensures found ==> from < next && selection == inputs[next - 1] && ValidSelection(selection)
      ensures found ==> forall k :: from <= k < next - 1 ==> !ValidOn(board.Cells(), inputs[k])
      ensures !found ==> next == |inputs| && forall k :: from <= k < |inputs| ==> !ValidOn(board.Cells(), inputs[k])
    {
      next := from;
      while next < |inputs|
        invariant from <= next <= |inputs|
        invariant forall k :: from <= k < next ==> !ValidOn(board.Cells(), inputs[k])
      {
        selection := inputs[next];
        next := next + 1;
        if ValidSelection(selection) {
          return selection, next, true;
        }
      }
      return 0, next, false;
    }

    /** `make_move`: obtain a valid selection and stamp the current player's marker on the
      * cell it names, which was open; nothing else on the board changes. */
    method MakeMove(inputs: seq<int>, from: nat) returns (selection: int, next: nat, moved: bool)
      requires Valid() && from <= |inputs|
      modifies board.grid
      ensures Valid()
      ensures from <= next <= |inputs|
      ensures moved ==> from < next && selection == inputs[next - 1]
      ensures moved ==> forall k :: from <= k < next - 1 ==> !ValidOn(old(board.Cells()), inputs[k])
      ensures moved ==> 1 <= selection <= 9 && old(board.Cells())[selection - 1] == Empty
      ensures moved ==> board.Cells() == old(board.Cells())[selection - 1 := Marked(current.team)]
      ensures !moved ==> forall k :: from <= k < |inputs| ==> !ValidOn(old(board.Cells()), inputs[k])
      ensures !moved ==> next == |inputs| && board.Cells() == old(board.Cells())
    {
      ghost var before := board.Cells();
      selection, next, moved := GetSelection(inputs, from);
      if !moved {
        return;
      }
      assert ValidOn(before, selection);
      assert forall k :: from <= k < next - 1 ==> !ValidOn(before, inputs[k]);
      SelectionInRange(selection);
      var r, c := Row(selection), Column(selection);
      assert 3 * r + c == selection - 1;
      board.SetSpace(r, c, current.team);
      assert board.Cells() == before[selection - 1 := Marked(current.team)];
    }

    /** `switch_players`: exchange the current and the other player. */
    method SwitchPlayers()
      requires Valid()
      modifies this`current, this`other
      ensures Valid()
      ensures current == old(other) && other == old(current)
    {
      current, other := other, current;
    }

    /** One pass of the loop body of `play`: `make_move`, then `game_over`, then
      * `switch_players` unless the game is over. When a valid selection turns up, its cell
      * receives the mover's marker and nothing else on the board changes; the pass is the
      * first step of `Run` on the remaining selections. */
    method Turn(inputs: seq<int>, from: nat) returns (selection: int, next: nat, moved: bool, status: Status)
      requires Valid() && from <= |inputs|
      modifies this`current, this`other, board.grid
      ensures Valid()
      ensures from <= next <= |inputs|
      ensures moved ==> from < next && selection == inputs[next - 1] && 1 <= selection <= 9
      ensures moved ==> old(board.Cells())[selection - 1] == Empty
      ensures moved ==> board.Cells() == old(board.Cells())[selection - 1 := Marked(old(current).team)]
      ensures moved ==> status == Classify(board.Cells())
      ensures !moved ==> board.Cells() == old(board.Cells()) && current == old(current) && other == old(other)
      ensures !moved ==> Run(old(board.Cells()), old(current), old(other), inputs[from..])
                         == Finish(board.Cells(), InputExhausted, 0, current)
      ensures moved && status != NotOver ==> current == old(current) && other == old(other)
      ensures moved && status != NotOver ==>
        Run(old(board.Cells()), old(current), old(other), inputs[from..])
        == Finish(board.Cells(), if status == Winner then Won(current) else Drawn, 1, current)
      ensures moved && status == NotOver ==> current == old(other) && other == old(current)
      ensures moved && status == NotOver ==>
        Run(old(board.Cells()), old(current), old(other), inputs[from..])
        == Later(Run(board.Cells(), current, other, inputs[next..]), 1)
    {
      ghost var before := board.Cells();
      selection, next, moved := MakeMove(inputs, from);
      if !moved {
        RunExhausted(before, current, other, inputs, from);
        status := NotOver;
        return;
      }
      status := board.GameOver();
      RunFirstValid(before, current, other, inputs, from, next);
      if status == NotOver {
        SwitchPlayers();
      }
    }

    /** The `loop do ... end` of `play`: take turns until `game_over` reports an end.
      * `ended` says the loop stopped on `:winner` or `:draw`, after `moves` moves;
      * otherwise the supplied selections ran out. The grid, the moves, the end and the
      * player in the current slot are those of `Run`. */
    method TakeTurns(inputs: seq<int>) returns (ended: bool, moves: nat)
      requires Valid()
      modifies this`current, this`other, board.grid
      ensures Valid()
      ensures Run(old(board.Cells()), old(current), old(other), inputs)
           == Finish(board.Cells(), if !ended then InputExhausted
                                    else if Classify(board.Cells()) == Winner then Won(current)
                                    else Drawn, moves, current)
      ensures ended ==> Classify(board.Cells()) != NotOver
    {
      ghost var start, first, second := board.Cells(), current, other;
      var pos := 0;
      moves := 0;
      while true
        invariant Valid()
        invariant 0 <= pos <= |inputs|
        invariant Run(start, first, second, inputs) == Later(Run(board.Cells(), current, other, inputs[pos..]), moves)
        decreases |inputs| - pos
      {
        var selection, next, moved, status := Turn(inputs, pos);
        if !moved {
          return false, moves;
        }
        if status != NotOver {
          return true, moves + 1;
        }
        moves := moves + 1;
        pos := next;
      }
    }

    /** `play`: take turns, then ask `game_over` once more to announce the result: the
      * current player, who made the last move, wins on `:winner`; otherwise it is a draw.
      * The whole game is `Run` of the selections. Each move stamps one open cell, so
      * there are at most as many moves as open cells (nine on a new board); turns
      * alternate, and a win is credited to the player who just moved, whose marker then
      * fills a line. */
    method Play(inputs: seq<int>) returns (outcome: Outcome, moves: nat)
      requires Valid()
      modifies this`current, this`other, board.grid
      ensures Valid()
      ensures Finish(board.Cells(), outcome, moves, current) == Run(old(board.Cells()), old(current), old(other), inputs)
      ensures OpenCount(board.Cells()) + moves == old(OpenCount(board.Cells()))
      ensures moves <= 9
      ensures outcome.Won? ==> Classify(board.Cells()) == Winner && outcome.winner == current
      ensures outcome.Won? && !Winning(old(board.Cells())) ==> ThreeInARow(board.Cells(), current.team)
      ensures outcome.Drawn? ==> Classify(board.Cells()) == Draw
      ensures outcome.InputExhausted? && moves > 0 ==> Classify(board.Cells()) == NotOver
      ensures moves == 0 ==> board.Cells() == old(board.Cells())
      ensures !outcome.InputExhausted? ==> moves > 0
      ensures !outcome.InputExhausted? ==> current == ToMove(old(current), old(other), moves - 1)
      ensures outcome.InputExhausted? ==> current == ToMove(old(current), old(other), moves)
    {
      ghost var start, first, second := board.Cells(), current, other;
      var ended;
      ended, moves := TakeTurns(inputs);
      if !ended {
        outcome := InputExhausted;
      } else {
        var status := board.GameOver();
        outcome := if status == Winner then Won(current) else Drawn;
      }
      RunOpenCount(start, first, second, inputs);
      RunEnds(start, first, second, inputs);
      RunWinner(start, first, second, inputs);
      RunCurrent(start, first, second, inputs);
      if !Winning(start) {
        RunWinnerLine(start, first, second, inputs);
      }
    }
  }

  /** Adam, playing X, moves first against Tom, playing O, and they type 1, 4, 2, 5, 3:
    * Adam fills the top row with the fifth move and is announced the winner. */
  method TopRowGame() returns (outcome: Outcome, moves: nat)
    ensures outcome == Won(Player("Adam", 'X')) && moves == 5
  {
    var adam := Player("Adam", 'X');
    var tom := Player("Tom", 'O');
    var game := new Game([adam, tom], false);
    TopRowRun(adam, tom);
    outcome, moves := game.Play([1, 4, 2, 5, 3]);
  }
}
