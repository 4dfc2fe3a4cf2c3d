// The mapping from a player's selection 1..9 to a zero-based (row, column) of the grid
// (`Game#row` and `Game#column` of main.rb).

module Position {

  /** A zero-based row or column index of the 3x3 grid. */
  type Coord = i: int | 0 <= i < 3

  /** `row(i)`, written `(i / 3.0).ceil - 1` in the source. Dafny's `/` by a positive
    * divisor rounds down, so `(i + 2) / 3` is the ceiling of i/3 for every integer i.
    * The result is the one r with 3r < i <= 3r + 3, i.e. ceil(i/3) - 1. */
  function Row(i: int): (r: int)
    ensures 3 * r < i <= 3 * r + 3
  {
    (i + 2) / 3 - 1
  }

  /** `column(i)`, written `(i + 2) % 3`; Ruby's `%` by a positive divisor agrees with
    * Dafny's. Together with Row it splits i - 1 into row-major (row, column). */
  function Column(i: int): (c: int)
    ensures 0 <= c < 3
    ensures 3 * Row(i) + c == i - 1
  {
    (i + 2) % 3
  }

  /** The selection number a player types for cell (r, c): the inverse of Row/Column. */
  function Selection(r: Coord, c: Coord): (i: int)
    ensures 1 <= i <= 9
  {
    3 * r + c + 1
  }

  /** Every selection 1..9 lands on a cell of the grid, at row-major index i - 1. */
  lemma SelectionInRange(i: int)
    requires 1 <= i <= 9
    ensures 0 <= Row(i) < 3 && 0 <= Column(i) < 3
    ensures 3 * Row(i) + Column(i) == i - 1
    ensures Selection(Row(i), Column(i)) == i
  {
  }

  /** Each cell (r, c) is reached by exactly the selection 3r + c + 1. */
  lemma SelectionRoundTrip(r: Coord, c: Coord)
    ensures Row(Selection(r, c)) == r && Column(Selection(r, c)) == c
  {
  }

  /** The map 1..9 -> {0,1,2}x{0,1,2} is one-to-one. */
  lemma SelectionInjective(i: int, j: int)
    requires 1 <= i <= 9 && 1 <= j <= 9
    requires Row(i) == Row(j) && Column(i) == Column(j)
    ensures i == j
  {
  }

  /** The numbering is the natural left-to-right, top-to-bottom one. */
  lemma SelectionExamples()
    ensures Row(1) == 0 && Column(1) == 0
    ensures Row(2) == 0 && Column(2) == 1
    ensures Row(3) == 0 && Column(3) == 2
    ensures Row(4) == 1 && Column(4) == 0
    ensures Row(5) == 1 && Column(5) == 1
    ensures Row(9) == 2 && Column(9) == 2
  {
  }
}
