// One cell of the board (the `Space` class of main.rb) and the player value.

module Space {

  /** The characters that Ruby's `String#strip` removes: a one-character value made of
    * one of them is "blank" for the board's line helpers. */
  predicate IsBlankChar(ch: char) {
    ch == ' ' || ch == '\t' || ch == '\n' || ch == '\U{0B}' || ch == '\U{0C}' || ch == '\r' || ch == '\0'
  }

  /** A team marker such as 'X' or 'O': a character that is never blank. */
  type Marker = ch: char | !IsBlankChar(ch) witness 'X'

  /** A cell is open (its value is the single space) or stamped with a team's marker. */
  datatype Cell = Empty | Marked(team: Marker)

  /** A player: a name and the marker its moves stamp. */
  datatype Player = Player(name: string, team: Marker)

  /** The value a cell shows; an open cell holds the single space ' '. */
  function Value(c: Cell): (v: char)
    ensures v == ' ' <==> c == Empty
    ensures c.Marked? ==> !IsBlankChar(v)
  {
    match c
    case Empty => ' '
    case Marked(m) => m
  }

  /** `Space.new`: a cell starts out holding ' ', so it is open. */
  function NewSpace(): (c: Cell)
    ensures Value(c) == ' ' && IsOpen(c)
  {
    Empty
  }

  /** `open?`: the value is exactly the single space; that is the case exactly for Empty. */
  predicate IsOpen(c: Cell)
    ensures IsOpen(c) <==> c == Empty
  {
    Value(c) == ' '
  }

  /** `e.to_s.strip.empty?` for a cell: its value is blank; with non-blank markers that
    * is the case exactly for Empty, so on cells "blank" and "open" agree. */
  predicate IsBlank(c: Cell)
    ensures IsBlank(c) <==> c == Empty
    ensures IsBlank(c) <==> IsOpen(c)
  {
    IsBlankChar(Value(c))
  }
}
