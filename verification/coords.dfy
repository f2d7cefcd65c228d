/** Squares of the 8x8 board and the side-relative direction predicates
    (class Position of main.py). */
module Coords {
  import opened Errors
  import opened Turns

  /** Number of rows, and of columns, of the board. */
  const Size := 8

  /** A pair of integers; only pairs inside the grid are board squares. */
  datatype Pos = Pos(row: int, col: int)

  predicate InBounds(row: int, col: int) {
    0 <= row < Size && 0 <= col < Size
  }

  /** A square of the board: row and column both lie in [0, 7]. */
  type Coord = p: Pos | 0 <= p.row < Size && 0 <= p.col < Size witness Pos(0, 0)

  /** The checked constructor of a square: it fails outside the grid. */
  function NewCoord(row: int, col: int): (r: Result<Coord>)
    ensures r.Ok? <==> InBounds(row, col)
    ensures r.Ok? ==> r.value.row == row && r.value.col == col
    ensures r.Err? ==> r.error == OutOfBounds
  {
    if row < 0 || row > 7 || col < 0 || col > 7 then Err(OutOfBounds)
    else Ok(Pos(row, col))
  }

  /** Squares are equal exactly when both components are. */
  lemma CoordEquality(a: Coord, b: Coord)
    ensures a == b <==> a.row == b.row && a.col == b.col
  {
  }

  function Abs(x: int): nat {
    if x < 0 then -x else x
  }

  /** The signed number of rows covered by `distance` steps forward for `turn`:
      White advances towards higher rows, Black towards lower rows. */
  function Ahead(turn: Side, distance: int): int {
    if turn == White then distance else -distance
  }

  /** `p` lies exactly `distance` squares straight ahead of `origin` for the side `turn`. */
  function IsForward(p: Pos, origin: Pos, distance: int, turn: Side): (r: bool)
    ensures r <==> p.col == origin.col && p.row == origin.row + Ahead(turn, distance)
  {
    if IsBlack(turn) then origin.row - p.row == distance && p.col == origin.col
    else p.row - origin.row == distance && p.col == origin.col
  }

  /** `p` lies `distance` rows ahead of `origin` for `turn` and `distance` columns to either side. */
  function IsInDiagonalForward(p: Pos, origin: Pos, distance: int, turn: Side): (r: bool)
    ensures r <==> Abs(p.col - origin.col) == distance && p.row == origin.row + Ahead(turn, distance)
  {
    if IsBlack(turn) then origin.row - p.row == distance && Abs(p.col - origin.col) == distance
    else p.row - origin.row == distance && Abs(p.col - origin.col) == distance
  }

  /** "Forward" is relative to the side: for a non-zero distance no square is
      forward of the same origin for both sides, and forward for White is
      backward for Black. */
  lemma ForwardIsSideRelative(p: Pos, origin: Pos, distance: int)
    requires distance != 0
    ensures !(IsForward(p, origin, distance, White) && IsForward(p, origin, distance, Black))
    ensures !(IsInDiagonalForward(p, origin, distance, White) && IsInDiagonalForward(p, origin, distance, Black))
    ensures IsForward(p, origin, distance, White) <==> IsForward(origin, p, distance, Black)
    ensures IsInDiagonalForward(p, origin, distance, White) <==> IsInDiagonalForward(origin, p, distance, Black)
  {
  }
}
