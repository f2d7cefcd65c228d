/** The board (class Board of main.py): an 8x8 grid of cells, each empty or
    holding one piece identity. A cell is modelled as a key of a map: a
    square that is not a key is an empty cell. */
module Boards {
  import opened Errors
  import opened Turns
  import opened Coords
  import opened Pieces
  import opened Registry

  type Board = map<Coord, Piece>

  /** The piece on a square, if any (Board.pieceInPosition). */
  function PieceAt(b: Board, c: Coord): (r: Option<Piece>)
    ensures r.Some? <==> c in b
    ensures r.Some? ==> b[c] == r.value
  {
    if c in b then Some(b[c]) else None
  }

  /** Board.isPieceInPosition: the cell holds a piece. */
  predicate IsOccupied(b: Board, c: Coord): (r: bool)
    ensures r <==> PieceAt(b, c).Some?
  {
    c in b
  }

  /** The only mutation of the board: overwrite one cell (Board.setPiece). */
  function SetPiece(b: Board, c: Coord, piece: Option<Piece>): (r: Board)
    ensures PieceAt(r, c) == piece
    ensures forall q :: q != c ==> PieceAt(r, q) == PieceAt(b, q)
  {
    if piece.None? then b - {c} else b[c := piece.value]
  }

  /** Two boards that agree on every square are the same board. */
  lemma BoardsEqual(b: Board, b': Board)
    requires forall q :: PieceAt(b, q) == PieceAt(b', q)
    ensures b == b'
  {
    assert forall q :: q in b <==> PieceAt(b, q).Some?;
    assert b.Keys == b'.Keys;
  }

  /** Every piece identity occupies at most one square. */
  ghost predicate Unique(b: Board) {
    forall p, q :: p in b && q in b && b[p] == b[q] ==> p == q
  }

  /** `q` lies strictly between `a` and `c` on their common row or column. */
  predicate StrictlyBetween(a: Pos, q: Pos, c: Pos) {
    || (q.row == a.row == c.row && (a.col < q.col < c.col || c.col < q.col < a.col))
    || (q.col == a.col == c.col && (a.row < q.row < c.row || c.row < q.row < a.row))
  }

  predicate Aligned(a: Pos, c: Pos) {
    a.row == c.row || a.col == c.col
  }

  /** No piece stands on a square strictly between `a` and `c`. */
  ghost predicate PathClear(b: Board, a: Coord, c: Coord) {
    forall q: Coord :: StrictlyBetween(a, q, c) ==> q !in b
  }

  /** The squares of row `row` from column `lo` up to, not including, column `hi`. */
  function RowCells(row: int, lo: int, hi: int): (r: seq<Coord>)
    requires 0 <= row < 8 && 0 <= lo && hi <= 8
    ensures |r| == if lo < hi then hi - lo else 0
    ensures forall i :: 0 <= i < |r| ==> r[i] == Pos(row, lo + i)
    ensures forall q: Coord :: q in r <==> q.row == row && lo <= q.col < hi
    decreases hi - lo
  {
    if lo >= hi then [] else [Pos(row, lo)] + RowCells(row, lo + 1, hi)
  }

  /** The squares of column `col` from row `lo` up to, not including, row `hi`. */
  function ColumnCells(col: int, lo: int, hi: int): (r: seq<Coord>)
    requires 0 <= col < 8 && 0 <= lo && hi <= 8
    ensures |r| == if lo < hi then hi - lo else 0
    ensures forall i :: 0 <= i < |r| ==> r[i] == Pos(lo + i, col)
    ensures forall q: Coord :: q in r <==> q.col == col && lo <= q.row < hi
    decreases hi - lo
  {
    if lo >= hi then [] else [Pos(lo, col)] + ColumnCells(col, lo + 1, hi)
  }

  /** The pieces standing on `cells`, in the order of the cells. */
  function Occupants(b: Board, cells: seq<Coord>): (r: seq<Piece>)
    ensures |r| <= |cells|
    ensures r == [] <==> forall i :: 0 <= i < |cells| ==> cells[i] !in b
    ensures forall x :: x in r <==> exists i :: 0 <= i < |cells| && cells[i] in b && b[cells[i]] == x
  {
    if cells == [] then []
    else
      var rest := Occupants(b, cells[1..]);
      assert forall i :: 1 <= i < |cells| ==> cells[i] == cells[1..][i - 1];
      if cells[0] in b then [b[cells[0]]] + rest else rest
  }

  /** Occupants distributes over concatenation: the pieces of earlier cells
      come first, so the result follows the order of the cells. */
  lemma {:induction false} OccupantsConcat(b: Board, xs: seq<Coord>, ys: seq<Coord>)
    ensures Occupants(b, xs + ys) == Occupants(b, xs) + Occupants(b, ys)
    decreases |xs|
  {
    if xs == [] {
      assert xs + ys == ys;
    } else {
      assert (xs + ys)[1..] == xs[1..] + ys;
      OccupantsConcat(b, xs[1..], ys);
    }
  }

  /** The squares strictly between two squares of one row, by increasing column. */
  function RowBetween(a: Coord, c: Coord): (r: seq<Coord>)
    requires a.row == c.row
    ensures forall q: Coord :: q in r <==> StrictlyBetween(a, q, c)
  {
    var lo, hi := if a.col < c.col then a.col else c.col, if a.col < c.col then c.col else a.col;
    RowCells(a.row, lo + 1, hi)
  }

  /** The squares strictly between two squares of one column, by increasing row. */
  function ColumnBetween(a: Coord, c: Coord): (r: seq<Coord>)
    requires a.col == c.col
    ensures forall q: Coord :: q in r <==> StrictlyBetween(a, q, c)
  {
    var lo, hi := if a.row < c.row then a.row else c.row, if a.row < c.row then c.row else a.row;
    ColumnCells(a.col, lo + 1, hi)
  }

  /** Board.piecesInLine: the pieces strictly between two squares sharing a
      row or a column; fails with NotAligned when they share neither. */
  function PiecesInLine(b: Board, a: Coord, c: Coord): (r: Result<seq<Piece>>)
    ensures r.Err? <==> !Aligned(a, c)
    ensures r.Err? ==> r.error == NotAligned
    ensures r.Ok? ==> (r.value == [] <==> PathClear(b, a, c))
    ensures r.Ok? ==> forall x :: x in r.value <==>
              exists q: Coord :: StrictlyBetween(a, q, c) && q in b && b[q] == x
  {
    if a.row == c.row then Ok(Occupants(b, RowBetween(a, c)))
    else if a.col == c.col then Ok(Occupants(b, ColumnBetween(a, c)))
    else Err(NotAligned)
  }

  /** The line query does not depend on which end is named first. */
  lemma PiecesInLineSymmetric(b: Board, a: Coord, c: Coord)
    ensures PiecesInLine(b, a, c) == PiecesInLine(b, c, a)
  {
    if a.row == c.row {
      BetweenSymmetric(a, c);
      assert PiecesInLine(b, c, a) == Ok(Occupants(b, RowBetween(c, a)));
    } else if a.col == c.col {
      BetweenSymmetric(a, c);
      assert PiecesInLine(b, c, a) == Ok(Occupants(b, ColumnBetween(c, a)));
    }
  }

  /** The squares between two ends do not depend on their order. */
  lemma BetweenSymmetric(a: Coord, c: Coord)
    ensures a.row == c.row ==> RowBetween(a, c) == RowBetween(c, a)
    ensures a.col == c.col ==> ColumnBetween(a, c) == ColumnBetween(c, a)
  {
  }

  /** Board.isKingInOriginalPosition: the side's king stands on its own original square. */
  function IsKingInOriginalPosition(b: Board, turn: Side): (r: bool)
    ensures r <==> PieceAt(b, Pos(HomeRow(turn), 4)) == Some(King(turn))
  {
    PieceAt(b, OriginalCoord(King(turn))) == Some(King(turn))
  }

  /** Board.isTower: either rook of the side stands on the square. */
  function IsTower(b: Board, c: Coord, turn: Side): (r: bool)
    ensures r <==> PieceAt(b, c) == Some(Tower(turn, Left)) || PieceAt(b, c) == Some(Tower(turn, Right))
  {
    var piece := PieceAt(b, c);
    assert piece.Some? && piece.value.Tower? ==> piece.value.wing == Left || piece.value.wing == Right;
    piece.Some? && piece.value.Tower? && piece.value.side == turn
  }

  /** Board.__init__: every registered piece on its original square. */
  function InitialBoard(): (r: Board)
    ensures forall p :: p in AllPieces ==> OriginalCoord(p) in r
    ensures forall c :: c in r ==> r[c] in AllPieces && OriginalCoord(r[c]) == c
  {
    OriginalCoordsInjective();
    map p | p in AllPieces :: OriginalCoord(p) := p
  }

  lemma OriginalCoordsInjective()
    ensures forall p, q :: OriginalCoord(p) == OriginalCoord(q) ==> p == q
  {
    forall p, q { OriginalCoordsDistinct(p, q); }
  }

  /** The initial board holds each piece on its original square, and only there. */
  lemma InitialBoardPlacesRegistry()
    ensures forall p :: PieceAt(InitialBoard(), OriginalCoord(p)) == Some(p)
    ensures forall c :: c in InitialBoard() ==> OriginalCoord(InitialBoard()[c]) == c
  {
    OriginalCoordsInjective();
    forall p ensures PieceAt(InitialBoard(), OriginalCoord(p)) == Some(p) {
      RegistryIsComplete(p);
    }
  }

  /** The standard starting layout, square by square: pawns on rows 1 and 6,
      rooks on the corners, kings on column 4 of rows 0 and 7, nothing else. */
  function StartingOccupant(c: Coord): Option<Piece> {
    if c.row == 1 then Some(Pawn(White, c.col))
    else if c.row == 6 then Some(Pawn(Black, c.col))
    else if c.row == 0 || c.row == 7 then
      var s := if c.row == 0 then White else Black;
      if c.col == 0 then Some(Tower(s, Left))
      else if c.col == 7 then Some(Tower(s, Right))
      else if c.col == 4 then Some(King(s))
      else None
    else None
  }

  lemma StartingOccupantMatchesRegistry(p: Piece, c: Coord)
    ensures StartingOccupant(OriginalCoord(p)) == Some(p)
    ensures StartingOccupant(c).Some? ==> OriginalCoord(StartingOccupant(c).value) == c
  {
  }

  /** The board built from the registry is the standard starting layout, and
      it holds every piece exactly once. */
  lemma InitialBoardLayout()
    ensures forall c :: PieceAt(InitialBoard(), c) == StartingOccupant(c)
    ensures Unique(InitialBoard())
  {
    var b := InitialBoard();
    InitialBoardPlacesRegistry();
    forall c: Coord
      ensures PieceAt(b, c) == StartingOccupant(c)
    {
      StartingOccupantMatchesRegistry(if c in b then b[c] else King(White), c);
      if c !in b && StartingOccupant(c).Some? {
        var p := StartingOccupant(c).value;
        assert PieceAt(b, OriginalCoord(p)) == Some(p);
      }
    }
  }

  /** One square of the starting layout. */
  lemma InitialAt(c: Coord)
    ensures PieceAt(InitialBoard(), c) == StartingOccupant(c)
  {
    InitialBoardLayout();
  }
}
