/** The piece registry: for every piece identity its original square and
    its ordered rule table (the `pieces` dictionary and the `pawnRules`,
    `towerRules`, `kingRules` lists of main.py). */
module Registry {
  import opened Turns
  import opened Coords
  import opened Pieces

  /** One precondition of a rule. Each is evaluated against the move, the
      board, the moving piece's original square and the side on move. */
  datatype Precon =
    | OnOriginalCoord                 // the origin is the piece's own original square
    | DestEmpty                       // no piece on the destination
    | DestForward(distance: int)      // destination straight ahead by `distance`
    | DestHoldsEnemy                  // a piece of the other side is on the destination
    | DestDiagonalForward(distance: int)
    | KingOnOriginalCoord             // the mover's king is on its original square
    | DestColumnIs(first: int, second: int)
    | NothingInLine                   // no piece strictly between origin and destination
    | StraightLine                    // origin and destination share a row or a column
    | DestNotAlly                     // the destination holds no piece of the mover's side
    | WithinOneCell                   // row and column each change by at most one
    | CastlingTowerInPlace            // a rook of the mover's side on the corner matching the destination

  /** The three shapes of postcondition the tables use. */
  datatype Postcon =
    | Relocate       // clear the origin, put the mover on the destination
    | TowerCastling  // as Relocate, then move the king from column 4 next to the rook
    | KingCastling   // as Relocate, then move the corner rook next to the king

  datatype Rule = Rule(precons: seq<Precon>, postcon: Postcon)

  /** Pawn: two squares forward as first move, one square forward, diagonal capture. */
  const PawnRules: seq<Rule> := [
    Rule([OnOriginalCoord, DestEmpty, DestForward(2)], Relocate),
    Rule([DestEmpty, DestForward(1)], Relocate),
    Rule([DestHoldsEnemy, DestDiagonalForward(1)], Relocate)
  ]

  /** Rook: castling, then a straight-line move. */
  const TowerRules: seq<Rule> := [
    Rule([OnOriginalCoord, KingOnOriginalCoord, DestColumnIs(3, 5), NothingInLine], TowerCastling),
    Rule([StraightLine, DestNotAlly, NothingInLine], Relocate)
  ]

  /** King: one square in any direction, then castling. */
  const KingRules: seq<Rule> := [
    Rule([WithinOneCell], Relocate),
    Rule([OnOriginalCoord, DestColumnIs(2, 6), CastlingTowerInPlace, NothingInLine], KingCastling)
  ]

  /** The row on which a side's rooks and king start. */
  function HomeRow(s: Side): int {
    if s == White then 0 else 7
  }

  /** The original square the registry records for a piece. */
  function OriginalCoord(p: Piece): Coord {
    match p
    case Pawn(s, i) => Pos(if s == White then 1 else 6, i)
    case Tower(s, w) => Pos(HomeRow(s), if w == Left then 0 else 7)
    case King(s) => Pos(HomeRow(s), 4)
  }

  /** The rule table the registry records for a piece: shared by all pieces of a kind. */
  function RulesOf(p: Piece): seq<Rule> {
    match p
    case Pawn(_, _) => PawnRules
    case Tower(_, _) => TowerRules
    case King(_) => KingRules
  }

  /** The registry's entries, in the order the source inserts them. */
  const AllPieces: seq<Piece> := [
    Pawn(White, 0), Pawn(White, 1), Pawn(White, 2), Pawn(White, 3),
    Pawn(White, 4), Pawn(White, 5), Pawn(White, 6), Pawn(White, 7),
    Pawn(Black, 0), Pawn(Black, 1), Pawn(Black, 2), Pawn(Black, 3),
    Pawn(Black, 4), Pawn(Black, 5), Pawn(Black, 6), Pawn(Black, 7),
    Tower(White, Left), Tower(White, Right), Tower(Black, Left), Tower(Black, Right),
    King(White), King(Black)
  ]

  /** Every piece identity has an entry in the registry. */
  lemma RegistryIsComplete(p: Piece)
    ensures p in AllPieces
  {
    match p
    case Pawn(s, i) =>
      var k := if s == White then i else 8 + i;
      assert AllPieces[k] == p;
    case Tower(s, w) =>
      var k := 16 + (if s == White then 0 else 2) + (if w == Left then 0 else 1);
      assert AllPieces[k] == p;
    case King(s) =>
      assert AllPieces[if s == White then 20 else 21] == p;
  }

  /** No two pieces share an original square. */
  lemma OriginalCoordsDistinct(p: Piece, q: Piece)
    ensures OriginalCoord(p) == OriginalCoord(q) ==> p == q
  {
  }

  /** Pawns start on the second row from their side's edge; rooks on the
      corners and kings on column 4 of their side's home row. */
  lemma OriginalCoordsByKind(p: Piece)
    ensures p.Pawn? ==> OriginalCoord(p) == Pos(HomeRow(p.side) + Ahead(p.side, 1), p.index)
    ensures p.Tower? ==> OriginalCoord(p).row == HomeRow(p.side) && OriginalCoord(p).col in {0, 7}
    ensures p.King? ==> OriginalCoord(p) == Pos(HomeRow(p.side), 4)
  {
  }
}
