/** The twenty-two piece identities of the game. The source names them by
    three-letter strings whose second letter is the owning side; here an
    identity is a structured value, and `Name` recovers the string. */
module Pieces {
  import opened Errors
  import opened Turns

  /** Index of a pawn among the eight of its side: pawn i starts on column i. */
  type PawnIndex = i: int | 0 <= i < 8

  /** Which of the two rooks ("towers") of a side: the one starting on column 0 or on column 7. */
  datatype Wing = Left | Right

  datatype Piece =
    | Pawn(side: Side, index: PawnIndex)
    | Tower(side: Side, wing: Wing)
    | King(side: Side)

  /** The source's name of the piece: PW1..PW8, PB1..PB8, TWL, TWR, TBL, TBR, RWW, RBB. */
  function Name(p: Piece): (r: string)
    ensures |r| == 3
  {
    match p
    case Pawn(s, i) => ['P', Letter(s), ('1' as int + i) as char]
    case Tower(s, w) => ['T', Letter(s), if w == Left then 'L' else 'R']
    case King(s) => ['R', Letter(s), Letter(s)]
  }

  /** Names identify pieces: distinct pieces have distinct names, and the
      second letter of a name is the owning side's letter. */
  lemma NamesIdentifyPieces(p: Piece, q: Piece)
    ensures Name(p) == Name(q) ==> p == q
    ensures Name(p)[1] == Letter(p.side)
  {
    if Name(p) == Name(q) {
      assert Name(p)[0] == Name(q)[0] && Name(p)[1] == Name(q)[1] && Name(p)[2] == Name(q)[2];
    }
  }

  /** Whether the (possibly absent) piece belongs to the side on move; an
      empty cell belongs to nobody. The source compares the second letter of
      the piece's name with the turn's letter. */
  function BelongsToTurn(turn: Side, piece: Option<Piece>): (r: bool)
    ensures r <==> piece.Some? && Name(piece.value)[1] == Letter(turn)
  {
    piece.Some? && piece.value.side == turn
  }
}
