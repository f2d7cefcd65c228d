/** Concrete games and single-rule consequences: the behaviour a player of
    main.py observes, derived from the general lemmas about the engine. */
module Scenarios {
  import opened Errors
  import opened Turns
  import opened Coords
  import opened Pieces
  import opened Registry
  import opened Boards
  import opened Moves
  import opened Engine
  import opened Legality
  import opened Game

  /** Parsing the text of a move written in the input format. */
  lemma Parses(m: Move, text: string)
    requires m.origin != m.dest && text == Format(m)
    ensures ParseMove(text) == Ok(m)
  {
    ParseFormat(m, [], []);
  }

  /** The opening A2 - A4 is White's pawn two-step; afterwards Black is to move. */
  lemma OpeningPawnTwoStep()
    ensures Step(InitialGame(), "A2 - A4") == Attempt(Game(AfterA2A4(), Black), None)
  {
    var m := Move(Pos(1, 0), Pos(3, 0));
    Parses(m, "A2 - A4");
    InitialAt(Pos(1, 0));
    InitialAt(Pos(3, 0));
    PawnMoves(InitialBoard(), White, m);
  }

  /** The board after A2 - A4. */
  function AfterA2A4(): Board {
    InitialAt(Pos(1, 0));
    Relocated(InitialBoard(), Pos(1, 0), Pos(3, 0))
  }

  /** The squares of the first two replies on the board after A2 - A4. */
  lemma AfterA2A4Squares()
    ensures PieceAt(AfterA2A4(), Pos(6, 1)) == Some(Pawn(Black, 1))
    ensures PieceAt(AfterA2A4(), Pos(4, 1)) == None
    ensures PieceAt(AfterA2A4(), Pos(3, 0)) == Some(Pawn(White, 0))
    ensures PieceAt(AfterA2A4(), Pos(4, 0)) == None
  {
    InitialAt(Pos(1, 0));
    InitialAt(Pos(6, 1));
    InitialAt(Pos(4, 1));
    InitialAt(Pos(4, 0));
  }

  /** The board after A2 - A4 and B7 - B5. */
  function AfterB7B5(): Board {
    AfterA2A4Squares();
    Relocated(AfterA2A4(), Pos(6, 1), Pos(4, 1))
  }

  /** After A2 - A4, Black's B7 - B5 is a two-step too. */
  lemma BlackRepliesTwoStep()
    ensures Step(Game(AfterA2A4(), Black), "B7 - B5") == Attempt(Game(AfterB7B5(), White), None)
  {
    var m := Move(Pos(6, 1), Pos(4, 1));
    Parses(m, "B7 - B5");
    AfterA2A4Squares();
    PawnMoves(AfterA2A4(), Black, m);
  }

  /** Then White's A4 - A5 is a one-step: the pawn is no longer on its
      original square, so the two-step rule does not apply and the next rule
      of the table does. */
  lemma WhitePawnStepsOn()
    ensures Step(Game(AfterB7B5(), White), "A4 - A5") ==
            Attempt(Game(Relocated(AfterB7B5(), Pos(3, 0), Pos(4, 0)), Black), None)
  {
    var m := Move(Pos(3, 0), Pos(4, 0));
    Parses(m, "A4 - A5");
    PawnStepsOnSquares();
    PawnMoves(AfterB7B5(), White, m);
  }

  /** The rule that A4 - A5 uses is the second of the pawn table. */
  lemma WhitePawnStepUsesSecondRule()
    ensures FirstValidRule(PawnRules, ContextOf(AfterB7B5(), White, Move(Pos(3, 0), Pos(4, 0)), Pawn(White, 0)), 0)
            == Ok(Some(1))
  {
    var m := Move(Pos(3, 0), Pos(4, 0));
    PawnStepsOnSquares();
    var ctx := ContextOf(AfterB7B5(), White, m, Pawn(White, 0));
    PawnRuleVerdicts(AfterB7B5(), White, m, Pawn(White, 0));
    assert FirstValidRule(PawnRules, ctx, 1) == Ok(Some(1));
  }

  /** The two squares of A4 - A5 after A2 - A4 and B7 - B5. */
  lemma PawnStepsOnSquares()
    ensures PieceAt(AfterB7B5(), Pos(3, 0)) == Some(Pawn(White, 0))
    ensures PieceAt(AfterB7B5(), Pos(4, 0)) == None
  {
    AfterA2A4Squares();
  }

  /** A1 - A8 at the start is refused: the pawn on A2 blocks both rook rules. */
  lemma BlockedRookIsRefused()
    ensures Step(InitialGame(), "A1 - A8") == Attempt(InitialGame(), Some(NoApplicableRule))
  {
    var m := Move(Pos(0, 0), Pos(7, 0));
    Parses(m, "A1 - A8");
    InitialAt(Pos(0, 0));
    InitialAt(Pos(1, 0));
    assert StrictlyBetween(m.origin, Pos(1, 0), m.dest);
    TowerMovesStraight(InitialBoard(), White, m);
  }

  /** Moving a Black piece while White is to move is refused, and nothing changes. */
  lemma WrongSideIsRefused()
    ensures Step(InitialGame(), "A7 - A6") == Attempt(InitialGame(), Some(WrongSideToMove))
  {
    Parses(Move(Pos(6, 0), Pos(5, 0)), "A7 - A6");
    InitialAt(Pos(6, 0));
  }

  /** A1 - D4 at the start meets every castling condition before the line
      query, which then fails: the move is refused with NotAligned instead of
      falling through to the straight-line rule. */
  lemma UnalignedCastlingIsNotAligned()
    ensures Step(InitialGame(), "A1 - D4") == Attempt(InitialGame(), Some(NotAligned))
  {
    var m := Move(Pos(0, 0), Pos(3, 3));
    Parses(m, "A1 - D4");
    InitialAt(Pos(0, 0));
    InitialAt(Pos(0, 4));
    TowerCastlingUnaligned(InitialBoard(), White, m);
  }

  /** The king's step does not look at the destination: E1 - E2 at the start
      is accepted and White's own pawn on E2 disappears from the board. */
  lemma KingStepTakesOwnPawn()
    ensures var g := Step(InitialGame(), "E1 - E2").game;
            && Step(InitialGame(), "E1 - E2").refusal == None
            && PieceAt(g.board, Pos(1, 4)) == Some(King(White))
            && Pawn(White, 4) !in g.board.Values
  {
    var m := Move(Pos(0, 4), Pos(1, 4));
    Parses(m, "E1 - E2");
    InitialBoardLayout();
    var b := InitialBoard();
    assert PieceAt(b, Pos(0, 4)) == Some(King(White));
    KingMoves(b, White, m);
    var r := Relocated(b, Pos(0, 4), Pos(1, 4));
    forall c | c in r
      ensures r[c] != Pawn(White, 4)
    {
      if c != Pos(1, 4) && c != Pos(0, 4) {
        assert PieceAt(b, c) == StartingOccupant(c);
      }
    }
  }

  /** The pawn two-step does not look at the square it passes over: from its
      original square onto an empty square two ahead, whatever stands between. */
  lemma PawnTwoStepJumps(b: Board, pawn: Piece, m: Move)
    requires pawn.Pawn? && PieceAt(b, m.origin) == Some(pawn) && m.origin == OriginalCoord(pawn)
    requires m.dest == Pos(m.origin.row + Ahead(pawn.side, 2), m.origin.col) && m.dest !in b
    ensures ExecuteMove(b, pawn.side, m) == Ok(Relocated(b, m.origin, m.dest))
  {
    PawnMoves(b, pawn.side, m);
  }

  /** A pawn cannot move straight ahead onto an occupied square, enemy or not. */
  lemma PawnStepNeedsEmptySquare(b: Board, pawn: Piece, m: Move)
    requires pawn.Pawn? && PieceAt(b, m.origin) == Some(pawn) && m.dest in b
    requires m.dest == Pos(m.origin.row + Ahead(pawn.side, 1), m.origin.col)
    ensures ExecuteMove(b, pawn.side, m) == Err(NoApplicableRule)
  {
    PawnMoves(b, pawn.side, m);
  }

  /** A pawn captures exactly one square diagonally ahead, and only an enemy. */
  lemma PawnCapturesDiagonally(b: Board, pawn: Piece, m: Move)
    requires pawn.Pawn? && PieceAt(b, m.origin) == Some(pawn) && m.dest in b
    requires m.dest.col != m.origin.col
    ensures ExecuteMove(b, pawn.side, m).Ok? <==>
              && b[m.dest].side != pawn.side
              && Abs(m.dest.col - m.origin.col) == 1
              && m.dest.row == m.origin.row + Ahead(pawn.side, 1)
  {
    PawnMoves(b, pawn.side, m);
  }

  /** White's long castling by the king, E1 - C1: with the king on E1, a
      White rook (either one) on A1 and D1 empty, the king ends on C1, the
      rook on D1, A1 and E1 are empty and every other square is unchanged.
      Neither C1 nor B1 is looked at. */
  lemma KingCastlesLong(b: Board)
    requires PieceAt(b, Pos(0, 4)) == Some(King(White))
    requires PieceAt(b, Pos(0, 0)) == Some(Tower(White, Left)) || PieceAt(b, Pos(0, 0)) == Some(Tower(White, Right))
    requires Pos(0, 3) !in b
    ensures var r := ExecuteMove(b, White, Move(Pos(0, 4), Pos(0, 2)));
            && r.Ok?
            && PieceAt(r.value, Pos(0, 2)) == Some(King(White))
            && PieceAt(r.value, Pos(0, 3)) == PieceAt(b, Pos(0, 0))
            && PieceAt(r.value, Pos(0, 0)) == None && PieceAt(r.value, Pos(0, 4)) == None
            && forall q: Coord :: q !in {Pos(0, 0), Pos(0, 2), Pos(0, 3), Pos(0, 4)} ==> PieceAt(r.value, q) == PieceAt(b, q)
  {
    var m := Move(Pos(0, 4), Pos(0, 2));
    assert PathClear(b, m.origin, m.dest) by {
      forall q: Coord | StrictlyBetween(m.origin, q, m.dest) ensures q !in b {
        assert q == Pos(0, 3);
      }
    }
    KingCastles(b, White, m);
  }

  /** White's castling by the left rook, A1 - D1: with the rook on A1, the
      king on E1 and B1, C1 empty, the rook ends on D1, the king on C1, A1
      and E1 are empty and every other square is unchanged. */
  lemma RookCastlesLong(b: Board)
    requires PieceAt(b, Pos(0, 0)) == Some(Tower(White, Left))
    requires PieceAt(b, Pos(0, 4)) == Some(King(White))
    requires Pos(0, 1) !in b && Pos(0, 2) !in b
    ensures var r := ExecuteMove(b, White, Move(Pos(0, 0), Pos(0, 3)));
            && r.Ok?
            && PieceAt(r.value, Pos(0, 3)) == Some(Tower(White, Left))
            && PieceAt(r.value, Pos(0, 2)) == Some(King(White))
            && PieceAt(r.value, Pos(0, 0)) == None && PieceAt(r.value, Pos(0, 4)) == None
            && forall q: Coord :: q !in {Pos(0, 0), Pos(0, 2), Pos(0, 3), Pos(0, 4)} ==> PieceAt(r.value, q) == PieceAt(b, q)
  {
    var m := Move(Pos(0, 0), Pos(0, 3));
    assert PathClear(b, m.origin, m.dest) by {
      forall q: Coord | StrictlyBetween(m.origin, q, m.dest) ensures q !in b {
        assert q == Pos(0, 1) || q == Pos(0, 2);
      }
    }
    TowerCastles(b, White, m);
  }
}
