/** A game session: the board and the side on move (class Game of main.py),
    and the step of the driving loop that parses a line, executes the move
    and, on success, hands the move to the other side. */
module Game {
  import opened Errors
  import opened Turns
  import opened Coords
  import opened Pieces
  import opened Registry
  import opened Boards
  import opened Moves
  import opened Engine
  import opened Legality

  datatype Game = Game(board: Board, turn: Side)

  /** A new session: every piece on its original square, White to move. */
  function InitialGame(): Game {
    Game(InitialBoard(), FirstToMove)
  }

  /** Game.nextTurn. */
  function NextTurn(g: Game): (r: Game)
    ensures r.board == g.board && r.turn != g.turn
  {
    Game(g.board, Toggle(g.turn))
  }

  /** The result of one attempt: the session afterwards, and the refusal if any. */
  datatype Attempt = Attempt(game: Game, refusal: Option<Error>)

  /** One pass of the driving loop: parse, execute, then toggle the turn. A
      refused line (bad format, degenerate move, or any refusal of the
      engine) leaves the session as it was; an accepted one changes the
      board as the engine says and toggles the turn exactly once. */
  function Step(g: Game, line: string): (r: Attempt)
    ensures r.refusal.Some? ==> r.game == g
    ensures r.refusal.None? <==> ParseMove(line).Ok? && ExecuteMove(g.board, g.turn, ParseMove(line).value).Ok?
    ensures r.refusal.None? ==>
              && r.game.turn == Toggle(g.turn)
              && r.game.board == ExecuteMove(g.board, g.turn, ParseMove(line).value).value
  {
    match ParseMove(line)
    case Err(e) => Attempt(g, Some(e))
    case Ok(m) =>
      match ExecuteMove(g.board, g.turn, m)
      case Err(e) => Attempt(g, Some(e))
      case Ok(b) => Attempt(NextTurn(Game(b, g.turn)), None)
  }

  /** How many of `lines` the driving loop accepts, starting from `g`. */
  function Accepted(g: Game, lines: seq<string>): nat
    decreases |lines|
  {
    if lines == [] then 0
    else (if Step(g, lines[0]).refusal.None? then 1 else 0) + Accepted(Step(g, lines[0]).game, lines[1..])
  }

  /** The session after the driving loop has read `lines` in order: the side
      on move has changed once per accepted line, and a run in which every
      line is refused leaves the session as it was. */
  function Run(g: Game, lines: seq<string>): (r: Game)
    ensures r.turn == if Accepted(g, lines) % 2 == 0 then g.turn else Toggle(g.turn)
    ensures Accepted(g, lines) == 0 ==> r == g
    decreases |lines|
  {
    if lines == [] then g
    else
      var st := Step(g, lines[0]);
      var r := Run(st.game, lines[1..]);
      TurnAfterStep(g, st, Accepted(st.game, lines[1..]), r.turn);
      r
  }

  /** One step of Run's turn count: a refused line leaves the session, an
      accepted one toggles the side once more. */
  lemma TurnAfterStep(g: Game, st: Attempt, k: nat, t: Side)
    requires st.refusal.Some? ==> st.game == g
    requires st.refusal.None? ==> st.game.turn == Toggle(g.turn)
    requires t == if k % 2 == 0 then st.game.turn else Toggle(st.game.turn)
    ensures t == if ((if st.refusal.None? then 1 else 0) + k) % 2 == 0 then g.turn else Toggle(g.turn)
  {
  }

  /** Moving one piece keeps every identity on at most one square and never
      brings a piece onto the board that was not there. */
  lemma RelocatedKeepsUnique(b: Board, o: Coord, d: Coord)
    requires o in b && Unique(b)
    ensures Unique(Relocated(b, o, d))
    ensures Relocated(b, o, d).Values <= b.Values
  {
    var r := Relocated(b, o, d);
    forall p, q | p in r && q in r && r[p] == r[q]
      ensures p == q
    {
      if p != d && q != d {
        assert b[p] == r[p] && b[q] == r[q];
      }
    }
    forall x | x in r.Values
      ensures x in b.Values
    {
      var c :| c in r && r[c] == x;
      if c != d {
        assert b[c] == x;
      } else {
        assert b[o] == x;
      }
    }
  }

  /** Every successful move keeps every piece identity on at most one square,
      and creates no piece. */
  lemma ExecuteMoveKeepsUnique(b: Board, turn: Side, m: Move)
    requires Unique(b)
    ensures ExecuteMove(b, turn, m).Ok? ==> Unique(ExecuteMove(b, turn, m).value)
    ensures ExecuteMove(b, turn, m).Ok? ==> ExecuteMove(b, turn, m).value.Values <= b.Values
  {
    if ExecuteMove(b, turn, m).Ok? {
      var piece := b[m.origin];
      if piece.Pawn? {
        PawnMoves(b, turn, m);
        RelocatedKeepsUnique(b, m.origin, m.dest);
      } else if piece.Tower? {
        TowerMoveKeepsUnique(b, turn, m);
      } else {
        KingMoveKeepsUnique(b, turn, m);
      }
    }
  }

  /** The rook's share of ExecuteMoveKeepsUnique. */
  lemma TowerMoveKeepsUnique(b: Board, turn: Side, m: Move)
    requires Unique(b) && ExecuteMove(b, turn, m).Ok?
    requires m.origin in b && b[m.origin].Tower?
    ensures Unique(ExecuteMove(b, turn, m).value) && ExecuteMove(b, turn, m).value.Values <= b.Values
  {
    var o, d := m.origin, m.dest;
    TowerMoves(b, turn, m);
    RelocatedKeepsUnique(b, o, d);
    if TowerCastlingGate(b, turn, b[o], m) && Aligned(o, d) && PathClear(b, o, d) {
      RelocatedKeepsUnique(Relocated(b, o, d), Pos(o.row, 4), Pos(o.row, if d.col == 3 then 2 else 6));
    }
  }

  /** The king's share of ExecuteMoveKeepsUnique. */
  lemma KingMoveKeepsUnique(b: Board, turn: Side, m: Move)
    requires Unique(b) && ExecuteMove(b, turn, m).Ok?
    requires m.origin in b && b[m.origin].King?
    ensures Unique(ExecuteMove(b, turn, m).value) && ExecuteMove(b, turn, m).value.Values <= b.Values
  {
    var o, d := m.origin, m.dest;
    KingMoves(b, turn, m);
    RelocatedKeepsUnique(b, o, d);
    if !KingStep(m) {
      RelocatedKeepsUnique(Relocated(b, o, d), CastlingCorner(o, d), Pos(o.row, if d.col == 2 then 3 else 5));
    }
  }

  /** Unique identities and no new pieces, over any sequence of input lines. */
  lemma {:induction false} RunKeepsUnique(g: Game, lines: seq<string>)
    requires Unique(g.board)
    ensures Unique(Run(g, lines).board)
    ensures Run(g, lines).board.Values <= g.board.Values
    decreases |lines|
  {
    if lines != [] {
      var next := Step(g, lines[0]).game;
      if ParseMove(lines[0]).Ok? {
        ExecuteMoveKeepsUnique(g.board, g.turn, ParseMove(lines[0]).value);
      }
      RunKeepsUnique(next, lines[1..]);
    }
  }

  /** From the initial layout, no piece identity ever stands on two squares,
      whatever is typed. */
  lemma GamesKeepPiecesUnique(lines: seq<string>)
    ensures Unique(Run(InitialGame(), lines).board)
    ensures Run(InitialGame(), lines).board.Values <= InitialBoard().Values
  {
    InitialBoardLayout();
    RunKeepsUnique(InitialGame(), lines);
  }
}
