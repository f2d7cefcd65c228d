/** The rule engine (Game.executeMove, getPieceNameFromBoard,
    checkIfPieceBelongsToTurn, getFirstValidRule, validPrecons and applyRule
    of main.py): the first rule of the moving piece's table whose
    preconditions all hold, evaluated left to right with short-circuit, is
    selected; its postcondition is computed from the board as it was before
    the move and then written cell by cell in order. */
module Engine {
  import opened Errors
  import opened Turns
  import opened Coords
  import opened Pieces
  import opened Registry
  import opened Boards
  import opened Moves

  /** What a precondition may look at: the move, the board, the moving
      piece's original square and the side on move. */
  datatype Context = Context(move: Move, board: Board, original: Coord, turn: Side)

  /** One precondition. Only the line query can fail; it fails when origin and
      destination share neither row nor column, and that failure escapes. */
  function EvalPrecon(pc: Precon, ctx: Context): (r: Result<bool>)
    ensures r.Err? <==> pc == NothingInLine && !Aligned(ctx.move.origin, ctx.move.dest)
    ensures r.Err? ==> r.error == NotAligned
  {
    var o, d, b := ctx.move.origin, ctx.move.dest, ctx.board;
    match pc
    case OnOriginalCoord => Ok(o == ctx.original)
    case DestEmpty => Ok(!IsOccupied(b, d))
    case DestForward(n) => Ok(IsForward(d, o, n, ctx.turn))
    case DestHoldsEnemy => Ok(PieceAt(b, d).Some? && !BelongsToTurn(ctx.turn, PieceAt(b, d)))
    case DestDiagonalForward(n) => Ok(IsInDiagonalForward(d, o, n, ctx.turn))
    case KingOnOriginalCoord => Ok(IsKingInOriginalPosition(b, ctx.turn))
    case DestColumnIs(c1, c2) => Ok(d.col == c1 || d.col == c2)
    case NothingInLine =>
      var between :- PiecesInLine(b, o, d);
      Ok(|between| == 0)
    case StraightLine => Ok(o.row == d.row || o.col == d.col)
    case DestNotAlly => Ok(!BelongsToTurn(ctx.turn, PieceAt(b, d)))
    case WithinOneCell => Ok(Abs(o.row - d.row) <= 1 && Abs(o.col - d.col) <= 1)
    case CastlingTowerInPlace => Ok(IsTower(b, Pos(o.row, if d.col == 2 then 0 else 7), ctx.turn))
  }

  predicate Holds(pc: Precon, ctx: Context) {
    EvalPrecon(pc, ctx) == Ok(true)
  }

  /** Game.validPrecons: the preconditions in order, stopping at the first
      that does not hold or that fails. ValidPreconsMeaning states what the
      verdict says about the individual preconditions. */
  function ValidPrecons(pcs: seq<Precon>, ctx: Context): (r: Result<bool>)
    ensures r.Err? ==> r.error == NotAligned && NothingInLine in pcs
    decreases |pcs|
  {
    if pcs == [] then Ok(true)
    else
      match EvalPrecon(pcs[0], ctx)
      case Err(e) => Err(e)
      case Ok(holds) => if holds then ValidPrecons(pcs[1..], ctx) else Ok(false)
  }

  /** The verdict of ValidPrecons is Ok(true) exactly when every
      precondition holds, Ok(false) exactly when the first one that does not
      hold is false, and a failure only when the first one that does not hold
      fails that way. */
  lemma {:induction false} ValidPreconsMeaning(pcs: seq<Precon>, ctx: Context)
    ensures ValidPrecons(pcs, ctx) == Ok(true) <==> forall i :: 0 <= i < |pcs| ==> Holds(pcs[i], ctx)
    ensures ValidPrecons(pcs, ctx) == Ok(false) <==>
              exists i :: 0 <= i < |pcs| && EvalPrecon(pcs[i], ctx) == Ok(false)
                          && forall j :: 0 <= j < i ==> Holds(pcs[j], ctx)
    ensures ValidPrecons(pcs, ctx).Err? ==>
              exists i :: 0 <= i < |pcs| && EvalPrecon(pcs[i], ctx) == ValidPrecons(pcs, ctx)
                          && forall j :: 0 <= j < i ==> Holds(pcs[j], ctx)
    decreases |pcs|
  {
    if pcs != [] {
      ValidPreconsMeaning(pcs[1..], ctx);
      assert forall i :: 1 <= i < |pcs| ==> pcs[i] == pcs[1..][i - 1];
      if EvalPrecon(pcs[0], ctx) == Ok(true) {
        var r := ValidPrecons(pcs[1..], ctx);
        if r == Ok(false) {
          var i :| 0 <= i < |pcs[1..]| && EvalPrecon(pcs[1..][i], ctx) == Ok(false)
                   && forall j :: 0 <= j < i ==> Holds(pcs[1..][j], ctx);
          assert EvalPrecon(pcs[i + 1], ctx) == Ok(false) && forall j :: 0 <= j < i + 1 ==> Holds(pcs[j], ctx);
        } else if r.Err? {
          var i :| 0 <= i < |pcs[1..]| && EvalPrecon(pcs[1..][i], ctx) == r
                   && forall j :: 0 <= j < i ==> Holds(pcs[1..][j], ctx);
          assert EvalPrecon(pcs[i + 1], ctx) == r && forall j :: 0 <= j < i + 1 ==> Holds(pcs[j], ctx);
        }
      } else {
        assert Holds(pcs[0], ctx) == false;
      }
    }
  }

  /** Game.getFirstValidRule, from rule `from` on: the index of the first rule
      whose preconditions all hold, None when none does, or the failure of a
      precondition reached before such a rule. */
  function FirstValidRule(rules: seq<Rule>, ctx: Context, from: nat): (r: Result<Option<nat>>)
    requires from <= |rules|
    ensures r.Ok? && r.value.Some? ==>
              && from <= r.value.value < |rules|
              && ValidPrecons(rules[r.value.value].precons, ctx) == Ok(true)
              && forall j :: from <= j < r.value.value ==> ValidPrecons(rules[j].precons, ctx) == Ok(false)
    ensures r == Ok(None) <==> forall j :: from <= j < |rules| ==> ValidPrecons(rules[j].precons, ctx) == Ok(false)
    ensures r.Err? ==>
              exists i :: from <= i < |rules| && ValidPrecons(rules[i].precons, ctx) == Err(r.error)
                          && forall j :: from <= j < i ==> ValidPrecons(rules[j].precons, ctx) == Ok(false)
    decreases |rules| - from
  {
    if from == |rules| then Ok(None)
    else
      var here := ValidPrecons(rules[from].precons, ctx);
      if here.Err? then Err(here.error)
      else if here.value then Ok(Some(from))
      else FirstValidRule(rules, ctx, from + 1)
  }

  /** One cell assignment of a postcondition. */
  datatype Update = Update(at: Coord, occupant: Option<Piece>)

  /** The postcondition's assignments, all read from the board before the
      move: the origin is cleared and the mover placed on the destination
      first; a castling adds two more assignments on the destination's row.
      Every piece written is one already on the board. */
  function Postcondition(post: Postcon, m: Move, b: Board): (r: seq<Update>)
    ensures |r| == if post == Relocate then 2 else 4
    ensures r[0] == Update(m.origin, None) && r[1] == Update(m.dest, PieceAt(b, m.origin))
    ensures forall i :: 2 <= i < |r| ==> r[i].at.row == m.dest.row
    ensures forall i :: 0 <= i < |r| ==> r[i].occupant == None || r[i].occupant.value in b.Values
  {
    var o, d := m.origin, m.dest;
    match post
    case Relocate =>
      [Update(o, None), Update(d, PieceAt(b, o))]
    case TowerCastling =>
      [Update(o, None), Update(d, PieceAt(b, o)),
       Update(Pos(d.row, if d.col == 3 then 2 else 6), PieceAt(b, Pos(d.row, 4))),
       Update(Pos(d.row, 4), None)]
    case KingCastling =>
      var rookCol := if d.col == 2 then 0 else 7;
      [Update(o, None), Update(d, PieceAt(b, o)),
       Update(Pos(d.row, if d.col == 2 then 3 else 5), PieceAt(b, Pos(d.row, rookCol))),
       Update(Pos(d.row, rookCol), None)]
  }

  /** What a square holds once `us` is written over a square that held
      `before`: the occupant of the last assignment to it, if there is one. */
  function LastWrite(us: seq<Update>, q: Coord, before: Option<Piece>): Option<Piece>
    decreases |us|
  {
    if us == [] then before
    else if us[|us| - 1].at == q then us[|us| - 1].occupant
    else LastWrite(us[..|us| - 1], q, before)
  }

  lemma {:induction false} LastWriteFirst(us: seq<Update>, q: Coord, before: Option<Piece>)
    requires us != []
    ensures LastWrite(us, q, before) ==
            LastWrite(us[1..], q, if us[0].at == q then us[0].occupant else before)
    decreases |us|
  {
    if |us| > 1 {
      assert us[..|us| - 1][1..] == us[1..][..|us[1..]| - 1];
      LastWriteFirst(us[..|us| - 1], q, before);
    }
  }

  /** A square ends with what it held before or with the occupant of some
      assignment to it. */
  lemma {:induction false} LastWriteSource(us: seq<Update>, q: Coord, before: Option<Piece>)
    ensures || LastWrite(us, q, before) == before
            || exists i :: 0 <= i < |us| && us[i].at == q && us[i].occupant == LastWrite(us, q, before)
    decreases |us|
  {
    if us != [] && us[|us| - 1].at != q {
      var front := us[..|us| - 1];
      LastWriteSource(front, q, before);
      if LastWrite(front, q, before) != before {
        var i :| 0 <= i < |front| && front[i].at == q && front[i].occupant == LastWrite(front, q, before);
        assert us[i] == front[i];
      }
    }
  }

  /** Writes the assignments in order (the loop of Game.applyRule): a later
      assignment to a square overrides an earlier one. */
  function ApplyUpdates(b: Board, us: seq<Update>): (r: Board)
    ensures forall q :: PieceAt(r, q) == LastWrite(us, q, PieceAt(b, q))
    decreases |us|
  {
    if us == [] then b
    else
      var b' := SetPiece(b, us[0].at, us[0].occupant);
      assert forall q :: LastWrite(us, q, PieceAt(b, q)) == LastWrite(us[1..], q, PieceAt(b', q)) by {
        forall q { LastWriteFirst(us, q, PieceAt(b, q)); }
      }
      ApplyUpdates(b', us[1..])
  }

  /** Game.applyRule: a square that no assignment names keeps its occupant,
      and no piece appears that was not on the board. */
  function ApplyRule(rule: Rule, m: Move, b: Board): (r: Board)
    ensures forall q :: (forall i :: 0 <= i < |Postcondition(rule.postcon, m, b)| ==>
                           Postcondition(rule.postcon, m, b)[i].at != q)
                        ==> PieceAt(r, q) == PieceAt(b, q)
    ensures r.Values <= b.Values
  {
    var us := Postcondition(rule.postcon, m, b);
    var r := ApplyUpdates(b, us);
    forall q ensures || PieceAt(r, q) == PieceAt(b, q)
                     || exists i :: 0 <= i < |us| && us[i].at == q && us[i].occupant == PieceAt(r, q) {
      LastWriteSource(us, q, PieceAt(b, q));
    }
    assert r.Values <= b.Values by {
      forall x | x in r.Values ensures x in b.Values {
        var c :| c in r && r[c] == x;
        assert PieceAt(r, c) == Some(x);
      }
    }
    r
  }

  /** Game.getPieceNameFromBoard. */
  function PieceNameFromBoard(b: Board, m: Move): (r: Result<Piece>)
    ensures r.Ok? <==> IsOccupied(b, m.origin)
    ensures r.Ok? ==> PieceAt(b, m.origin) == Some(r.value)
    ensures r.Err? ==> r.error == EmptyOrigin
  {
    match PieceAt(b, m.origin)
    case None => Err(EmptyOrigin)
    case Some(piece) => Ok(piece)
  }

  /** Game.checkIfPieceBelongsToTurn. */
  function CheckPieceBelongsToTurn(turn: Side, piece: Piece): (r: Result<Piece>)
    ensures r.Ok? <==> piece.side == turn
    ensures r.Ok? ==> r.value == piece
    ensures r.Err? ==> r.error == WrongSideToMove
  {
    if !BelongsToTurn(turn, Some(piece)) then Err(WrongSideToMove) else Ok(piece)
  }

  /** The context the engine evaluates the moving piece's rules in. */
  function ContextOf(b: Board, turn: Side, m: Move, piece: Piece): Context {
    Context(m, b, OriginalCoord(piece), turn)
  }

  /** Rule `i` is the first of `rules` whose preconditions do not answer
      false in `ctx`, and its preconditions answer `v`. */
  predicate FirstAnswer(rules: seq<Rule>, ctx: Context, i: int, v: Result<bool>) {
    && 0 <= i < |rules|
    && ValidPrecons(rules[i].precons, ctx) == v
    && forall j :: 0 <= j < i ==> ValidPrecons(rules[j].precons, ctx) == Ok(false)
  }

  /** The preconditions of every rule of `rules` answer false in `ctx`. */
  predicate AllFalse(rules: seq<Rule>, ctx: Context) {
    forall j :: 0 <= j < |rules| ==> ValidPrecons(rules[j].precons, ctx) == Ok(false)
  }

  /** At most one rule is the first not to answer false. */
  lemma FirstAnswerUnique(rules: seq<Rule>, ctx: Context, i: int, v: Result<bool>, k: int, w: Result<bool>)
    requires FirstAnswer(rules, ctx, i, v) && FirstAnswer(rules, ctx, k, w)
    requires v != Ok(false) && w != Ok(false)
    ensures i == k && v == w
  {
  }

  /** The end of Game.executeMove: select the first valid rule and apply it,
      refusing with NoApplicableRule when there is none. The move is accepted
      exactly when the first rule that does not answer false holds. */
  function ApplyFirstValidRule(rules: seq<Rule>, ctx: Context, m: Move, b: Board): (r: Result<Board>)
    ensures r.Err? ==> r.error in {NotAligned, NoApplicableRule}
    ensures r.Ok? <==> exists i :: FirstAnswer(rules, ctx, i, Ok(true))
    ensures r.Ok? ==> exists i :: FirstAnswer(rules, ctx, i, Ok(true)) && r.value == ApplyRule(rules[i], m, b)
    ensures r == Err(NoApplicableRule) <==> AllFalse(rules, ctx)
    ensures r == Err(NotAligned) ==> exists i :: FirstAnswer(rules, ctx, i, Err(NotAligned))
  {
    var found := FirstValidRule(rules, ctx, 0);
    match found
    case Err(e) =>
      var k :| 0 <= k < |rules| && ValidPrecons(rules[k].precons, ctx) == Err(e)
               && forall j :: 0 <= j < k ==> ValidPrecons(rules[j].precons, ctx) == Ok(false);
      assert FirstAnswer(rules, ctx, k, Err(e));
      assert forall i :: !FirstAnswer(rules, ctx, i, Ok(true)) by {
        forall i | FirstAnswer(rules, ctx, i, Ok(true)) ensures false {
          FirstAnswerUnique(rules, ctx, i, Ok(true), k, Err(e));
        }
      }
      Err(e)
    case Ok(None) =>
      assert forall i :: !FirstAnswer(rules, ctx, i, Ok(true));
      Err(NoApplicableRule)
    case Ok(Some(i)) =>
      assert FirstAnswer(rules, ctx, i, Ok(true));
      Ok(ApplyRule(rules[i], m, b))
  }

  /** Game.executeMove: the board after the move, or why the move is refused.
      The checks come in order: empty origin, side to move, then the rules.
      For a piece of the side on move the move is accepted exactly when the
      first rule that does not answer false holds, and that rule is applied. */
  function ExecuteMove(b: Board, turn: Side, m: Move): (r: Result<Board>)
    ensures m.origin !in b <==> r == Err(EmptyOrigin)
    ensures m.origin in b && b[m.origin].side != turn <==> r == Err(WrongSideToMove)
    ensures r.Err? ==> r.error in {EmptyOrigin, WrongSideToMove, NotAligned, NoApplicableRule}
    ensures r.Ok? ==>
              && m.origin in b && b[m.origin].side == turn
              && exists i :: FirstAnswer(RulesOf(b[m.origin]), ContextOf(b, turn, m, b[m.origin]), i, Ok(true))
                             && r.value == ApplyRule(RulesOf(b[m.origin])[i], m, b)
    ensures m.origin in b && b[m.origin].side == turn ==>
              (r.Ok? <==> exists i :: FirstAnswer(RulesOf(b[m.origin]), ContextOf(b, turn, m, b[m.origin]), i, Ok(true)))
    ensures m.origin in b && b[m.origin].side == turn ==>
              (r == Err(NoApplicableRule) <==> AllFalse(RulesOf(b[m.origin]), ContextOf(b, turn, m, b[m.origin])))
    ensures r == Err(NotAligned) ==>
              && m.origin in b
              && exists i :: FirstAnswer(RulesOf(b[m.origin]), ContextOf(b, turn, m, b[m.origin]), i, Err(NotAligned))
  {
    var piece :- PieceNameFromBoard(b, m);
    var _ :- CheckPieceBelongsToTurn(turn, piece);
    ApplyFirstValidRule(RulesOf(piece), ContextOf(b, turn, m, piece), m, b)
  }
}
