/** What each rule table allows, restated directly in terms of squares and
    occupants, and proved to be what the rule engine does with the tables. */
module Legality {
  import opened Errors
  import opened Turns
  import opened Coords
  import opened Pieces
  import opened Registry
  import opened Boards
  import opened Moves
  import opened Engine

  /** The board after the piece on `o` moves to `d`, capturing whatever stood there. */
  function Relocated(b: Board, o: Coord, d: Coord): (r: Board)
    requires o in b
    ensures PieceAt(r, d) == Some(b[o])
    ensures o != d ==> PieceAt(r, o) == None
    ensures forall q :: q != o && q != d ==> PieceAt(r, q) == PieceAt(b, q)
  {
    (b - {o})[d := b[o]]
  }

  /** The board after a castling: the mover goes from `o` to `d`, then its
      partner goes from `f` to `e`. */
  function Castled(b: Board, o: Coord, d: Coord, f: Coord, e: Coord): Board
    requires o in b && f in b && f != o && f != d
  {
    Relocated(Relocated(b, o, d), f, e)
  }

  predicate IsEnemyAt(b: Board, c: Coord, turn: Side) {
    c in b && b[c].side != turn
  }

  predicate IsAllyAt(b: Board, c: Coord, turn: Side) {
    c in b && b[c].side == turn
  }

  /** The three ways a pawn may move: two squares straight ahead from its own
      original square onto an empty square (the square passed over is not
      looked at), one square straight ahead onto an empty square, or one
      square diagonally ahead onto an enemy. */
  predicate PawnMayMove(b: Board, turn: Side, pawn: Piece, m: Move) {
    var o, d := m.origin, m.dest;
    || (o == OriginalCoord(pawn) && d !in b && d.col == o.col && d.row == o.row + Ahead(turn, 2))
    || (d !in b && d.col == o.col && d.row == o.row + Ahead(turn, 1))
    || (IsEnemyAt(b, d, turn) && Abs(d.col - o.col) == 1 && d.row == o.row + Ahead(turn, 1))
  }

  /** The conditions of rook castling that come before its line query: the
      rook is on its own original square, the side's king is on its original
      square, and the destination is on column 3 or 5. */
  predicate TowerCastlingGate(b: Board, turn: Side, tower: Piece, m: Move) {
    && m.origin == OriginalCoord(tower)
    && PieceAt(b, Pos(HomeRow(turn), 4)) == Some(King(turn))
    && (m.dest.col == 3 || m.dest.col == 5)
  }

  /** A rook's ordinary move: along a row or column, over empty squares, onto
      an empty square or an enemy. */
  ghost predicate TowerMayMoveStraight(b: Board, turn: Side, m: Move) {
    Aligned(m.origin, m.dest) && !IsAllyAt(b, m.dest, turn) && PathClear(b, m.origin, m.dest)
  }

  /** A king's step: row and column each change by at most one. Nothing is
      said about the destination, which may hold a piece of either side. */
  predicate KingStep(m: Move) {
    Abs(m.origin.row - m.dest.row) <= 1 && Abs(m.origin.col - m.dest.col) <= 1
  }

  /** The corner whose rook castles with a king moving to `d`. */
  function CastlingCorner(o: Coord, d: Coord): Coord {
    Pos(o.row, if d.col == 2 then 0 else 7)
  }

  /** The conditions of king castling that come before its line query: the
      king is on its original square, the destination is on column 2 or 6,
      and a rook of the side (either one) is on the matching corner. */
  predicate KingCastlingGate(b: Board, turn: Side, m: Move) {
    && m.origin == OriginalCoord(King(turn))
    && (m.dest.col == 2 || m.dest.col == 6)
    && (PieceAt(b, CastlingCorner(m.origin, m.dest)) == Some(Tower(turn, Left))
        || PieceAt(b, CastlingCorner(m.origin, m.dest)) == Some(Tower(turn, Right)))
  }

  /** The relocation postcondition writes the board `Relocated` describes. */
  lemma ApplyRelocate(b: Board, m: Move)
    requires m.origin in b
    ensures ApplyUpdates(b, Postcondition(Relocate, m, b)) == Relocated(b, m.origin, m.dest)
  {
    var us := Postcondition(Relocate, m, b);
    var b1 := SetPiece(b, m.origin, None);
    var b2 := SetPiece(b1, m.dest, Some(b[m.origin]));
    assert us[1..] == [us[1]] && us[1..][1..] == [];
    assert ApplyUpdates(b, us) == ApplyUpdates(b1, us[1..]) == ApplyUpdates(b2, []);
    BoardsEqual(b2, Relocated(b, m.origin, m.dest));
  }

  /** A four-assignment castling postcondition writes the board `Castled`
      describes when the four squares are distinct. */
  lemma ApplyCastling(b: Board, us: seq<Update>, o: Coord, d: Coord, f: Coord, e: Coord)
    requires o in b && f in b
    requires o != d && o != f && o != e && d != f && d != e && f != e
    requires us == [Update(o, None), Update(d, PieceAt(b, o)), Update(e, PieceAt(b, f)), Update(f, None)]
    ensures ApplyUpdates(b, us) == Castled(b, o, d, f, e)
  {
    var b1 := SetPiece(b, o, None);
    var b2 := SetPiece(b1, d, PieceAt(b, o));
    var b3 := SetPiece(b2, e, PieceAt(b, f));
    var b4 := SetPiece(b3, f, None);
    assert us[1..] == [us[1], us[2], us[3]] && us[1..][1..] == [us[2], us[3]];
    assert us[1..][1..][1..] == [us[3]] && us[1..][1..][1..][1..] == [];
    assert ApplyUpdates(b, us) == ApplyUpdates(b1, us[1..]) == ApplyUpdates(b2, us[1..][1..]);
    assert ApplyUpdates(b2, us[1..][1..]) == ApplyUpdates(b3, us[1..][1..][1..]) == ApplyUpdates(b4, []);
    BoardsEqual(b4, Castled(b, o, d, f, e));
  }

  /** A list of preconditions none of which can fail is the conjunction of
      its members. */
  lemma {:induction false} TotalPreconsAreConjunction(pcs: seq<Precon>, ctx: Context)
    requires forall i :: 0 <= i < |pcs| ==> EvalPrecon(pcs[i], ctx).Ok?
    ensures ValidPrecons(pcs, ctx) == Ok(forall i :: 0 <= i < |pcs| ==> Holds(pcs[i], ctx))
    decreases |pcs|
  {
    if pcs != [] {
      var rest := pcs[1..];
      assert forall i :: 0 <= i < |rest| ==> EvalPrecon(rest[i], ctx).Ok? by {
        forall i | 0 <= i < |rest| ensures EvalPrecon(rest[i], ctx).Ok? {
          assert rest[i] == pcs[i + 1];
        }
      }
      TotalPreconsAreConjunction(rest, ctx);
      PreconsCons(pcs, ctx);
      var all := forall i :: 0 <= i < |pcs| ==> Holds(pcs[i], ctx);
      assert all == (Holds(pcs[0], ctx) && forall i :: 0 <= i < |rest| ==> Holds(rest[i], ctx)) by {
        assert forall i :: 1 <= i < |pcs| ==> pcs[i] == rest[i - 1];
      }
      assert EvalPrecon(pcs[0], ctx) == Ok(Holds(pcs[0], ctx));
    }
  }

  /** So when no precondition can fail, reordering the preconditions of a
      rule does not change whether it applies. */
  lemma TotalPreconsOrderIrrelevant(pcs: seq<Precon>, pcs': seq<Precon>, ctx: Context)
    requires multiset(pcs) == multiset(pcs')
    requires forall i :: 0 <= i < |pcs| ==> EvalPrecon(pcs[i], ctx).Ok?
    ensures ValidPrecons(pcs, ctx) == ValidPrecons(pcs', ctx)
  {
    assert forall x :: x in pcs <==> x in pcs' by {
      forall x ensures x in pcs <==> x in pcs' {
        assert x in pcs <==> x in multiset(pcs);
        assert x in pcs' <==> x in multiset(pcs');
      }
    }
    assert forall i :: 0 <= i < |pcs'| ==> EvalPrecon(pcs'[i], ctx).Ok? by {
      forall i | 0 <= i < |pcs'| ensures EvalPrecon(pcs'[i], ctx).Ok? {
        assert pcs'[i] in pcs;
      }
    }
    TotalPreconsAreConjunction(pcs, ctx);
    TotalPreconsAreConjunction(pcs', ctx);
    assert (forall i :: 0 <= i < |pcs| ==> Holds(pcs[i], ctx)) <==> (forall x :: x in pcs ==> Holds(x, ctx));
    assert (forall i :: 0 <= i < |pcs'| ==> Holds(pcs'[i], ctx)) <==> (forall x :: x in pcs' ==> Holds(x, ctx));
  }

  /** With the line query among them, order matters: the same two
      preconditions give "does not apply" in one order and NotAligned in the
      other. This is why the castling rules fail on an unaligned move instead
      of falling through to the next rule. */
  lemma PreconOrderMattersWithLineQuery()
    ensures var ctx := Context(Move(Pos(0, 0), Pos(3, 3)), map[], Pos(0, 0), White);
            && ValidPrecons([DestColumnIs(2, 6), NothingInLine], ctx) == Ok(false)
            && ValidPrecons([NothingInLine, DestColumnIs(2, 6)], ctx) == Err(NotAligned)
  {
    var ctx := Context(Move(Pos(0, 0), Pos(3, 3)), map[], Pos(0, 0), White);
    assert [DestColumnIs(2, 6), NothingInLine][1..] == [NothingInLine];
    assert EvalPrecon(NothingInLine, ctx) == Err(NotAligned);
  }

  /** The verdicts of the three pawn rules; none of them can fail. */
  lemma PawnRuleVerdicts(b: Board, turn: Side, m: Move, pawn: Piece)
    ensures var ctx := ContextOf(b, turn, m, pawn);
            var o, d := m.origin, m.dest;
            && ValidPrecons(PawnRules[0].precons, ctx) ==
                 Ok(o == OriginalCoord(pawn) && d !in b && d.col == o.col && d.row == o.row + Ahead(turn, 2))
            && ValidPrecons(PawnRules[1].precons, ctx) ==
                 Ok(d !in b && d.col == o.col && d.row == o.row + Ahead(turn, 1))
            && ValidPrecons(PawnRules[2].precons, ctx) ==
                 Ok(IsEnemyAt(b, d, turn) && Abs(d.col - o.col) == 1 && d.row == o.row + Ahead(turn, 1))
  {
    PawnRuleVerdict(b, turn, m, pawn, 0);
    PawnRuleVerdict(b, turn, m, pawn, 1);
    PawnRuleVerdict(b, turn, m, pawn, 2);
  }

  /** The verdict of one pawn rule is the conjunction of its preconditions. */
  lemma PawnRuleVerdict(b: Board, turn: Side, m: Move, pawn: Piece, k: nat)
    requires k < |PawnRules|
    ensures var ctx := ContextOf(b, turn, m, pawn);
            ValidPrecons(PawnRules[k].precons, ctx) ==
              Ok(forall i :: 0 <= i < |PawnRules[k].precons| ==> Holds(PawnRules[k].precons[i], ctx))
  {
    TotalPreconsAreConjunction(PawnRules[k].precons, ContextOf(b, turn, m, pawn));
  }

  /** What the engine does with a pawn of the side on move: it moves exactly
      when `PawnMayMove` holds, by relocation, and is otherwise refused with
      NoApplicableRule. */
  lemma PawnMoves(b: Board, turn: Side, m: Move)
    requires m.origin in b && b[m.origin].Pawn? && b[m.origin].side == turn
    ensures ExecuteMove(b, turn, m) ==
            if PawnMayMove(b, turn, b[m.origin], m) then Ok(Relocated(b, m.origin, m.dest))
            else Err(NoApplicableRule)
  {
    var pawn := b[m.origin];
    var ctx := ContextOf(b, turn, m, pawn);
    PawnRuleVerdicts(b, turn, m, pawn);
    var v0, v1, v2 := ValidPrecons(PawnRules[0].precons, ctx).value,
                      ValidPrecons(PawnRules[1].precons, ctx).value,
                      ValidPrecons(PawnRules[2].precons, ctx).value;
    assert PawnMayMove(b, turn, pawn, m) == (v0 || v1 || v2);
    assert FirstValidRule(PawnRules, ctx, 3) == Ok(None);
    assert FirstValidRule(PawnRules, ctx, 2) == if v2 then Ok(Some(2)) else Ok(None);
    assert FirstValidRule(PawnRules, ctx, 1) == if v1 then Ok(Some(1)) else FirstValidRule(PawnRules, ctx, 2);
    assert FirstValidRule(PawnRules, ctx, 0) == if v0 then Ok(Some(0)) else FirstValidRule(PawnRules, ctx, 1);
    ApplyRelocate(b, m);
  }

  /** Short-circuit conjunction of a precondition's verdict with the verdict of the rest. */
  function AndThen(first: Result<bool>, rest: Result<bool>): Result<bool> {
    match first
    case Err(e) => Err(e)
    case Ok(holds) => if holds then rest else Ok(false)
  }

  /** One step of the short-circuit evaluation. */
  lemma PreconsCons(pcs: seq<Precon>, ctx: Context)
    requires pcs != []
    ensures ValidPrecons(pcs, ctx) == AndThen(EvalPrecon(pcs[0], ctx), ValidPrecons(pcs[1..], ctx))
  {
  }

  /** The verdict of a four-precondition list, spelled out. */
  lemma FourPrecons(p0: Precon, p1: Precon, p2: Precon, p3: Precon, ctx: Context)
    ensures ValidPrecons([p0, p1, p2, p3], ctx) ==
            AndThen(EvalPrecon(p0, ctx), AndThen(EvalPrecon(p1, ctx),
              AndThen(EvalPrecon(p2, ctx), AndThen(EvalPrecon(p3, ctx), Ok(true)))))
  {
    assert [p0, p1, p2, p3][1..] == [p1, p2, p3];
    PreconsCons([p0, p1, p2, p3], ctx);
    ThreePrecons(p1, p2, p3, ctx);
  }

  /** The verdict of a three-precondition list, spelled out. */
  lemma ThreePrecons(p0: Precon, p1: Precon, p2: Precon, ctx: Context)
    ensures ValidPrecons([p0, p1, p2], ctx) ==
            AndThen(EvalPrecon(p0, ctx), AndThen(EvalPrecon(p1, ctx), AndThen(EvalPrecon(p2, ctx), Ok(true))))
  {
    assert [p0, p1, p2][1..] == [p1, p2] && [p1, p2][1..] == [p2] && [p2][1..] == [];
    PreconsCons([p0, p1, p2], ctx);
    PreconsCons([p1, p2], ctx);
    PreconsCons([p2], ctx);
  }

  /** First-match selection over a two-rule table, spelled out. */
  lemma TwoRules(rules: seq<Rule>, ctx: Context)
    requires |rules| == 2
    ensures FirstValidRule(rules, ctx, 0) ==
            match ValidPrecons(rules[0].precons, ctx)
            case Err(e) => Err(e)
            case Ok(first) =>
              if first then Ok(Some(0))
              else match ValidPrecons(rules[1].precons, ctx)
                   case Err(e) => Err(e)
                   case Ok(second) => if second then Ok(Some(1)) else Ok(None)
  {
    assert FirstValidRule(rules, ctx, 2) == Ok(None);
    assert FirstValidRule(rules, ctx, 1) == match ValidPrecons(rules[1].precons, ctx)
                   case Err(e) => Err(e)
                   case Ok(second) => if second then Ok(Some(1)) else Ok(None);
  }

  /** The engine on a piece of the side on move: first-match selection over
      the piece's table, then the selected rule's postcondition. */
  lemma ExecuteOwnPiece(b: Board, turn: Side, m: Move)
    requires m.origin in b && b[m.origin].side == turn
    ensures var rules := RulesOf(b[m.origin]);
            ExecuteMove(b, turn, m) ==
            match FirstValidRule(rules, ContextOf(b, turn, m, b[m.origin]), 0)
            case Err(e) => Err(e)
            case Ok(found) =>
              if found.None? || found.value >= |rules| then Err(NoApplicableRule)
              else Ok(ApplyRule(rules[found.value], m, b))
  {
  }

  /** The line-query precondition: NotAligned off a line, else whether the path is clear. */
  lemma LineVerdict(ctx: Context)
    ensures EvalPrecon(NothingInLine, ctx) ==
            if !Aligned(ctx.move.origin, ctx.move.dest) then Err(NotAligned)
            else Ok(PathClear(ctx.board, ctx.move.origin, ctx.move.dest))
  {
  }

  /** The verdicts of the two rook rules. Castling fails with NotAligned when
      its first three preconditions hold and the move is not along a line;
      the straight-line rule tests alignment first and never fails. */
  lemma TowerRuleVerdicts(b: Board, turn: Side, m: Move, tower: Piece)
    requires tower.Tower? && tower.side == turn
    ensures var ctx := ContextOf(b, turn, m, tower);
            ValidPrecons(TowerRules[0].precons, ctx) ==
              if !TowerCastlingGate(b, turn, tower, m) then Ok(false)
              else if !Aligned(m.origin, m.dest) then Err(NotAligned)
              else Ok(PathClear(b, m.origin, m.dest))
    ensures ValidPrecons(TowerRules[1].precons, ContextOf(b, turn, m, tower)) ==
              Ok(TowerMayMoveStraight(b, turn, m))
  {
    var ctx := ContextOf(b, turn, m, tower);
    LineVerdict(ctx);
    FourPrecons(OnOriginalCoord, KingOnOriginalCoord, DestColumnIs(3, 5), NothingInLine, ctx);
    ThreePrecons(StraightLine, DestNotAlly, NothingInLine, ctx);
  }

  /** A rook castling that passes its line query goes from column 0 to
      column 3 or from column 7 to column 5 of the home row: the king on
      column 4 blocks the two longer paths. */
  lemma TowerCastlingShape(b: Board, turn: Side, m: Move, tower: Piece)
    requires tower.Tower? && tower.side == turn
    requires TowerCastlingGate(b, turn, tower, m) && Aligned(m.origin, m.dest) && PathClear(b, m.origin, m.dest)
    ensures var o, d := m.origin, m.dest;
            && ((o.col == 0 && d == Pos(o.row, 3)) || (o.col == 7 && d == Pos(o.row, 5)))
            && PieceAt(b, Pos(o.row, 4)) == Some(King(turn))
  {
    var o, d := m.origin, m.dest;
    assert o.row == HomeRow(turn) && (o.col == 0 || o.col == 7);
    var king := Pos(o.row, 4);
    assert king in b;
    assert !StrictlyBetween(o, king, d);
  }

  /** Rook castling whose first three conditions hold but whose move is off
      any line is refused with NotAligned. */
  lemma TowerCastlingUnaligned(b: Board, turn: Side, m: Move)
    requires m.origin in b && b[m.origin].Tower? && b[m.origin].side == turn
    requires TowerCastlingGate(b, turn, b[m.origin], m) && !Aligned(m.origin, m.dest)
    ensures ExecuteMove(b, turn, m) == Err(NotAligned)
  {
    TowerRuleVerdicts(b, turn, m, b[m.origin]);
    ExecuteOwnPiece(b, turn, m);
    TwoRules(TowerRules, ContextOf(b, turn, m, b[m.origin]));
  }

  /** Rook castling with a clear path: the rook goes next to the king's
      square and the king to the square on the rook's other side. */
  lemma TowerCastles(b: Board, turn: Side, m: Move)
    requires m.origin in b && b[m.origin].Tower? && b[m.origin].side == turn
    requires TowerCastlingGate(b, turn, b[m.origin], m) && Aligned(m.origin, m.dest) && PathClear(b, m.origin, m.dest)
    ensures var o, d := m.origin, m.dest;
            && ((o.col == 0 && d == Pos(o.row, 3)) || (o.col == 7 && d == Pos(o.row, 5)))
            && PieceAt(b, Pos(o.row, 4)) == Some(King(turn))
            && ExecuteMove(b, turn, m) == Ok(Castled(b, o, d, Pos(o.row, 4), Pos(o.row, if d.col == 3 then 2 else 6)))
  {
    var o, d := m.origin, m.dest;
    TowerCastlingShape(b, turn, m, b[o]);
    var f, e := Pos(o.row, 4), Pos(o.row, if d.col == 3 then 2 else 6);
    var us := Postcondition(TowerCastling, m, b);
    assert us == [Update(o, None), Update(d, PieceAt(b, o)), Update(e, PieceAt(b, f)), Update(f, None)];
    ApplyCastling(b, us, o, d, f, e);
    var ctx := ContextOf(b, turn, m, b[o]);
    assert FirstValidRule(TowerRules, ctx, 0) == Ok(Some(0)) by {
      TowerRuleVerdicts(b, turn, m, b[o]);
      TwoRules(TowerRules, ctx);
    }
    ExecuteOwnPiece(b, turn, m);
  }

  /** When castling neither applies nor fails, the rook moves straight or
      the move is refused with NoApplicableRule. */
  lemma TowerMovesStraight(b: Board, turn: Side, m: Move)
    requires m.origin in b && b[m.origin].Tower? && b[m.origin].side == turn
    requires !(TowerCastlingGate(b, turn, b[m.origin], m) && (!Aligned(m.origin, m.dest) || PathClear(b, m.origin, m.dest)))
    ensures ExecuteMove(b, turn, m) ==
              if TowerMayMoveStraight(b, turn, m) then Ok(Relocated(b, m.origin, m.dest)) else Err(NoApplicableRule)
  {
    TowerRuleVerdicts(b, turn, m, b[m.origin]);
    ExecuteOwnPiece(b, turn, m);
    TwoRules(TowerRules, ContextOf(b, turn, m, b[m.origin]));
    ApplyRelocate(b, m);
  }

  /** What the engine does with a rook of the side on move: an unaligned
      castling attempt is refused with NotAligned; castling with a clear path
      moves rook and king; otherwise the rook moves straight or the move is
      refused with NoApplicableRule. */
  lemma TowerMoves(b: Board, turn: Side, m: Move)
    requires m.origin in b && b[m.origin].Tower? && b[m.origin].side == turn
    ensures TowerCastlingGate(b, turn, b[m.origin], m) && !Aligned(m.origin, m.dest) ==>
              ExecuteMove(b, turn, m) == Err(NotAligned)
    ensures TowerCastlingGate(b, turn, b[m.origin], m) && Aligned(m.origin, m.dest) && PathClear(b, m.origin, m.dest) ==>
              var o, d := m.origin, m.dest;
              && ((o.col == 0 && d == Pos(o.row, 3)) || (o.col == 7 && d == Pos(o.row, 5)))
              && PieceAt(b, Pos(o.row, 4)) == Some(King(turn))
              && ExecuteMove(b, turn, m) == Ok(Castled(b, o, d, Pos(o.row, 4), Pos(o.row, if d.col == 3 then 2 else 6)))
    ensures !(TowerCastlingGate(b, turn, b[m.origin], m) && (!Aligned(m.origin, m.dest) || PathClear(b, m.origin, m.dest))) ==>
              ExecuteMove(b, turn, m) ==
                if TowerMayMoveStraight(b, turn, m) then Ok(Relocated(b, m.origin, m.dest)) else Err(NoApplicableRule)
  {
    var gate := TowerCastlingGate(b, turn, b[m.origin], m);
    if gate && !Aligned(m.origin, m.dest) {
      TowerCastlingUnaligned(b, turn, m);
    } else if gate && PathClear(b, m.origin, m.dest) {
      TowerCastles(b, turn, m);
    } else {
      TowerMovesStraight(b, turn, m);
    }
  }

  /** The verdict of the king's one-square step rule. */
  lemma KingStepVerdict(b: Board, turn: Side, m: Move)
    ensures ValidPrecons(KingRules[0].precons, ContextOf(b, turn, m, King(turn))) == Ok(KingStep(m))
  {
    assert KingRules[0].precons[1..] == [];
  }

  /** The verdict of the king's castling rule. */
  lemma KingCastlingVerdict(b: Board, turn: Side, m: Move)
    ensures ValidPrecons(KingRules[1].precons, ContextOf(b, turn, m, King(turn))) ==
              if !KingCastlingGate(b, turn, m) then Ok(false)
              else if !Aligned(m.origin, m.dest) then Err(NotAligned)
              else Ok(PathClear(b, m.origin, m.dest))
  {
    var ctx := ContextOf(b, turn, m, King(turn));
    LineVerdict(ctx);
    FourPrecons(OnOriginalCoord, DestColumnIs(2, 6), CastlingTowerInPlace, NothingInLine, ctx);
  }

  /** The verdicts of the two king rules. */
  lemma KingRuleVerdicts(b: Board, turn: Side, m: Move)
    ensures ValidPrecons(KingRules[0].precons, ContextOf(b, turn, m, King(turn))) == Ok(KingStep(m))
    ensures ValidPrecons(KingRules[1].precons, ContextOf(b, turn, m, King(turn))) ==
              if !KingCastlingGate(b, turn, m) then Ok(false)
              else if !Aligned(m.origin, m.dest) then Err(NotAligned)
              else Ok(PathClear(b, m.origin, m.dest))
  {
    KingStepVerdict(b, turn, m);
    KingCastlingVerdict(b, turn, m);
  }

  /** A king step of at most one square is always taken. */
  lemma KingStepMoves(b: Board, turn: Side, m: Move)
    requires PieceAt(b, m.origin) == Some(King(turn)) && KingStep(m)
    ensures ExecuteMove(b, turn, m) == Ok(Relocated(b, m.origin, m.dest))
  {
    KingRuleVerdicts(b, turn, m);
    ExecuteOwnPiece(b, turn, m);
    TwoRules(KingRules, ContextOf(b, turn, m, King(turn)));
    ApplyRelocate(b, m);
  }

  /** King castling whose first three conditions hold but whose move is off
      any line is refused with NotAligned. */
  lemma KingCastlingUnaligned(b: Board, turn: Side, m: Move)
    requires PieceAt(b, m.origin) == Some(King(turn)) && !KingStep(m)
    requires KingCastlingGate(b, turn, m) && !Aligned(m.origin, m.dest)
    ensures ExecuteMove(b, turn, m) == Err(NotAligned)
  {
    KingRuleVerdicts(b, turn, m);
    ExecuteOwnPiece(b, turn, m);
    TwoRules(KingRules, ContextOf(b, turn, m, King(turn)));
  }

  /** Where the squares of a king castling lie once its gate holds on a line. */
  lemma KingCastlingShape(b: Board, turn: Side, m: Move)
    requires KingCastlingGate(b, turn, m) && Aligned(m.origin, m.dest)
    ensures var o, d := m.origin, m.dest;
            && o == Pos(HomeRow(turn), 4) && d.row == o.row && (d.col == 2 || d.col == 6)
            && CastlingCorner(o, d) in b
  {
  }

  /** King castling with a clear path: the king moves two squares along its
      row and the corner rook lands on the square it passed over. */
  lemma KingCastles(b: Board, turn: Side, m: Move)
    requires PieceAt(b, m.origin) == Some(King(turn)) && !KingStep(m)
    requires KingCastlingGate(b, turn, m) && Aligned(m.origin, m.dest) && PathClear(b, m.origin, m.dest)
    ensures && m.dest.row == m.origin.row
            && ExecuteMove(b, turn, m) ==
                 Ok(Castled(b, m.origin, m.dest, CastlingCorner(m.origin, m.dest),
                            Pos(m.origin.row, if m.dest.col == 2 then 3 else 5)))
  {
    var o, d := m.origin, m.dest;
    KingCastlingShape(b, turn, m);
    var f, e := CastlingCorner(o, d), Pos(o.row, if d.col == 2 then 3 else 5);
    var us := Postcondition(KingCastling, m, b);
    assert us == [Update(o, None), Update(d, PieceAt(b, o)), Update(e, PieceAt(b, f)), Update(f, None)];
    ApplyCastling(b, us, o, d, f, e);
    var ctx := ContextOf(b, turn, m, King(turn));
    assert FirstValidRule(KingRules, ctx, 0) == Ok(Some(1)) by {
      KingStepVerdict(b, turn, m);
      KingCastlingVerdict(b, turn, m);
      TwoRules(KingRules, ctx);
    }
    ExecuteOwnPiece(b, turn, m);
  }

  /** Any other king move is refused with NoApplicableRule. */
  lemma KingRefused(b: Board, turn: Side, m: Move)
    requires PieceAt(b, m.origin) == Some(King(turn)) && !KingStep(m)
    requires !(KingCastlingGate(b, turn, m) && (!Aligned(m.origin, m.dest) || PathClear(b, m.origin, m.dest)))
    ensures ExecuteMove(b, turn, m) == Err(NoApplicableRule)
  {
    KingRuleVerdicts(b, turn, m);
    ExecuteOwnPiece(b, turn, m);
    TwoRules(KingRules, ContextOf(b, turn, m, King(turn)));
  }

  /** What the engine does with the king of the side on move. A step of at
      most one square is always taken, whatever stands on the destination;
      otherwise castling moves the king two squares and the corner rook next
      to it on the other side; an unaligned castling attempt is refused with
      NotAligned; anything else with NoApplicableRule. */
  lemma KingMoves(b: Board, turn: Side, m: Move)
    requires PieceAt(b, m.origin) == Some(King(turn))
    ensures KingStep(m) ==> ExecuteMove(b, turn, m) == Ok(Relocated(b, m.origin, m.dest))
    ensures !KingStep(m) && KingCastlingGate(b, turn, m) && !Aligned(m.origin, m.dest) ==>
              ExecuteMove(b, turn, m) == Err(NotAligned)
    ensures !KingStep(m) && KingCastlingGate(b, turn, m) && Aligned(m.origin, m.dest) && PathClear(b, m.origin, m.dest) ==>
              && m.dest.row == m.origin.row
              && ExecuteMove(b, turn, m) ==
                   Ok(Castled(b, m.origin, m.dest, CastlingCorner(m.origin, m.dest),
                              Pos(m.origin.row, if m.dest.col == 2 then 3 else 5)))
    ensures !KingStep(m) && !(KingCastlingGate(b, turn, m) && (!Aligned(m.origin, m.dest) || PathClear(b, m.origin, m.dest))) ==>
              ExecuteMove(b, turn, m) == Err(NoApplicableRule)
  {
    if KingStep(m) {
      KingStepMoves(b, turn, m);
    } else if KingCastlingGate(b, turn, m) && !Aligned(m.origin, m.dest) {
      KingCastlingUnaligned(b, turn, m);
    } else if KingCastlingGate(b, turn, m) && PathClear(b, m.origin, m.dest) {
      KingCastles(b, turn, m);
    } else {
      KingRefused(b, turn, m);
    }
  }
}
