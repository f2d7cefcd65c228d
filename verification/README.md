# chess-python rule engine, modelled in Dafny

This project models the game engine of chess-python (`main.py`). The engine is a two-player board
game on an 8×8 grid. It has pawns, rooks ("towers") and kings. A typed line such as `A2 - A4`
is parsed into a move. The piece on the origin square is looked up. The piece must belong to
the side on move. The first rule in that piece's table whose preconditions all hold is then
applied by writing a list of cell assignments. On success the turn passes to the other side.

## Structure

- `errors.dfy`: module `Errors`. The refusals the engine can produce, as an `Error` datatype, and the `Result`/`Option` wrappers.
- `turns.dfy`: module `Turns`. Models class `Turn` of main.py: the two sides, their letters `W`/`B`, and the toggle.
- `coords.dfy`: module `Coords`. Models class `Position` of main.py: the bounds check, and the two "forward" predicates relative to the side on move.
- `pieces.dfy`: module `Pieces`. The 22 named pieces as structured identities. `Name` reproduces the source's three-letter names.
- `registry.dfy`: module `Registry`. The three rule tables as data (`Precon`, `Postcon`, `Rule`), and the `pieces` registry (original square and rule table of each piece). The tables `Registry.PawnRules`, `Registry.TowerRules` and `Registry.KingRules` are plain data. What each rule answers is stated by `Legality.PawnRuleVerdicts`, `Legality.TowerRuleVerdicts`, `Legality.KingStepVerdict` and `Legality.KingCastlingVerdict`.
- `boards.dfy`: module `Boards`. Models class `Board` of main.py as a finite map from squares to pieces: occupancy, `piecesInLine`, the castling helpers, and the initial layout.
- `moves.dfy`: module `Moves`. Models class `Move` of main.py: a hand-written matcher for the pattern `[A-H][1-8] - [A-H][1-8]`, searched anywhere in the line.
- `engine.dfy`: module `Engine`. `Game.executeMove` and its helpers: precondition evaluation, first-match rule selection, and in-order application of the postcondition.
- `legality.dfy`: module `Legality`. Reference definitions of what each piece may do. The lemmas connect them to `ExecuteMove`.
- `game.dfy`: module `Game`. The session (board and side on move), the step of the driving loop, and the piece-uniqueness invariant.
- `scenarios.dfy`: module `Scenarios`. Concrete games and single-rule consequences derived from the general lemmas.

## Modelling choices

- **Board.** A board is a `map<Coord, Piece>`; a square absent from the map is empty. `Coord` is the subset of `Pos` with both values in `[0, 7]`. Building a `Position` out of bounds raises in the source. Here that is `NewCoord` returning `Err(OutOfBounds)`.
- **Exceptions.** Each exception the engine raises is an `Error` value:
  - `BadFormat`
  - `DegenerateMove`
  - `EmptyOrigin`
  - `WrongSideToMove`
  - `NotAligned`, raised by `piecesInLine` off a line
  - `NoApplicableRule`
- **Precondition failures.** A precondition evaluates to `Result<bool>`, because the line query can fail instead of answering. In both castling rules that failure escapes the rule selection. It does not make the rule inapplicable.
- **Postconditions.** A postcondition is computed from the board before the move, then written in order. In the source the list literal is built before the loop that writes it (main.py:487-489).
- **Case sensitivity.** The pattern accepts upper-case column letters only (main.py:305), so `a2 - a4` is a bad format.
- **Piece count.** The registry holds 22 pieces: 16 pawns, 4 rooks and 2 kings (main.py:233-285).
- **Degenerate moves.** The engine itself accepts any move, including one whose origin equals its destination. Only the parser rejects those.

## Model

| member | source | states |
|---|---|---|
| Coords.NewCoord | main.py:5-10 | a position is built exactly when row and column both lie in [0, 7], with those values; otherwise the result is the out-of-bounds error |
| Coords.CoordEquality | main.py:12-13 | two positions are equal exactly when rows and columns are equal |
| Coords.IsForward | main.py:15-19 | holds iff the column is unchanged and the row moved by exactly +distance for White, −distance for Black |
| Coords.IsInDiagonalForward | main.py:21-31 | holds iff the row moved by the same side-relative distance and the column by exactly that distance in absolute value |
| Coords.ForwardIsSideRelative | main.py:15-31 | for a non-zero distance, a square ahead for one side is never ahead for the other, and the two sides' notions mirror each other |
| Turns.Toggle | main.py:413-417 | toggling changes the side and its letter |
| Turns.ToggleTwice | main.py:413-417 | toggling twice restores the side |
| Turns.Letter | main.py:403-420 | a side's letter is `W` or `B` |
| Turns.IsBlack | main.py:419-420 | holds iff the side's letter is `B` |
| Pieces.Name | main.py:233-242 | every piece name has three characters |
| Pieces.NamesIdentifyPieces | main.py:233-242 | distinct pieces have distinct names, and the second letter of a name is its side's letter |
| Pieces.BelongsToTurn | main.py:407-411 | an empty square belongs to no side; a piece belongs to the side on move iff its name's second letter is that side's letter |
| Registry.RegistryIsComplete | main.py:244-285 | every piece identity is registered |
| Registry.OriginalCoordsDistinct | main.py:244-285 | no two registered pieces share an original square |
| Registry.OriginalCoordsByKind | main.py:244-285 | pawns start on the second row of their side at their index's column, rooks on their home row's corners, kings on column 4 of the home row |
| Boards.PieceAt | main.py:343-347 | a square holds a piece exactly when it is in the map |
| Boards.IsOccupied | main.py:343-344 | a square is occupied iff some piece stands on it |
| Boards.SetPiece | main.py:339-341 | the assignment changes the named square to the given occupant and no other square |
| Boards.RowCells | main.py:359-369 | the squares visited along a row are in increasing column order and are exactly the squares of that column range |
| Boards.ColumnCells | main.py:371-381 | the squares visited along a column are in increasing row order and are exactly the squares of that row range |
| Boards.Occupants | main.py:362-369 | the pieces found are at most as many as the squares, none exactly when every square is empty, and exactly those standing on the squares |
| Boards.OccupantsConcat | main.py:362-369 | collecting over two stretches of squares concatenates the two collections, so the result follows the order of the squares |
| Boards.RowBetween | main.py:359-365 | the squares scanned on a row are exactly those strictly between the two ends, whichever end is named first |
| Boards.ColumnBetween | main.py:371-377 | the squares scanned on a column are exactly those strictly between the two ends, whichever end is named first |
| Boards.PiecesInLine | main.py:349-381 | fails with NotAligned iff the two squares share neither row nor column; otherwise the result is empty iff the path is clear, and contains exactly the pieces on squares strictly between |
| Boards.PiecesInLineSymmetric | main.py:349-381 | the line query does not depend on the order of its ends |
| Boards.IsKingInOriginalPosition | main.py:383-393 | holds iff the king of the side on move stands on column 4 of its home row |
| Boards.IsTower | main.py:395-400 | holds iff either rook of the side on move stands on the square |
| Boards.InitialBoard | main.py:322-328 | every registered piece stands on its original square, and every occupied square holds a registered piece whose original square it is; the resulting layout, square by square, is stated by Boards.InitialBoardLayout |
| Boards.InitialBoardLayout | main.py:322-328 | the starting board puts every registered piece on its original square and nothing else anywhere, with no identity on two squares |
| Moves.FirstMatch | main.py:305 | the search returns the leftmost position where the pattern matches, or none exactly when it matches nowhere |
| Moves.ParseMove | main.py:304-318 | the bad-format error exactly when the pattern matches nowhere; otherwise the leftmost match is decoded, giving the degenerate-move error when its ends coincide, else a move with distinct ends; no other error |
| Moves.Format | main.py:305 | the written form of a move matches the pattern and has seven characters |
| Moves.ParseFormat | main.py:304-316 | parsing the written form of a move gives back that move, also when surrounded by text that holds no column letter before it |
| Moves.LowerCaseIsBadFormat | main.py:305 | the pattern is case-sensitive: `a2 - a4` is a bad format |
| Moves.SameSquareIsDegenerate | main.py:311-312 | `E2 - E2` is refused as degenerate |
| Engine.EvalPrecon | main.py:34-230 | a precondition fails iff it is the line query on two unaligned squares, and then with NotAligned |
| Engine.ValidPrecons | main.py:470-480 | the only failure of a precondition list is NotAligned, coming from a line query in it |
| Engine.ValidPreconsMeaning | main.py:470-480 | the list holds iff every precondition holds; it does not hold iff the first precondition that does not hold is false; it fails only with the failure of the first precondition that does not hold |
| Engine.FirstValidRule | main.py:461-468 | the selected rule is the first whose preconditions hold; none is selected iff every rule's preconditions are false; a failure is that of the first rule that did not answer false |
| Engine.LastWriteFirst | main.py:487-489 | after the first assignment, the rest of the list decides each square as if applied to the updated board |
| Engine.Postcondition | main.py:56-229 | the assignment list of each of the seven rules, read from the board before the move: two assignments for a relocation, four for a castling; the first clears the origin, the second puts the origin's piece on the destination, the castling ones stay on the destination's row, and every piece written is already on the board; the boards they produce are stated by Legality.ApplyRelocate for a relocation and by Legality.TowerCastles and Legality.KingCastles for the two castlings |
| Engine.LastWriteSource | main.py:487-489 | after the assignments a square holds what it held before or the occupant of some assignment naming it |
| Engine.ApplyUpdates | main.py:482-489 | each square ends with the occupant of the last assignment to it, or keeps its old occupant when never assigned |
| Engine.ApplyRule | main.py:482-489 | a square that no assignment names keeps its occupant, and no piece appears that was not on the board; the resulting boards are stated by Legality.ApplyRelocate, Legality.TowerCastles and Legality.KingCastles |
| Engine.PieceNameFromBoard | main.py:449-455 | the origin's piece, or EmptyOrigin exactly when the origin is empty |
| Engine.CheckPieceBelongsToTurn | main.py:457-459 | accepts the piece iff it belongs to the side on move, else WrongSideToMove |
| Engine.ApplyFirstValidRule | main.py:442-447 | the move is accepted exactly when some rule is the first whose preconditions do not answer false and that rule holds, and then that rule is applied; NoApplicableRule exactly when every rule answers false; NotAligned only as the answer of the first rule not answering false |
| Engine.ExecuteMove | main.py:435-447 | EmptyOrigin exactly when the origin is empty; WrongSideToMove exactly when the origin holds a piece of the other side; for a piece of the side on move, the move is accepted exactly when the first rule of its table that does not answer false holds, that rule is the one applied, NoApplicableRule comes exactly when every rule answers false, and NotAligned only as the answer of the first rule not answering false; no other refusal. Per piece kind, the resulting boards are stated by Legality.PawnMoves, Legality.TowerMoves and Legality.KingMoves |
| Legality.Relocated | main.py:56-59 | a relocation empties the origin, puts the mover on the destination and leaves every other square as it was |
| Legality.ApplyRelocate | main.py:56-59 | the relocation postcondition writes exactly the relocated board |
| Legality.ApplyCastling | main.py:134-142 | a four-assignment castling postcondition writes exactly two successive relocations |
| Legality.TotalPreconsAreConjunction | main.py:470-480 | when no precondition can fail, the list's verdict is the conjunction of its members |
| Legality.TotalPreconsOrderIrrelevant | main.py:470-480 | when no precondition can fail, reordering the list does not change its verdict |
| Legality.PreconOrderMattersWithLineQuery | main.py:128-131 | with the line query in the list, one order answers "does not apply" and the other fails with NotAligned |
| Legality.PawnRuleVerdicts | main.py:34-103 | the three pawn rules hold exactly for the two-step from the original square onto an empty square, the one-step onto an empty square, and the diagonal step onto an enemy |
| Legality.PawnMoves | main.py:34-103 | a pawn of the side on move moves, by relocation, exactly when one of its three rules allows it; otherwise the move is refused with NoApplicableRule and never fails otherwise |
| Legality.TowerRuleVerdicts | main.py:106-171 | the rook castling rule answers false when its gate fails, NotAligned off a line, and otherwise whether the path is clear; the straight rule holds iff the move is on a line onto a non-ally square with a clear path |
| Legality.TowerCastlingShape | main.py:106-131 | a rook castling that passes its checks goes from a corner to the square next to the king's column, with the king on column 4 |
| Legality.TowerCastlingUnaligned | main.py:128-131 | a rook castling attempt that passes the first three checks off any line is refused with NotAligned |
| Legality.TowerCastles | main.py:106-147 | rook castling with a clear path puts the rook on its destination and the king on column 2 or 6 |
| Legality.TowerMovesStraight | main.py:148-170 | otherwise the rook relocates exactly when the straight rule holds, else NoApplicableRule |
| Legality.TowerMoves | main.py:106-171 | the three rook cases together: unaligned castling refused, castling, straight move or refusal |
| Legality.KingStepVerdict | main.py:175-186 | the one-square rule holds iff both displacements are at most one |
| Legality.KingCastlingVerdict | main.py:188-216 | the king castling rule answers false when its gate fails, NotAligned off a line, and otherwise whether the path is clear |
| Legality.KingStepMoves | main.py:175-191 | a king step of at most one square is always taken by relocation, whatever stands on the destination |
| Legality.KingCastlingShape | main.py:188-211 | a king castling that passes its gate on a line stays on the king's home row, from column 4 to column 2 or 6, with a piece on the corner |
| Legality.KingCastlingUnaligned | main.py:212-215 | a king castling attempt that passes the first three checks off any line is refused with NotAligned |
| Legality.KingCastles | main.py:188-229 | king castling with a clear path moves the king two squares and the corner rook to the square it passed over |
| Legality.KingRefused | main.py:174-230 | any other king move is refused with NoApplicableRule |
| Legality.KingMoves | main.py:174-230 | the four king cases together |
| Game.NextTurn | main.py:429-430 | passing the turn keeps the board and changes the side |
| Game.Step | main.py:515-525 | a refused line leaves board and side unchanged; a line is accepted exactly when it parses and the engine accepts the move, and then the board is the engine's result and the side is toggled once |
| Game.RelocatedKeepsUnique | main.py:56-59 | a relocation keeps every identity on at most one square and brings no new piece |
| Game.ExecuteMoveKeepsUnique | main.py:435-447 | every accepted move keeps identities unique and brings no new piece |
| Game.TowerMoveKeepsUnique | main.py:106-171 | the same for rook moves, castling included |
| Game.KingMoveKeepsUnique | main.py:174-230 | the same for king moves, castling included |
| Game.TurnAfterStep | main.py:515-525 | one more line changes the side once more when accepted and leaves it when refused |
| Game.Run | main.py:511-525 | the side on move after a run has changed once per accepted line, and a run in which every line is refused leaves the session as it was; uniqueness over a run is stated by Game.RunKeepsUnique |
| Game.RunKeepsUnique | main.py:511-525 | over any sequence of lines, uniqueness is kept and no piece appears |
| Game.GamesKeepPiecesUnique | main.py:322-328 | from the starting layout, whatever is typed, no piece identity ever stands on two squares |
| Scenarios.OpeningPawnTwoStep | main.py:34-59 | `A2 - A4` opens with the pawn two-step and hands the move to Black |
| Scenarios.BlackRepliesTwoStep | main.py:34-59 | Black's `B7 - B5` reply is a two-step too |
| Scenarios.WhitePawnStepsOn | main.py:61-80 | `A4 - A5` is then a one-step |
| Scenarios.WhitePawnStepUsesSecondRule | main.py:461-468 | that move is taken by the second pawn rule, the first one not applying |
| Scenarios.BlockedRookIsRefused | main.py:148-170 | `A1 - A8` at the start is refused with NoApplicableRule |
| Scenarios.WrongSideIsRefused | main.py:457-459 | moving a Black pawn while White is on move is refused and changes nothing |
| Scenarios.UnalignedCastlingIsNotAligned | main.py:128-131 | `A1 - D4` at the start is refused with NotAligned instead of falling through to the straight rule |
| Scenarios.KingStepTakesOwnPawn | main.py:175-186 | `E1 - E2` at the start is accepted and White's own pawn leaves the board |
| Scenarios.PawnTwoStepJumps | main.py:34-55 | the two-step does not look at the square it passes over |
| Scenarios.PawnStepNeedsEmptySquare | main.py:61-75 | a pawn never steps straight ahead onto an occupied square |
| Scenarios.PawnCapturesDiagonally | main.py:82-98 | onto an occupied square in another column, a pawn moves iff the square holds an enemy exactly one diagonal ahead |
| Scenarios.KingCastlesLong | main.py:188-229 | with the White king on E1, a White rook on A1 and D1 empty, `E1 - C1` leaves the king on C1, the rook on D1, A1 and E1 empty, and every square other than A1, C1, D1 and E1 unchanged |
| Scenarios.RookCastlesLong | main.py:106-147 | with the rook on A1, the king on E1 and B1, C1 empty, `A1 - D1` leaves the rook on D1, the king on C1, A1 and E1 empty, and every square other than A1, C1, D1 and E1 unchanged |

## Left out

- Terminal rendering (`BoardPainter.paint`, main.py:495-506): output only.
- The interactive loop's I/O (main.py:509-525): `input()` and the printing of exception messages. Its "execute, then toggle on success" step is modelled as `Game.Step`, and a sequence of lines as `Game.Run`.
- The debug `print` in `applyRule` (main.py:488): output only.
- `hasWon` (main.py:491-492): it always answers false, so the loop never ends by a win. `Game.Step` never stops the session.
- Exception message strings: replaced by the `Error` datatype.
- The rule and precondition `description` strings in the tables: documentation only.
- Python's regular-expression engine: replaced by a matcher for the single fixed seven-character pattern, searched left to right.
- `Board.columnNumber`/`rowNumber` and the `Cell` class: the map representation has no cells to count.
- Chess rules the program does not implement (check, en passant, promotion, other piece kinds): the model adds none of them.
- Boards.PiecesInLine: the order of the pieces found is stated through `Boards.RowCells`, `Boards.ColumnCells` and `Boards.OccupantsConcat` rather than in its own contract.
