# Chess rules engine, modelled in Dafny

This project models the rules core of a small console chess game (a Java
project). It covers three parts:

- **Board geometry.** A `Position` is a file and a rank, each from 0 to 7. It
  can be parsed from a coordinate such as `"b1"`. `FindDirection` classifies
  the offset between two positions as one of four straight rays, one of four
  diagonal rays, or no direction.
- **Movement predicates.** Each kind of piece has a `canMove(source, target)`
  test that looks only at the two squares. This is true of Bishop, Rook,
  Queen, Knight and King. Pawn also looks at its colour.
- **The board.** A `Board` is a class holding a 64-cell array and a turn
  counter. Its `Move` method checks a request before it changes anything.
  The checks run in this order:
  1. empty source
  2. wrong side to move
  3. own piece on the target
  4. geometry, including the pawn's occupancy rule
  5. a blocked path, walked one square at a time (knights skip this check)

  If every check passes, `Move` moves the piece, passes the turn, and reports
  whether a king was captured. `LastTurn` is the side that just moved.

The pure function `Boards.Validate` is the specification of a move on a
grid. The board's methods are proved to follow it. The lemmas in
`MoveProperties` state what `Validate` means: rooks never move, knights
ignore pieces in between, an occupied square stops every other piece, the
piece count never rises, and turns alternate. The `BoardTest`, `PieceTest`
and `PieceProperties` modules restate the repository's test cases and the
properties the piece classes promise.

Conventions. The repository's tests fix some of these; the rest are
assumptions of this model:

- The tests fix that `b7` holds a Black pawn and `b2` a White one
  (BoardTest.java:75-77, 84). They do not fix which rank is printed as the
  top display row (BoardTest.java:28-36). This model prints rank 8 on top,
  and that choice makes the upper-case letters there Black. Lower-case
  letters are White, and `.` is an empty square. With rank 1 on top, upper
  case would be White and every test would read the same; the choice of
  rank 8 is an assumption.
- White moves first. White pawns advance toward rank 8. Black pawns advance
  toward rank 1.
- The turn is an integer counter: even means White to move, odd means Black.
  This is how the model reads the `16` given to `CustomBoardFactory`
  (BoardTest.java:54). The Java code of Board is not available, so this
  reading is an assumption.
- `Rook.canMove` is a stub that always returns `false` (Rook.java:12-14).
  The model keeps that stub, although a chess rook moves any distance along
  a file or a rank. As a result, no rook move is ever accepted.
- The Java code of Direction, Position, Board, the board factories, Queen,
  Knight, King and Pawn is not available. Queen and Knight follow their
  tests (QueenTest.java, KnightTest.java). Direction follows its use in
  Bishop.java. Two rules are assumed without a source to follow:
  - A pawn moves one square forward, or two from its start rank, onto an
    empty square. It captures one square diagonally forward, and that step
    must land on an opponent's piece. The board scenarios need this rule:
    b2→b4 (BoardTest.java:84) and c2→c5 (BoardTest.java:112).
  - A king moves one square along any straight or diagonal ray. No scenario
    moves a king. The rule is there so that `CanMove` covers every kind of
    piece.

Files: `wrappers.dfy` (Result, Option), `material.dfy` (Color, Kind, the
errors), `position.dfy`, `direction.dfy`, `piece.dfy`, `piece_properties.dfy`
(with the PieceTest cases), `grid.dfy` (starting layout, text rows, piece
count), `board.dfy`, `board_properties.dfy`, `board_test.dfy`.

## Model

| member | source | states |
|---|---|---|
| Positions.From | src/test/java/chess/model/BoardTest.java:138-143 | Parsing succeeds exactly on `[a-h][1-8]`. A parsed position names back to the same string. Anything else fails with InvalidCoordinate. |
| Positions.FromCoordinate | src/test/java/chess/model/BoardTest.java:138-143 | Every position's coordinate string parses back to that position. |
| Directions.FindDirection | src/main/java/chess/model/piece/Bishop.java:21 | The result is a straight ray exactly when the squares differ and share a file or rank. It is a diagonal exactly when the two offsets have equal size and the squares differ. Otherwise it is no direction. A ray's unit step has the signs of the offset. |
| Directions.FindDirectionReverse | src/main/java/chess/model/piece/Bishop.java:21-22 | Swapping source and target reverses the direction. |
| Directions.Next | src/test/java/chess/model/BoardTest.java:117-124 | One step along a direction moves at most one square, and exactly one square unless the direction is none. |
| Pieces.IsNoneSentinel | src/test/java/chess/model/BoardTest.java:150 | Piece.isNone holds exactly on the empty-square sentinel, and on no piece of any kind and colour. |
| Pieces.BishopCanMove | src/main/java/chess/model/piece/Bishop.java:20-23 | True exactly when the squares differ and the file and rank offsets have equal size. |
| Pieces.RookCanMove | src/main/java/chess/model/piece/Rook.java:12-14 | False for every source and target. |
| Pieces.QueenCanMove | src/test/java/chess/model/piece/QueenTest.java:15 | True exactly when the squares differ and share a file, a rank or a diagonal. |
| Pieces.KnightCanMove | src/test/java/chess/model/piece/KnightTest.java:16 | True exactly when the offset is one of the eight L-jumps (±1,±2) or (±2,±1). Such a jump lies on no ray. |
| Pieces.KingCanMove | src/test/java/chess/model/BoardTest.java:29 | An assumed rule, because King's code is not available: true exactly when the squares differ and both the file offset and the rank offset are at most one. The kings it applies to stand on e1 and e8 at the start (BoardTest.java:29, 36). |
| Pieces.PawnStepOf | src/test/java/chess/model/BoardTest.java:84 | Sorts a pawn move into four cases. An advance is one step forward along the pawn's ray. A double advance is two steps forward from the start rank. A capture is one diagonal step forward. Anything else is no step. Every recognised step moves toward the opponent. |
| Pieces.PawnStepComplete | src/test/java/chess/model/BoardTest.java:84 | Every one-step advance, start-rank two-step advance and forward diagonal step is recognised as such. |
| Pieces.PawnCanMove | src/test/java/chess/model/BoardTest.java:110-114 | An accepted pawn move goes toward the opponent and covers one or two squares, so a three-square advance is refused. |
| Pieces.CanMove | src/main/java/chess/model/piece/Bishop.java:19-20 | The shared canMove, dispatched on the variant. The empty sentinel never moves. No move stays on its own square. Every move except a knight's lies on a ray. |
| Pieces.FromLetter | src/test/java/chess/model/BoardTest.java:44-53 | A recognised display letter stands for the piece whose letter it is. |
| Pieces.LetterRoundTrip | src/test/java/chess/model/BoardTest.java:58-66 | Every piece's display letter reads back as that piece. |
| PieceProperties.BishopIsDiagonal | src/main/java/chess/model/piece/Bishop.java:20-23 | Bishop.canMove holds exactly when the direction is UP_LEFT, DOWN_LEFT, UP_RIGHT or DOWN_RIGHT. |
| PieceProperties.BishopRejectsStraight | src/main/java/chess/model/piece/Bishop.java:22 | A bishop refuses every straight-line move. |
| PieceProperties.BishopRejectsUnaligned | src/main/java/chess/model/piece/Bishop.java:21-22 | A bishop refuses every offset that lies on no ray, such as (2,1). |
| PieceProperties.BishopIgnoresColor | src/main/java/chess/model/piece/Bishop.java:15-23 | A bishop's answer depends only on the two squares, not on its colour. |
| PieceProperties.BishopSymmetric | src/main/java/chess/model/piece/Bishop.java:21-22 | canMove(s, t) equals canMove(t, s) for a bishop. |
| PieceProperties.RookNeverMoves | src/main/java/chess/model/piece/Rook.java:7-14 | A rook of either colour refuses every move. |
| PieceProperties.QueenCoversBishop | src/test/java/chess/model/piece/QueenTest.java:27 | Every move a bishop accepts, a queen accepts. |
| PieceProperties.KingIsShortQueen | src/test/java/chess/model/piece/QueenTest.java:15 | A king move is a queen move of length one, and back. |
| PieceProperties.QueenIsStraightOrDiagonal | src/test/java/chess/model/piece/QueenTest.java:15 | A queen accepts a move exactly when the direction is one of the eight rays. |
| PieceProperties.KnightQueenDisjoint | src/test/java/chess/model/piece/KnightTest.java:27-28 | No offset is accepted by both a knight and a queen. |
| PieceProperties.KnightSymmetric | src/test/java/chess/model/piece/KnightTest.java:16 | A knight's answer does not change when source and target swap. |
| PieceTest.QueenCanMoveCases | src/test/java/chess/model/piece/QueenTest.java:24-30 | Queen: (3,3)→(3,7) and (3,3)→(7,7) are accepted. (3,3)→(5,4) is refused. |
| PieceTest.KnightCanMoveCases | src/test/java/chess/model/piece/KnightTest.java:25-30 | Knight: (3,3)→(5,4) is accepted. (3,3)→(3,7) is refused. |
| PieceTest.RookCanMoveCase | src/main/java/chess/model/piece/Rook.java:13 | Rook: even the straight (3,3)→(3,7) is refused. |
| Grids.InitialAt | src/test/java/chess/model/BoardTest.java:28-36 | White is on ranks 1-2 and Black on ranks 7-8. Pawns are on ranks 2 and 7. Every other square is empty. |
| Grids.InitialGrid | src/test/java/chess/model/BoardTest.java:20-25 | The starting grid has 64 cells, and the cell of every square holds that square's starting piece. |
| Grids.ParseSnapshot | src/test/java/chess/model/BoardTest.java:44-54 | A snapshot parses exactly when it is 8 rows of 8 known letters, giving a 64-cell grid. Otherwise it fails with MalformedSnapshot. |
| Grids.Render | src/test/java/chess/model/BoardTest.java:26 | A grid shows as 8 rows of 8 letters. |
| Grids.InitialCell | src/test/java/chess/model/BoardTest.java:24-38 | Each cell of the starting layout shows as the letter at its row and column of the standard rows. |
| Grids.BackRankLetters | src/test/java/chess/model/BoardTest.java:29-36 | The back ranks read RNBQKBNR for Black and rnbqkbnr for White, file by file. |
| Grids.InitialRender | src/test/java/chess/model/BoardTest.java:24-38 | The starting layout shows as RNBQKBNR, PPPPPPPP, four rows of dots, pppppppp, rnbqkbnr. |
| Grids.ParseRender | src/test/java/chess/model/BoardTest.java:43-68 | A well-formed snapshot, parsed and shown again, gives the same rows. |
| Grids.RenderParse | src/test/java/chess/model/BoardTest.java:43-68 | A grid, shown and parsed again, gives the same grid. |
| Grids.CountUpdate | src/test/java/chess/model/BoardTest.java:141-150 | Overwriting one cell changes the piece count by the piece that arrived minus the piece that left. |
| Boards.TurnAlternates | src/test/java/chess/model/BoardTest.java:82-87 | Each step of the turn counter hands the move to the other side. |
| Boards.Validate | src/test/java/chess/model/BoardTest.java:71-124 | A move is accepted exactly when the source holds a piece of the side to move, the target is empty or holds an opponent's piece, the piece accepts the geometry and the pawn occupancy rule, and the path is clear unless the piece is a knight. EmptySource is reported exactly for an empty source. WrongTurn, carrying the side to move, is reported exactly for the other side's piece. A mover's piece aimed at its own side's piece gets FriendlyFire. A move that passes those checks but fails the geometry or occupancy rule gets CannotMove. The returned flag is true exactly when the target held the opponent's king. |
| Boards.Relocated | src/test/java/chess/model/BoardTest.java:141-151 | After a move, the target holds the former source piece, the source is the empty sentinel, and every other square is unchanged. |
| Boards.Attempt | src/test/java/chess/model/BoardTest.java:75 | A move given as strings fails with InvalidCoordinate when either coordinate is malformed. When both are well-formed, it is Validate on the two parsed positions. |
| Boards.Board.LastTurn | src/main/java/chess/controller/ChessGame.java:70-71 | The side that just moved is the side not to move now. |
| Boards.Board.FindPiece | src/test/java/chess/model/BoardTest.java:139-146 | Returns the piece on the square, or the empty sentinel. It never fails. |
| Boards.Board.IsPathClear | src/test/java/chess/model/BoardTest.java:117-124 | Walking from the source toward the target one square at a time returns true exactly when every square strictly between them is empty. |
| Boards.Board.MovePiece | src/main/java/chess/controller/ChessGame.java:67 | The result is Validate on the old grid and turn. On success, the grid is Relocated, the turn counter advances, and LastTurn is the side that moved. On failure, the grid and turn are unchanged. |
| Boards.Board.Move | src/test/java/chess/model/BoardTest.java:134-151 | The same as MovePiece, for coordinates given as strings (Attempt). |
| Boards.Board.Initial | src/test/java/chess/model/BoardTest.java:20-25 | A new board holds the starting layout, with White to move. |
| Boards.Board.Custom | src/test/java/chess/model/BoardTest.java:54-55 | A new board holds the given grid and turn counter. |
| Boards.GenerateCustom | src/test/java/chess/model/BoardTest.java:54-55 | A board is built from a snapshot exactly when the snapshot is well-formed, holding its parsed grid and the given turn. Otherwise the result is MalformedSnapshot. |
| MoveProperties.RookMoveFails | src/main/java/chess/model/piece/Rook.java:12-14 | Every move from a square holding a rook is rejected. When the turn and target checks pass, the error is CannotMove. |
| MoveProperties.KnightIgnoresObstacles | src/test/java/chess/model/BoardTest.java:126-132 | A knight's move depends only on its source and target squares, not on what stands between them. |
| MoveProperties.BlockedPathRejected | src/test/java/chess/model/BoardTest.java:117-124 | A non-knight move that passes the earlier checks fails with PathBlocked if any square strictly between source and target is occupied. |
| MoveProperties.PawnOccupancy | src/test/java/chess/model/BoardTest.java:108-115 | A pawn's diagonal step onto an empty square is rejected with CannotMove. So is a straight advance onto an occupied square. |
| MoveProperties.CountAfterMove | src/test/java/chess/model/BoardTest.java:141-150 | An accepted move lowers the piece count by one if it captures and leaves it unchanged otherwise. |
| MoveProperties.MovesAlternate | src/test/java/chess/model/BoardTest.java:80-87 | Of two accepted moves in a row, the second is made by the other side. |
| MoveProperties.KingCaptureEndsGame | src/main/java/chess/controller/ChessGame.java:67-74 | A move that reports a captured king was made by the side to move. It took the opponent's king and removed exactly one piece. |
| BoardTest.GenerateInitialBoard | src/test/java/chess/model/BoardTest.java:22-39 | A fresh board renders as the eight standard rows. |
| BoardTest.GenerateCustomBoard | src/test/java/chess/model/BoardTest.java:41-69 | A board built from the test's snapshot, with turn 16, renders as that snapshot. |
| BoardTest.BlackFirstRefused | src/test/java/chess/model/BoardTest.java:71-78 | On the starting grid with White to move, the string move b7→b6 is refused with WrongTurn(White). |
| BoardTest.NotBlackTurn | src/test/java/chess/model/BoardTest.java:71-78 | On a fresh board, b7→b6 fails with WrongTurn(White). |
| BoardTest.DoubleStepAccepted | src/test/java/chess/model/BoardTest.java:80-85 | On the starting grid the string move b2→b4 is accepted and captures nothing. |
| BoardTest.SecondWhiteMoveRefused | src/test/java/chess/model/BoardTest.java:85-88 | On the grid after b2→b4, with Black to move, the string move b4→b5 is refused with WrongTurn(Black). |
| BoardTest.NotWhiteTurn | src/test/java/chess/model/BoardTest.java:80-88 | b2→b4 is accepted without a capture. Then b4→b5 fails with WrongTurn(Black). |
| BoardTest.EmptySourceRefused | src/test/java/chess/model/BoardTest.java:90-97 | On the starting grid, c4→c5 is refused with EmptySource. |
| BoardTest.PieceNotExistsOnSource | src/test/java/chess/model/BoardTest.java:90-97 | c4→c5 fails with EmptySource. |
| BoardTest.FriendlyTargetRefused | src/test/java/chess/model/BoardTest.java:99-106 | On the starting grid, c2→b2 is refused with FriendlyFire. |
| BoardTest.PieceExistsOnTarget | src/test/java/chess/model/BoardTest.java:99-106 | c2→b2 fails with FriendlyFire. |
| BoardTest.TripleAdvanceRefused | src/test/java/chess/model/BoardTest.java:108-115 | On the starting grid, c2→c5 is refused with CannotMove. |
| BoardTest.PieceCanNotMoveOnTarget | src/test/java/chess/model/BoardTest.java:108-115 | c2→c5 fails with CannotMove. |
| BoardTest.BishopBlocked | src/test/java/chess/model/BoardTest.java:117-124 | On the starting grid, c1→e3 is refused with PathBlocked. |
| BoardTest.ObstacleOnRoute | src/test/java/chess/model/BoardTest.java:117-124 | c1→e3 fails with PathBlocked, because the pawn on d2 is in the way. |
| BoardTest.KnightJumpAccepted | src/test/java/chess/model/BoardTest.java:126-132 | On the starting grid, b1→c3 is accepted and captures nothing. |
| BoardTest.ObstacleOnRouteButKnight | src/test/java/chess/model/BoardTest.java:126-132 | b1→c3 is accepted without a capture. |
| BoardTest.MoveSuccess | src/test/java/chess/model/BoardTest.java:134-152 | After b1→c3, c3 holds the White knight that was on b1, and b1 is the empty sentinel. |

## Left out

- Pieces.KingCanMove: King's Java code is not available. The one-square rule (piece.dfy, `KingCanMove`) is assumed so that `CanMove` covers every kind of piece.
- ScoreCalculator and Winner: their Java code is not available, and the scores are fractional.
- ChessGame's console input and output, its command dispatch (GameStatus) and its recursive retry-on-exception loop: all of this is I/O plumbing.
- DataBaseConnector: a JDBC connection check, which is persistence.
- BoardDto and OutputView formatting beyond the eight-row text form (`Render`).
- Exception messages: each error is a distinct `ChessError` value with no text. The wrong-turn error carries the side whose turn it is, which is what its message names.
- The piece class hierarchy: there is one `Piece` datatype (kind and colour, or the `NoPiece` sentinel). The constructors take different arguments (Rook a PieceType, Bishop a type and a colour), and that difference is not modelled.
- Out-of-range positions: an out-of-range `new Position(x, y)` cannot be written, because the coordinate type only allows 0 to 7. The constructor's failure is therefore not modelled as an error.
- The end of the game: Board's code is not available. The model does not refuse moves after a king is captured; the shown controller stops on the returned flag (ChessGame.java:70-75).
- Castling, en passant, promotion and check detection: none of them are in the code.
