/**
 * The scenarios of BoardTest, each stated against a fresh Board through the
 * methods' contracts, with the outcome the test expects as the postcondition.
 */
module BoardTest {
  import opened Wrappers
  import opened Errors
  import opened Material
  import opened Positions
  import opened Directions
  import opened Pieces
  import opened Grids
  import opened Boards

  /** generateInitialBoard: the starting board shows as the standard eight rows. */
  method GenerateInitialBoard() returns (rows: seq<string>)
    ensures rows == ["RNBQKBNR", "PPPPPPPP", "........", "........",
                     "........", "........", "pppppppp", "rnbqkbnr"]
  {
    var board := new Board.Initial();
    rows := Render(board.Grid());
    InitialRender();
  }

  const CustomSnapshot: seq<string> := [
    "........",
    "K...P...",
    "PP......",
    "........",
    "...p....",
    ".pn.....",
    ".p.q....",
    "....k..."
  ]

  /** generateCustomBoard: a board built from a snapshot shows as that snapshot. */
  method GenerateCustomBoard() returns (rows: seq<string>)
    ensures rows == CustomSnapshot
  {
    assert WellFormed(CustomSnapshot) by {
      forall r: Coord, f: Coord ensures FromLetter(CustomSnapshot[r][f]).Some? {
        assert CustomSnapshot[r][f] in {'.', 'K', 'P', 'p', 'n', 'q', 'k'};
      }
    }
    var board := GenerateCustom(CustomSnapshot, 16);
    rows := Render(board.value.Grid());
    ParseRender(CustomSnapshot);
  }

  /** On a fresh board Black's pawn on b7 may not move first. */
  lemma BlackFirstRefused()
    ensures Attempt(InitialGrid(), White, "b7", "b6") == Err(WrongTurn(White))
  {
    var b7, b6 := Position(1, 6), Position(1, 5);
    assert From("b7") == Ok(b7) && From("b6") == Ok(b6);
    assert InitialGrid()[Index(b7)] == Piece(Pawn, Black);
  }

  /** notBlackTurn: on a fresh board a Black piece may not move, it is White's turn. */
  method NotBlackTurn() returns (r: Result<bool, ChessError>)
    ensures r == Err(WrongTurn(White))
  {
    var board := new Board.Initial();
    BlackFirstRefused();
    r := board.Move("b7", "b6");
  }

  /** On the starting layout White's b2-b4 passes every check and takes nothing. */
  lemma DoubleStepAccepted()
    ensures From("b2") == Ok(Position(1, 1)) && From("b4") == Ok(Position(1, 3))
    ensures Attempt(InitialGrid(), White, "b2", "b4") == Ok(false)
  {
    var g, b2, b4 := InitialGrid(), Position(1, 1), Position(1, 3);
    assert From("b2") == Ok(b2) && From("b4") == Ok(b4);
    assert g[Index(b2)] == Piece(Pawn, White) && g[Index(b4)].IsNone();
    assert PawnStepOf(White, b2, b4) == DoubleAdvance;
    assert Along(b2, b4, 1) == Position(1, 2);
    assert g[Index(Position(1, 2))].IsNone();
  }

  /** After b2-b4 it is Black's turn, so White's pawn on b4 may not move. */
  lemma SecondWhiteMoveRefused()
    ensures Attempt(Relocated(InitialGrid(), Position(1, 1), Position(1, 3)), Black, "b4", "b5")
            == Err(WrongTurn(Black))
  {
    var b4, b5 := Position(1, 3), Position(1, 4);
    assert From("b4") == Ok(b4) && From("b5") == Ok(b5);
    assert Relocated(InitialGrid(), Position(1, 1), b4)[Index(b4)] == Piece(Pawn, White);
  }

  /** notWhiteTurn: after White's b2-b4, White may not move again, it is Black's turn. */
  method NotWhiteTurn() returns (first: Result<bool, ChessError>, second: Result<bool, ChessError>)
    ensures first == Ok(false)
    ensures second == Err(WrongTurn(Black))
  {
    var board := new Board.Initial();
    DoubleStepAccepted();
    SecondWhiteMoveRefused();
    first := board.Move("b2", "b4");
    second := board.Move("b4", "b5");
  }

  /** c4 is empty at the start. */
  lemma EmptySourceRefused()
    ensures Attempt(InitialGrid(), White, "c4", "c5") == Err(EmptySource)
  {
    var c4, c5 := Position(2, 3), Position(2, 4);
    assert From("c4") == Ok(c4) && From("c5") == Ok(c5);
    assert InitialGrid()[Index(c4)].IsNone();
  }

  /** pieceNotExistsOnSourceCoordinate: c4 is empty at the start. */
  method PieceNotExistsOnSource() returns (r: Result<bool, ChessError>)
    ensures r == Err(EmptySource)
  {
    var board := new Board.Initial();
    EmptySourceRefused();
    r := board.Move("c4", "c5");
  }

  /** c2 to b2 lands on White's own pawn. */
  lemma FriendlyTargetRefused()
    ensures Attempt(InitialGrid(), White, "c2", "b2") == Err(FriendlyFire)
  {
    var g, c2, b2 := InitialGrid(), Position(2, 1), Position(1, 1);
    assert From("c2") == Ok(c2) && From("b2") == Ok(b2);
    assert g[Index(c2)] == Piece(Pawn, White) && g[Index(b2)] == Piece(Pawn, White);
  }

  /** pieceExistsOnTargetCoordinate: c2 to b2 lands on White's own pawn. */
  method PieceExistsOnTarget() returns (r: Result<bool, ChessError>)
    ensures r == Err(FriendlyFire)
  {
    var board := new Board.Initial();
    FriendlyTargetRefused();
    r := board.Move("c2", "b2");
  }

  /** A pawn on c2 cannot advance three squares to c5. */
  lemma TripleAdvanceRefused()
    ensures Attempt(InitialGrid(), White, "c2", "c5") == Err(CannotMove)
  {
    var g, c2, c5 := InitialGrid(), Position(2, 1), Position(2, 4);
    assert From("c2") == Ok(c2) && From("c5") == Ok(c5);
    assert g[Index(c2)] == Piece(Pawn, White) && g[Index(c5)].IsNone();
    assert !PawnCanMove(White, c2, c5);
  }

  /** pieceCanNotMoveOnTargetCoordinate: a pawn cannot advance three squares. */
  method PieceCanNotMoveOnTarget() returns (r: Result<bool, ChessError>)
    ensures r == Err(CannotMove)
  {
    var board := new Board.Initial();
    TripleAdvanceRefused();
    r := board.Move("c2", "c5");
  }

  /** The bishop's diagonal c1-e3 runs through the pawn on d2. */
  lemma BishopBlocked()
    ensures Attempt(InitialGrid(), White, "c1", "e3") == Err(PathBlocked)
  {
    var g, c1, e3 := InitialGrid(), Position(2, 0), Position(4, 2);
    assert From("c1") == Ok(c1) && From("e3") == Ok(e3);
    assert g[Index(c1)] == Piece(Bishop, White) && g[Index(e3)].IsNone();
    assert BishopCanMove(c1, e3);
    assert Along(c1, e3, 1) == Position(3, 1);
    assert !g[Index(Position(3, 1))].IsNone();
  }

  /** obstacleOnRoute: the bishop's diagonal c1-e3 runs through the pawn on d2. */
  method ObstacleOnRoute() returns (r: Result<bool, ChessError>)
    ensures r == Err(PathBlocked)
  {
    var board := new Board.Initial();
    BishopBlocked();
    r := board.Move("c1", "e3");
  }

  /** The knight's b1-c3 passes every check though pawns stand in front, and takes nothing. */
  lemma KnightJumpAccepted()
    ensures From("b1") == Ok(Position(1, 0)) && From("c3") == Ok(Position(2, 2))
    ensures Attempt(InitialGrid(), White, "b1", "c3") == Ok(false)
  {
    var g, b1, c3 := InitialGrid(), Position(1, 0), Position(2, 2);
    assert From("b1") == Ok(b1) && From("c3") == Ok(c3);
    assert g[Index(b1)] == Piece(Knight, White) && g[Index(c3)].IsNone();
    assert KnightCanMove(b1, c3);
  }

  /** obstacleOnRouteButKnight: the knight's b1-c3 is accepted though pawns stand in front. */
  method ObstacleOnRouteButKnight() returns (r: Result<bool, ChessError>)
    ensures r == Ok(false)
  {
    var board := new Board.Initial();
    KnightJumpAccepted();
    r := board.Move("b1", "c3");
  }

  /** moveSuccess: after b1-c3 the knight that was on b1 is on c3 and b1 is empty. */
  method MoveSuccess() returns (sourcePiece: Piece, targetPiece: Piece, emptyPiece: Piece)
    ensures sourcePiece == Piece(Knight, White)
    ensures targetPiece == sourcePiece
    ensures emptyPiece.IsNone()
  {
    var board := new Board.Initial();
    var b1, c3 := Position(1, 0), Position(2, 2);
    KnightJumpAccepted();
    assert InitialGrid()[Index(b1)] == Piece(Knight, White);
    sourcePiece := board.FindPiece(b1);
    var r := board.Move("b1", "c3");
    targetPiece := board.FindPiece(c3);
    emptyPiece := board.FindPiece(b1);
  }
}
