/** What an accepted or rejected move means for the grid, the turn and the pieces. */
module MoveProperties {
  import opened Wrappers
  import opened Errors
  import opened Material
  import opened Positions
  import opened Directions
  import opened Pieces
  import opened Grids
  import opened Boards

  /** A rook never moves: once the turn and target checks pass, it fails on geometry. */
  lemma RookMoveFails(g: seq<Piece>, turn: Color, s: Position, t: Position)
    requires |g| == 64 && g[Index(s)].Piece? && g[Index(s)].kind == Rook
    ensures Validate(g, turn, s, t).Err?
    ensures g[Index(s)].color == turn && (g[Index(t)].IsNone() || g[Index(t)].color != turn)
            ==> Validate(g, turn, s, t) == Err(CannotMove)
  {
  }

  /** A knight is never stopped by pieces in between: only its source and target matter. */
  lemma KnightIgnoresObstacles(g: seq<Piece>, h: seq<Piece>, turn: Color, s: Position, t: Position)
    requires |g| == 64 && |h| == 64
    requires g[Index(s)].Piece? && g[Index(s)].kind == Knight
    requires h[Index(s)] == g[Index(s)] && h[Index(t)] == g[Index(t)]
    ensures Validate(g, turn, s, t) == Validate(h, turn, s, t)
  {
  }

  /**
   * Any other piece whose move passes every earlier check is stopped by an
   * occupied square strictly between source and target.
   */
  lemma BlockedPathRejected(g: seq<Piece>, turn: Color, s: Position, t: Position, k: nat)
    requires |g| == 64
    requires g[Index(s)].Piece? && g[Index(s)].color == turn && g[Index(s)].kind != Knight
    requires g[Index(t)].IsNone() || g[Index(t)].color != turn
    requires CanMove(g[Index(s)], s, t) && OccupancyAllows(g[Index(s)], s, t, g[Index(t)])
    requires 0 < k < Distance(s, t) && !g[Index(Along(s, t, k))].IsNone()
    ensures Validate(g, turn, s, t) == Err(PathBlocked)
  {
  }

  /** A pawn may not advance onto an occupied square, nor step diagonally onto an empty one. */
  lemma PawnOccupancy(g: seq<Piece>, turn: Color, s: Position, t: Position)
    requires |g| == 64 && g[Index(s)] == Piece(Pawn, turn)
    requires g[Index(t)].IsNone() || g[Index(t)].color != turn
    ensures PawnStepOf(turn, s, t) == Capture && g[Index(t)].IsNone()
            ==> Validate(g, turn, s, t) == Err(CannotMove)
    ensures PawnStepOf(turn, s, t) in {Advance, DoubleAdvance} && !g[Index(t)].IsNone()
            ==> Validate(g, turn, s, t) == Err(CannotMove)
  {
  }

  /**
   * An accepted move never adds a piece: the count drops by one when it
   * captures and stays the same otherwise.
   */
  lemma CountAfterMove(g: seq<Piece>, turn: Color, s: Position, t: Position)
    requires |g| == 64 && Validate(g, turn, s, t).Ok?
    ensures Count(Relocated(g, s, t)) == Count(g) - Occupied(g[Index(t)])
  {
    var moved := g[Index(t) := g[Index(s)]];
    CountUpdate(g, Index(t), g[Index(s)]);
    IndexInjective(s, t);
    CountUpdate(moved, Index(s), NoPiece);
  }

  /** Of two accepted moves in a row, the second is made by the other side. */
  lemma MovesAlternate(g: seq<Piece>, n: int, s: Position, t: Position, s': Position, t': Position)
    requires |g| == 64
    requires Validate(g, TurnColor(n), s, t).Ok?
    requires Validate(Relocated(g, s, t), TurnColor(n + 1), s', t').Ok?
    ensures Relocated(g, s, t)[Index(s')].color != g[Index(s)].color
  {
    TurnAlternates(n);
  }

  /** A capture that reports the king taken is the only end of the game the engine signals. */
  lemma KingCaptureEndsGame(g: seq<Piece>, turn: Color, s: Position, t: Position)
    requires |g| == 64 && Validate(g, turn, s, t) == Ok(true)
    ensures Relocated(g, s, t)[Index(t)] == g[Index(s)] && g[Index(s)].color == turn
    ensures g[Index(t)] == Piece(King, turn.Opposite())
    ensures Count(Relocated(g, s, t)) == Count(g) - 1
  {
    CountAfterMove(g, turn, s, t);
  }
}
