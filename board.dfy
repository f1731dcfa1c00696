/**
 * The board (chess.model.board.Board): a 64-cell grid and a turn counter,
 * and move, which validates a request in a fixed order, then relocates the
 * piece and passes the turn. Validation happens before any cell is written,
 * so a rejected move leaves the board as it was.
 *
 * Validate is the specification of a move on the grid as a value; the
 * methods of class Board are proved to follow it.
 */
module Boards {
  import opened Wrappers
  import opened Errors
  import opened Material
  import opened Positions
  import opened Directions
  import opened Pieces
  import opened Grids

  /** The side to move after a turn counter value n: White on even n, Black on odd. */
  function TurnColor(n: int): Color {
    if n % 2 == 0 then White else Black
  }

  /** Each accepted move hands the turn to the other side. */
  lemma TurnAlternates(n: int)
    ensures TurnColor(n + 1) == TurnColor(n).Opposite()
    ensures TurnColor(n + 2) == TurnColor(n)
  {
  }

  /** The squares strictly after s and before the k-th square of the ray to t are empty. */
  predicate ClearBefore(g: seq<Piece>, s: Position, t: Position, k: nat)
    requires |g| == 64 && Aligned(s, t) && k <= Distance(s, t)
  {
    forall j: nat :: 0 < j < k ==> g[Index(Along(s, t, j))].IsNone()
  }

  /** An empty k-th square extends the clear stretch by one. */
  lemma ClearBeforeStep(g: seq<Piece>, s: Position, t: Position, k: nat)
    requires |g| == 64 && Aligned(s, t) && 0 < k < Distance(s, t)
    requires ClearBefore(g, s, t, k) && g[Index(Along(s, t, k))].IsNone()
    ensures ClearBefore(g, s, t, k + 1)
  {
  }

  /** Every square strictly between s and t on their ray is empty. */
  predicate PathClear(g: seq<Piece>, s: Position, t: Position)
    requires |g| == 64
  {
    Aligned(s, t) ==> ClearBefore(g, s, t, Distance(s, t))
  }

  /**
   * The pawn's occupancy rule: a diagonal step must capture, a straight
   * advance must land on an empty square. Other pieces have no such rule.
   */
  predicate OccupancyAllows(piece: Piece, s: Position, t: Position, target: Piece)
    requires piece.Piece?
  {
    piece.kind != Pawn ||
    if PawnStepOf(piece.color, s, t) == Capture then !target.IsNone() else target.IsNone()
  }

  /**
   * Board.move on a grid whose side to move is turn: the first failed check
   * in the order empty source, wrong turn, own piece on target, geometry,
   * obstruction (not for a knight); on success, whether a king was taken.
   */
  function Validate(g: seq<Piece>, turn: Color, s: Position, t: Position): (r: Result<bool, ChessError>)
    requires |g| == 64
    ensures r.Ok? ==> s != t && g[Index(s)].Piece? && g[Index(s)].color == turn
    ensures r.Ok? ==> g[Index(t)].IsNone() || g[Index(t)].color == turn.Opposite()
    ensures r.Ok? ==> CanMove(g[Index(s)], s, t)
    ensures r.Ok? && g[Index(s)].kind != Knight ==> PathClear(g, s, t)
    ensures r.Ok? ==> (r.value <==> g[Index(t)] == Piece(King, turn.Opposite()))
    ensures r == Err(EmptySource) <==> g[Index(s)].IsNone()
    ensures r == Err(WrongTurn(turn)) <==> g[Index(s)].Piece? && g[Index(s)].color != turn
    ensures g[Index(s)].Piece? && g[Index(s)].color == turn && g[Index(t)].Piece? && g[Index(t)].color == turn
            ==> r == Err(FriendlyFire)
    ensures g[Index(s)].Piece? && g[Index(s)].color == turn
            && (g[Index(t)].IsNone() || g[Index(t)].color != turn)
            && (!CanMove(g[Index(s)], s, t) || !OccupancyAllows(g[Index(s)], s, t, g[Index(t)]))
            ==> r == Err(CannotMove)
    ensures r.Ok? <==>
              g[Index(s)].Piece? && g[Index(s)].color == turn
              && (g[Index(t)].IsNone() || g[Index(t)].color != turn)
              && CanMove(g[Index(s)], s, t) && OccupancyAllows(g[Index(s)], s, t, g[Index(t)])
              && (g[Index(s)].kind == Knight || PathClear(g, s, t))
  {
    var piece, target := g[Index(s)], g[Index(t)];
    if piece.IsNone() then Err(EmptySource)
    else if piece.color != turn then Err(WrongTurn(turn))
    else if !target.IsNone() && target.color == piece.color then Err(FriendlyFire)
    else if !CanMove(piece, s, t) || !OccupancyAllows(piece, s, t, target) then Err(CannotMove)
    else if piece.kind != Knight && !PathClear(g, s, t) then Err(PathBlocked)
    else Ok(!target.IsNone() && target.kind == King)
  }

  /** The grid after an accepted move: the source piece lands on t, s is emptied. */
  function Relocated(g: seq<Piece>, s: Position, t: Position): (h: seq<Piece>)
    requires |g| == 64
    ensures |h| == 64
    ensures h[Index(s)].IsNone()
    ensures s != t ==> h[Index(t)] == g[Index(s)]
    ensures forall p: Position :: p != s && p != t ==> h[Index(p)] == g[Index(p)]
  {
    forall p: Position ensures p != s && p != t ==> Index(p) != Index(s) && Index(p) != Index(t) {
      IndexInjective(p, s);
      IndexInjective(p, t);
    }
    g[Index(t) := g[Index(s)]][Index(s) := NoPiece]
  }

  /** Board.move(String, String): parse both coordinates, then Validate. */
  function Attempt(g: seq<Piece>, turn: Color, source: string, target: string): (r: Result<bool, ChessError>)
    requires |g| == 64
    ensures !IsCoordinate(source) || !IsCoordinate(target) ==> r == Err(InvalidCoordinate)
    ensures IsCoordinate(source) && IsCoordinate(target)
            ==> r == Validate(g, turn, From(source).value, From(target).value)
  {
    match From(source)
    case Err(e) => Err(e)
    case Ok(s) =>
      match From(target)
      case Err(e) => Err(e)
      case Ok(t) => Validate(g, turn, s, t)
  }

  class Board {
    var cells: array<Piece>
    var turn: int

    ghost predicate Valid()
      reads this
    {
      cells.Length == 64
    }

    /** The grid as a value. */
    function Grid(): (g: seq<Piece>)
      reads this, cells
      requires Valid()
      ensures |g| == 64
    {
      cells[..]
    }

    /** The side whose move it is. */
    function CurrentTurn(): Color
      reads this
    {
      TurnColor(turn)
    }

    /** Board.lastTurn: the side that made the latest move, the one not to move now. */
    function LastTurn(): (c: Color)
      reads this
      ensures c != CurrentTurn()
    {
      CurrentTurn().Opposite()
    }

    /** InitialBoardFactory.generate: the standard layout, White to move. */
    constructor Initial()
      ensures Valid() && fresh(cells)
      ensures Grid() == InitialGrid() && turn == 0 && CurrentTurn() == White
    {
      cells := new Piece[64](i => if i < 64 then InitialAt(At(i)) else NoPiece);
      turn := 0;
      new;
      assert cells[..] == InitialGrid();
    }

    /** A board holding a given grid, with the turn counter at turn. */
    constructor Custom(grid: seq<Piece>, turn: int)
      requires |grid| == 64
      ensures Valid() && fresh(cells)
      ensures Grid() == grid && this.turn == turn
    {
      cells := new Piece[64](i => if 0 <= i < |grid| then grid[i] else NoPiece);
      this.turn := turn;
      new;
      assert cells[..] == grid;
    }

    /** Board.findPiece: the piece on p, the empty sentinel if there is none; never fails. */
    function FindPiece(p: Position): (r: Piece)
      reads this, cells
      requires Valid()
      ensures r == Grid()[Index(p)]
    {
      cells[Index(p)]
    }

    /** Walk from s toward t one square at a time, stopping at the first occupied square. */
    method IsPathClear(s: Position, t: Position) returns (clear: bool)
      requires Valid()
      ensures clear == PathClear(Grid(), s, t)
    {
      ghost var g := Grid();
      var direction := FindDirection(s, t);
      if direction == NoDirection {
        return true;
      }
      AlongStep(s, t, 0);
      var current := Next(s, direction);
      ghost var k: nat := 1;
      while current != t
        invariant 1 <= k <= Distance(s, t)
        invariant current == Along(s, t, k)
        invariant ClearBefore(g, s, t, k)
        decreases Distance(s, t) - k
      {
        if !cells[Index(current)].IsNone() {
          assert !g[Index(Along(s, t, k))].IsNone();
          return false;
        }
        ClearBeforeStep(g, s, t, k);
        AlongStep(s, t, k);
        current := Next(current, direction);
        k := k + 1;
      }
      assert k == Distance(s, t);
      return true;
    }

    /** Board.move(Position, Position): check everything, then relocate and pass the turn. */
    method MovePiece(s: Position, t: Position) returns (r: Result<bool, ChessError>)
      requires Valid()
      modifies this`turn, cells
      ensures Valid()
      ensures r == Validate(old(Grid()), old(CurrentTurn()), s, t)
      ensures r.Ok? ==> Grid() == Relocated(old(Grid()), s, t) && turn == old(turn) + 1
      ensures r.Ok? ==> LastTurn() == old(CurrentTurn())
      ensures r.Err? ==> Grid() == old(Grid()) && turn == old(turn)
    {
      var piece := cells[Index(s)];
      var target := cells[Index(t)];
      if piece.IsNone() {
        return Err(EmptySource);
      }
      var side := CurrentTurn();
      if piece.color != side {
        return Err(WrongTurn(side));
      }
      if !target.IsNone() && target.color == piece.color {
        return Err(FriendlyFire);
      }
      if !CanMove(piece, s, t) || !OccupancyAllows(piece, s, t, target) {
        return Err(CannotMove);
      }
      if piece.kind != Knight {
        var clear := IsPathClear(s, t);
        if !clear {
          return Err(PathBlocked);
        }
      }
      cells[Index(t)] := piece;
      cells[Index(s)] := NoPiece;
      turn := turn + 1;
      TurnAlternates(old(turn));
      r := Ok(!target.IsNone() && target.kind == King);
    }

    /** Board.move(String, String): parse the coordinates, then MovePiece. */
    method Move(source: string, target: string) returns (r: Result<bool, ChessError>)
      requires Valid()
      modifies this`turn, cells
      ensures Valid()
      ensures r == Attempt(old(Grid()), old(CurrentTurn()), source, target)
      ensures r.Ok? ==> Grid() == Relocated(old(Grid()), From(source).value, From(target).value)
                        && turn == old(turn) + 1
      ensures r.Err? ==> Grid() == old(Grid()) && turn == old(turn)
    {
      var s := From(source);
      if s.Err? {
        return Err(s.error);
      }
      var t := From(target);
      if t.Err? {
        return Err(t.error);
      }
      r := MovePiece(s.value, t.value);
    }
  }

  /** CustomBoardFactory(snapshot, turn).generate: a board from rows, or MalformedSnapshot. */
  method GenerateCustom(snapshot: seq<string>, turn: int) returns (r: Result<Board, ChessError>)
    ensures r.Err? <==> !WellFormed(snapshot)
    ensures r.Err? ==> r.error == MalformedSnapshot
    ensures r.Ok? ==> fresh(r.value) && fresh(r.value.cells) && r.value.Valid()
    ensures r.Ok? ==> r.value.Grid() == ParseSnapshot(snapshot).value && r.value.turn == turn
  {
    var grid := ParseSnapshot(snapshot);
    if grid.Err? {
      return Err(grid.error);
    }
    var board := new Board.Custom(grid.value, turn);
    return Ok(board);
  }
}
