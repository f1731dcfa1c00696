/** What the movement predicates promise, and how they relate to one another. */
module PieceProperties {
  import opened Material
  import opened Positions
  import opened Directions
  import opened Pieces

  /**
   * Bishop.canMove holds exactly on the four diagonal rays. This is the
   * definition of BishopCanMove unfolded; the geometric content (equal
   * file and rank offsets) is BishopCanMove's own postcondition.
   */
  lemma BishopIsDiagonal(s: Position, t: Position)
    ensures BishopCanMove(s, t) <==> FindDirection(s, t) in {UpLeft, DownLeft, UpRight, DownRight}
  {
  }

  /** A bishop never moves along a file or a rank. */
  lemma BishopRejectsStraight(s: Position, t: Position)
    requires FindDirection(s, t).IsStraight()
    ensures !BishopCanMove(s, t)
  {
  }

  /** A bishop never makes a move that is on no ray at all, such as a knight's jump. */
  lemma BishopRejectsUnaligned(s: Position, t: Position)
    requires !Aligned(s, t)
    ensures !BishopCanMove(s, t)
  {
  }

  /** Whether a bishop may move depends on the squares only, not on its side. */
  lemma BishopIgnoresColor(c: Color, d: Color, s: Position, t: Position)
    ensures CanMove(Piece(Bishop, c), s, t) == CanMove(Piece(Bishop, d), s, t) == BishopCanMove(s, t)
  {
  }

  /** A diagonal walked backwards is a diagonal. */
  lemma BishopSymmetric(s: Position, t: Position)
    ensures BishopCanMove(s, t) == BishopCanMove(t, s)
  {
    FindDirectionReverse(s, t);
  }

  /** The rook stub refuses every move, whatever the rook's side. */
  lemma RookNeverMoves(c: Color, s: Position, t: Position)
    ensures !CanMove(Piece(Rook, c), s, t)
  {
  }

  /** Every bishop move is a queen move. */
  lemma QueenCoversBishop(s: Position, t: Position)
    ensures BishopCanMove(s, t) ==> QueenCanMove(s, t)
  {
  }

  /** Every king move is a queen move of length one, and conversely. */
  lemma KingIsShortQueen(s: Position, t: Position)
    ensures KingCanMove(s, t) <==> QueenCanMove(s, t) && Distance(s, t) == 1
  {
  }

  /** Queen.canMove holds exactly on the eight rays. */
  lemma QueenIsStraightOrDiagonal(s: Position, t: Position)
    ensures QueenCanMove(s, t) <==> Aligned(s, t)
  {
  }

  /** No offset is both a knight jump and a queen ray. */
  lemma KnightQueenDisjoint(s: Position, t: Position)
    ensures !(KnightCanMove(s, t) && QueenCanMove(s, t))
  {
  }

  /** A knight jump reversed is a knight jump. */
  lemma KnightSymmetric(s: Position, t: Position)
    ensures KnightCanMove(s, t) == KnightCanMove(t, s)
  {
  }
}

/** The cases of QueenTest and KnightTest. */
module PieceTest {
  import opened Positions
  import opened Pieces

  /** Queen: (3,3)->(3,7) straight and (3,3)->(7,7) diagonal are allowed, (3,3)->(5,4) is not. */
  lemma QueenCanMoveCases()
    ensures QueenCanMove(Position(3, 3), Position(3, 7))
    ensures QueenCanMove(Position(3, 3), Position(7, 7))
    ensures !QueenCanMove(Position(3, 3), Position(5, 4))
  {
  }

  /** Knight: the L-jump (3,3)->(5,4) is allowed, the straight (3,3)->(3,7) is not. */
  lemma KnightCanMoveCases()
    ensures KnightCanMove(Position(3, 3), Position(5, 4))
    ensures !KnightCanMove(Position(3, 3), Position(3, 7))
  {
  }

  /** Rook stub: even the straight (3,3)->(3,7) is refused. */
  lemma RookCanMoveCase()
    ensures !RookCanMove(Position(3, 3), Position(3, 7))
  {
  }
}
