/**
 * Pieces (chess.model.piece) as one tagged union with the empty-square
 * sentinel, and each variant's movement predicate canMove(source, target).
 * The predicates look only at the two positions (and, for a pawn, its
 * side); occupancy and obstruction are the board's business.
 */
module Pieces {
  import opened Wrappers
  import opened Material
  import opened Positions
  import opened Directions

  datatype Piece = NoPiece | Piece(kind: Kind, color: Color) {
    /** Piece.isNone(): the empty-square sentinel. */
    predicate IsNone() { NoPiece? }
  }

  /** isNone holds on the sentinel and on no real piece. */
  lemma IsNoneSentinel(p: Piece)
    ensures p.IsNone() <==> p == NoPiece
    ensures p.IsNone() <==> !exists k: Kind, c: Color :: p == Piece(k, c)
  {
    if p.Piece? {
      assert p == Piece(p.kind, p.color);
    }
  }

  /** Bishop.canMove: one of the four diagonal rays. */
  function BishopCanMove(s: Position, t: Position): (r: bool)
    ensures r <==> s != t && Abs(FileOffset(s, t)) == Abs(RankOffset(s, t))
  {
    var direction := FindDirection(s, t);
    direction == UpLeft || direction == DownLeft || direction == UpRight || direction == DownRight
  }

  /** Rook.canMove as the repository has it: a stub that refuses every move. */
  function RookCanMove(s: Position, t: Position): (r: bool)
    ensures !r
  {
    false
  }

  /** Queen.canMove: any straight or diagonal ray, of any length. */
  function QueenCanMove(s: Position, t: Position): (r: bool)
    ensures r <==> s != t && (s.file == t.file || s.rank == t.rank
                              || Abs(FileOffset(s, t)) == Abs(RankOffset(s, t)))
  {
    var direction := FindDirection(s, t);
    direction.IsStraight() || direction.IsDiagonal()
  }

  /** The eight offsets of an L-shaped jump. */
  const KnightOffsets: set<(int, int)> :=
    {(1, 2), (2, 1), (2, -1), (1, -2), (-1, -2), (-2, -1), (-2, 1), (-1, 2)}

  /** Knight.canMove: the offset is (±1, ±2) or (±2, ±1). */
  function KnightCanMove(s: Position, t: Position): (r: bool)
    ensures r <==> (FileOffset(s, t), RankOffset(s, t)) in KnightOffsets
    ensures r ==> !Aligned(s, t)
  {
    var f, k := Abs(FileOffset(s, t)), Abs(RankOffset(s, t));
    (f == 1 && k == 2) || (f == 2 && k == 1)
  }

  /** King.canMove: one step along any straight or diagonal ray. */
  function KingCanMove(s: Position, t: Position): (r: bool)
    ensures r <==> s != t && Abs(FileOffset(s, t)) <= 1 && Abs(RankOffset(s, t)) <= 1
  {
    Aligned(s, t) && Distance(s, t) == 1
  }

  /** The rank a side's pawns advance by: White toward rank 8, Black toward rank 1. */
  function Forward(c: Color): int {
    if c == White then 1 else -1
  }

  /** The rank a side's pawns start on (rank 2 for White, rank 7 for Black). */
  function StartRank(c: Color): Coord {
    if c == White then 1 else 6
  }

  /** The ray a side's pawns advance along. */
  function ForwardRay(c: Color): Direction {
    if c == White then Up else Down
  }

  /**
   * The three shapes of pawn move; the board needs to tell them apart,
   * because an advance needs an empty target and a capture an occupied one.
   */
  datatype PawnStep = Advance | DoubleAdvance | Capture | NoStep

  function PawnStepOf(c: Color, s: Position, t: Position): (m: PawnStep)
    ensures m != NoStep ==> Sign(RankOffset(s, t)) == Forward(c)
    ensures m == Advance ==> FindDirection(s, t) == ForwardRay(c) && Distance(s, t) == 1
    ensures m == DoubleAdvance ==>
      FindDirection(s, t) == ForwardRay(c) && Distance(s, t) == 2 && s.rank == StartRank(c)
    ensures m == Capture ==> FindDirection(s, t).IsDiagonal() && Distance(s, t) == 1
  {
    var df, dr := FileOffset(s, t), RankOffset(s, t);
    if df == 0 && dr == Forward(c) then Advance
    else if df == 0 && dr == 2 * Forward(c) && s.rank == StartRank(c) then DoubleAdvance
    else if Abs(df) == 1 && dr == Forward(c) then Capture
    else NoStep
  }

  /** Every forward one-step, start-rank two-step and forward diagonal step is recognised. */
  lemma PawnStepComplete(c: Color, s: Position, t: Position)
    ensures FindDirection(s, t) == ForwardRay(c) && Distance(s, t) == 1 ==> PawnStepOf(c, s, t) == Advance
    ensures FindDirection(s, t) == ForwardRay(c) && Distance(s, t) == 2 && s.rank == StartRank(c)
            ==> PawnStepOf(c, s, t) == DoubleAdvance
    ensures FindDirection(s, t).IsDiagonal() && Distance(s, t) == 1 && Sign(RankOffset(s, t)) == Forward(c)
            ==> PawnStepOf(c, s, t) == Capture
  {
  }

  /** Pawn.canMove: geometry only; the board adds the occupancy rule. */
  function PawnCanMove(c: Color, s: Position, t: Position): (r: bool)
    ensures r ==> Sign(RankOffset(s, t)) == Forward(c) && 1 <= Distance(s, t) <= 2
  {
    PawnStepOf(c, s, t) != NoStep
  }

  /** Piece.canMove, dispatched on the variant; the sentinel never moves. */
  function CanMove(p: Piece, s: Position, t: Position): (r: bool)
    ensures r ==> p.Piece? && s != t
    ensures r && p.kind != Knight ==> Aligned(s, t)
  {
    match p
    case NoPiece => false
    case Piece(kind, color) =>
      match kind
      case Pawn => PawnCanMove(color, s, t)
      case Rook => RookCanMove(s, t)
      case Knight => KnightCanMove(s, t)
      case Bishop => BishopCanMove(s, t)
      case Queen => QueenCanMove(s, t)
      case King => KingCanMove(s, t)
  }

  /** The lower-case letter of a kind. */
  function KindLetter(k: Kind): char {
    match k
    case Pawn => 'p'
    case Rook => 'r'
    case Knight => 'n'
    case Bishop => 'b'
    case Queen => 'q'
    case King => 'k'
  }

  /**
   * The display letter of a square: '.' when empty, upper case for Black
   * (the side at the top of the board), lower case for White.
   */
  function Letter(p: Piece): (c: char) {
    match p
    case NoPiece => '.'
    case Piece(kind, White) => KindLetter(kind)
    case Piece(kind, Black) => (KindLetter(kind) as int - 32) as char
  }

  /** The piece a display letter stands for, if any. */
  function FromLetter(c: char): (r: Option<Piece>)
    ensures r.Some? ==> Letter(r.value) == c
  {
    match c
    case '.' => Some(NoPiece)
    case 'p' => Some(Piece(Pawn, White))
    case 'r' => Some(Piece(Rook, White))
    case 'n' => Some(Piece(Knight, White))
    case 'b' => Some(Piece(Bishop, White))
    case 'q' => Some(Piece(Queen, White))
    case 'k' => Some(Piece(King, White))
    case 'P' => Some(Piece(Pawn, Black))
    case 'R' => Some(Piece(Rook, Black))
    case 'N' => Some(Piece(Knight, Black))
    case 'B' => Some(Piece(Bishop, Black))
    case 'Q' => Some(Piece(Queen, Black))
    case 'K' => Some(Piece(King, Black))
    case _ => None
  }

  /** Every piece's letter reads back as that piece. */
  lemma LetterRoundTrip(p: Piece)
    ensures FromLetter(Letter(p)) == Some(p)
  {
  }
}
