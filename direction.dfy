/**
 * Direction.findDirection: the classification of the offset between two
 * positions into one of the four straight rays, one of the four diagonal
 * rays, or none. "Up" is toward rank 8, "Right" toward file h.
 */
module Directions {
  import opened Positions

  datatype Direction =
    | Up | Down | Left | Right
    | UpLeft | UpRight | DownLeft | DownRight
    | NoDirection
  {
    predicate IsStraight() {
      this == Up || this == Down || this == Left || this == Right
    }

    predicate IsDiagonal() {
      this == UpLeft || this == UpRight || this == DownLeft || this == DownRight
    }

    /** File change of one step along the ray. */
    function FileDelta(): int {
      match this
      case Left | UpLeft | DownLeft => -1
      case Right | UpRight | DownRight => 1
      case _ => 0
    }

    /** Rank change of one step along the ray. */
    function RankDelta(): int {
      match this
      case Down | DownLeft | DownRight => -1
      case Up | UpLeft | UpRight => 1
      case _ => 0
    }

    /** The ray pointing the other way. */
    function Reverse(): (d: Direction)
      ensures d.FileDelta() == -FileDelta() && d.RankDelta() == -RankDelta()
      ensures d.IsStraight() == IsStraight() && d.IsDiagonal() == IsDiagonal()
    {
      match this
      case Up => Down
      case Down => Up
      case Left => Right
      case Right => Left
      case UpLeft => DownRight
      case DownRight => UpLeft
      case UpRight => DownLeft
      case DownLeft => UpRight
      case NoDirection => NoDirection
    }
  }

  function Abs(x: int): nat {
    if x < 0 then -x else x
  }

  function Sign(x: int): int {
    if x > 0 then 1 else if x < 0 then -1 else 0
  }

  /** Signed file and rank offsets from s to t. */
  function FileOffset(s: Position, t: Position): int { t.file - s.file }
  function RankOffset(s: Position, t: Position): int { t.rank - s.rank }

  /** Direction.findDirection(source, target). */
  function FindDirection(s: Position, t: Position): (d: Direction)
    ensures d.IsStraight() <==> s != t && (s.file == t.file || s.rank == t.rank)
    ensures d.IsDiagonal() <==> s != t && Abs(FileOffset(s, t)) == Abs(RankOffset(s, t))
    ensures d == NoDirection <==> !d.IsStraight() && !d.IsDiagonal()
    ensures d.FileDelta() == Sign(FileOffset(s, t)) || d == NoDirection
    ensures d.RankDelta() == Sign(RankOffset(s, t)) || d == NoDirection
  {
    var df, dr := FileOffset(s, t), RankOffset(s, t);
    if df == 0 && dr > 0 then Up
    else if df == 0 && dr < 0 then Down
    else if dr == 0 && df > 0 then Right
    else if dr == 0 && df < 0 then Left
    else if df == dr && df > 0 then UpRight
    else if df == dr && df < 0 then DownLeft
    else if df == -dr && df > 0 then DownRight
    else if df == -dr && df < 0 then UpLeft
    else NoDirection
  }

  /** Walking from t back to s follows the reversed ray. */
  lemma FindDirectionReverse(s: Position, t: Position)
    ensures FindDirection(t, s) == FindDirection(s, t).Reverse()
  {
  }

  /** s and t lie on one straight or diagonal ray. */
  predicate Aligned(s: Position, t: Position) {
    FindDirection(s, t) != NoDirection
  }

  /** King distance: the number of single steps a straight or diagonal walk needs. */
  function Distance(s: Position, t: Position): nat {
    var f, r := Abs(FileOffset(s, t)), Abs(RankOffset(s, t));
    if f < r then r else f
  }

  /** One coordinate, k steps from a toward b. */
  function Toward(a: int, b: int, k: nat): int {
    if a < b then a + k else if b < a then a - k else a
  }

  /** The square k steps from s toward t along their ray. */
  function Along(s: Position, t: Position, k: nat): (p: Position)
    requires Aligned(s, t) && k <= Distance(s, t)
    ensures Distance(s, p) == k && Distance(p, t) == Distance(s, t) - k
    ensures k == 0 ==> p == s
    ensures k == Distance(s, t) ==> p == t
  {
    Position(Toward(s.file, t.file, k), Toward(s.rank, t.rank, k))
  }

  /** One coordinate step along d stays on the board. */
  predicate CanStep(p: Position, d: Direction) {
    0 <= p.file + d.FileDelta() < 8 && 0 <= p.rank + d.RankDelta() < 8
  }

  /** The neighbouring square along d; a real ray moves exactly one square. */
  function Next(p: Position, d: Direction): (q: Position)
    requires CanStep(p, d)
    ensures Distance(p, q) <= 1
    ensures d != NoDirection <==> Distance(p, q) == 1
  {
    Position(p.file + d.FileDelta(), p.rank + d.RankDelta())
  }

  /** Stepping once along the ray from the k-th square reaches the (k+1)-th. */
  lemma AlongStep(s: Position, t: Position, k: nat)
    requires Aligned(s, t) && k < Distance(s, t)
    ensures CanStep(Along(s, t, k), FindDirection(s, t))
    ensures Next(Along(s, t, k), FindDirection(s, t)) == Along(s, t, k + 1)
  {
  }
}
