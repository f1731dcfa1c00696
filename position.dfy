/**
 * Board coordinates (chess.model.Position): a file 0..7 ('a'..'h') and a
 * rank 0..7 ('1'..'8'). The range invariant is carried by the type, so every
 * Position value is on the board.
 */
module Positions {
  import opened Wrappers
  import opened Errors

  type Coord = x: int | 0 <= x < 8

  datatype Position = Position(file: Coord, rank: Coord)

  /** The grid cell of a position: ranks of eight files each, rank 1 first. */
  function Index(p: Position): (i: nat)
    ensures i < 64
    ensures i % 8 == p.file && i / 8 == p.rank
  {
    p.rank * 8 + p.file
  }

  /** The position of a grid cell; the inverse of Index. */
  function At(i: nat): (p: Position)
    requires i < 64
    ensures Index(p) == i
  {
    Position(i % 8, i / 8)
  }

  lemma AtIndex(p: Position)
    ensures At(Index(p)) == p
  {
  }

  lemma IndexInjective(p: Position, q: Position)
    ensures Index(p) == Index(q) <==> p == q
  {
    if Index(p) == Index(q) {
      AtIndex(p);
      AtIndex(q);
    }
  }

  /** The grammar [a-h][1-8] of coordinate strings. */
  predicate IsCoordinate(s: string) {
    |s| == 2 && 'a' <= s[0] <= 'h' && '1' <= s[1] <= '8'
  }

  /** The two-character name of a position, such as "b1". */
  function Coordinate(p: Position): (s: string)
    ensures IsCoordinate(s)
  {
    [('a' as int + p.file) as char, ('1' as int + p.rank) as char]
  }

  /** Position.from: parse a coordinate, failing on anything malformed. */
  function From(s: string): (r: Result<Position, ChessError>)
    ensures r.Ok? <==> IsCoordinate(s)
    ensures r.Ok? ==> Coordinate(r.value) == s
    ensures r.Err? ==> r.error == InvalidCoordinate
  {
    if IsCoordinate(s) then
      Ok(Position(s[0] as int - 'a' as int, s[1] as int - '1' as int))
    else
      Err(InvalidCoordinate)
  }

  /** Naming a position and parsing the name gives the position back. */
  lemma FromCoordinate(p: Position)
    ensures From(Coordinate(p)) == Ok(p)
  {
  }
}
