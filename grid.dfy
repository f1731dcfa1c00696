/**
 * The 64-cell board as a value: the standard starting layout
 * (InitialBoardFactory), the eight-row text form a custom layout is given
 * in and a board is shown in (CustomBoardFactory, BoardDto), and the count
 * of occupied cells.
 *
 * Cell Index(p) holds the piece on p. Row strings run from the top of the
 * board (rank 8) down to rank 1, each from file a to file h.
 */
module Grids {
  import opened Wrappers
  import opened Errors
  import opened Material
  import opened Positions
  import opened Pieces

  /** The back-rank kind on a file: rook, knight, bishop, queen, king, bishop, knight, rook. */
  function BackRank(file: Coord): Kind {
    if file == 0 || file == 7 then Rook
    else if file == 1 || file == 6 then Knight
    else if file == 2 || file == 5 then Bishop
    else if file == 3 then Queen
    else King
  }

  /** The standard starting piece on p: White on ranks 1-2, Black on ranks 7-8. */
  function InitialAt(p: Position): (q: Piece)
    ensures q.Piece? <==> p.rank <= 1 || 6 <= p.rank
    ensures q.Piece? ==> (q.color == White <==> p.rank <= 1)
    ensures q.Piece? ==> (q.kind == Pawn <==> p.rank == 1 || p.rank == 6)
  {
    if p.rank == 0 then Piece(BackRank(p.file), White)
    else if p.rank == 1 then Piece(Pawn, White)
    else if p.rank == 6 then Piece(Pawn, Black)
    else if p.rank == 7 then Piece(BackRank(p.file), Black)
    else NoPiece
  }

  /** InitialBoardFactory.generate: the starting layout as a grid. */
  function InitialGrid(): (g: seq<Piece>)
    ensures |g| == 64
    ensures forall p: Position :: g[Index(p)] == InitialAt(p)
  {
    forall p: Position ensures At(Index(p)) == p {
      AtIndex(p);
    }
    seq(64, i requires 0 <= i < 64 => InitialAt(At(i)))
  }

  /** The eight display rows of the starting layout. */
  const InitialRows: seq<string> := [
    "RNBQKBNR",
    "PPPPPPPP",
    "........",
    "........",
    "........",
    "........",
    "pppppppp",
    "rnbqkbnr"
  ]

  /** The square shown at row r (0 = top) and column f of the display. */
  function Shown(r: Coord, f: Coord): Position {
    Position(f, 7 - r)
  }

  /** One display row: the letters of rank 8 - r, files a to h. */
  function Row(g: seq<Piece>, r: Coord): (row: string)
    requires |g| == 64
    ensures |row| == 8
  {
    seq(8, f requires 0 <= f < 8 => Letter(g[Index(Shown(r, f))]))
  }

  /** BoardDto.from: the grid as eight rows of eight letters, top row first. */
  function Render(g: seq<Piece>): (rows: seq<string>)
    requires |g| == 64
    ensures |rows| == 8
    ensures forall r :: 0 <= r < 8 ==> |rows[r]| == 8
  {
    seq(8, r requires 0 <= r < 8 => Row(g, r))
  }

  /** A custom snapshot is eight rows of eight known letters. */
  predicate WellFormed(rows: seq<string>) {
    |rows| == 8 &&
    forall r :: 0 <= r < 8 ==>
      |rows[r]| == 8 && forall f :: 0 <= f < 8 ==> FromLetter(rows[r][f]).Some?
  }

  /** CustomBoardFactory: read a snapshot into a grid, refusing malformed input. */
  function ParseSnapshot(rows: seq<string>): (r: Result<seq<Piece>, ChessError>)
    ensures r.Ok? <==> WellFormed(rows)
    ensures r.Ok? ==> |r.value| == 64
    ensures r.Err? ==> r.error == MalformedSnapshot
  {
    if WellFormed(rows) then
      Ok(seq(64, i requires 0 <= i < 64 =>
        FromLetter(rows[7 - At(i).rank][At(i).file]).value))
    else
      Err(MalformedSnapshot)
  }

  /** Shown is a bijection from display cells to squares. */
  lemma ShownIndex(r: Coord, f: Coord)
    ensures At(Index(Shown(r, f))) == Position(f, 7 - r)
  {
    AtIndex(Shown(r, f));
  }

  /** A grid shown and read back is the same grid. */
  lemma RenderParse(g: seq<Piece>)
    requires |g| == 64
    ensures ParseSnapshot(Render(g)) == Ok(g)
  {
    var rows := Render(g);
    forall r: Coord, f: Coord
      ensures FromLetter(rows[r][f]) == Some(g[Index(Shown(r, f))])
    {
      LetterRoundTrip(g[Index(Shown(r, f))]);
    }
    assert WellFormed(rows);
    var h := ParseSnapshot(rows).value;
    forall i | 0 <= i < 64 ensures h[i] == g[i] {
      var p := At(i);
      var r: Coord, f: Coord := 7 - p.rank, p.file;
      assert Shown(r, f) == p;
      assert FromLetter(rows[r][f]) == Some(g[Index(Shown(r, f))]);
    }
    assert h == g;
  }

  /** A well-formed snapshot read into a grid shows as the same rows. */
  lemma ParseRender(rows: seq<string>)
    requires WellFormed(rows)
    ensures Render(ParseSnapshot(rows).value) == rows
  {
    var g := ParseSnapshot(rows).value;
    var shown := Render(g);
    forall r: Coord ensures shown[r] == rows[r] {
      forall f: Coord ensures shown[r][f] == rows[r][f] {
        ShownIndex(r, f);
      }
    }
  }

  /** The back rank letters, Black's (top row) upper case, White's (bottom row) lower case. */
  lemma BackRankLetters(f: Coord)
    ensures Letter(Piece(BackRank(f), Black)) == "RNBQKBNR"[f]
    ensures Letter(Piece(BackRank(f), White)) == "rnbqkbnr"[f]
  {
  }

  /** One cell of the starting layout shows as the letter in the well-known rows. */
  lemma InitialCell(r: Coord, f: Coord)
    ensures Letter(InitialGrid()[Index(Shown(r, f))]) == InitialRows[r][f]
  {
    ShownIndex(r, f);
    assert InitialGrid()[Index(Shown(r, f))] == InitialAt(Position(f, 7 - r));
    if r == 0 || r == 7 {
      BackRankLetters(f);
    }
  }

  /** The starting layout shows as its eight well-known rows. */
  lemma InitialRender()
    ensures Render(InitialGrid()) == InitialRows
  {
    var shown := Render(InitialGrid());
    forall r: Coord ensures shown[r] == InitialRows[r] {
      forall f: Coord ensures shown[r][f] == InitialRows[r][f] {
        InitialCell(r, f);
      }
    }
  }

  function Occupied(p: Piece): nat {
    if p.IsNone() then 0 else 1
  }

  /** The number of occupied cells. */
  function Count(g: seq<Piece>): (n: nat)
    ensures n <= |g|
  {
    if g == [] then 0 else Occupied(g[0]) + Count(g[1..])
  }

  /** Overwriting one cell changes the count by what left and what arrived. */
  lemma {:induction false} CountUpdate(g: seq<Piece>, i: nat, x: Piece)
    requires i < |g|
    ensures Count(g[i := x]) == Count(g) - Occupied(g[i]) + Occupied(x)
  {
    if i > 0 {
      CountUpdate(g[1..], i - 1, x);
      assert g[i := x][1..] == g[1..][i - 1 := x];
    }
  }
}
