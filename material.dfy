/** The two sides and the six kinds of piece (chess.model.material). */
module Material {

  datatype Color = White | Black {

    /** The other side: the colour that moves after this one. */
    function Opposite(): (c: Color)
      ensures c != this
    {
      if this == White then Black else White
    }
  }

  datatype Kind = Pawn | Rook | Knight | Bishop | Queen | King
}

/** The distinct failures a move or a board construction can report. */
module Errors {
  import opened Material

  datatype ChessError =
    | InvalidCoordinate      // a coordinate string outside [a-h][1-8]
    | EmptySource            // no piece on the source square
    | WrongTurn(turn: Color) // the source piece is not of the side to move; carries that side
    | FriendlyFire           // the target square holds a piece of the mover's own side
    | CannotMove             // the piece's geometry (or a pawn's occupancy rule) forbids the move
    | PathBlocked            // a square strictly between source and target is occupied
    | MalformedSnapshot      // a custom layout is not 8 rows of 8 known letters
}
