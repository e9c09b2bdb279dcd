/**
 * The piece placement carried by a board.  Only its fields are modelled: the
 * placement primitives are not part of this model, so the board treats an
 * arrangement as an opaque value and reads it through the two queries below.
 */
module PieceArrangements {

  import opened Bitboards

  /** The piece kinds tracked by a mask; the king is tracked by its square instead. */
  datatype NonKingPieceType = Pawn | Knight | Bishop | Rook | Queen

  datatype PieceArrangement = PieceArrangement(
    whiteKing: Square,
    blackKing: Square,
    queens: Bitboard,
    rooks: Bitboard,
    bishops: Bitboard,
    knights: Bitboard,
    pawns: Bitboard,
    white: Bitboard,
    black: Bitboard)

  /** Every square that holds a piece of either player. */
  function Occupied(pieces: PieceArrangement): Bitboard {
    pieces.white | pieces.black
  }

  /** A square is occupied exactly when one of the two players has a piece on it. */
  lemma OccupiedContains(pieces: PieceArrangement, sq: Square)
    ensures IsSet(Occupied(pieces), sq) == (IsSet(pieces.white, sq) || IsSet(pieces.black, sq))
  {
  }

  /** The squares holding a piece of the given kind, of either player. */
  function MaskForPiece(pieces: PieceArrangement, piece: NonKingPieceType): Bitboard {
    match piece
    case Pawn => pieces.pawns
    case Knight => pieces.knights
    case Bishop => pieces.bishops
    case Rook => pieces.rooks
    case Queen => pieces.queens
  }
}
