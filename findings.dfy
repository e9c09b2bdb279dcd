/**
 * Two places where the code as written departs from the castling rules it
 * implements, each shown on a concrete input beside the corrected definition.
 */
module Findings {

  import opened Players
  import opened CastleDirections
  import opened Bitboards
  import opened PieceArrangements
  import opened BoardStatuses
  import opened Boards
  import opened BoardStatusFixtures

  /**
   * As written, a White king move keeps White's queen-side right and takes away
   * Black's king-side right, though Black did not move.
   */
  lemma KingMoveRevokesOpponentRight()
    ensures KingMove(ALL_RIGHTS_WHITE_TO_MOVE).hasRights == RightsTable(false, true, false, true)
    ensures KingMoveCorrected(ALL_RIGHTS_WHITE_TO_MOVE).hasRights == RightsTable(false, false, true, true)
  {
  }

  /**
   * For every status holding all four rights, the king move as written leaves the
   * mover one right and strips the opponent of one.
   */
  lemma KingMoveAsWrittenMissesIntent(s: BoardStatus)
    requires forall p: Player, e: CastleDirection :: At(s.hasRights, p, e)
    ensures At(KingMove(s).hasRights, s.sideToMove, if s.sideToMove == White then QueenSide else KingSide)
    ensures !At(KingMove(s).hasRights, Switch(s.sideToMove), if s.sideToMove == White then KingSide else QueenSide)
    ensures KingMove(s) != KingMoveCorrected(s)
  {
    KingMoveAsWritten(s);
    var keep := if s.sideToMove == White then QueenSide else KingSide;
    assert At(KingMove(s).hasRights, s.sideToMove, keep);
    assert !At(KingMoveCorrected(s).hasRights, s.sideToMove, keep);
  }

  /** Black to move with all rights, rooks on a8 and h8, f8 and g8 empty. */
  const BLACK_READY: Board := Board(false, false, true, true, true, true,
    PieceArrangement(E1, E8, 0, 0x8100_0000_0000_0000, 0, 0, 0, 0xFF91, 0x91FF_0000_0000_0000))

  /** White to move with all rights, one rook on h1 and none on a1, b1 to d1 empty. */
  const WHITE_NO_QUEEN_ROOK: Board := Board(true, false, true, true, true, true,
    PieceArrangement(E1, E8, 0, 0x80, 0, 0, 0, 0xFF90, 0x91FF_0000_0000_0000))

  /**
   * The board's rook guard looks at h1 in every arm: Black is refused a legal
   * king-side castle, while the status predicate and the corrected guard allow it.
   */
  lemma BlackCastleRefusedByH1Guard()
    ensures !Boards.CanCastle(BLACK_READY, KingSide)
    ensures BoardStatuses.CanCastle(Status(BLACK_READY), KingSide, EMPTY_BITBOARD,
      Occupied(BLACK_READY.pieces), MaskForPiece(BLACK_READY.pieces, Rook))
    ensures CanCastleCorrected(BLACK_READY, KingSide)
  {
  }

  /**
   * The same guard lets White castle queen-side with no rook on a1, which the
   * status predicate and the corrected guard refuse.
   */
  lemma WhiteQueenSideWithoutRookAllowed()
    ensures Boards.CanCastle(WHITE_NO_QUEEN_ROOK, QueenSide)
    ensures !BoardStatuses.CanCastle(Status(WHITE_NO_QUEEN_ROOK), QueenSide, EMPTY_BITBOARD,
      Occupied(WHITE_NO_QUEEN_ROOK.pieces), MaskForPiece(WHITE_NO_QUEEN_ROOK.pieces, Rook))
    ensures !CanCastleCorrected(WHITE_NO_QUEEN_ROOK, QueenSide)
  {
  }
}
