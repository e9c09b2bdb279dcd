/**
 * The board that carries its turn, en-passant and castling state as six
 * booleans beside the piece arrangement.  In the original these six are
 * compile-time parameters of the board's type; here they are ordinary fields.
 */
module Boards {

  import opened Players
  import opened CastleDirections
  import opened Bitboards
  import opened PieceArrangements
  import opened BoardStatuses

  datatype Board = Board(
    isWhiteToMove: bool,
    hasEpPawn: bool,
    whiteHasKingCastleRights: bool,
    whiteHasQueenCastleRights: bool,
    blackHasKingCastleRights: bool,
    blackHasQueenCastleRights: bool,
    pieces: PieceArrangement)

  /** The side to move. */
  function Mover(b: Board): Player {
    if b.isWhiteToMove then White else Black
  }

  /** The four castling flags as a player-by-direction table. */
  function Rights(b: Board): Table<bool> {
    ByPlayer(
      ByDirection(b.whiteHasKingCastleRights, b.whiteHasQueenCastleRights),
      ByDirection(b.blackHasKingCastleRights, b.blackHasQueenCastleRights))
  }

  /** The same state as a status record. */
  function Status(b: Board): BoardStatus {
    BoardStatus(Mover(b), b.hasEpPawn, Rights(b))
  }

  /** The squares attacked by the opponent: attack generation is a stub that reports none. */
  function Attacked(b: Board): (r: Bitboard)
    ensures forall sq: Square :: !IsSet(r, sq)
  {
    EMPTY_BITBOARD
  }

  /** Whether the side to move may castle in direction `dir`, as written. */
  predicate CanCastle(b: Board, dir: CastleDirection) {
    var attacked := Attacked(b);
    var occupied := Occupied(b.pieces);
    var rooks := MaskForPiece(b.pieces, Rook);
    match (b.isWhiteToMove, dir)
    case (true, KingSide) =>
      && b.whiteHasKingCastleRights
      && (rooks & ToBit(H1)) != EMPTY_BITBOARD
      && (occupied & 0x60) == EMPTY_BITBOARD
      && (attacked & 0x60) == EMPTY_BITBOARD
    case (true, QueenSide) =>
      && b.whiteHasQueenCastleRights
      && (rooks & ToBit(H1)) != EMPTY_BITBOARD
      && (occupied & 0xE) == EMPTY_BITBOARD
      && (attacked & 0xC) == EMPTY_BITBOARD
    case (false, KingSide) =>
      && b.blackHasKingCastleRights
      && (rooks & ToBit(H1)) != EMPTY_BITBOARD
      && (occupied & 0x6000_0000_0000_0000) == EMPTY_BITBOARD
      && (attacked & 0x6000_0000_0000_0000) == EMPTY_BITBOARD
    case (false, QueenSide) =>
      && b.blackHasQueenCastleRights
      && (rooks & ToBit(H1)) != EMPTY_BITBOARD
      && (occupied & 0x0E00_0000_0000_0000) == EMPTY_BITBOARD
      && (attacked & 0x0C00_0000_0000_0000) == EMPTY_BITBOARD
  }

  /**
   * Castling legality with each arm's rook guard on that castle's own rook
   * square (h1, a1, h8, a8) instead of h1 throughout.
   */
  predicate CanCastleCorrected(b: Board, dir: CastleDirection) {
    var attacked := Attacked(b);
    var occupied := Occupied(b.pieces);
    var rooks := MaskForPiece(b.pieces, Rook);
    match (b.isWhiteToMove, dir)
    case (true, KingSide) =>
      && b.whiteHasKingCastleRights
      && (rooks & ToBit(H1)) != EMPTY_BITBOARD
      && (occupied & 0x60) == EMPTY_BITBOARD
      && (attacked & 0x60) == EMPTY_BITBOARD
    case (true, QueenSide) =>
      && b.whiteHasQueenCastleRights
      && (rooks & ToBit(A1)) != EMPTY_BITBOARD
      && (occupied & 0xE) == EMPTY_BITBOARD
      && (attacked & 0xC) == EMPTY_BITBOARD
    case (false, KingSide) =>
      && b.blackHasKingCastleRights
      && (rooks & ToBit(H8)) != EMPTY_BITBOARD
      && (occupied & 0x6000_0000_0000_0000) == EMPTY_BITBOARD
      && (attacked & 0x6000_0000_0000_0000) == EMPTY_BITBOARD
    case (false, QueenSide) =>
      && b.blackHasQueenCastleRights
      && (rooks & ToBit(A8)) != EMPTY_BITBOARD
      && (occupied & 0x0E00_0000_0000_0000) == EMPTY_BITBOARD
      && (attacked & 0x0C00_0000_0000_0000) == EMPTY_BITBOARD
  }

  // The rights after the side to move castles.

  function WhiteKingCastleAfter(b: Board): bool {
    !b.isWhiteToMove && b.whiteHasKingCastleRights
  }

  function WhiteQueenCastleAfter(b: Board): bool {
    !b.isWhiteToMove && b.whiteHasQueenCastleRights
  }

  function BlackKingCastleAfter(b: Board): bool {
    b.isWhiteToMove && b.blackHasKingCastleRights
  }

  function BlackQueenCastleAfter(b: Board): bool {
    b.isWhiteToMove && b.blackHasQueenCastleRights
  }

  /**
   * Castling in direction `dir`.  The pieces are not moved yet: only the turn,
   * the en-passant flag and the rights change.
   */
  function Castle(b: Board, dir: CastleDirection): (r: Board)
    ensures Mover(r) == Switch(Mover(b))
    ensures !r.hasEpPawn
    ensures forall d: CastleDirection :: !At(Rights(r), Mover(b), d)
    ensures forall d: CastleDirection :: At(Rights(r), Switch(Mover(b)), d) == At(Rights(b), Switch(Mover(b)), d)
    ensures r.pieces == b.pieces
  {
    Board(!b.isWhiteToMove, false,
      WhiteKingCastleAfter(b), WhiteQueenCastleAfter(b),
      BlackKingCastleAfter(b), BlackQueenCastleAfter(b),
      b.pieces)
  }

  // ---------------------------------------------------------------------------
  // Castling legality

  /** Without the flag for the mover and direction there is no castling. */
  lemma CanCastleNeedsRight(b: Board, dir: CastleDirection)
    requires !At(Rights(b), Mover(b), dir)
    ensures !CanCastle(b, dir)
  {
  }

  /**
   * Since nothing is ever attacked, castling reduces to the right, a rook on h1
   * and the squares of `CASTLE_EMPTY` being vacant.  The rooks enter only through
   * h1, whichever side moves and whichever way it castles.
   */
  lemma CanCastleReduces(b: Board, dir: CastleDirection)
    ensures CanCastle(b, dir)
        == (&& At(Rights(b), Mover(b), dir)
            && IsSet(MaskForPiece(b.pieces, Rook), H1)
            && (Occupied(b.pieces) & At(CASTLE_EMPTY, Mover(b), dir)) == EMPTY_BITBOARD)
  {
    MeetsToBit(MaskForPiece(b.pieces, Rook), H1);
  }

  /** An occupied square between king and rook forbids castling. */
  lemma CanCastleRefusesOccupied(b: Board, dir: CastleDirection, i: nat)
    requires i < |BetweenSquares(Mover(b), dir)|
    requires IsSet(Occupied(b.pieces), BetweenSquares(Mover(b), dir)[i])
    ensures !CanCastle(b, dir)
  {
    CanCastleReduces(b, dir);
    CastleEmptyIsBetweenSquares(Mover(b), dir, Occupied(b.pieces));
  }

  /**
   * For White castling king-side the board agrees with the status predicate
   * given the same rights, occupancy and rooks and nothing attacked.
   */
  lemma CanCastleAgreesWhiteKingSide(b: Board)
    requires b.isWhiteToMove
    ensures CanCastle(b, KingSide)
        == BoardStatuses.CanCastle(Status(b), KingSide, EMPTY_BITBOARD, Occupied(b.pieces), MaskForPiece(b.pieces, Rook))
  {
  }

  /**
   * With each arm's own rook square the board agrees with the status predicate
   * in every case, fed the board's attacked squares, occupancy and rooks.
   */
  lemma CanCastleCorrectedAgrees(b: Board, dir: CastleDirection)
    ensures CanCastleCorrected(b, dir)
        == BoardStatuses.CanCastle(Status(b), dir, Attacked(b), Occupied(b.pieces), MaskForPiece(b.pieces, Rook))
  {
    var s := Status(b);
    assert s.sideToMove == Mover(b);
    match (b.isWhiteToMove, dir)
    case (true, KingSide) =>
      assert At(ROOK_MASKS, White, KingSide) == ToBit(H1);
    case (true, QueenSide) =>
      assert At(ROOK_MASKS, White, QueenSide) == ToBit(A1);
    case (false, KingSide) =>
      assert At(ROOK_MASKS, Black, KingSide) == ToBit(H8);
    case (false, QueenSide) =>
      assert At(ROOK_MASKS, Black, QueenSide) == ToBit(A8);
  }

  /** The corrected predicate differs from the written one only in the rook guard. */
  lemma CanCastleCorrectedMatchesWhiteKingSide(b: Board)
    requires b.isWhiteToMove
    ensures CanCastleCorrected(b, KingSide) == CanCastle(b, KingSide)
  {
  }

  // ---------------------------------------------------------------------------
  // Castling transition

  /** Castling's status change is the corrected king move: both of the mover's rights go. */
  lemma CastleIsCorrectedKingMove(b: Board, dir: CastleDirection)
    ensures Status(Castle(b, dir)) == KingMoveCorrected(Status(b))
  {
    var r := KingMoveCorrected(Status(b)).hasRights;
    var c := Rights(Castle(b, dir));
    assert forall p: Player, d: CastleDirection :: At(c, p, d) == At(r, p, d);
    assert c.white == r.white && c.black == r.black by {
      assert At(c, White, KingSide) == At(r, White, KingSide);
      assert At(c, White, QueenSide) == At(r, White, QueenSide);
      assert At(c, Black, KingSide) == At(r, Black, KingSide);
      assert At(c, Black, QueenSide) == At(r, Black, QueenSide);
    }
  }

  /** Castling never restores a right. */
  lemma CastleRegainsNoRight(b: Board, dir: CastleDirection)
    ensures NoRightGained(Rights(Castle(b, dir)), Rights(b))
  {
  }

  /** The direction plays no part in the outcome while the pieces stay put. */
  lemma CastleIgnoresDirection(b: Board)
    ensures Castle(b, KingSide) == Castle(b, QueenSide)
  {
  }

  /** From White to move with all rights, castling gives the parameters false, false, false, false, true, true. */
  lemma CastleFromAllRightsWhiteToMove(pieces: PieceArrangement, dir: CastleDirection)
    ensures Castle(Board(true, false, true, true, true, true, pieces), dir)
        == Board(false, false, false, false, true, true, pieces)
  {
  }
}
