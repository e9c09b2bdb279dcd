/**
 * The turn and castling-rights state of a position: whose move it is, whether the
 * last move was a two-square pawn advance, and the four castling rights.  Every
 * transition is a pure function returning a new status, one per move category.
 */
module BoardStatuses {

  import opened Players
  import opened CastleDirections
  import opened Bitboards

  /** One entry per castling direction: the inner `[T; CastleDirection::COUNT]` row. */
  datatype ByDirection<T> = ByDirection(kingSide: T, queenSide: T)

  /** One row per player: the outer `[_; Player::COUNT]` array. */
  datatype ByPlayer<T> = ByPlayer(white: T, black: T)

  /** A 2 x 2 table indexed first by player, then by direction. */
  type Table<T> = ByPlayer<ByDirection<T>>

  function Row<T>(t: Table<T>, p: Player): ByDirection<T> {
    match p
    case White => t.white
    case Black => t.black
  }

  /** `t[p][d]`. */
  function At<T>(t: Table<T>, p: Player, d: CastleDirection): T {
    match d
    case KingSide => Row(t, p).kingSide
    case QueenSide => Row(t, p).queenSide
  }

  /** The table with player `p`'s row replaced. */
  function WithRow<T>(t: Table<T>, p: Player, row: ByDirection<T>): (r: Table<T>)
    ensures Row(r, p) == row && Row(r, Switch(p)) == Row(t, Switch(p))
  {
    match p
    case White => t.(white := row)
    case Black => t.(black := row)
  }

  datatype BoardStatus = BoardStatus(sideToMove: Player, hasEpPawn: bool, hasRights: Table<bool>)

  /** Squares that must be empty: f1 g1 / b1 c1 d1 for White, f8 g8 / b8 c8 d8 for Black. */
  const CASTLE_EMPTY: Table<Bitboard> :=
    ByPlayer(ByDirection(0x60, 0xE), ByDirection(0x6000_0000_0000_0000, 0x0E00_0000_0000_0000))

  /** Squares the king crosses or lands on, which must not be attacked. */
  const CASTLE_UNATTACKED: Table<Bitboard> :=
    ByPlayer(ByDirection(0x60, 0xC), ByDirection(0x6000_0000_0000_0000, 0x0C00_0000_0000_0000))

  /** The rook's starting square for each castle. */
  const ROOK_MASKS: Table<Bitboard> :=
    ByPlayer(ByDirection(ToBit(H1), ToBit(A1)), ByDirection(ToBit(H8), ToBit(A8)))

  /** Whether the side to move may castle in direction `dir` now. */
  predicate CanCastle(s: BoardStatus, dir: CastleDirection, attacked: Bitboard, occupied: Bitboard, rooks: Bitboard) {
    && At(s.hasRights, s.sideToMove, dir)
    && (occupied & At(CASTLE_EMPTY, s.sideToMove, dir)) == EMPTY_BITBOARD
    && (attacked & At(CASTLE_UNATTACKED, s.sideToMove, dir)) == EMPTY_BITBOARD
    && (rooks & At(ROOK_MASKS, s.sideToMove, dir)) != EMPTY_BITBOARD
  }

  /** No right is true after that was false before. */
  predicate NoRightGained(after: Table<bool>, before: Table<bool>) {
    forall p: Player, d: CastleDirection :: At(after, p, d) ==> At(before, p, d)
  }

  /** What every move category does: the turn passes and no right is regained. */
  predicate Advances(before: BoardStatus, after: BoardStatus) {
    && after.sideToMove == Switch(before.sideToMove)
    && NoRightGained(after.hasRights, before.hasRights)
  }

  /** A side flip without a board move. */
  function SwitchSides(s: BoardStatus): (r: BoardStatus)
    ensures r.sideToMove == Switch(s.sideToMove)
    ensures r.hasEpPawn == s.hasEpPawn && r.hasRights == s.hasRights
  {
    s.(sideToMove := Switch(s.sideToMove))
  }

  /** A two-square pawn advance: the opponent may now capture en passant. */
  function DoublePawnPush(s: BoardStatus): (r: BoardStatus)
    ensures Advances(s, r)
    ensures r.hasEpPawn
    ensures r.hasRights == s.hasRights
  {
    s.(sideToMove := Switch(s.sideToMove), hasEpPawn := true)
  }

  /**
   * A king move, with the revocation table as written: every king-side right is
   * revoked when White moves and every queen-side right when Black moves.
   */
  function KingMove(s: BoardStatus): (r: BoardStatus)
    ensures Advances(s, r)
    ensures !r.hasEpPawn
  {
    s.(sideToMove := Switch(s.sideToMove), hasEpPawn := false,
       hasRights := ByPlayer(
         ByDirection(
           IsBlack(s.sideToMove) && At(s.hasRights, White, KingSide),
           IsWhite(s.sideToMove) && At(s.hasRights, White, QueenSide)),
         ByDirection(
           IsBlack(s.sideToMove) && At(s.hasRights, Black, KingSide),
           IsWhite(s.sideToMove) && At(s.hasRights, Black, QueenSide))))
  }

  /** A move that is not a capture, castle, promotion or two-square pawn advance. */
  function QuietMove(s: BoardStatus): (r: BoardStatus)
    ensures Advances(s, r)
    ensures !r.hasEpPawn
    ensures r.hasRights == s.hasRights
  {
    s.(sideToMove := Switch(s.sideToMove), hasEpPawn := false)
  }

  /** A move of the rook that castles in direction `dir`. */
  function RookMove(s: BoardStatus, dir: CastleDirection): (r: BoardStatus)
    ensures Advances(s, r)
    ensures !r.hasEpPawn
    ensures forall p: Player, d: CastleDirection ::
      At(r.hasRights, p, d) == (At(s.hasRights, p, d) && !(p == s.sideToMove && d == dir))
  {
    s.(sideToMove := Switch(s.sideToMove), hasEpPawn := false,
       hasRights := ByPlayer(
         ByDirection(
           (IsBlack(s.sideToMove) || dir != KingSide) && At(s.hasRights, White, KingSide),
           (IsBlack(s.sideToMove) || dir != QueenSide) && At(s.hasRights, White, QueenSide)),
         ByDirection(
           (IsWhite(s.sideToMove) || dir != KingSide) && At(s.hasRights, Black, KingSide),
           (IsWhite(s.sideToMove) || dir != QueenSide) && At(s.hasRights, Black, QueenSide))))
  }

  /**
   * The king move the status design describes: both of the mover's rights are
   * revoked and the opponent's are kept.
   */
  function KingMoveCorrected(s: BoardStatus): (r: BoardStatus)
    ensures Advances(s, r)
    ensures !r.hasEpPawn
    ensures forall p: Player, d: CastleDirection ::
      At(r.hasRights, p, d) == (At(s.hasRights, p, d) && p != s.sideToMove)
  {
    s.(sideToMove := Switch(s.sideToMove), hasEpPawn := false,
       hasRights := WithRow(s.hasRights, s.sideToMove, ByDirection(false, false)))
  }

  // ---------------------------------------------------------------------------
  // The castling conditions square by square (Article 3.8.2 of the FIDE Laws of Chess)

  /** The squares between king and rook, which must be vacant. */
  function BetweenSquares(p: Player, d: CastleDirection): seq<Square> {
    match (p, d)
    case (White, KingSide) => [F1, G1]
    case (White, QueenSide) => [B1, C1, D1]
    case (Black, KingSide) => [F8, G8]
    case (Black, QueenSide) => [B8, C8, D8]
  }

  /** The squares the king crosses and lands on, which must not be attacked. */
  function KingPathSquares(p: Player, d: CastleDirection): seq<Square> {
    match (p, d)
    case (White, KingSide) => [F1, G1]
    case (White, QueenSide) => [D1, C1]
    case (Black, KingSide) => [F8, G8]
    case (Black, QueenSide) => [D8, C8]
  }

  /** The rook's original square. */
  function RookHome(p: Player, d: CastleDirection): Square {
    match (p, d)
    case (White, KingSide) => H1
    case (White, QueenSide) => A1
    case (Black, KingSide) => H8
    case (Black, QueenSide) => A8
  }

  /** Castling as the rules state it, given whether the right is still held. */
  predicate CastlingAllowed(right: bool, p: Player, d: CastleDirection, attacked: Bitboard, occupied: Bitboard, rooks: Bitboard) {
    && right
    && NoneSet(occupied, BetweenSquares(p, d))
    && NoneSet(attacked, KingPathSquares(p, d))
    && IsSet(rooks, RookHome(p, d))
  }

  /** Two listed squares are none set exactly when neither is set. */
  lemma NoneSetOfTwo(b: Bitboard, sqs: seq<Square>)
    requires |sqs| == 2
    ensures NoneSet(b, sqs) == (!IsSet(b, sqs[0]) && !IsSet(b, sqs[1]))
  {
  }

  /** Three listed squares are none set exactly when none of them is set. */
  lemma NoneSetOfThree(b: Bitboard, sqs: seq<Square>)
    requires |sqs| == 3
    ensures NoneSet(b, sqs) == (!IsSet(b, sqs[0]) && !IsSet(b, sqs[1]) && !IsSet(b, sqs[2]))
  {
  }

  // The six masks of the two tables, each checked against its squares on its own.

  lemma MaskF1G1(b: Bitboard)
    ensures ((b & 0x60) == EMPTY_BITBOARD) == (!IsSet(b, F1) && !IsSet(b, G1))
  {
  }

  lemma MaskB1C1D1(b: Bitboard)
    ensures ((b & 0xE) == EMPTY_BITBOARD) == (!IsSet(b, B1) && !IsSet(b, C1) && !IsSet(b, D1))
  {
  }

  lemma MaskD1C1(b: Bitboard)
    ensures ((b & 0xC) == EMPTY_BITBOARD) == (!IsSet(b, D1) && !IsSet(b, C1))
  {
  }

  lemma MaskF8G8(b: Bitboard)
    ensures ((b & 0x6000_0000_0000_0000) == EMPTY_BITBOARD) == (!IsSet(b, F8) && !IsSet(b, G8))
  {
  }

  lemma MaskB8C8D8(b: Bitboard)
    ensures ((b & 0x0E00_0000_0000_0000) == EMPTY_BITBOARD) == (!IsSet(b, B8) && !IsSet(b, C8) && !IsSet(b, D8))
  {
  }

  lemma MaskD8C8(b: Bitboard)
    ensures ((b & 0x0C00_0000_0000_0000) == EMPTY_BITBOARD) == (!IsSet(b, D8) && !IsSet(b, C8))
  {
  }

  /** `CASTLE_EMPTY[p][d]` is the mask of the squares between king and rook. */
  lemma CastleEmptyIsBetweenSquares(p: Player, d: CastleDirection, occupied: Bitboard)
    ensures ((occupied & At(CASTLE_EMPTY, p, d)) == EMPTY_BITBOARD) == NoneSet(occupied, BetweenSquares(p, d))
  {
    var sqs := BetweenSquares(p, d);
    match (p, d)
    case (White, KingSide) =>
      NoneSetOfTwo(occupied, sqs);
      MaskF1G1(occupied);
    case (White, QueenSide) =>
      NoneSetOfThree(occupied, sqs);
      MaskB1C1D1(occupied);
    case (Black, KingSide) =>
      NoneSetOfTwo(occupied, sqs);
      MaskF8G8(occupied);
    case (Black, QueenSide) =>
      NoneSetOfThree(occupied, sqs);
      MaskB8C8D8(occupied);
  }

  /** `CASTLE_UNATTACKED[p][d]` is the mask of the squares on the king's path. */
  lemma CastleUnattackedIsKingPath(p: Player, d: CastleDirection, attacked: Bitboard)
    ensures ((attacked & At(CASTLE_UNATTACKED, p, d)) == EMPTY_BITBOARD) == NoneSet(attacked, KingPathSquares(p, d))
  {
    var sqs := KingPathSquares(p, d);
    NoneSetOfTwo(attacked, sqs);
    match (p, d)
    case (White, KingSide) => MaskF1G1(attacked);
    case (White, QueenSide) => MaskD1C1(attacked);
    case (Black, KingSide) => MaskF8G8(attacked);
    case (Black, QueenSide) => MaskD8C8(attacked);
  }

  /**
   * `CanCastle` holds exactly when the mover still has the right, the squares
   * between king and rook are vacant, the king's path is unattacked and a rook
   * stands on its original square.
   */
  lemma CanCastleMeansCastlingAllowed(s: BoardStatus, dir: CastleDirection, attacked: Bitboard, occupied: Bitboard, rooks: Bitboard)
    ensures CanCastle(s, dir, attacked, occupied, rooks)
        == CastlingAllowed(At(s.hasRights, s.sideToMove, dir), s.sideToMove, dir, attacked, occupied, rooks)
  {
    CastleEmptyIsBetweenSquares(s.sideToMove, dir, occupied);
    CastleUnattackedIsKingPath(s.sideToMove, dir, attacked);
  }

  /** Without the stored right there is no castling, whatever the masks. */
  lemma CanCastleNeedsRight(s: BoardStatus, dir: CastleDirection, attacked: Bitboard, occupied: Bitboard, rooks: Bitboard)
    requires !At(s.hasRights, s.sideToMove, dir)
    ensures !CanCastle(s, dir, attacked, occupied, rooks)
  {
  }

  /** An occupied square between king and rook forbids castling. */
  lemma CanCastleRefusesOccupied(s: BoardStatus, dir: CastleDirection, attacked: Bitboard, occupied: Bitboard, rooks: Bitboard, i: nat)
    requires i < |BetweenSquares(s.sideToMove, dir)|
    requires IsSet(occupied, BetweenSquares(s.sideToMove, dir)[i])
    ensures !CanCastle(s, dir, attacked, occupied, rooks)
  {
    CastleEmptyIsBetweenSquares(s.sideToMove, dir, occupied);
  }

  /** An attacked square on the king's path forbids castling. */
  lemma CanCastleRefusesAttacked(s: BoardStatus, dir: CastleDirection, attacked: Bitboard, occupied: Bitboard, rooks: Bitboard, i: nat)
    requires i < |KingPathSquares(s.sideToMove, dir)|
    requires IsSet(attacked, KingPathSquares(s.sideToMove, dir)[i])
    ensures !CanCastle(s, dir, attacked, occupied, rooks)
  {
    CastleUnattackedIsKingPath(s.sideToMove, dir, attacked);
  }

  /** The b-file square of the mover's back rank. */
  function QueenKnightSquare(p: Player): Square {
    match p
    case White => B1
    case Black => B8
  }

  /**
   * On the queen side the b-file square must be empty but may be attacked:
   * adding it to the attacked set never changes the answer.
   */
  lemma QueenSideKnightSquareMayBeAttacked(s: BoardStatus, attacked: Bitboard, occupied: Bitboard, rooks: Bitboard)
    ensures IsSet(At(CASTLE_EMPTY, s.sideToMove, QueenSide), QueenKnightSquare(s.sideToMove))
    ensures !IsSet(At(CASTLE_UNATTACKED, s.sideToMove, QueenSide), QueenKnightSquare(s.sideToMove))
    ensures CanCastle(s, QueenSide, attacked | ToBit(QueenKnightSquare(s.sideToMove)), occupied, rooks)
        == CanCastle(s, QueenSide, attacked, occupied, rooks)
  {
    var b := ToBit(QueenKnightSquare(s.sideToMove));
    var m := At(CASTLE_UNATTACKED, s.sideToMove, QueenSide);
    assert (b & m) == 0;
    assert ((attacked | b) & m) == (attacked & m) | (b & m);
  }

  /** The opponent's rights play no part in whether the side to move may castle. */
  lemma CanCastleIgnoresOpponentRights(s: BoardStatus, other: ByDirection<bool>, dir: CastleDirection, attacked: Bitboard, occupied: Bitboard, rooks: Bitboard)
    ensures CanCastle(s.(hasRights := WithRow(s.hasRights, Switch(s.sideToMove), other)), dir, attacked, occupied, rooks)
        == CanCastle(s, dir, attacked, occupied, rooks)
  {
    var t := s.(hasRights := WithRow(s.hasRights, Switch(s.sideToMove), other));
    SwitchInvolution(s.sideToMove);
    assert Row(t.hasRights, s.sideToMove) == Row(s.hasRights, s.sideToMove);
    assert At(t.hasRights, t.sideToMove, dir) == At(s.hasRights, s.sideToMove, dir);
  }

  /** Switching sides twice restores the status. */
  lemma SwitchSidesInvolution(s: BoardStatus)
    ensures SwitchSides(SwitchSides(s)) == s
  {
    SwitchInvolution(s.sideToMove);
  }

  /**
   * The king-move table as written: it keeps exactly the rights in the direction
   * that is not revoked for the mover, for both players alike.
   */
  lemma KingMoveAsWritten(s: BoardStatus)
    ensures forall p: Player, d: CastleDirection ::
      At(KingMove(s).hasRights, p, d)
        == (At(s.hasRights, p, d) && d != (if s.sideToMove == White then KingSide else QueenSide))
  {
  }
}
