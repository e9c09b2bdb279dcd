/** The castling scenarios of the status tests, as concrete facts about the model. */
module BoardStatusFixtures {

  import opened Players
  import opened CastleDirections
  import opened BoardStatuses

  function RightsTable(wk: bool, wq: bool, bk: bool, bq: bool): Table<bool> {
    ByPlayer(ByDirection(wk, wq), ByDirection(bk, bq))
  }

  const ALL_RIGHTS_WHITE_TO_MOVE: BoardStatus := BoardStatus(White, false, RightsTable(true, true, true, true))
  const WHITE_MISSING_KING_WHITE_TO_MOVE: BoardStatus := ALL_RIGHTS_WHITE_TO_MOVE.(hasRights := RightsTable(false, true, true, true))
  const WHITE_MISSING_QUEEN_WHITE_TO_MOVE: BoardStatus := ALL_RIGHTS_WHITE_TO_MOVE.(hasRights := RightsTable(true, false, true, true))
  const WHITE_MISSING_BOTH_WHITE_TO_MOVE: BoardStatus := ALL_RIGHTS_WHITE_TO_MOVE.(hasRights := RightsTable(false, false, true, true))
  const ALL_RIGHTS_BLACK_TO_MOVE: BoardStatus := ALL_RIGHTS_WHITE_TO_MOVE.(sideToMove := Black)
  const BLACK_MISSING_KING_BLACK_TO_MOVE: BoardStatus := ALL_RIGHTS_BLACK_TO_MOVE.(hasRights := RightsTable(true, true, false, true))
  const BLACK_MISSING_QUEEN_BLACK_TO_MOVE: BoardStatus := ALL_RIGHTS_BLACK_TO_MOVE.(hasRights := RightsTable(true, true, true, false))
  const BLACK_MISSING_BOTH_BLACK_TO_MOVE: BoardStatus := ALL_RIGHTS_BLACK_TO_MOVE.(hasRights := RightsTable(true, true, false, false))

  /** White to move, nothing in the way and nothing attacked. */
  lemma WhiteUnobstructedUnattacked()
    ensures CanCastle(ALL_RIGHTS_WHITE_TO_MOVE, KingSide, 0, 0xFF91, 0x81)
    ensures CanCastle(ALL_RIGHTS_WHITE_TO_MOVE, QueenSide, 0, 0xFF91, 0x81)
    ensures !CanCastle(WHITE_MISSING_KING_WHITE_TO_MOVE, KingSide, 0, 0xFF51, 0x41)
    ensures CanCastle(WHITE_MISSING_KING_WHITE_TO_MOVE, QueenSide, 0, 0xFF51, 0x41)
    ensures CanCastle(WHITE_MISSING_QUEEN_WHITE_TO_MOVE, KingSide, 0, 0xFF92, 0x82)
    ensures !CanCastle(WHITE_MISSING_QUEEN_WHITE_TO_MOVE, QueenSide, 0, 0xFF92, 0x82)
    ensures !CanCastle(WHITE_MISSING_BOTH_WHITE_TO_MOVE, KingSide, 0, 0xFF52, 0x42)
    ensures !CanCastle(WHITE_MISSING_BOTH_WHITE_TO_MOVE, QueenSide, 0, 0xFF52, 0x42)
  {
  }

  /** Black to move, nothing in the way and nothing attacked. */
  lemma BlackUnobstructedUnattacked()
    ensures CanCastle(ALL_RIGHTS_BLACK_TO_MOVE, KingSide, 0, 0x91FF_0000_0000_0000, 0x8100_0000_0000_0000)
    ensures CanCastle(ALL_RIGHTS_BLACK_TO_MOVE, QueenSide, 0, 0x91FF_0000_0000_0000, 0x8100_0000_0000_0000)
    ensures !CanCastle(BLACK_MISSING_KING_BLACK_TO_MOVE, KingSide, 0, 0x51FF_0000_0000_0000, 0x4100_0000_0000_0000)
    ensures CanCastle(BLACK_MISSING_KING_BLACK_TO_MOVE, QueenSide, 0, 0x51FF_0000_0000_0000, 0x4100_0000_0000_0000)
    ensures CanCastle(BLACK_MISSING_QUEEN_BLACK_TO_MOVE, KingSide, 0, 0x92FF_0000_0000_0000, 0x8200_0000_0000_0000)
    ensures !CanCastle(BLACK_MISSING_QUEEN_BLACK_TO_MOVE, QueenSide, 0, 0x92FF_0000_0000_0000, 0x8200_0000_0000_0000)
    ensures !CanCastle(BLACK_MISSING_BOTH_BLACK_TO_MOVE, KingSide, 0, 0x52FF_0000_0000_0000, 0x4200_0000_0000_0000)
    ensures !CanCastle(BLACK_MISSING_BOTH_BLACK_TO_MOVE, QueenSide, 0, 0x52FF_0000_0000_0000, 0x4200_0000_0000_0000)
  {
  }

  /** A piece between king and rook, nothing attacked. */
  lemma Obstructed()
    ensures !CanCastle(ALL_RIGHTS_WHITE_TO_MOVE, KingSide, 0, 0xB1, 0x81)
    ensures !CanCastle(ALL_RIGHTS_WHITE_TO_MOVE, QueenSide, 0, 0x99, 0x81)
    ensures !CanCastle(ALL_RIGHTS_BLACK_TO_MOVE, KingSide, 0, 0xB100_0000_0000_0000, 0x8100_0000_0000_0000)
    ensures !CanCastle(ALL_RIGHTS_BLACK_TO_MOVE, QueenSide, 0, 0x9900_0000_0000_0000, 0x8100_0000_0000_0000)
  {
  }

  /** Nothing in the way, but the king's path attacked. */
  lemma Attacked()
    ensures !CanCastle(ALL_RIGHTS_WHITE_TO_MOVE, KingSide, 0x80_4122_1400_1422, 0x80091, 0x81)
    ensures !CanCastle(ALL_RIGHTS_WHITE_TO_MOVE, QueenSide, 0x404_0404_04BB_0404, 0x40091, 0x81)
    ensures !CanCastle(ALL_RIGHTS_BLACK_TO_MOVE, KingSide, 0x4428_0028_4482_0100, 0x9100_1000_0000_0000, 0x8100_0000_0000_0000)
    ensures !CanCastle(ALL_RIGHTS_BLACK_TO_MOVE, QueenSide, 0x4428_0028_4482_0100, 0x9100_1000_0000_0000, 0x8100_0000_0000_0000)
  {
  }

  /** The opponent lacking rights does not stop the side to move. */
  lemma OpponentMissingRights()
    ensures CanCastle(SwitchSides(BLACK_MISSING_BOTH_BLACK_TO_MOVE), KingSide, 0, 0xFF91, 0x81)
    ensures CanCastle(SwitchSides(WHITE_MISSING_BOTH_WHITE_TO_MOVE), KingSide, 0, 0x91FF_0000_0000_0000, 0x8100_0000_0000_0000)
    ensures CanCastle(SwitchSides(BLACK_MISSING_BOTH_BLACK_TO_MOVE), QueenSide, 0, 0xFF91, 0x81)
    ensures CanCastle(SwitchSides(WHITE_MISSING_BOTH_WHITE_TO_MOVE), QueenSide, 0, 0x91FF_0000_0000_0000, 0x8100_0000_0000_0000)
  {
  }
}
