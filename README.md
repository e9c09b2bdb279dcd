# Castling rights and turn state of the magnesium chess engine

This project models the part of the engine that tracks whose turn it is, whether the last move was a two-square pawn advance, and the four castling rights. It also models the engine's castling-legality tests. All of it is pure logic over booleans and 64-bit masks (`bv64` here). The model has three parts:

- `BoardStatus` (`board_status.dfy`). The record holds the side to move, the en-passant flag and a 2 x 2 table of rights indexed by player and direction. There is one transition per move category: `SwitchSides`, `QuietMove`, `DoublePawnPush`, `KingMove` and `RookMove`. `CanCastle` checks the stored right against the fixed tables `CASTLE_EMPTY`, `CASTLE_UNATTACKED` and `ROOK_MASKS`.
- The board that holds the same state as six booleans (`board.dfy`). In the original these six are compile-time parameters of the board's type; here they are ordinary fields of a datatype next to the piece arrangement. It has the attack stub `Attacked`, the hard-coded `CanCastle`, the four `*CastleAfter` helpers and `Castle`.
- `Player` (`player.dfy`), with `Switch`, `IsWhite`, `IsBlack` and the `WHITE`/`BLACK` constants.

Squares are bit indices in rank-major order: a1 = 0, h1 = 7, a8 = 56, h8 = 63. A square is a `bv7` below 64, so shifting by it needs no integer conversion.

The castling conditions are also restated square by square, following Article 3.8.2 of the FIDE Laws of Chess. That restatement is `BoardStatuses.CastlingAllowed`:

- the right is held;
- the squares between king and rook are vacant;
- the squares the king crosses and lands on are not attacked;
- a rook stands on its original square.

On the queen side, b1/b8 must be empty but may be attacked. The engine's masks do not include the king's own square among the squares that must not be attacked. The model follows the masks.

`rights_history.dfy` applies the transitions to any sequence of move categories. It proves that no right ever comes back, how the turn alternates and what the en-passant flag holds after the last move. `fixtures.dfy` restates the castling scenarios of the status tests as concrete lemmas. `findings.dfy` holds the two discrepancies below.

Where the design description and the code disagree, the model follows the code:

- The description says `king_move` revokes both of the mover's rights. The table at `src/board_status.rs:57-73` does something else: it revokes both king-side rights when White moves and both queen-side rights when Black moves. `KingMove` models that table literally, and `KingMoveCorrected` models the description.
- The description's end-to-end scenario says White keeps its queen-side right after castling king-side. `Castle` (`src/board.rs:75-96`) clears both of the mover's rights. The board type expected in `src/main.rs:20` agrees with the code, so the model clears both.

## Model

| member | source | states |
|---|---|---|
| `Players.Switch` | src/player.rs:12-17 | the result is the other player: never the argument, and White exactly when the argument is Black |
| `Players.IsWhite` | src/player.rs:18-23 | true exactly for White |
| `Players.IsBlack` | src/player.rs:24-26 | true exactly for Black, and always the negation of `IsWhite` |
| `Players.SwitchInvolution` | src/player.rs:12-17 | switching twice gives back the same player |
| `Players.NamedPlayers` | src/player.rs:29-30 | `WHITE` and `BLACK` denote White and Black, which the two predicates tell apart |
| `Bitboards.ToBit` | src/board_status.rs:20-21 | a square's mask is non-empty and has exactly one bit set |
| `Bitboards.MeetsToBit` | src/board_status.rs:34-35 | a mask meets a square's single-bit mask exactly when it contains that square |
| `Bitboards.ToBitContainsOnly` | src/board_status.rs:20-21 | a square's single-bit mask contains that square and no other |
| `PieceArrangements.OccupiedContains` | src/piece_arrangement.rs:12-13 | a square is occupied exactly when a White or a Black piece stands on it |
| `BoardStatuses.SwitchSides` | src/board_status.rs:38-43 | only the side to move changes, to the other player; the flag and all rights are kept |
| `BoardStatuses.SwitchSidesInvolution` | src/board_status.rs:38-43 | switching sides twice restores the status |
| `BoardStatuses.DoublePawnPush` | src/board_status.rs:45-51 | the turn passes, the en-passant flag is set and all rights are kept |
| `BoardStatuses.QuietMove` | src/board_status.rs:79-85 | the turn passes, the en-passant flag is cleared and all rights are kept |
| `BoardStatuses.KingMove` | src/board_status.rs:53-77 | the turn passes, the en-passant flag is cleared and no right goes from false to true |
| `BoardStatuses.KingMoveAsWritten` | src/board_status.rs:57-73 | a king move keeps exactly the rights outside one direction: the king side when White moves, the queen side when Black moves, for both players |
| `BoardStatuses.RookMove` | src/board_status.rs:87-116 | the turn passes, the flag is cleared, exactly the mover's right for that direction is cleared and the other three are kept |
| `BoardStatuses.KingMoveCorrected` | src/board_status.rs:53-77 | the turn passes, the flag is cleared, both of the mover's rights are cleared and the opponent's are kept |
| `BoardStatuses.CastleEmptyIsBetweenSquares` | src/board_status.rs:16-17 | each `CASTLE_EMPTY` mask misses an occupancy exactly when none of f1 g1 / b1 c1 d1 (mirrored for Black) is occupied |
| `BoardStatuses.CastleUnattackedIsKingPath` | src/board_status.rs:18-19 | each `CASTLE_UNATTACKED` mask misses an attack set exactly when none of f1 g1 / d1 c1 (mirrored for Black) is attacked |
| `BoardStatuses.CanCastleMeansCastlingAllowed` | src/board_status.rs:22-36 | `CanCastle` holds exactly when the mover holds the right, the squares between are vacant, the king's path is unattacked and a rook is on its home square |
| `BoardStatuses.CanCastleNeedsRight` | src/board_status.rs:28 | without the mover's right for the direction there is no castling, whatever the masks |
| `BoardStatuses.CanCastleRefusesOccupied` | src/board_status.rs:29-30 | any occupied square between king and rook forbids castling |
| `BoardStatuses.CanCastleRefusesAttacked` | src/board_status.rs:31-33 | any attacked square on the king's path forbids castling |
| `BoardStatuses.QueenSideKnightSquareMayBeAttacked` | src/board_status.rs:16-19 | b1/b8 is in the queen-side empty mask but not in the unattacked mask, and attacking it never changes the answer |
| `BoardStatuses.CanCastleIgnoresOpponentRights` | src/board_status.rs:28 | replacing the opponent's two rights with anything leaves `CanCastle` unchanged |
| `RightsHistory.ApplyAdvances` | src/board_status.rs:38-116 | every transition passes the turn and gains no right |
| `RightsHistory.PlayRegainsNoRight` | src/board_status.rs:38-116 | after any sequence of moves, every right that is held was already held at the start |
| `RightsHistory.LostRightStaysLost` | src/board_status.rs:38-116 | a right absent at the start of a sequence of moves is absent at its end |
| `RightsHistory.PlaySideToMove` | src/board_status.rs:38-116 | after an even number of moves the same side is to move, after an odd number the other |
| `RightsHistory.PlayAppend` | src/board_status.rs:38-116 | playing one more move applies that move's transition to the status reached |
| `RightsHistory.EpFlagAfterLastMove` | src/board_status.rs:45-91 | after a sequence the flag is set exactly when the last move was a double push, or a side switch following a status that had it set |
| `Boards.Attacked` | src/board.rs:37-40 | no square is ever reported attacked |
| `Boards.Castle` | src/board.rs:87-100 | the turn passes, the flag is cleared, both of the mover's rights are false, the opponent's are kept and the pieces are unchanged |
| `Boards.CanCastleNeedsRight` | src/board.rs:47-71 | without the flag for the mover and direction there is no castling |
| `Boards.CanCastleReduces` | src/board.rs:42-73 | castling holds exactly when the right is held, a rook is on h1 and the `CASTLE_EMPTY` squares are vacant; attacks play no part, and rooks count only on h1 in all four arms |
| `Boards.CanCastleRefusesOccupied` | src/board.rs:47-71 | an occupied square between king and rook (0x60 / 0xE and the Black mirrors) forbids castling |
| `Boards.CanCastleAgreesWhiteKingSide` | src/board.rs:48-53 | for White king-side the board agrees with the status predicate, given the same rights, occupancy and rooks and nothing attacked |
| `Boards.CanCastleCorrectedAgrees` | src/board.rs:42-73 | with each arm's own rook square, the board agrees with the status predicate in every case |
| `Boards.CanCastleCorrectedMatchesWhiteKingSide` | src/board.rs:48-53 | the corrected and written predicates coincide for White king-side |
| `Boards.CastleIsCorrectedKingMove` | src/board.rs:75-96 | castling changes the status as the corrected king move does |
| `Boards.CastleRegainsNoRight` | src/board.rs:75-96 | castling never sets a right that was clear |
| `Boards.CastleIgnoresDirection` | src/board.rs:87-100 | both directions give the same board, because the pieces are not moved |
| `Boards.CastleFromAllRightsWhiteToMove` | src/board.rs:87-96 | from White to move with all rights, castling gives the parameters false, false, false, false, true, true |
| `BoardStatusFixtures.WhiteUnobstructedUnattacked` | src/board_status.rs:162-169 | the eight White scenarios with a clear, unattacked back rank give the expected answers |
| `BoardStatusFixtures.BlackUnobstructedUnattacked` | src/board_status.rs:171-178 | the eight Black scenarios with a clear, unattacked back rank give the expected answers |
| `BoardStatusFixtures.Obstructed` | src/board_status.rs:180-184 | a piece between king and rook forbids castling on both sides for both players |
| `BoardStatusFixtures.Attacked` | src/board_status.rs:186-190 | an attacked square on the king's path forbids castling on both sides for both players |
| `BoardStatusFixtures.OpponentMissingRights` | src/board_status.rs:192-195 | the opponent lacking both rights does not stop the side to move |
| `Findings.KingMoveRevokesOpponentRight` | src/board_status.rs:57-73 | from White to move with all rights, the written king move gives [[false, true], [false, true]]; the corrected one gives [[false, false], [true, true]] |
| `Findings.KingMoveAsWrittenMissesIntent` | src/board_status.rs:57-73 | with all rights held, the written king move leaves the mover one right, strips the opponent of one, and differs from the corrected move |
| `Findings.BlackCastleRefusedByH1Guard` | src/board.rs:60-65 | Black with rooks on a8 and h8 and f8, g8 empty is refused king-side castling, which the status predicate and the corrected guard allow |
| `Findings.WhiteQueenSideWithoutRookAllowed` | src/board.rs:54-59 | White with no rook on a1 is allowed queen-side castling, which the status predicate and the corrected guard refuse |

## Left out

- `src/main.rs` is a printing entry point. It calls `DEFAULT_BOARD` and the board's `quiet_move`, `double_pawn_push` and `fen`, none of which are in `src/board.rs`. Only its final `castle` step and expected board type are modelled, in `Boards.CastleFromAllRightsWhiteToMove`.
- `src/piece_arrangement.rs` declares only a struct. It is carried as a value with the struct's fields. `occupied()` is the union of the two player masks and `mask_for_piece` picks the matching field. Neither query's source is part of this model, and the placement primitives and their invariants do not exist in the shown code.
- The square module is not part of this model. Squares are the bit indices given above.
- Attack generation is a stub in the original. The board's `Attacked` returns the empty mask, and the status predicate takes the attacked squares as a parameter.
- The original encodes the board's six flags as compile-time parameters of the board's type. They are runtime booleans here.
- `PieceType` is unused by the code modelled here. `CastleDirection` is a two-value datatype and `Bitboard` is `bv64`.
- FEN output, en-passant target squares, move counters and the relocation of pieces during castling are not in the shown code.
- `RightsHistory.Apply` uses the written `KingMove`, so the history lemmas hold for the code as it is. They also hold for the corrected table, since it too only clears rights.

## Findings

| source | as written | input that shows it | evidently intended | confidence | as-written member | corrected member |
|---|---|---|---|---|---|---|
| src/board_status.rs:57-73 | the king-side entries are kept only when Black moves, and the queen-side entries only when White moves, for both players | White to move with all four rights: the king move leaves White's queen-side and Black's queen-side rights and clears Black's king-side right | the mover loses both rights and the opponent keeps both, as `castle` does at src/board.rs:75-86 | high; not executed | `Findings.KingMoveRevokesOpponentRight` | `BoardStatuses.KingMoveCorrected` |
| src/board.rs:54-71 | the rook guard tests h1 in all four arms | Black to move with all rights, rooks 0x8100000000000000, empty f8/g8: castling is refused; White with rook only on h1: queen-side castling is allowed | test the castle's own rook square (h1, a1, h8, a8), as `ROOK_MASKS` does at src/board_status.rs:20-21 | high; not executed | `Findings.BlackCastleRefusedByH1Guard` | `Boards.CanCastleCorrected` |
