/**
 * Histories of status transitions.  A game applies one transition per move;
 * these lemmas state what holds after any sequence of them.
 */
module RightsHistory {

  import opened Players
  import opened CastleDirections
  import opened BoardStatuses

  /** The move categories that have a status transition of their own. */
  datatype MoveCategory =
    | SideSwitch
    | Quiet
    | PawnDoublePush
    | KingStep
    | RookStep(dir: CastleDirection)

  /** The status after one move of the given category. */
  function Apply(s: BoardStatus, m: MoveCategory): BoardStatus {
    match m
    case SideSwitch => SwitchSides(s)
    case Quiet => QuietMove(s)
    case PawnDoublePush => DoublePawnPush(s)
    case KingStep => KingMove(s)
    case RookStep(dir) => RookMove(s, dir)
  }

  /** The status after the moves, in order. */
  function Play(s: BoardStatus, moves: seq<MoveCategory>): BoardStatus
    decreases |moves|
  {
    if moves == [] then s else Play(Apply(s, moves[0]), moves[1..])
  }

  /** Every single transition passes the turn and regains no right. */
  lemma ApplyAdvances(s: BoardStatus, m: MoveCategory)
    ensures Apply(s, m).sideToMove == Switch(s.sideToMove)
    ensures NoRightGained(Apply(s, m).hasRights, s.hasRights)
  {
  }

  /** Over any history, no castling right that was lost is ever restored. */
  lemma {:induction false} PlayRegainsNoRight(s: BoardStatus, moves: seq<MoveCategory>)
    ensures NoRightGained(Play(s, moves).hasRights, s.hasRights)
    decreases |moves|
  {
    if moves != [] {
      var next := Apply(s, moves[0]);
      ApplyAdvances(s, moves[0]);
      PlayRegainsNoRight(next, moves[1..]);
    }
  }

  /** A right absent at the start of a history is absent at its end. */
  lemma LostRightStaysLost(s: BoardStatus, moves: seq<MoveCategory>, p: Player, d: CastleDirection)
    requires !At(s.hasRights, p, d)
    ensures !At(Play(s, moves).hasRights, p, d)
  {
    PlayRegainsNoRight(s, moves);
  }

  /** After an even number of moves the same side is to move, after an odd number the other. */
  lemma {:induction false} PlaySideToMove(s: BoardStatus, moves: seq<MoveCategory>)
    ensures Play(s, moves).sideToMove == if |moves| % 2 == 0 then s.sideToMove else Switch(s.sideToMove)
    decreases |moves|
  {
    if moves != [] {
      var next := Apply(s, moves[0]);
      ApplyAdvances(s, moves[0]);
      PlaySideToMove(next, moves[1..]);
      SwitchInvolution(s.sideToMove);
    }
  }

  /** Playing one more move applies it to the status reached so far. */
  lemma {:induction false} PlayAppend(s: BoardStatus, moves: seq<MoveCategory>, m: MoveCategory)
    ensures Play(s, moves + [m]) == Apply(Play(s, moves), m)
    decreases |moves|
  {
    if moves != [] {
      assert (moves + [m])[1..] == moves[1..] + [m];
      PlayAppend(Apply(s, moves[0]), moves[1..], m);
    } else {
      assert [m][1..] == [];
    }
  }

  /**
   * The en-passant flag reflects the last move: set after a two-square pawn
   * advance, clear after any other board move, and kept by a side switch.
   */
  lemma EpFlagAfterLastMove(s: BoardStatus, moves: seq<MoveCategory>, m: MoveCategory)
    ensures Play(s, moves + [m]).hasEpPawn
        == (m == PawnDoublePush || (m == SideSwitch && Play(s, moves).hasEpPawn))
  {
    PlayAppend(s, moves, m);
  }
}
