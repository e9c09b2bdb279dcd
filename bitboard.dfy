/**
 * Bitboards: 64-bit masks with one bit per square.  Squares are numbered rank by
 * rank from a1 (bit 0) through h1 (bit 7) up to a8 (bit 56) and h8 (bit 63).
 */
module Bitboards {

  type Bitboard = bv64

  const EMPTY_BITBOARD: Bitboard := 0

  /** A square index, 0 (a1) to 63 (h8). */
  type Square = i: bv7 | i < 64

  const A1: Square := 0
  const B1: Square := 1
  const C1: Square := 2
  const D1: Square := 3
  const E1: Square := 4
  const F1: Square := 5
  const G1: Square := 6
  const H1: Square := 7
  const A8: Square := 56
  const B8: Square := 57
  const C8: Square := 58
  const D8: Square := 59
  const E8: Square := 60
  const F8: Square := 61
  const G8: Square := 62
  const H8: Square := 63

  /** The single-bit mask of a square. */
  function ToBit(sq: Square): (r: Bitboard)
    ensures r != EMPTY_BITBOARD && r & (r - 1) == EMPTY_BITBOARD
  {
    (1 as bv64) << sq
  }

  /** Whether the mask contains the square. */
  predicate IsSet(b: Bitboard, sq: Square) {
    (b >> sq) & 1 == 1
  }

  /** Whether the mask contains none of the listed squares. */
  predicate NoneSet(b: Bitboard, sqs: seq<Square>) {
    forall i :: 0 <= i < |sqs| ==> !IsSet(b, sqs[i])
  }

  /** Meeting the single-bit mask of a square is containing that square. */
  lemma MeetsToBit(b: Bitboard, sq: Square)
    ensures (b & ToBit(sq) != EMPTY_BITBOARD) == IsSet(b, sq)
  {
  }

  /** The single-bit mask of a square contains that square and no other. */
  lemma ToBitContainsOnly(sq: Square, other: Square)
    ensures IsSet(ToBit(sq), other) == (other == sq)
  {
  }
}
