/** The two directions a king may castle in. */
module CastleDirections {

  datatype CastleDirection = KingSide | QueenSide

  /** The number of directions; tables indexed by a direction have this many columns. */
  const COUNT: nat := 2
}
