/** The two sides of a chess game and the operations on them. */
module Players {

  datatype Player = White | Black

  /** The number of players; tables indexed by a player have this many rows. */
  const COUNT: nat := 2

  /** The other side. */
  function Switch(p: Player): (r: Player)
    ensures r != p
    ensures IsWhite(r) == IsBlack(p)
  {
    match p
    case White => Black
    case Black => White
  }

  function IsWhite(p: Player): (r: bool)
    ensures r <==> p == White
  {
    match p
    case White => true
    case Black => false
  }

  function IsBlack(p: Player): (r: bool)
    ensures r <==> p == Black
    ensures r == !IsWhite(p)
  {
    !IsWhite(p)
  }

  const WHITE: Player := White
  const BLACK: Player := Black

  /** Switching twice gives back the same side. */
  lemma SwitchInvolution(p: Player)
    ensures Switch(Switch(p)) == p
  {
  }

  /** The named constants denote the two sides and are told apart by the predicates. */
  lemma NamedPlayers()
    ensures WHITE == White && BLACK == Black
    ensures IsWhite(WHITE) && !IsBlack(WHITE)
    ensures IsBlack(BLACK) && !IsWhite(BLACK)
  {
  }
}
