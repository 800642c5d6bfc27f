/** The two sides of the game and the rank direction their pawns advance in (logic/Color.java). */
module Colors {
  datatype Color = White | Black

  /**
   * Pawn direction along the square index: White advances towards square 0 and Black
   * towards square 63. The helpers of the same name in Pawn, Mobility and KingSafety
   * all use this definition.
   */
  function Direction(c: Color): (d: int)
    ensures d == -1 <==> c == White
    ensures d == 1 <==> c == Black
  {
    match c
    case White => -1
    case Black => 1
  }

  /** The other side (Board.getOpponent, Player.getRival). */
  function Opponent(c: Color): (o: Color)
    ensures o != c
  {
    match c
    case White => Black
    case Black => White
  }

  /** The two directions are negations of each other, and every colour is one of the two. */
  lemma DirectionsOpposite(c: Color)
    ensures Direction(Opponent(c)) == -Direction(c)
    ensures Opponent(Opponent(c)) == c
    ensures c == White || c == Black
  {
  }
}
