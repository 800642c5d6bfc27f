/** Board.gameResult: who won, a draw, or a game still in progress. */
module Outcome {
  import opened Colors
  import opened Positions
  import opened Transitions
  import opened Boards
  import opened Players

  /** The Result enum, with the winning colour named. */
  datatype GameResult = WhiteWins | BlackWins | Draw | NotFinished

  /** The draw conditions of gameResult, in the order gameResult evaluates them. */
  predicate IsDrawn(b: Board)
  {
    IsInStaleMate(b, b.turn) || b.movesWithoutEat == 50 || NotEnoughMaterial(b) || IsThreeTimesPosition(b)
  }

  /**
   * Board.gameResult: a checkmated White loses first, then a checkmated Black, then the
   * draw conditions; only a position that meets none of them is unfinished.
   */
  function Result(b: Board): (r: GameResult)
    ensures r == BlackWins <==> IsInCheckMate(b, Color.White)
    ensures r == WhiteWins <==> !IsInCheckMate(b, Color.White) && IsInCheckMate(b, Color.Black)
    ensures r == Draw <==> !IsInCheckMate(b, Color.White) && !IsInCheckMate(b, Color.Black) && IsDrawn(b)
    ensures r == NotFinished <==>
              !IsInCheckMate(b, Color.White) && !IsInCheckMate(b, Color.Black) && !IsDrawn(b)
  {
    if IsInCheckMate(b, Color.White) then BlackWins
    else if IsInCheckMate(b, Color.Black) then WhiteWins
    else if IsDrawn(b) then Draw
    else NotFinished
  }

  /** A side to move that no legal move gets out of trouble ends the game: mate or stalemate. */
  lemma NoEscapeEndsGame(b: Board)
    requires !CanEscape(b, b.turn)
    ensures Result(b) != NotFinished
  {
    if !IsInCheck(b, b.turn) {
      assert IsInStaleMate(b, b.turn);
    }
  }

  /** A decided game leaves the loser no accepted move: each is refused with LEFT_IN_CHECK. */
  lemma LoserCannotMove(b: Board, m: Move)
    requires Result(b) in {WhiteWins, BlackWins}
    ensures var loser := if Result(b) == WhiteWins then Color.Black else Color.White;
              m in LegalMoves(b, loser) ==> MakeMove(b, loser, m).moveStatus == LeftInCheck
  {
    var loser := if Result(b) == WhiteWins then Color.Black else Color.White;
    MateAndStalemateExclusive(b, loser);
  }
}
