/** The transposition-table record of logic/player/AI/CachedData.java. */
module Caching {
  import opened Colors
  import opened Scores

  /** The value a record holds when the table receives it. */
  datatype CachedEntry = CachedEntry(depth: int, score: Score, turnColor: Color)

  /** CachedData: depth, score and turn colour, each with a getter and a setter. */
  class CachedData {
    var depth: int
    var score: Score
    var turnColor: Color

    /** A fresh record: depth 0, score 0, White to move. */
    constructor()
      ensures depth == 0 && score == Val(0.0) && turnColor == White
    {
      depth := 0;
      score := Val(0.0);
      turnColor := White;
    }

    function GetDepth(): int
      reads this
    {
      depth
    }

    function GetScore(): Score
      reads this
    {
      score
    }

    function GetTurnColor(): Color
      reads this
    {
      turnColor
    }

    /** setDepth changes the depth and nothing else. */
    method SetDepth(d: int)
      modifies this
      ensures GetDepth() == d && score == old(score) && turnColor == old(turnColor)
    {
      depth := d;
    }

    /** setScore changes the score and nothing else. */
    method SetScore(s: Score)
      modifies this
      ensures GetScore() == s && depth == old(depth) && turnColor == old(turnColor)
    {
      score := s;
    }

    /** setTurnColor changes the turn colour and nothing else. */
    method SetTurnColor(c: Color)
      modifies this
      ensures GetTurnColor() == c && depth == old(depth) && score == old(score)
    {
      turnColor := c;
    }

    /** The record's current contents. */
    function Entry(): CachedEntry
      reads this
    {
      CachedEntry(depth, score, turnColor)
    }
  }
}
