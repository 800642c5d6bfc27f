/** The piece-location term of the evaluation (logic/player/AI/PieceLocation.java). */
module PieceLocation {
  import opened Wrappers
  import opened Colors
  import opened Pieces
  import opened GameStages

  const EarlyQueenDevelopmentPunishment: real := -0.5
  const PieceSquareTableReducer: real := 0.8
  /** Board.size, which this revision of Board does not declare; the term needs it to be 64. */
  const BoardSize: int := 64

  /** The location bonuses of the pieces, summed in list order. */
  function LocationSum(t: Tables, ps: seq<Piece>): real
  {
    if ps == [] then 0.0 else LocationSum(t, ps[..|ps| - 1]) + LocationBonus(t, ps[|ps| - 1])
  }

  /** The sum over a list split in two is the sum of the two parts. */
  lemma {:induction false} LocationSumAppend(t: Tables, xs: seq<Piece>, ys: seq<Piece>)
    ensures LocationSum(t, xs + ys) == LocationSum(t, xs) + LocationSum(t, ys)
  {
    if ys != [] {
      var front := ys[..|ys| - 1];
      assert (xs + ys)[..|xs + ys| - 1] == xs + front;
      LocationSumAppend(t, xs, front);
    } else {
      assert xs + ys == xs;
    }
  }

  /** PieceLocation.findQueen: the first queen of the list. */
  method FindQueen(ps: seq<Piece>) returns (queen: Option<Piece>)
    ensures queen == FirstOfKind(ps, Kind.Queen)
  {
    queen := FindFirstOfKind(ps, Kind.Queen);
  }

  /**
   * PieceLocation.earlyQueenDevelopment: in the opening, a queen off its own two home
   * ranks (48..63 for White, 0..15 for Black) is punished.
   */
  function EarlyQueenDevelopment(ps: seq<Piece>, stage: GameStage): (r: real)
    ensures r == EarlyQueenDevelopmentPunishment || r == 0.0
    ensures r != 0.0 ==> stage == Opening
  {
    var queen := FirstOfKind(ps, Kind.Queen);
    if queen.Some? && stage == Opening then
      var loc := queen.value.position;
      if queen.value.color == White && !(BoardSize - loc - 1 >= 0 && BoardSize - loc - 1 <= 15) then
        EarlyQueenDevelopmentPunishment
      else if queen.value.color == Black && !(loc >= 0 && loc <= 15) then
        EarlyQueenDevelopmentPunishment
      else 0.0
    else 0.0
  }

  /**
   * The punishment falls exactly in the opening, on a list whose first queen stands off its
   * colour's two home ranks.
   */
  lemma EarlyQueenPunished(ps: seq<Piece>, stage: GameStage)
    ensures EarlyQueenDevelopment(ps, stage) == EarlyQueenDevelopmentPunishment <==>
              stage == Opening && FirstOfKind(ps, Kind.Queen).Some?
              && var q := FirstOfKind(ps, Kind.Queen).value;
                 if q.color == White then !(48 <= q.position <= 63) else !(0 <= q.position <= 15)
  {
  }

  /** PieceLocation.pieceLocation as a value. */
  function PieceLocationValue(t: Tables, ps: seq<Piece>, stage: GameStage): real
  {
    LocationSum(t, ps) * PieceSquareTableReducer + EarlyQueenDevelopment(ps, stage)
  }

  /** PieceLocation.pieceLocation. */
  method CalculatePieceLocation(t: Tables, ps: seq<Piece>, stage: GameStage) returns (r: real)
    ensures r == PieceLocationValue(t, ps, stage)
  {
    var locationBonus := 0.0;
    for i := 0 to |ps|
      invariant locationBonus == LocationSum(t, ps[..i])
    {
      assert ps[..i + 1][..i] == ps[..i];
      locationBonus := locationBonus + LocationBonus(t, ps[i]);
    }
    assert ps[..|ps|] == ps;
    var queen := FindQueen(ps);
    var early := 0.0;
    if queen.Some? && stage == Opening {
      var loc := queen.value.position;
      if queen.value.color == White && !(BoardSize - loc - 1 >= 0 && BoardSize - loc - 1 <= 15) {
        early := EarlyQueenDevelopmentPunishment;
      } else if queen.value.color == Black && !(loc >= 0 && loc <= 15) {
        early := EarlyQueenDevelopmentPunishment;
      }
    }
    r := locationBonus * PieceSquareTableReducer + early;
  }

  /** Outside the opening the term is the reduced table sum alone. */
  lemma PieceLocationAfterOpening(t: Tables, ps: seq<Piece>, stage: GameStage)
    requires stage != Opening
    ensures PieceLocationValue(t, ps, stage) == LocationSum(t, ps) * PieceSquareTableReducer
  {
  }
}
