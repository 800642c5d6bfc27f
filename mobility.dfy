/** The mobility term of the evaluation (logic/player/AI/Mobility.java). */
module Mobility {
  import opened Colors
  import opened Pieces
  import opened Positions
  import KnightMoves

  const RookForwardMovesMultiplier: real := 0.02
  const RookSideMovesMultiplier: real := 0.012
  const RookBackwardMovesMultiplier: real := 0.007
  const BishopForwardMovesMultiplier: real := 0.014
  const BishopBackwardMovesMultiplier: real := 0.009
  const KnightForwardMovesMultiplier: real := 0.012
  const KnightBackwardMovesMultiplier: real := 0.005
  /** The score of a move of any other piece. */
  const OtherPieceMove: real := 0.001

  /** The index distance a move covers, signed so that positive is towards the player's opponent. */
  function Advance(m: Move, c: Color): int
    requires m.Move?
  {
    (m.to - m.piece.position) * Direction(c)
  }

  /** Mobility.calcRookMoves: a move within eight squares is a side move, otherwise forward or backward. */
  function RookMoveValue(m: Move, c: Color): real
    requires m.Move?
  {
    if Abs(m.to - m.piece.position) < 8 then RookSideMovesMultiplier
    else if Advance(m, c) >= 8 then RookForwardMovesMultiplier
    else if Advance(m, c) <= -8 then RookBackwardMovesMultiplier
    else 0.0
  }

  /** Mobility.calcKnightMoves. */
  function KnightMoveValue(m: Move, c: Color): real
    requires m.Move?
  {
    if Advance(m, c) >= 6 then KnightForwardMovesMultiplier
    else if Advance(m, c) <= -6 then KnightBackwardMovesMultiplier
    else 0.0
  }

  /** Mobility.calcBishopMoves. */
  function BishopMoveValue(m: Move, c: Color): real
    requires m.Move?
  {
    if Advance(m, c) >= 7 then BishopForwardMovesMultiplier
    else if Advance(m, c) <= -7 then BishopBackwardMovesMultiplier
    else 0.0
  }

  /** Every rook move falls in exactly one class: side, forward or backward. */
  lemma RookMoveClassified(m: Move, c: Color)
    requires m.Move?
    ensures RookMoveValue(m, c) in {RookSideMovesMultiplier, RookForwardMovesMultiplier, RookBackwardMovesMultiplier}
    ensures RookMoveValue(m, c) == RookSideMovesMultiplier <==> Abs(m.to - m.piece.position) < 8
    ensures RookMoveValue(m, c) == RookForwardMovesMultiplier <==> Abs(m.to - m.piece.position) >= 8 && Advance(m, c) > 0
  {
  }

  /** A knight's jump always covers at least six indices, so it is scored forward or backward. */
  lemma KnightMoveDirected(m: Move, c: Color)
    requires m.Move? && KnightMoves.KnightGeometry(m.piece.position, m.to)
    ensures KnightMoveValue(m, c) == (if Advance(m, c) > 0 then KnightForwardMovesMultiplier
                                      else KnightBackwardMovesMultiplier)
  {
    DeltaCoordinates(m.piece.position, m.to);
  }

  /** A diagonal step of k ranks covers at least 7k indices, so a bishop move is forward or backward. */
  lemma BishopMoveDirected(m: Move, c: Color)
    requires m.Move?
    requires Abs(File(m.to) - File(m.piece.position)) == Abs(Rank(m.to) - Rank(m.piece.position)) >= 1
    ensures BishopMoveValue(m, c) == (if Advance(m, c) > 0 then BishopForwardMovesMultiplier
                                      else BishopBackwardMovesMultiplier)
  {
    DeltaCoordinates(m.piece.position, m.to);
  }

  /** The score of one legal move, by the kind of the piece moved. */
  function MoveValue(m: Move, c: Color): real
    requires m.Move?
  {
    match m.piece.kind
    case Rook => RookMoveValue(m, c)
    case Bishop => BishopMoveValue(m, c)
    case Knight => KnightMoveValue(m, c)
    case _ => OtherPieceMove
  }

  /** Mobility.mobility as a value: the scores of the legal moves, summed in list order. */
  function MobilityValue(moves: seq<Move>, c: Color): (r: real)
    requires forall m :: m in moves ==> m.Move?
    ensures r >= 0.0
  {
    if moves == [] then 0.0
    else MobilityValue(moves[..|moves| - 1], c) + MoveValue(moves[|moves| - 1], c)
  }

  /** Mobility.mobility. */
  method CalculateMobility(moves: seq<Move>, c: Color) returns (mobilityValue: real)
    requires forall m :: m in moves ==> m.Move?
    ensures mobilityValue == MobilityValue(moves, c)
  {
    mobilityValue := 0.0;
    for i := 0 to |moves|
      invariant mobilityValue == MobilityValue(moves[..i], c)
    {
      assert moves[..i + 1][..i] == moves[..i];
      var move := moves[i];
      if move.piece.kind == Kind.Rook {
        mobilityValue := mobilityValue + RookMoveValue(move, c);
      } else if move.piece.kind == Kind.Bishop {
        mobilityValue := mobilityValue + BishopMoveValue(move, c);
      } else if move.piece.kind == Kind.Knight {
        mobilityValue := mobilityValue + KnightMoveValue(move, c);
      } else {
        mobilityValue := mobilityValue + OtherPieceMove;
      }
    }
    assert moves[..|moves|] == moves;
  }

  /** Each move adds at least nothing and at most the largest multiplier, so the sum is bounded by the move count. */
  lemma {:induction false} MobilityBounds(moves: seq<Move>, c: Color)
    requires forall m :: m in moves ==> m.Move?
    ensures MobilityValue(moves, c) <= |moves| as real * RookForwardMovesMultiplier
  {
    if moves != [] {
      MobilityBounds(moves[..|moves| - 1], c);
    }
  }
}
