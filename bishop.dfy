/** Bishop move generation (logic/Pieces/Bishop.java): the shared ray walk with this piece's masks and guard. */
module BishopMoves {
  import opened Pieces
  import opened Positions
  import opened Sliding
  import opened SlidingGeometry

  /** move_mask. */
  const Masks: seq<int> := [7, 9, -7, -9]

  /** The column guard: on file 0 the leftward diagonals, on file 7 the rightward ones. */
  predicate IsFirstColumnExtremeCase(c: int, mask: int)
  {
    (c % 8 == 0 && (mask == -9 || mask == 7)) || ((c + 1) % 8 == 0 && (mask == -7 || mask == 9))
  }

  /** Bishop.getLegalMoves as a value. */
  function LegalMoves(b: Board, p: Piece): seq<Move>
  {
    RaysFor(b, p, Masks, IsFirstColumnExtremeCase)
  }

  /** Bishop.getLegalMoves. */
  method GetLegalMoves(b: Board, p: Piece) returns (legal: seq<Move>)
    ensures legal == LegalMoves(b, p)
  {
    legal := GetSlidingMoves(b, p, Masks, IsFirstColumnExtremeCase);
  }

  /** The guard fires exactly for the masks whose step would leave the files 0..7. */
  lemma GuardsExact()
    ensures NonZero(Masks) && ExactRays(Masks, IsFirstColumnExtremeCase)
  {
    forall i | 0 <= i < |Masks|
      ensures GuardExact(IsFirstColumnExtremeCase, Masks[i])
    {
      forall s: Square
        ensures IsFirstColumnExtremeCase(s, Masks[i]) <==> !StaysOnFiles(s, Masks[i])
      {
        SquareCoordinates(s);
      }
    }
  }

  /**
   * The destinations are exactly the squares some ray reaches: k >= 1 steps along a mask
   * without leaving the board, across empty squares, onto a square without a friendly piece.
   */
  lemma LegalMovesExact(b: Board, p: Piece, target: int)
    ensures (exists m :: m in LegalMoves(b, p) && m.to == target)
              <==> exists i, k :: 0 <= i < |Masks| && Reaches(b, p, p.position, Masks[i], k, target)
  {
    GuardsExact();
    SlidingMovesExact(b, p, Masks, IsFirstColumnExtremeCase, target);
  }

  /**
   * Every move is a Major move onto an empty square or an Attack on an enemy piece, and
   * the move is diagonal: as many files as ranks away, at least one.
   */
  lemma LegalMovesSound(b: Board, p: Piece, m: Move)
    requires m in LegalMoves(b, p)
    ensures QuietOrCapture(b, p, m) && !IsFriendlyPieceOnCoordinate(b, p, m.to)
    ensures var df, dr := File(m.to) - File(p.position), Rank(m.to) - Rank(p.position);
            Abs(df) == Abs(dr) >= 1
  {
    LegalMovesExact(b, p, m.to);
    var i, k :| 0 <= i < |Masks| && Reaches(b, p, p.position, Masks[i], k, m.to);
    AlongCoordinates(p.position, k, Masks[i]);
    var fs, rs := FileStep(Masks[i]), RankStep(Masks[i]);
    assert -1 <= fs <= 1 && -1 <= rs <= 1 && fs != 0 && rs != 0;
    ScaledStep(k, fs);
    ScaledStep(k, rs);
  }
}
