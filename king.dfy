/** King move generation (logic/Pieces/King.java). */
module KingMoves {
  import opened Wrappers
  import opened Pieces
  import opened Positions

  /** move_mask: the eight neighbouring offsets, in the order they are tried. */
  const Masks: seq<int> := [-9, -8, -7, -1, 1, 7, 8, 9]

  /** On file 0 the leftward offsets, on file 7 the rightward ones would wrap. */
  predicate IsFirstColumnExtremeCase(c: int, mask: int)
  {
    (c % 8 == 0 && (mask == -1 || mask == -9 || mask == 7))
    || ((c + 1) % 8 == 0 && (mask == 1 || mask == -7 || mask == 9))
  }

  /** One of the eight neighbouring squares. */
  predicate KingGeometry(from: Square, to: Square)
  {
    from != to && Abs(File(to) - File(from)) <= 1 && Abs(Rank(to) - Rank(from)) <= 1
  }

  /** The move one offset contributes: a plain Move onto any square without a friendly piece. */
  function Step(b: Board, p: Piece, mask: int): seq<Move>
  {
    if IsFirstColumnExtremeCase(p.position, mask) then []
    else
      var c := mask + p.position;
      if IsValidCoordinate(c) && !IsFriendlyPieceOnCoordinate(b, p, c) then [Move(b, p, c, Plain)]
      else []
  }

  /** A plain king move of p on b to a square without a friendly piece. */
  predicate PlainStep(b: Board, p: Piece, m: Move)
  {
    m.Move? && m.board == b && m.piece == p && m.kind == Plain
    && !IsFriendlyPieceOnCoordinate(b, p, m.to)
  }

  /** The moves of the first |masks| iterations, in order. */
  function MovesFor(b: Board, p: Piece, masks: seq<int>): (r: seq<Move>)
    ensures |r| <= |masks|
  {
    if masks == [] then []
    else MovesFor(b, p, masks[..|masks| - 1]) + Step(b, p, masks[|masks| - 1])
  }

  /** Each generated move is a plain step by one of the offsets that the guard lets through. */
  lemma {:induction false} MovesForSpec(b: Board, p: Piece, masks: seq<int>)
    ensures forall m :: m in MovesFor(b, p, masks) ==> PlainStep(b, p, m) && m.to - p.position in masks
                                                       && !IsFirstColumnExtremeCase(p.position, m.to - p.position)
  {
    if masks != [] {
      MovesForSpec(b, p, masks[..|masks| - 1]);
    }
  }

  /** King.getLegalMoves as a value. */
  function LegalMoves(b: Board, p: Piece): seq<Move>
  {
    MovesFor(b, p, Masks)
  }

  /** King.getLegalMoves. */
  method GetLegalMoves(b: Board, p: Piece) returns (legal: seq<Move>)
    ensures legal == LegalMoves(b, p)
  {
    legal := [];
    for i := 0 to |Masks|
      invariant legal == MovesFor(b, p, Masks[..i])
    {
      var mask := Masks[i];
      assert Masks[..i + 1][..i] == Masks[..i];
      ghost var before := legal;
      if !IsFirstColumnExtremeCase(p.position, mask) {
        var c := mask + p.position;
        if IsValidCoordinate(c) && !IsFriendlyPieceOnCoordinate(b, p, c) {
          legal := legal + [Move(b, p, c, Plain)];
        }
      }
      assert legal == before + Step(b, p, mask);
    }
    assert Masks[..|Masks|] == Masks;
  }

  /** An unguarded offset that stays on the board reaches a neighbouring square. */
  lemma UnguardedStepIsNeighbour(from: Square, mask: int)
    requires mask in Masks && !IsFirstColumnExtremeCase(from, mask) && IsValidCoordinate(from + mask)
    ensures KingGeometry(from, from + mask)
  {
    if mask == -9 { StepCoordinates(from, -1, -1); }
    else if mask == -8 { StepCoordinates(from, -1, 0); }
    else if mask == -7 { StepCoordinates(from, -1, 1); }
    else if mask == -1 { StepCoordinates(from, 0, -1); }
    else if mask == 1 { StepCoordinates(from, 0, 1); }
    else if mask == 7 { StepCoordinates(from, 1, -1); }
    else if mask == 8 { StepCoordinates(from, 1, 0); }
    else { StepCoordinates(from, 1, 1); }
  }

  /** Every neighbouring square is one of the offsets, and the guard never rejects it. */
  lemma NeighbourIsUnguardedStep(from: Square, to: Square)
    requires KingGeometry(from, to)
    ensures to - from in Masks && !IsFirstColumnExtremeCase(from, to - from)
  {
    DeltaCoordinates(from, to);
    SquareCoordinates(from);
    SquareCoordinates(to);
  }

  /** Each offset's move, if any, is among the generated moves. */
  lemma StepInMovesFor(b: Board, p: Piece, masks: seq<int>, i: int)
    requires 0 <= i < |masks|
    ensures forall m :: m in Step(b, p, masks[i]) ==> m in MovesFor(b, p, masks)
    decreases |masks|
  {
    if i < |masks| - 1 {
      assert masks[..|masks| - 1][i] == masks[i];
      StepInMovesFor(b, p, masks[..|masks| - 1], i);
    }
  }

  /**
   * King.getLegalMoves: at most eight plain moves, each onto a neighbouring square (on the
   * board, without wrapping across the A/H edge) that holds no friendly piece.
   */
  lemma LegalMovesSound(b: Board, p: Piece)
    ensures |LegalMoves(b, p)| <= 8
    ensures forall m :: m in LegalMoves(b, p) ==> PlainStep(b, p, m) && KingGeometry(p.position, m.to)
  {
    MovesForSpec(b, p, Masks);
    forall m | m in LegalMoves(b, p)
      ensures KingGeometry(p.position, m.to)
    {
      UnguardedStepIsNeighbour(p.position, m.to - p.position);
    }
  }

  /** A square is a destination exactly when it neighbours the king and holds no friendly piece. */
  lemma LegalMovesComplete(b: Board, p: Piece, c: Square)
    ensures (exists m :: m in LegalMoves(b, p) && m.Move? && m.to == c)
              <==> KingGeometry(p.position, c) && !IsFriendlyPieceOnCoordinate(b, p, c)
  {
    LegalMovesSound(b, p);
    if KingGeometry(p.position, c) && !IsFriendlyPieceOnCoordinate(b, p, c) {
      NeighbourIsUnguardedStep(p.position, c);
      var mask := c - p.position;
      var i :| 0 <= i < |Masks| && Masks[i] == mask;
      StepInMovesFor(b, p, Masks, i);
      assert Step(b, p, mask) != [];
      assert Step(b, p, mask)[0] in LegalMoves(b, p);
    }
  }
}
