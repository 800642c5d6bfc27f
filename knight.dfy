/** Knight move generation (logic/Pieces/Knight.java). */
module KnightMoves {
  import opened Wrappers
  import opened Pieces
  import opened Positions

  /** move_mask: the eight knight offsets, in the order they are tried. */
  const Masks: seq<int> := [-17, -15, -10, -6, 17, 15, 10, 6]

  predicate IsFirstColumnExtremeCase(c: Square, mask: int)
  {
    (c % 8 == 0 && (mask == -10 || mask == -17 || mask == 6 || mask == 15))
    || ((c + 1) % 8 == 0 && (mask == -15 || mask == -6 || mask == 17 || mask == 10))
  }

  /** For c == 0, (c - 1) % 8 is -1 in Java and 7 here; neither is 0, so the test agrees. */
  predicate IsSecondColumnExtremeCase(c: Square, mask: int)
  {
    ((c - 1) % 8 == 0 && (mask == -10 || mask == 6))
    || ((c + 2) % 8 == 0 && (mask == -6 || mask == 10))
  }

  predicate IsFirstRowExtremeCase(c: Square, mask: int)
  {
    (0 <= c <= 7 && (mask == -17 || mask == -15 || mask == -10 || mask == -6))
    || (56 <= c <= 63 && (mask == 17 || mask == 15 || mask == 10 || mask == 6))
  }

  predicate IsSecondRowExtremeCase(c: Square, mask: int)
  {
    (8 <= c <= 15 && (mask == -17 || mask == -15))
    || (48 <= c <= 55 && (mask == 17 || mask == 15))
  }

  predicate IsExtremeCase(c: Square, mask: int)
  {
    IsFirstColumnExtremeCase(c, mask) || IsSecondColumnExtremeCase(c, mask)
    || IsFirstRowExtremeCase(c, mask) || IsSecondRowExtremeCase(c, mask)
  }

  /** A knight jump on the board: one file and two ranks, or two files and one rank. */
  predicate KnightGeometry(from: Square, to: Square)
  {
    var df := Abs(File(to) - File(from));
    var dr := Abs(Rank(to) - Rank(from));
    (df == 1 && dr == 2) || (df == 2 && dr == 1)
  }

  /** The move one offset contributes (one iteration of the loop body). */
  function Step(b: Board, p: Piece, mask: int): seq<Move>
  {
    if IsExtremeCase(p.position, mask) then []
    else
      var c := mask + p.position;
      if !IsValidCoordinate(c) then []
      else if IsEmpty(b, c) then [Move(b, p, c, Major)]
      else if !IsFriendlyPieceOnCoordinate(b, p, c) then [Move(b, p, c, Attack(GetPieceAtCoordinate(b, c).value))]
      else []
  }

  /** The moves of the first |masks| iterations, in order. */
  function MovesFor(b: Board, p: Piece, masks: seq<int>): (r: seq<Move>)
    ensures |r| <= |masks|
  {
    if masks == [] then []
    else MovesFor(b, p, masks[..|masks| - 1]) + Step(b, p, masks[|masks| - 1])
  }

  /** Each generated move is a quiet move or a capture by one of the offsets the guards let through. */
  lemma {:induction false} MovesForSpec(b: Board, p: Piece, masks: seq<int>)
    ensures forall m :: m in MovesFor(b, p, masks) ==> QuietOrCapture(b, p, m) && m.to - p.position in masks
                                                       && !IsExtremeCase(p.position, m.to - p.position)
  {
    if masks != [] {
      MovesForSpec(b, p, masks[..|masks| - 1]);
    }
  }

  /** Knight.getLegalMoves as a value. */
  function LegalMoves(b: Board, p: Piece): seq<Move>
  {
    MovesFor(b, p, Masks)
  }

  /** Knight.getLegalMoves. */
  method GetLegalMoves(b: Board, p: Piece) returns (legal: seq<Move>)
    ensures legal == LegalMoves(b, p)
  {
    legal := [];
    for i := 0 to |Masks|
      invariant legal == MovesFor(b, p, Masks[..i])
    {
      var mask := Masks[i];
      assert Masks[..i + 1][..i] == Masks[..i];
      ghost var before := legal;
      if !IsExtremeCase(p.position, mask) {
        var c := mask + p.position;
        if IsValidCoordinate(c) {
          if GetPieceAtCoordinate(b, c).None? {
            legal := legal + [Move(b, p, c, Major)];
          } else if !IsFriendlyPieceOnCoordinate(b, p, c) {
            legal := legal + [Move(b, p, c, Attack(GetPieceAtCoordinate(b, c).value))];
          }
        }
      }
      assert legal == before + Step(b, p, mask);
    }
    assert Masks[..|Masks|] == Masks;
  }

  /** The guards' column and row tests in terms of the square's file and rank. */
  lemma EdgeFacts(c: Square)
    ensures 0 <= File(c) < 8
    ensures c % 8 == 0 <==> File(c) == 0
    ensures (c + 1) % 8 == 0 <==> File(c) == 7
    ensures (c - 1) % 8 == 0 <==> File(c) == 1
    ensures (c + 2) % 8 == 0 <==> File(c) == 6
    ensures 0 <= c <= 7 <==> Rank(c) == 0
    ensures 8 <= c <= 15 <==> Rank(c) == 1
    ensures 48 <= c <= 55 <==> Rank(c) == 6
    ensures 56 <= c <= 63 <==> Rank(c) == 7
  {
    SquareCoordinates(c);
  }

  /** One file and two ranks, or two files and one rank, without leaving the files, is a jump. */
  lemma JumpBy(from: Square, mask: int, dr: int, df: int)
    requires (Abs(dr) == 1 && Abs(df) == 2) || (Abs(dr) == 2 && Abs(df) == 1)
    requires mask == 8 * dr + df && 0 <= File(from) + df < 8 && IsValidCoordinate(from + mask)
    ensures KnightGeometry(from, from + mask)
  {
    StepCoordinates(from, dr, df);
  }

  /** An unguarded offset that stays on the board is a knight jump: the guards stop every wrap. */
  lemma UnguardedStepIsJump(from: Square, mask: int)
    requires mask in Masks && !IsExtremeCase(from, mask) && IsValidCoordinate(from + mask)
    ensures KnightGeometry(from, from + mask)
  {
    EdgeFacts(from);
    if mask == -17 { JumpBy(from, mask, -2, -1); }
    else if mask == -15 { JumpBy(from, mask, -2, 1); }
    else if mask == -10 { JumpBy(from, mask, -1, -2); }
    else if mask == -6 { JumpBy(from, mask, -1, 2); }
    else if mask == 17 { JumpBy(from, mask, 2, 1); }
    else if mask == 15 { JumpBy(from, mask, 2, -1); }
    else if mask == 10 { JumpBy(from, mask, 1, 2); }
    else { JumpBy(from, mask, 1, -2); }
  }

  /** Every knight jump is one of the offsets, and the guards never reject it. */
  lemma JumpIsUnguardedStep(from: Square, to: Square)
    requires KnightGeometry(from, to)
    ensures to - from in Masks && !IsExtremeCase(from, to - from)
  {
    DeltaCoordinates(from, to);
    SquareCoordinates(from);
    SquareCoordinates(to);
    EdgeFacts(from);
    var dr, df := Rank(to) - Rank(from), File(to) - File(from);
    assert to - from == 8 * dr + df;
    if dr == -2 && df == -1 { assert to - from == -17; }
    else if dr == -2 && df == 1 { assert to - from == -15; }
    else if dr == -1 && df == -2 { assert to - from == -10; }
    else if dr == -1 && df == 2 { assert to - from == -6; }
    else if dr == 2 && df == 1 { assert to - from == 17; }
    else if dr == 2 && df == -1 { assert to - from == 15; }
    else if dr == 1 && df == 2 { assert to - from == 10; }
    else { assert dr == 1 && df == -2; assert to - from == 6; }
  }

  /** Each offset's move, if any, is among the generated moves. */
  lemma StepInMovesFor(b: Board, p: Piece, masks: seq<int>, i: int)
    requires 0 <= i < |masks|
    ensures forall m :: m in Step(b, p, masks[i]) ==> m in MovesFor(b, p, masks)
    decreases |masks|
  {
    if i < |masks| - 1 {
      assert masks[..|masks| - 1][i] == masks[i];
      StepInMovesFor(b, p, masks[..|masks| - 1], i);
    }
  }

  /**
   * Knight.getLegalMoves: at most eight moves, each a Major move to an empty square or an
   * Attack on an enemy piece, each a knight jump from the knight's square (so within the
   * board and without wrapping across the A/H edge).
   */
  lemma LegalMovesSound(b: Board, p: Piece)
    ensures |LegalMoves(b, p)| <= 8
    ensures forall m :: m in LegalMoves(b, p) ==>
              QuietOrCapture(b, p, m) && m.to - p.position in Masks && KnightGeometry(p.position, m.to)
                && !IsFriendlyPieceOnCoordinate(b, p, m.to)
  {
    MovesForSpec(b, p, Masks);
    forall m | m in LegalMoves(b, p)
      ensures KnightGeometry(p.position, m.to)
    {
      UnguardedStepIsJump(p.position, m.to - p.position);
    }
  }

  /** An unguarded offset onto a square on the board that is not friendly contributes its move. */
  lemma StepHits(b: Board, p: Piece, mask: int)
    requires !IsExtremeCase(p.position, mask) && IsValidCoordinate(p.position + mask)
    requires !IsFriendlyPieceOnCoordinate(b, p, p.position + mask)
    ensures Step(b, p, mask) != [] && Step(b, p, mask)[0].Move? && Step(b, p, mask)[0].to == p.position + mask
  {
  }

  /** A square is a destination exactly when it is a knight jump away and not friendly. */
  lemma LegalMovesComplete(b: Board, p: Piece, c: Square)
    ensures (exists m :: m in LegalMoves(b, p) && m.Move? && m.to == c)
              <==> KnightGeometry(p.position, c) && !IsFriendlyPieceOnCoordinate(b, p, c)
  {
    if exists m :: m in LegalMoves(b, p) && m.Move? && m.to == c {
      var m :| m in LegalMoves(b, p) && m.Move? && m.to == c;
      LegalMovesSound(b, p);
      assert m in LegalMoves(b, p);
    }
    if KnightGeometry(p.position, c) && !IsFriendlyPieceOnCoordinate(b, p, c) {
      JumpIsUnguardedStep(p.position, c);
      var mask := c - p.position;
      var i :| 0 <= i < |Masks| && Masks[i] == mask;
      StepInMovesFor(b, p, Masks, i);
      StepHits(b, p, mask);
      assert Step(b, p, mask)[0] in LegalMoves(b, p);
    }
  }
}
