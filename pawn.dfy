/** Pawn move generation (logic/Pieces/Pawn.java). */
module PawnMoves {
  import opened Wrappers
  import opened Colors
  import opened Pieces
  import opened Positions

  /** move_mask: single push, double push and the two captures, scaled by the pawn's direction. */
  const Masks: seq<int> := [8, 16, 7, 9]

  /** On file 0 the capture towards file -1, on file 7 the capture towards file 8 is skipped. */
  predicate IsFirstColumnExtremeCase(c: int, mask: int, color: Color)
  {
    (c % 8 == 0 && ((mask == 7 && color == Black) || (mask == 9 && color == White)))
    || ((c + 1) % 8 == 0 && ((mask == 9 && color == Black) || (mask == 7 && color == White)))
  }

  /** The move one offset contributes (one iteration of the loop body). */
  function Step(b: Board, p: Piece, mask: int): seq<Move>
  {
    var d := Direction(p.color);
    var c := p.position + mask * d;
    if !IsValidCoordinate(c) || IsFirstColumnExtremeCase(p.position, mask, p.color) then []
    else if mask == 8 && IsEmpty(b, c) then [Move(b, p, c, PawnPush)]
    else if mask == 16 && IsEmpty(b, c) && IsEmpty(b, c - 8 * d) && p.firstMove then [Move(b, p, c, PawnPush)]
    else if mask == 7 && !IsEmpty(b, c) && !IsFriendlyPieceOnCoordinate(b, p, c) then
      [Move(b, p, c, PawnAttack(GetPieceAtCoordinate(b, c).value))]
    else if mask == 9 && !IsEmpty(b, c) && !IsFriendlyPieceOnCoordinate(b, p, c) then
      [Move(b, p, c, PawnAttack(GetPieceAtCoordinate(b, c).value))]
    else []
  }

  /** The offset that leads from p's square to c, undoing the direction. */
  function MaskOf(p: Piece, c: int): int
  {
    (c - p.position) * Direction(p.color)
  }

  /** The moves of the first |masks| iterations, in order; each comes from one of the offsets. */
  function MovesFor(b: Board, p: Piece, masks: seq<int>): (r: seq<Move>)
    ensures |r| <= |masks|
  {
    if masks == [] then []
    else MovesFor(b, p, masks[..|masks| - 1]) + Step(b, p, masks[|masks| - 1])
  }

  /** Each generated move is what the offset leading to its destination contributes. */
  lemma {:induction false} MovesForSpec(b: Board, p: Piece, masks: seq<int>)
    ensures forall m :: m in MovesFor(b, p, masks) ==> m.Move? && MaskOf(p, m.to) in masks && m in Step(b, p, MaskOf(p, m.to))
  {
    if masks != [] {
      MovesForSpec(b, p, masks[..|masks| - 1]);
    }
  }

  /** Pawn.getLegalMoves as a value. */
  function LegalMoves(b: Board, p: Piece): seq<Move>
  {
    MovesFor(b, p, Masks)
  }

  /** Pawn.getLegalMoves. */
  method GetLegalMoves(b: Board, p: Piece) returns (legal: seq<Move>)
    ensures legal == LegalMoves(b, p)
  {
    legal := [];
    var d := Direction(p.color);
    for i := 0 to |Masks|
      invariant legal == MovesFor(b, p, Masks[..i])
    {
      var mask := Masks[i];
      assert Masks[..i + 1][..i] == Masks[..i];
      ghost var before := legal;
      var c := p.position + mask * d;
      if IsValidCoordinate(c) && !IsFirstColumnExtremeCase(p.position, mask, p.color) {
        if mask == 8 && GetPieceAtCoordinate(b, c).None? {
          legal := legal + [Move(b, p, c, PawnPush)];
        } else if mask == 16 && GetPieceAtCoordinate(b, c).None?
                  && GetPieceAtCoordinate(b, c - 8 * d).None? && p.firstMove {
          legal := legal + [Move(b, p, c, PawnPush)];
        } else if mask == 7 && GetPieceAtCoordinate(b, c).Some? && !IsFriendlyPieceOnCoordinate(b, p, c) {
          legal := legal + [Move(b, p, c, PawnAttack(GetPieceAtCoordinate(b, c).value))];
        } else if mask == 9 && GetPieceAtCoordinate(b, c).Some? && !IsFriendlyPieceOnCoordinate(b, p, c) {
          legal := legal + [Move(b, p, c, PawnAttack(GetPieceAtCoordinate(b, c).value))];
        }
      }
      assert legal == before + Step(b, p, mask);
    }
    assert Masks[..|Masks|] == Masks;
  }

  /** One square forward onto an empty square. */
  predicate PushTarget(b: Board, p: Piece, c: int)
  {
    c == p.position + 8 * Direction(p.color) && IsEmpty(b, c)
  }

  /** Two squares forward from a pawn that has not moved, across and onto empty squares. */
  predicate DoublePushTarget(b: Board, p: Piece, c: int)
  {
    p.firstMove && c == p.position + 16 * Direction(p.color)
    && IsEmpty(b, c) && IsEmpty(b, p.position + 8 * Direction(p.color))
  }

  /** One rank forward and one file aside, onto an enemy piece. */
  predicate CaptureTarget(b: Board, p: Piece, c: Square)
  {
    Rank(c) == Rank(p.position) + Direction(p.color) && Abs(File(c) - File(p.position)) == 1
    && !IsEmpty(b, c) && !IsFriendlyPieceOnCoordinate(b, p, c)
  }

  /** A pawn move of p on b: a PawnPush to a push target, or a PawnAttack on the enemy it captures. */
  predicate PawnStep(b: Board, p: Piece, m: Move)
  {
    m.Move? && m.board == b && m.piece == p
    && ((m.kind == PawnPush && (PushTarget(b, p, m.to) || DoublePushTarget(b, p, m.to)))
        || (m.kind.PawnAttack? && CaptureTarget(b, p, m.to) && IsEnemyOn(b, p, m.to, m.kind.attacked)))
  }

  /** What each offset contributes is a pawn step. */
  lemma StepSound(b: Board, p: Piece, mask: int)
    requires mask in Masks
    ensures forall m :: m in Step(b, p, mask) ==> PawnStep(b, p, m)
  {
    var d := Direction(p.color);
    var c := p.position + mask * d;
    if Step(b, p, mask) != [] && (mask == 7 || mask == 9) {
      var side := if (mask == 9) == (p.color == Black) then 1 else -1;
      assert c == p.position + 8 * d + side;
      StepCoordinates(p.position, d, side);
    }
  }

  /** Each offset's move, if any, is among the generated moves. */
  lemma StepInMovesFor(b: Board, p: Piece, masks: seq<int>, i: int)
    requires 0 <= i < |masks|
    ensures forall m :: m in Step(b, p, masks[i]) ==> m in MovesFor(b, p, masks)
    decreases |masks|
  {
    if i < |masks| - 1 {
      assert masks[..|masks| - 1][i] == masks[i];
      StepInMovesFor(b, p, masks[..|masks| - 1], i);
    }
  }

  /**
   * Pawn.getLegalMoves: at most four moves; a PawnPush one square forward onto an empty
   * square or two squares forward on the first move across empty squares, or a PawnAttack
   * one rank forward and one file aside (never wrapping) onto an enemy piece.
   */
  lemma LegalMovesSound(b: Board, p: Piece)
    ensures |LegalMoves(b, p)| <= 4
    ensures forall m :: m in LegalMoves(b, p) ==> PawnStep(b, p, m)
  {
    MovesForSpec(b, p, Masks);
    forall m | m in LegalMoves(b, p)
      ensures PawnStep(b, p, m)
    {
      StepSound(b, p, MaskOf(p, m.to));
    }
  }

  /** A square is a destination exactly when it is a push, double-push or capture target. */
  lemma LegalMovesComplete(b: Board, p: Piece, c: Square)
    ensures (exists m :: m in LegalMoves(b, p) && m.Move? && m.to == c)
              <==> PushTarget(b, p, c) || DoublePushTarget(b, p, c) || CaptureTarget(b, p, c)
  {
    LegalMovesSound(b, p);
    var d := Direction(p.color);
    if PushTarget(b, p, c) || DoublePushTarget(b, p, c) || CaptureTarget(b, p, c) {
      var i: int;
      if PushTarget(b, p, c) {
        i := 0;
      } else if DoublePushTarget(b, p, c) {
        i := 1;
      } else {
        DeltaCoordinates(p.position, c);
        SquareCoordinates(p.position);
        var side := File(c) - File(p.position);
        i := if (side == 1) == (p.color == Black) then 3 else 2;
        assert c == p.position + Masks[i] * d;
      }
      StepInMovesFor(b, p, Masks, i);
      assert Step(b, p, Masks[i]) != [];
      assert Step(b, p, Masks[i])[0] in LegalMoves(b, p);
    }
  }
}
