/**
 * The ray walk shared by Bishop, Rook and Queen (Bishop.java:45-73, Rook.java:57-89,
 * Queen.java:55-83): from the piece's square, step by the mask while the piece's column
 * guard allows it, emitting a Major move per empty square and stopping at the first
 * occupied square, with an Attack move if it holds an enemy.
 */
module Sliding {
  import opened Wrappers
  import opened Pieces
  import opened Positions

  /** The column guard of a piece kind: it holds when a step of the mask from the square is not taken. */
  type Guard = (int, int) -> bool

  /** The square k steps of mask away from c. */
  function Along(c: int, k: int, mask: int): int
  {
    c + k * mask
  }

  function RayDecrease(mask: int, c: Square): nat
  {
    if mask > 0 then 64 - c else c
  }

  /** The moves of one ray from square c (the inner while loop). */
  function Ray(b: Board, p: Piece, mask: int, c: Square, guard: Guard): (r: seq<Move>)
    requires mask != 0
    ensures forall m :: m in r ==> QuietOrCapture(b, p, m)
    decreases RayDecrease(mask, c)
  {
    if guard(c, mask) then []
    else
      var n := c + mask;
      if !IsValidCoordinate(n) then []
      else if IsEmpty(b, n) then [Move(b, p, n, Major)] + Ray(b, p, mask, n, guard)
      else if !IsFriendlyPieceOnCoordinate(b, p, n) then [Move(b, p, n, Attack(GetPieceAtCoordinate(b, n).value))]
      else []
  }

  predicate NonZero(masks: seq<int>)
  {
    forall i :: 0 <= i < |masks| ==> masks[i] != 0
  }

  /** The moves of the rays of the first |masks| masks, in order. */
  function RaysFor(b: Board, p: Piece, masks: seq<int>, guard: Guard): (r: seq<Move>)
    requires NonZero(masks)
    ensures forall m :: m in r ==> QuietOrCapture(b, p, m)
  {
    if masks == [] then []
    else RaysFor(b, p, masks[..|masks| - 1], guard) + Ray(b, p, masks[|masks| - 1], p.position, guard)
  }

  /** The nested for/while loop of the three getLegalMoves methods. */
  method GetSlidingMoves(b: Board, p: Piece, masks: seq<int>, guard: Guard) returns (legal: seq<Move>)
    requires NonZero(masks)
    ensures legal == RaysFor(b, p, masks, guard)
  {
    legal := [];
    for i := 0 to |masks|
      invariant legal == RaysFor(b, p, masks[..i], guard)
    {
      var mask := masks[i];
      assert masks[..i + 1][..i] == masks[..i];
      ghost var before := legal;
      var c: int := p.position;
      while IsValidCoordinate(c)
        invariant IsValidCoordinate(c)
        invariant before + Ray(b, p, mask, p.position, guard) == legal + Ray(b, p, mask, c, guard)
        decreases RayDecrease(mask, c)
      {
        if guard(c, mask) {
          break;
        }
        ghost var prev: Square := c;
        c := c + mask;
        if IsValidCoordinate(c) {
          if GetPieceAtCoordinate(b, c).None? {
            legal := legal + [Move(b, p, c, Major)];
          } else if !IsFriendlyPieceOnCoordinate(b, p, c) {
            legal := legal + [Move(b, p, c, Attack(GetPieceAtCoordinate(b, c).value))];
            assert legal == before + Ray(b, p, mask, p.position, guard);
            break;
          } else {
            assert Ray(b, p, mask, prev, guard) == [];
            break;
          }
        } else {
          assert Ray(b, p, mask, prev, guard) == [];
          break;
        }
      }
      assert legal == before + Ray(b, p, mask, p.position, guard);
    }
    assert masks[..|masks|] == masks;
  }
}

module SlidingGeometry {
  import opened Wrappers
  import opened Pieces
  import opened Positions
  import opened Sliding

  /** The rank step of a direction mask (one of the eight king steps); mask == 8 * RankStep + FileStep. */
  function RankStep(mask: int): int
  {
    if mask >= 7 then 1 else if mask <= -7 then -1 else 0
  }

  /** The file step of a direction mask. */
  function FileStep(mask: int): int
  {
    mask - 8 * RankStep(mask)
  }

  /** The guard blocks a step from a square exactly when the step would leave the files 0..7. */
  predicate GuardExact(guard: Guard, mask: int)
  {
    forall s: Square :: guard(s, mask) <==> !StaysOnFiles(s, mask)
  }

  /** A step of the direction from s keeps the file within 0..7. */
  predicate StaysOnFiles(s: int, mask: int)
  {
    0 <= File(s) + FileStep(mask) < 8
  }

  /** k steps of the direction from c stay on the board. */
  predicate OnBoard(c: Square, k: int, mask: int)
  {
    0 <= File(c) + k * FileStep(mask) < 8 && 0 <= Rank(c) + k * RankStep(mask) < 8
  }

  /**
   * The ray of mask from c reaches target after k >= 1 steps without leaving the board,
   * every square strictly between is empty, and target does not hold a friendly piece.
   */
  predicate Reaches(b: Board, p: Piece, c: Square, mask: int, k: int, target: int)
  {
    1 <= k && target == Along(c, k, mask)
    && (forall j :: 1 <= j <= k ==> OnBoard(c, j, mask))
    && (forall j :: 1 <= j < k ==> IsEmpty(b, Along(c, j, mask)))
    && !IsFriendlyPieceOnCoordinate(b, p, target)
  }

  /** The squares of a direction that stays on the board have the expected coordinates. */
  lemma AlongCoordinates(c: Square, k: int, mask: int)
    requires mask != 0 && OnBoard(c, k, mask)
    ensures IsValidCoordinate(Along(c, k, mask))
    ensures File(Along(c, k, mask)) == File(c) + k * FileStep(mask)
    ensures Rank(Along(c, k, mask)) == Rank(c) + k * RankStep(mask)
  {
    var dr, df := RankStep(mask), FileStep(mask);
    var r, f := Rank(c) + k * dr, File(c) + k * df;
    SquareCoordinates(c);
    Distribute(k, dr, df);
    assert Along(c, k, mask) == 8 * r + f;
    Recombine(r, f);
  }

  lemma Distribute(k: int, dr: int, df: int)
    ensures k * (8 * dr + df) == 8 * (k * dr) + k * df
  {
  }

  /** A rank and a file in range name the square 8 * rank + file. */
  lemma Recombine(r: int, f: int)
    requires 0 <= f < 8
    ensures (8 * r + f) / 8 == r && (8 * r + f) % 8 == f
  {
  }

  lemma MulStep(k: int, d: int)
    ensures k * d + d == (k + 1) * d
  {
  }

  /** k steps of a unit offset s move by k, 0 or -k. */
  lemma ScaledStep(k: int, s: int)
    requires k >= 1 && -1 <= s <= 1
    ensures Abs(k * s) == (if s == 0 then 0 else k)
  {
  }

  lemma AlongStep(c: int, k: int, mask: int)
    ensures Along(c, k + 1, mask) == Along(c, k, mask) + mask
  {
    MulStep(k, mask);
  }

  /** Where a move of a ray lands: k steps out, over empty squares, every visited square unguarded. */
  lemma RayShape(b: Board, p: Piece, mask: int, c: Square, guard: Guard, m: Move) returns (k: int)
    requires mask != 0 && m in Ray(b, p, mask, c, guard)
    ensures 1 <= k && m.Move? && m.to == Along(c, k, mask)
    ensures forall j :: 1 <= j < k ==> IsEmpty(b, Along(c, j, mask))
    ensures forall j :: 0 <= j < k ==> IsValidCoordinate(Along(c, j, mask)) && !guard(Along(c, j, mask), mask)
    decreases RayDecrease(mask, c)
  {
    var n := c + mask;
    var r := Ray(b, p, mask, c, guard);
    if m == r[0] {
      k := 1;
    } else {
      var k' := RayShape(b, p, mask, n, guard, m);
      k := k' + 1;
      assert Along(c, 1, mask) == n;
      forall j | 1 <= j <= k
        ensures Along(c, j, mask) == Along(n, j - 1, mask)
      {
      }
    }
  }

  /** One step of a direction whose file stays in range moves by its rank and file steps. */
  lemma StepFrom(s: Square, u: int, mask: int)
    requires mask != 0 && StaysOnFiles(s, mask) && u == s + mask
    ensures File(u) == File(s) + FileStep(mask)
    ensures Rank(u) == Rank(s) + RankStep(mask)
  {
    var dr, df := RankStep(mask), FileStep(mask);
    assert u == s + 8 * dr + df;
    StepCoordinates(s, dr, df);
    assert File(u) == File(s + 8 * dr + df);
  }

  /** Along an unguarded walk, every step moves by the direction's rank and file steps. */
  lemma {:induction false} RayGeometry(c: Square, k: nat, mask: int, guard: Guard)
    requires mask != 0 && GuardExact(guard, mask)
    requires forall j :: 0 <= j < k ==> IsValidCoordinate(Along(c, j, mask)) && !guard(Along(c, j, mask), mask)
    ensures File(Along(c, k, mask)) == File(c) + k * FileStep(mask)
    ensures Rank(Along(c, k, mask)) == Rank(c) + k * RankStep(mask)
  {
    if k > 0 {
      RayGeometry(c, k - 1, mask, guard);
      var s: Square := Along(c, k - 1, mask);
      assert !guard(s, mask);
      AlongStep(c, k - 1, mask);
      StepFrom(s, Along(c, k, mask), mask);
      MulStep(k - 1, FileStep(mask));
      MulStep(k - 1, RankStep(mask));
    } else {
      assert Along(c, k, mask) == c;
    }
  }

  /** Every move of a ray is a Reaches target. */
  lemma RaySound(b: Board, p: Piece, mask: int, guard: Guard, m: Move) returns (k: int)
    requires mask != 0 && GuardExact(guard, mask)
    requires m in Ray(b, p, mask, p.position, guard)
    ensures m.Move? && Reaches(b, p, p.position, mask, k, m.to)
  {
    var c := p.position;
    k := RayShape(b, p, mask, c, guard, m);
    forall j | 1 <= j <= k
      ensures OnBoard(c, j, mask)
    {
      RayGeometry(c, j, mask, guard);
      if j < k {
        assert IsValidCoordinate(Along(c, j, mask));
      }
      SquareCoordinates(Along(c, j, mask));
    }
  }

  /** Every Reaches target is the destination of a move of the ray. */
  lemma {:induction false} RayComplete(b: Board, p: Piece, mask: int, c: Square, guard: Guard, k: int)
    requires mask != 0 && GuardExact(guard, mask)
    requires Reaches(b, p, c, mask, k, Along(c, k, mask))
    ensures exists m :: m in Ray(b, p, mask, c, guard) && m.to == Along(c, k, mask)
    decreases k
  {
    assert OnBoard(c, 1, mask);
    assert StaysOnFiles(c, mask);
    assert !guard(c, mask);
    AlongCoordinates(c, 1, mask);
    var n: Square := c + mask;
    assert Along(c, 1, mask) == n;
    if k == 1 {
      var r := Ray(b, p, mask, c, guard);
      assert r[0].to == n;
    } else {
      assert IsEmpty(b, n);
      ReachesFromNext(b, p, mask, c, k);
      RayComplete(b, p, mask, n, guard, k - 1);
    }
  }

  /** A ray reaching a target in k > 1 steps reaches it from its first square in k - 1 steps. */
  lemma ReachesFromNext(b: Board, p: Piece, mask: int, c: Square, k: int)
    requires mask != 0 && k > 1 && Reaches(b, p, c, mask, k, Along(c, k, mask))
    requires IsValidCoordinate(c + mask) && File(c + mask) == File(c) + FileStep(mask)
               && Rank(c + mask) == Rank(c) + RankStep(mask)
    ensures Along(c + mask, k - 1, mask) == Along(c, k, mask)
    ensures Reaches(b, p, c + mask, mask, k - 1, Along(c, k, mask))
  {
    var n: Square := c + mask;
    forall j | 1 <= j <= k - 1
      ensures OnBoard(n, j, mask) && Along(n, j, mask) == Along(c, j + 1, mask)
    {
      assert OnBoard(c, j + 1, mask);
      MulStep(j, mask);
      MulStep(j, FileStep(mask));
      MulStep(j, RankStep(mask));
    }
    MulStep(k - 1, mask);
  }

  /** All masks are directions whose guards are exact. */
  predicate ExactRays(masks: seq<int>, guard: Guard)
  {
    forall i :: 0 <= i < |masks| ==> GuardExact(guard, masks[i])
  }

  lemma InRaysFor(b: Board, p: Piece, masks: seq<int>, guard: Guard, m: Move) returns (i: int)
    requires NonZero(masks) && m in RaysFor(b, p, masks, guard)
    ensures 0 <= i < |masks| && m in Ray(b, p, masks[i], p.position, guard)
  {
    var last := |masks| - 1;
    if m in Ray(b, p, masks[last], p.position, guard) {
      i := last;
    } else {
      i := InRaysFor(b, p, masks[..last], guard, m);
      assert masks[..last][i] == masks[i];
    }
  }

  lemma RayInRaysFor(b: Board, p: Piece, masks: seq<int>, guard: Guard, i: int, m: Move)
    requires NonZero(masks) && 0 <= i < |masks| && m in Ray(b, p, masks[i], p.position, guard)
    ensures m in RaysFor(b, p, masks, guard)
  {
    var last := |masks| - 1;
    if i < last {
      assert masks[..last][i] == masks[i];
      RayInRaysFor(b, p, masks[..last], guard, i, m);
    }
  }

  /**
   * The destinations of a sliding piece are exactly the squares some ray reaches: k >= 1
   * steps along a mask without leaving the board, over empty squares, onto a square
   * without a friendly piece; and every move is a Major move or an Attack on an enemy.
   */
  lemma SlidingMovesExact(b: Board, p: Piece, masks: seq<int>, guard: Guard, target: int)
    requires NonZero(masks) && ExactRays(masks, guard)
    ensures (exists m :: m in RaysFor(b, p, masks, guard) && m.to == target)
              <==> exists i, k :: 0 <= i < |masks| && Reaches(b, p, p.position, masks[i], k, target)
  {
    if m :| m in RaysFor(b, p, masks, guard) && m.to == target {
      var i := InRaysFor(b, p, masks, guard, m);
      var k := RaySound(b, p, masks[i], guard, m);
    }
    if i, k :| 0 <= i < |masks| && Reaches(b, p, p.position, masks[i], k, target) {
      RayComplete(b, p, masks[i], p.position, guard, k);
      var m :| m in Ray(b, p, masks[i], p.position, guard) && m.to == target;
      RayInRaysFor(b, p, masks, guard, i, m);
    }
  }
}
