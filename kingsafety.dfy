/** The king-safety term of the evaluation (logic/player/AI/KingSafety.java). */
module KingSafety {
  import opened Wrappers
  import opened Colors
  import opened Pieces
  import opened Positions

  const CastleBonus: real := 0.2
  const NoneCastlePunishment: real := -0.1
  const GoodPawnsShieldBonus: real := 0.3
  const BadPawnsShieldPunishment: real := -0.3

  // ---- calculateChebyshevDistance ---------------------------------------------------

  function Max(a: int, b: int): int
  {
    if a >= b then a else b
  }

  /** KingSafety.calculateChebyshevDistance: the larger of the file and the rank distance. */
  function ChebyshevDistance(kingSquare: Square, to: Square): (d: int)
    ensures 0 <= d <= 7
  {
    Max(Abs(kingSquare % 8 - to % 8), Abs(kingSquare / 8 - to / 8))
  }

  /** The distance is symmetric and vanishes exactly on equal squares. */
  lemma ChebyshevDistanceMetric(a: Square, b: Square)
    ensures ChebyshevDistance(a, b) == ChebyshevDistance(b, a)
    ensures ChebyshevDistance(a, b) == 0 <==> a == b
  {
    SquareCoordinates(a);
    SquareCoordinates(b);
  }

  // ---- calculateKingTropism ---------------------------------------------------------

  /**
   * The loop of calculateKingTropism over the enemy moves: the piece of the first non-king
   * move whose destination is strictly closer to the king than every earlier one, with that
   * distance; None when every move is a king move.
   */
  function Closest(kingSquare: Square, moves: seq<Move>): Option<(Piece, int)>
    requires forall m :: m in moves ==> m.Move?
  {
    if moves == [] then None
    else
      var prev := Closest(kingSquare, moves[..|moves| - 1]);
      var m := moves[|moves| - 1];
      var d := ChebyshevDistance(kingSquare, m.to);
      if m.piece.kind != Kind.King && (prev.None? || d < prev.value.1) then Some((m.piece, d)) else prev
  }

  /** The distance from the king to a non-king move's destination. */
  predicate NonKingAt(kingSquare: Square, moves: seq<Move>, i: int, p: Piece, d: int)
    requires forall m :: m in moves ==> m.Move?
    requires 0 <= i < |moves|
  {
    moves[i].piece.kind != Kind.King && moves[i].piece == p && ChebyshevDistance(kingSquare, moves[i].to) == d
  }

  /**
   * Closest finds nothing exactly when every move is a king move; otherwise it reports the
   * first non-king move of least distance: no non-king move is closer, and every earlier
   * non-king move is farther.
   */
  lemma {:induction false} ClosestIsFirstMinimal(kingSquare: Square, moves: seq<Move>)
    requires forall m :: m in moves ==> m.Move?
    ensures Closest(kingSquare, moves).None? <==>
              forall i :: 0 <= i < |moves| ==> moves[i].piece.kind == Kind.King
    ensures Closest(kingSquare, moves).Some? ==>
              var (p, d) := Closest(kingSquare, moves).value;
              exists i :: 0 <= i < |moves| && NonKingAt(kingSquare, moves, i, p, d)
                && (forall j :: 0 <= j < |moves| && moves[j].piece.kind != Kind.King ==>
                      ChebyshevDistance(kingSquare, moves[j].to) >= d)
                && (forall j :: 0 <= j < i && moves[j].piece.kind != Kind.King ==>
                      ChebyshevDistance(kingSquare, moves[j].to) > d)
  {
    if moves != [] {
      var init := moves[..|moves| - 1];
      var n := |moves| - 1;
      ClosestIsFirstMinimal(kingSquare, init);
      assert forall j :: 0 <= j < n ==> init[j] == moves[j];
      var prev := Closest(kingSquare, init);
      var m := moves[n];
      var d := ChebyshevDistance(kingSquare, m.to);
      if m.piece.kind != Kind.King && (prev.None? || d < prev.value.1) {
        assert NonKingAt(kingSquare, moves, n, m.piece, d);
      } else if prev.Some? {
        var (p, pd) := prev.value;
        var i :| 0 <= i < n && NonKingAt(kingSquare, init, i, p, pd)
                 && (forall j :: 0 <= j < n && init[j].piece.kind != Kind.King ==>
                       ChebyshevDistance(kingSquare, init[j].to) >= pd)
                 && (forall j :: 0 <= j < i && init[j].piece.kind != Kind.King ==>
                       ChebyshevDistance(kingSquare, init[j].to) > pd);
        assert NonKingAt(kingSquare, moves, i, p, pd);
      }
    }
  }

  /** The tropism penalty for a chosen piece and distance. */
  function TropismOf(closest: Option<(Piece, int)>): real
  {
    if closest.None? then 0.0
    else -1.0 * (Value(closest.value.0.kind) / 200.0 * (10 - closest.value.1) as real)
  }

  /** KingSafety.calculateKingTropism, for a king on kingSquare and the rival's moves. */
  function KingTropism(kingSquare: Square, enemyMoves: seq<Move>): real
    requires forall m :: m in enemyMoves ==> m.Move?
  {
    TropismOf(Closest(kingSquare, enemyMoves))
  }

  /** The loop of KingSafety.calculateKingTropism: the closest non-king enemy piece, if any. */
  method FindClosest(kingSquare: Square, enemyMoves: seq<Move>) returns (closestPiece: Option<Piece>, closestDistance: int)
    requires forall m :: m in enemyMoves ==> m.Move?
    ensures var c := Closest(kingSquare, enemyMoves);
            if c.None? then closestPiece.None? && closestDistance == 0x7fff_ffff
            else closestPiece == Some(c.value.0) && closestDistance == c.value.1
  {
    closestPiece := None;
    closestDistance := 0x7fff_ffff;
    for k := 0 to |enemyMoves|
      invariant var c := Closest(kingSquare, enemyMoves[..k]);
                if c.None? then closestPiece.None? && closestDistance == 0x7fff_ffff
                else closestPiece == Some(c.value.0) && closestDistance == c.value.1
    {
      assert enemyMoves[..k + 1][..k] == enemyMoves[..k];
      var move := enemyMoves[k];
      var currentDistance := ChebyshevDistance(kingSquare, move.to);
      if move.piece.kind != Kind.King && currentDistance < closestDistance {
        closestDistance := currentDistance;
        closestPiece := Some(move.piece);
      }
    }
    assert enemyMoves[..|enemyMoves|] == enemyMoves;
  }

  /** KingSafety.calculateKingTropism. */
  method CalculateKingTropism(kingSquare: Square, enemyMoves: seq<Move>) returns (r: real)
    requires forall m :: m in enemyMoves ==> m.Move?
    ensures r == KingTropism(kingSquare, enemyMoves)
  {
    var closestPiece, closestDistance := FindClosest(kingSquare, enemyMoves);
    if closestPiece.Some? {
      return -1.0 * (Value(closestPiece.value.kind) / 200.0 * (10 - closestDistance) as real);
    }
    return 0.0;
  }

  /** The tropism term never rewards: it is 0 without a non-king enemy move and negative otherwise. */
  lemma KingTropismSign(kingSquare: Square, enemyMoves: seq<Move>)
    requires forall m :: m in enemyMoves ==> m.Move?
    ensures KingTropism(kingSquare, enemyMoves) <= 0.0
    ensures KingTropism(kingSquare, enemyMoves) == 0.0 <==>
              forall i :: 0 <= i < |enemyMoves| ==> enemyMoves[i].piece.kind == Kind.King
  {
    ClosestIsFirstMinimal(kingSquare, enemyMoves);
    var c := Closest(kingSquare, enemyMoves);
    if c.Some? {
      var i :| 0 <= i < |enemyMoves| && NonKingAt(kingSquare, enemyMoves, i, c.value.0, c.value.1);
      var v := Value(c.value.0.kind) / 200.0;
      assert v > 0.0;
      assert (10 - c.value.1) as real >= 3.0;
      assert v * (10 - c.value.1) as real > 0.0;
    }
  }

  // ---- calcPawnsShield --------------------------------------------------------------

  /** The seven shield shapes, as offsets ahead of the king (multiplied by the direction). */
  const Shields: seq<seq<int>> :=
    [[9, 8, 7], [9, 8, 15], [9, 16, 7], [17, 8, 7], [1, 8, -1], [8, 7], [8, 9]]

  /** KingSafety.isOnFirstOrSecond: the king is on its own two home ranks. */
  predicate IsOnFirstOrSecond(kingCoordinate: int, c: Color)
  {
    if c == White then kingCoordinate <= 63 && kingCoordinate >= 48
    else kingCoordinate <= 15 && kingCoordinate >= 0
  }

  /**
   * KingSafety.isPawnFromOtherSide. Java's % truncates, but only the zero test is used,
   * and a remainder is zero under either convention for the same numbers.
   */
  predicate IsPawnFromOtherSide(kingCoordinate: int, pawnCoordinate: int)
  {
    if kingCoordinate % 8 == 0 && (pawnCoordinate + 1) % 8 == 0 then true
    else (kingCoordinate + 1) % 8 == 0 && pawnCoordinate % 8 == 0
  }

  /** The wrap test holds only between a king on one edge file and a spot on the other edge file. */
  lemma PawnFromOtherSideMeansOppositeEdges(kingCoordinate: int, pawnCoordinate: int)
    ensures IsPawnFromOtherSide(kingCoordinate, pawnCoordinate) <==>
              (kingCoordinate % 8 == 0 && pawnCoordinate % 8 == 7)
              || (kingCoordinate % 8 == 7 && pawnCoordinate % 8 == 0)
  {
  }

  /** A shield spot is covered by a pawn of any colour, or excused because it wraps round the board. */
  predicate SpotCovered(b: Board, kingCoordinate: int, c: Color, offset: int)
  {
    var spot := kingCoordinate + offset * Direction(c);
    var q := GetPieceAtCoordinate(b, spot);
    (q.Some? && q.value.kind == Kind.Pawn) || IsPawnFromOtherSide(kingCoordinate, spot)
  }

  predicate ShieldHolds(b: Board, kingCoordinate: int, c: Color, shield: seq<int>)
  {
    forall k :: 0 <= k < |shield| ==> SpotCovered(b, kingCoordinate, c, shield[k])
  }

  /** KingSafety.calcPawnsShield: the bonus if some shield shape is complete and the king is home. */
  function PawnsShield(b: Board, kingCoordinate: int, c: Color): (r: real)
    ensures r == GoodPawnsShieldBonus || r == BadPawnsShieldPunishment
    ensures r == GoodPawnsShieldBonus ==> IsOnFirstOrSecond(kingCoordinate, c)
  {
    if (exists s :: 0 <= s < |Shields| && ShieldHolds(b, kingCoordinate, c, Shields[s]))
       && IsOnFirstOrSecond(kingCoordinate, c)
    then GoodPawnsShieldBonus
    else BadPawnsShieldPunishment
  }

  /** KingSafety.calcPawnsShield: every spot of every shape, returning at the first complete shape. */
  method CalcPawnsShield(b: Board, kingCoordinate: int, c: Color) returns (r: real)
    ensures r == PawnsShield(b, kingCoordinate, c)
  {
    var pawnsBestShield := Shields;
    for s := 0 to |pawnsBestShield|
      invariant IsOnFirstOrSecond(kingCoordinate, c) ==>
                  forall s' :: 0 <= s' < s ==> !ShieldHolds(b, kingCoordinate, c, Shields[s'])
    {
      var shield := pawnsBestShield[s];
      var isAllShieldTrue := true;
      for k := 0 to |shield|
        invariant isAllShieldTrue <==> forall k' :: 0 <= k' < k ==> SpotCovered(b, kingCoordinate, c, shield[k'])
      {
        var spot := kingCoordinate + shield[k] * Direction(c);
        var q := GetPieceAtCoordinate(b, spot);
        if (q.None? || q.value.kind != Kind.Pawn) && !IsPawnFromOtherSide(kingCoordinate, spot) {
          isAllShieldTrue := false;
        }
      }
      if isAllShieldTrue && IsOnFirstOrSecond(kingCoordinate, c) {
        return GoodPawnsShieldBonus;
      }
    }
    return BadPawnsShieldPunishment;
  }

  // ---- calculateCastleValue and calculateKingSafety ---------------------------------

  /** KingSafety.calculateCastleValue. */
  function CastleValue(b: Board, king: Piece, hasCastled: bool): (r: real)
    ensures hasCastled ==> r == CastleBonus + PawnsShield(b, king.position, king.color)
    ensures !hasCastled ==> r == (if king.firstMove then 0.0 else NoneCastlePunishment)
  {
    if hasCastled then CastleBonus + PawnsShield(b, king.position, king.color)
    else if !king.firstMove then NoneCastlePunishment
    else 0.0
  }

  /** The castle term takes one of four values: 0.5 or -0.1 after castling, -0.1 or 0 before. */
  lemma CastleValues(b: Board, king: Piece, hasCastled: bool)
    ensures CastleValue(b, king, hasCastled) in {0.5, -0.1, 0.0}
    ensures CastleValue(b, king, hasCastled) == 0.5 ==> hasCastled && IsOnFirstOrSecond(king.position, king.color)
  {
  }

  /** KingSafety.calculateKingSafety: castle value plus king tropism. */
  function KingSafetyValue(b: Board, king: Piece, hasCastled: bool, enemyMoves: seq<Move>): real
    requires forall m :: m in enemyMoves ==> m.Move?
  {
    CastleValue(b, king, hasCastled) + KingTropism(king.position, enemyMoves)
  }

  /** KingSafety.calculateKingSafety. */
  method CalculateKingSafety(b: Board, king: Piece, hasCastled: bool, enemyMoves: seq<Move>) returns (r: real)
    requires forall m :: m in enemyMoves ==> m.Move?
    ensures r == KingSafetyValue(b, king, hasCastled, enemyMoves)
  {
    var castle: real;
    if hasCastled {
      var shield := CalcPawnsShield(b, king.position, king.color);
      castle := CastleBonus + shield;
    } else if !king.firstMove {
      castle := NoneCastlePunishment;
    } else {
      castle := 0.0;
    }
    var tropism := CalculateKingTropism(king.position, enemyMoves);
    r := castle + tropism;
  }
}
