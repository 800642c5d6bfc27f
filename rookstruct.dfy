/** The rook-structure term of the evaluation (logic/player/AI/RookStruct.java). */
module RookStructure {
  import opened Pieces
  import opened Positions
  import opened Boards

  const ConnectedRowRooksBonus: real := 0.07
  const ConnectedColumnRooksBonus: real := 0.12

  // ---- findRooks --------------------------------------------------------------------

  /** The rooks of the list, in list order. */
  function Rooks(ps: seq<Piece>): seq<Piece>
  {
    if ps == [] then []
    else Rooks(ps[..|ps| - 1]) + (if ps[|ps| - 1].kind == Kind.Rook then [ps[|ps| - 1]] else [])
  }

  /** RookStruct.findRooks. */
  method FindRooks(ps: seq<Piece>) returns (rooks: seq<Piece>)
    ensures rooks == Rooks(ps)
  {
    rooks := [];
    for i := 0 to |ps|
      invariant rooks == Rooks(ps[..i])
    {
      assert ps[..i + 1][..i] == ps[..i];
      if ps[i].kind == Kind.Rook {
        rooks := rooks + [ps[i]];
      }
    }
    assert ps[..|ps|] == ps;
  }

  /** The rooks found are exactly the rooks of the list, one entry per rook. */
  lemma {:induction false} RooksExact(ps: seq<Piece>)
    ensures forall x :: x in Rooks(ps) <==> x in ps && x.kind == Kind.Rook
    ensures |Rooks(ps)| == KindCount(ps, Kind.Rook)
  {
    if ps != [] {
      RooksExact(ps[..|ps| - 1]);
      assert ps == ps[..|ps| - 1] + [ps[|ps| - 1]];
    }
  }

  // ---- the connected-rook scans -----------------------------------------------------

  /** The squares start..stop-1 are all empty. */
  predicate RankSpanEmpty(b: Board, start: int, stop: int)
  {
    forall s: Square :: start <= s < stop ==> IsEmpty(b, s)
  }

  /** The squares start, start + 8, ... below stop are all empty. */
  predicate FileSpanEmpty(b: Board, start: int, stop: int)
  {
    forall s: Square :: start <= s < stop && s % 8 == start % 8 ==> IsEmpty(b, s)
  }

  function Min(a: int, b: int): int
  {
    if a <= b then a else b
  }

  function Max(a: int, b: int): int
  {
    if a >= b then a else b
  }

  /** RookStruct.calculateConnectedColumnRooks. */
  function ColumnBonus(b: Board, rook1: Piece, rook2: Piece): real
  {
    if rook1.position % 8 == rook2.position % 8
       && FileSpanEmpty(b, Min(rook1.position + 8, rook2.position), Max(rook1.position, rook2.position))
    then ConnectedColumnRooksBonus
    else 0.0
  }

  /** RookStruct.calculateConnectedRowRooks. */
  function RowBonus(b: Board, rook1: Piece, rook2: Piece): real
  {
    if rook1.position / 8 == rook2.position / 8
       && RankSpanEmpty(b, Min(rook1.position + 1, rook2.position), Max(rook1.position, rook2.position))
    then ConnectedRowRooksBonus
    else 0.0
  }

  /** RookStruct.calculateConnectedColumnRooks. */
  method CalculateConnectedColumnRooks(rook1: Piece, rook2: Piece, b: Board) returns (r: real)
    ensures r == ColumnBonus(b, rook1, rook2)
  {
    if rook1.position % 8 == rook2.position % 8 {
      var start, stop := Min(rook1.position + 8, rook2.position), Max(rook1.position, rook2.position);
      var i := start;
      while i < stop
        invariant start <= i && i % 8 == start % 8
        invariant forall s: Square :: start <= s < i && s % 8 == start % 8 ==> IsEmpty(b, s)
        decreases stop - i
      {
        if GetPieceAtCoordinate(b, i).Some? {
          assert !IsEmpty(b, i) && start <= i < stop && i % 8 == start % 8;
          return 0.0;
        }
        forall s: Square | i < s < i + 8
          ensures s % 8 != start % 8
        {
          if s % 8 == start % 8 {
            SameFileApart(s, i);
          }
        }
        i := i + 8;
      }
      return ConnectedColumnRooksBonus;
    }
    return 0.0;
  }

  /** RookStruct.calculateConnectedRowRooks. */
  method CalculateConnectedRowRooks(rook1: Piece, rook2: Piece, b: Board) returns (r: real)
    ensures r == RowBonus(b, rook1, rook2)
  {
    if rook1.position / 8 == rook2.position / 8 {
      var start, stop := Min(rook1.position + 1, rook2.position), Max(rook1.position, rook2.position);
      for i := start to stop
        invariant forall s: Square :: start <= s < i ==> IsEmpty(b, s)
      {
        if GetPieceAtCoordinate(b, i).Some? {
          assert !IsEmpty(b, i);
          return 0.0;
        }
      }
      return ConnectedRowRooksBonus;
    }
    return 0.0;
  }

  /**
   * With the first rook on the lower square, the column bonus is paid exactly when the
   * rooks share a file and every square of that file strictly between them is empty.
   */
  lemma ColumnBonusMeansConnected(b: Board, rook1: Piece, rook2: Piece)
    requires rook1.position < rook2.position
    ensures ColumnBonus(b, rook1, rook2) == ConnectedColumnRooksBonus <==>
              (rook1.position % 8 == rook2.position % 8
               && forall s: Square :: rook1.position < s < rook2.position && s % 8 == rook1.position % 8
                    ==> IsEmpty(b, s))
  {
    var p1, p2 := rook1.position, rook2.position;
    if p1 % 8 == p2 % 8 {
      SameFileApart(p1, p2);
      assert Min(p1 + 8, p2) == p1 + 8 && Max(p1, p2) == p2;
      assert (p1 + 8) % 8 == p1 % 8;
      forall s: Square | p1 < s < p2 && s % 8 == p1 % 8
        ensures p1 + 8 <= s
      {
        SameFileApart(s, p1);
      }
    }
  }

  /** Likewise for the row bonus and the squares of the rank strictly between the rooks. */
  lemma RowBonusMeansConnected(b: Board, rook1: Piece, rook2: Piece)
    requires rook1.position < rook2.position
    ensures RowBonus(b, rook1, rook2) == ConnectedRowRooksBonus <==>
              (rook1.position / 8 == rook2.position / 8
               && forall s: Square :: rook1.position < s < rook2.position ==> IsEmpty(b, s))
  {
  }

  /**
   * With the first rook on the higher square, both scans begin on the second rook's own
   * square, so if that rook stands on the board the pair earns nothing.
   */
  lemma ReversedPairScoresNothing(b: Board, rook1: Piece, rook2: Piece)
    requires rook1.position > rook2.position
    requires GetPieceAtCoordinate(b, rook2.position).Some?
    ensures ColumnBonus(b, rook1, rook2) == 0.0 && RowBonus(b, rook1, rook2) == 0.0
  {
    assert !IsEmpty(b, rook2.position);
    assert rook2.position % 8 == Min(rook1.position + 8, rook2.position) % 8;
  }

  // ---- rookStruct -------------------------------------------------------------------

  /** RookStruct.rookStruct: the two bonuses for exactly two rooks, nothing otherwise. */
  function RookStructValue(b: Board, ps: seq<Piece>): (r: real)
    ensures |Rooks(ps)| != 2 ==> r == 0.0
  {
    var rooks := Rooks(ps);
    if |rooks| == 2 then RowBonus(b, rooks[0], rooks[1]) + ColumnBonus(b, rooks[0], rooks[1]) else 0.0
  }

  /** RookStruct.rookStruct. */
  method RookStruct(b: Board, ps: seq<Piece>) returns (r: real)
    ensures r == RookStructValue(b, ps)
  {
    var rooks := FindRooks(ps);
    if |rooks| == 2 {
      var rook1, rook2 := rooks[0], rooks[1];
      var row := CalculateConnectedRowRooks(rook1, rook2, b);
      var column := CalculateConnectedColumnRooks(rook1, rook2, b);
      return row + column;
    }
    return 0.0;
  }

  /** Two rooks on different squares cannot share both rank and file, so at most one bonus is paid. */
  lemma RookStructValues(b: Board, ps: seq<Piece>)
    requires |Rooks(ps)| == 2 ==> Rooks(ps)[0].position != Rooks(ps)[1].position
    ensures RookStructValue(b, ps) in {0.0, ConnectedRowRooksBonus, ConnectedColumnRooksBonus}
  {
    var rooks := Rooks(ps);
    if |rooks| == 2 {
      SquareCoordinates(rooks[0].position);
      SquareCoordinates(rooks[1].position);
    }
  }
}
