/**
 * Pieces as values (logic/Pieces/Piece.java and the value constants of its subclasses),
 * and the square geometry every move generator uses.
 */
module Pieces {
  import opened Wrappers
  import opened Colors

  /** A square index 0..63: rank = index / 8, file = index % 8. */
  type Square = i: int | 0 <= i < 64

  datatype Kind = Pawn | Knight | Bishop | Rook | Queen | King

  /** A piece: its kind, the square it stands on, its side and whether it has not moved yet. */
  datatype Piece = Piece(kind: Kind, position: Square, color: Color, firstMove: bool)

  /** Piece.isValidCoordinate. */
  predicate IsValidCoordinate(c: int)
  {
    0 <= c <= 63
  }

  function File(c: int): int
  {
    c % 8
  }

  function Rank(c: int): int
  {
    c / 8
  }

  function Abs(x: int): nat
  {
    if x < 0 then -x else x
  }

  /**
   * The material value field: Pawn 1, Knight 3.2, Bishop 3, Rook 5, Queen 9. The King
   * constructor never assigns the field, so it keeps Java's default 0.
   */
  function Value(k: Kind): (v: real)
    ensures 0.0 <= v <= 9.0
    ensures v == 0.0 <==> k == King
  {
    match k
    case Pawn => 1.0
    case Knight => 3.2
    case Bishop => 3.0
    case Rook => 5.0
    case Queen => 9.0
    case King => 0.0
  }

  /**
   * Piece.movePiece, which the model takes as: the piece now stands on the destination
   * and has lost its first-move flag.
   */
  function MovePiece(p: Piece, to: Square): Piece
  {
    Piece(p.kind, to, p.color, false)
  }

  /** File and rank recover a square, and stay within the board. */
  lemma SquareCoordinates(c: Square)
    ensures 0 <= File(c) < 8 && 0 <= Rank(c) < 8
    ensures c == 8 * Rank(c) + File(c)
  {
  }

  /**
   * Adding 8 * dr + df to a square moves it by dr ranks and df files precisely when the
   * file stays within 0..7, that is, when the step does not wrap around a board edge.
   */
  lemma StepCoordinates(c: Square, dr: int, df: int)
    requires 0 <= File(c) + df < 8
    ensures File(c + 8 * dr + df) == File(c) + df
    ensures Rank(c + 8 * dr + df) == Rank(c) + dr
  {
    var r, f := c / 8, c % 8;
    assert c + 8 * dr + df == 8 * (r + dr) + (f + df);
  }

  /** Two squares differ by 8 times their rank difference plus their file difference. */
  lemma DeltaCoordinates(a: Square, b: Square)
    ensures b - a == 8 * (Rank(b) - Rank(a)) + (File(b) - File(a))
  {
    SquareCoordinates(a);
    SquareCoordinates(b);
  }

  /** Two indices on the same file are equal or at least a rank apart. */
  lemma SameFileApart(s: int, i: int)
    requires s % 8 == i % 8
    ensures s == i || s - i >= 8 || i - s >= 8
  {
    assert s == 8 * (s / 8) + s % 8 && i == 8 * (i / 8) + i % 8;
  }

  /** The 64-entry preferred-square tables of one kind, for White and for Black. */
  datatype ColorTables = ColorTables(white: seq<real>, black: seq<real>)

  /** The preferred-square tables of every kind. */
  datatype LocationTables = LocationTables(
    pawn: ColorTables, knight: ColorTables, bishop: ColorTables,
    rook: ColorTables, queen: ColorTables, king: ColorTables)

  predicate ValidColorTables(t: ColorTables)
  {
    |t.white| == 64 && |t.black| == 64
  }

  predicate ValidTables(t: LocationTables)
  {
    ValidColorTables(t.pawn) && ValidColorTables(t.knight) && ValidColorTables(t.bishop)
    && ValidColorTables(t.rook) && ValidColorTables(t.queen) && ValidColorTables(t.king)
  }

  function ZeroColorTables(): ColorTables
  {
    ColorTables(seq(64, i => 0.0), seq(64, i => 0.0))
  }

  /** Location tables whose every entry has 64 squares. */
  type Tables = t: LocationTables | ValidTables(t)
    witness LocationTables(ZeroColorTables(), ZeroColorTables(), ZeroColorTables(),
                           ZeroColorTables(), ZeroColorTables(), ZeroColorTables())

  function TablesOf(t: LocationTables, k: Kind): ColorTables
  {
    match k
    case Pawn => t.pawn
    case Knight => t.knight
    case Bishop => t.bishop
    case Rook => t.rook
    case Queen => t.queen
    case King => t.king
  }

  /**
   * Piece.locationBonus: the entry at the piece's square of its kind's table for its colour
   * (for example Knight.java:51-53; the Rook's game-stage argument is not used).
   */
  function LocationBonus(t: Tables, p: Piece): real
  {
    var ct := TablesOf(t, p.kind);
    if p.color == White then ct.white[p.position] else ct.black[p.position]
  }

  /** The bonus depends on kind, colour and square only, not on the first-move flag. */
  lemma LocationBonusIgnoresFirstMove(t: Tables, p: Piece)
    ensures LocationBonus(t, p) == LocationBonus(t, p.(firstMove := !p.firstMove))
  {
  }

  /** The first piece of the given kind in a list (WhitePlayer.findKing, PieceLocation.findQueen). */
  function FirstOfKind(ps: seq<Piece>, k: Kind): Option<Piece>
  {
    if ps == [] then None
    else if ps[0].kind == k then Some(ps[0])
    else FirstOfKind(ps[1..], k)
  }

  /**
   * A piece of the kind is found exactly when the list holds one, and the piece found is
   * the first of that kind in list order.
   */
  lemma {:induction false} FirstOfKindSpec(ps: seq<Piece>, k: Kind)
    ensures FirstOfKind(ps, k).Some? <==> exists i :: 0 <= i < |ps| && ps[i].kind == k
    ensures FirstOfKind(ps, k).Some? ==>
              exists i :: 0 <= i < |ps| && ps[i] == FirstOfKind(ps, k).value && ps[i].kind == k
                && forall j :: 0 <= j < i ==> ps[j].kind != k
  {
    if ps != [] && ps[0].kind != k {
      FirstOfKindSpec(ps[1..], k);
      assert forall i :: 1 <= i < |ps| ==> ps[1..][i - 1] == ps[i];
      if FirstOfKind(ps, k).Some? {
        var i :| 0 <= i < |ps[1..]| && ps[1..][i] == FirstOfKind(ps, k).value && ps[1..][i].kind == k
                 && forall j :: 0 <= j < i ==> ps[1..][j].kind != k;
        assert ps[i + 1] == ps[1..][i];
      }
    }
  }

  /** The search loop of WhitePlayer.findKing, BlackPlayer.findKing and PieceLocation.findQueen. */
  method FindFirstOfKind(ps: seq<Piece>, k: Kind) returns (r: Option<Piece>)
    ensures r == FirstOfKind(ps, k)
  {
    var i := 0;
    while i < |ps|
      invariant 0 <= i <= |ps|
      invariant FirstOfKind(ps, k) == FirstOfKind(ps[i..], k)
    {
      if ps[i].kind == k {
        return Some(ps[i]);
      }
      assert ps[i..][1..] == ps[i + 1..];
      i := i + 1;
    }
    return None;
  }
}
