/**
 * Position hashing of logic/player/AI/Zobrist.java: the XOR of one table key per occupied
 * square, the castling-right flag keys and the side-to-move key. The random key table and
 * flag keys are parameters.
 */
module Zobrist {
  import opened Wrappers
  import opened Colors
  import opened Pieces
  import opened Positions

  /** A 64-bit key (a Java long) as its 64 bits. */
  type Word = w: seq<bool> | |w| == 64 witness seq(64, i => false)

  /** The all-zero key, the start of every fold. */
  function Zero(): Word
  {
    seq(64, i => false)
  }

  /** The ^ operator of Java on longs: bitwise exclusive or. */
  function Xor(a: Word, b: Word): Word
  {
    seq(64, i requires 0 <= i < 64 => a[i] != b[i])
  }

  lemma XorZero(a: Word)
    ensures Xor(a, Zero()) == a
  {
    assert forall i :: 0 <= i < 64 ==> Xor(a, Zero())[i] == a[i];
  }

  lemma XorSelf(a: Word)
    ensures Xor(a, a) == Zero()
  {
    assert forall i :: 0 <= i < 64 ==> Xor(a, a)[i] == Zero()[i];
  }

  lemma XorCommutes(a: Word, b: Word)
    ensures Xor(a, b) == Xor(b, a)
  {
    assert forall i :: 0 <= i < 64 ==> Xor(a, b)[i] == Xor(b, a)[i];
  }

  lemma XorAssociates(a: Word, b: Word, c: Word)
    ensures Xor(Xor(a, b), c) == Xor(a, Xor(b, c))
  {
    assert forall i :: 0 <= i < 64 ==> Xor(Xor(a, b), c)[i] == Xor(a, Xor(b, c))[i];
  }

  /** The 64x12 piece-square table and the flag keys drawn by the static initialisers. */
  datatype KeySet = KeySet(
    table: seq<seq<Word>>,
    whiteKingMoved: Word, whiteQueenSideRookMoved: Word, whiteKingSideRookMoved: Word,
    blackKingMoved: Word, blackQueenSideRookMoved: Word, blackKingSideRookMoved: Word,
    passantColumn: seq<Word>,
    whiteMove: Word)

  predicate ValidKeySet(k: KeySet)
  {
    |k.table| == 64 && (forall i :: 0 <= i < 64 ==> |k.table[i]| == 12) && |k.passantColumn| == 8
  }

  function ZeroRow(n: nat): (r: seq<Word>)
    ensures |r| == n
  {
    seq(n, j => Zero())
  }

  type Keys = k: KeySet | ValidKeySet(k)
    witness KeySet(seq(64, i => ZeroRow(12)), Zero(), Zero(), Zero(), Zero(), Zero(), Zero(), ZeroRow(8), Zero())

  /** The en-passant column keys written out in the class, as unsigned 64-bit numbers. */
  const PassantColumn: seq<int> := [
    0x70cc73d90bc26e24, 0xe21a6b35df0c3ad7, 0x003a93d8b2806962, 0x1c99ded33cb890a1,
    0xcf3145de0add4289, 0xd0e4427a5514fb72, 0x77c621cc9fb3a483, 0x67a34dac4356550b]

  /**
   * Zobrist.indexOf: White's kinds in the order pawn, knight, bishop, rook, queen, king, then
   * Black's. The chain's fallback -1 is unreachable here: every piece has one of the twelve
   * kind and colour combinations.
   */
  function IndexOf(p: Piece): (i: int)
    ensures 0 <= i < 12
    ensures p.color == White <==> i < 6
  {
    var column :=
      match p.kind
      case Pawn => 0
      case Knight => 1
      case Bishop => 2
      case Rook => 3
      case Queen => 4
      case King => 5;
    if p.color == White then column else column + 6
  }

  /** Two pieces share a column of the table exactly when they share kind and colour. */
  lemma IndexOfInjective(p: Piece, q: Piece)
    ensures IndexOf(p) == IndexOf(q) <==> p.kind == q.kind && p.color == q.color
  {
  }

  /** Every column of the table belongs to some kind and colour. */
  lemma IndexOfOnto(i: int) returns (k: Kind, c: Color)
    requires 0 <= i < 12
    ensures IndexOf(Piece(k, 0, c, false)) == i
  {
    c := if i < 6 then White else Black;
    var j := i % 6;
    k := if j == 0 then Kind.Pawn else if j == 1 then Kind.Knight else if j == 2 then Kind.Bishop
         else if j == 3 then Kind.Rook else if j == 4 then Kind.Queen else Kind.King;
  }

  /** The XOR of the table keys of the pieces on the squares below n. */
  function PieceKeysBelow(k: Keys, b: Board, n: nat): Word
    requires n <= 64
  {
    if n == 0 then Zero()
    else
      var loc := n - 1;
      var piece := GetPieceAtCoordinate(b, loc);
      if piece.Some? then Xor(PieceKeysBelow(k, b, n - 1), k.table[loc][IndexOf(piece.value)])
      else PieceKeysBelow(k, b, n - 1)
  }

  /** Zobrist.findCoordinatePieceFirstMove: the square holds a piece of that kind that has not moved. */
  predicate FirstMoveAt(b: Board, pieceCoordinate: int, kind: Kind)
  {
    var piece := GetPieceAtCoordinate(b, pieceCoordinate);
    piece.Some? && piece.value.kind == kind && piece.value.firstMove
  }

  /** XOR the key into the accumulator when the flag holds. */
  function XorIf(acc: Word, flag: bool, key: Word): (r: Word)
    ensures !flag ==> r == acc
  {
    if flag then Xor(acc, key) else acc
  }

  /** The flag keys XORed, in the class's order, for each king or rook still unmoved on its home square. */
  function WithFlagKeys(k: Keys, b: Board, acc: Word): Word
  {
    var key1 := XorIf(acc, FirstMoveAt(b, 60, Kind.King), k.whiteKingMoved);
    var key2 := XorIf(key1, FirstMoveAt(b, 63, Kind.Rook), k.whiteKingSideRookMoved);
    var key3 := XorIf(key2, FirstMoveAt(b, 56, Kind.Rook), k.whiteQueenSideRookMoved);
    var key4 := XorIf(key3, FirstMoveAt(b, 4, Kind.King), k.blackKingMoved);
    var key5 := XorIf(key4, FirstMoveAt(b, 7, Kind.Rook), k.blackKingSideRookMoved);
    XorIf(key5, FirstMoveAt(b, 0, Kind.Rook), k.blackQueenSideRookMoved)
  }

  /** Zobrist.getKeyForBoard as a value: the piece keys, then the flag keys, then the side key. */
  function Key(k: Keys, b: Board): Word
  {
    XorIf(WithFlagKeys(k, b, PieceKeysBelow(k, b, 64)), b.turn == White, k.whiteMove)
  }

  /** Zobrist.getKeyForBoard. */
  method GetKeyForBoard(k: Keys, b: Board) returns (key: Word)
    ensures key == Key(k, b)
  {
    key := Zero();
    for loc := 0 to 64
      invariant key == PieceKeysBelow(k, b, loc)
    {
      var piece := GetPieceAtCoordinate(b, loc);
      if piece.Some? {
        key := Xor(key, k.table[loc][IndexOf(piece.value)]);
      }
    }
    if FirstMoveAt(b, 60, Kind.King) { key := Xor(key, k.whiteKingMoved); }
    if FirstMoveAt(b, 63, Kind.Rook) { key := Xor(key, k.whiteKingSideRookMoved); }
    if FirstMoveAt(b, 56, Kind.Rook) { key := Xor(key, k.whiteQueenSideRookMoved); }
    if FirstMoveAt(b, 4, Kind.King) { key := Xor(key, k.blackKingMoved); }
    if FirstMoveAt(b, 7, Kind.Rook) { key := Xor(key, k.blackKingSideRookMoved); }
    if FirstMoveAt(b, 0, Kind.Rook) { key := Xor(key, k.blackQueenSideRookMoved); }
    if b.turn == White {
      key := Xor(key, k.whiteMove);
    }
  }

  /** Boards that agree on every square. */
  predicate SameSquares(b1: Board, b2: Board)
  {
    forall loc :: 0 <= loc < 64 ==> GetPieceAtCoordinate(b1, loc) == GetPieceAtCoordinate(b2, loc)
  }

  lemma {:induction false} SameSquaresSamePieceKeys(k: Keys, b1: Board, b2: Board, n: nat)
    requires n <= 64 && SameSquares(b1, b2)
    ensures PieceKeysBelow(k, b1, n) == PieceKeysBelow(k, b2, n)
  {
    if n > 0 {
      SameSquaresSamePieceKeys(k, b1, b2, n - 1);
      assert GetPieceAtCoordinate(b1, n - 1) == GetPieceAtCoordinate(b2, n - 1);
    }
  }

  lemma SameSquaresSameFlags(k: Keys, b1: Board, b2: Board, acc: Word)
    requires SameSquares(b1, b2)
    ensures WithFlagKeys(k, b1, acc) == WithFlagKeys(k, b2, acc)
  {
    assert GetPieceAtCoordinate(b1, 60) == GetPieceAtCoordinate(b2, 60);
    assert GetPieceAtCoordinate(b1, 63) == GetPieceAtCoordinate(b2, 63);
    assert GetPieceAtCoordinate(b1, 56) == GetPieceAtCoordinate(b2, 56);
    assert GetPieceAtCoordinate(b1, 4) == GetPieceAtCoordinate(b2, 4);
    assert GetPieceAtCoordinate(b1, 7) == GetPieceAtCoordinate(b2, 7);
    assert GetPieceAtCoordinate(b1, 0) == GetPieceAtCoordinate(b2, 0);
  }

  /** For a fixed key set, equal square contents and side to move give equal keys. */
  lemma KeyDeterminedByContents(k: Keys, b1: Board, b2: Board)
    requires SameSquares(b1, b2) && b1.turn == b2.turn
    ensures Key(k, b1) == Key(k, b2)
  {
    SameSquaresSamePieceKeys(k, b1, b2, 64);
    SameSquaresSameFlags(k, b1, b2, PieceKeysBelow(k, b1, 64));
  }

  /** Boards equal in the sense of Board.equals hash alike. */
  lemma EqualBoardsEqualKeys(k: Keys, b1: Board, b2: Board)
    requires SamePosition(b1, b2)
    ensures Key(k, b1) == Key(k, b2)
  {
    KeyDeterminedByContents(k, b1, b2);
  }

  /** Two boards that differ only in the side to move have keys that differ by exactly whiteMove. */
  lemma TurnFlipsWhiteMove(k: Keys, b1: Board, b2: Board)
    requires SameSquares(b1, b2) && b1.turn != b2.turn
    ensures Xor(Key(k, b1), Key(k, b2)) == k.whiteMove
  {
    SameSquaresSamePieceKeys(k, b1, b2, 64);
    SameSquaresSameFlags(k, b1, b2, PieceKeysBelow(k, b1, 64));
    var x := WithFlagKeys(k, b1, PieceKeysBelow(k, b1, 64));
    if b1.turn == White {
      XorAssociates(x, k.whiteMove, x);
      XorCommutes(k.whiteMove, x);
      XorAssociates(k.whiteMove, x, x);
      XorSelf(x);
      XorCommutes(k.whiteMove, Zero());
      XorZero(k.whiteMove);
    } else {
      XorAssociates(x, x, k.whiteMove);
      XorSelf(x);
      XorCommutes(Zero(), k.whiteMove);
      XorZero(k.whiteMove);
    }
  }

  /** With no unmoved king or rook on the six home squares, only the pieces and the side key remain. */
  lemma NoFlagsOnceMoved(k: Keys, b: Board)
    requires !FirstMoveAt(b, 60, Kind.King) && !FirstMoveAt(b, 63, Kind.Rook) && !FirstMoveAt(b, 56, Kind.Rook)
    requires !FirstMoveAt(b, 4, Kind.King) && !FirstMoveAt(b, 7, Kind.Rook) && !FirstMoveAt(b, 0, Kind.Rook)
    ensures Key(k, b) == XorIf(PieceKeysBelow(k, b, 64), b.turn == White, k.whiteMove)
  {
  }

  lemma {:induction false} SameTableSamePieceKeys(k: Keys, k2: Keys, b: Board, n: nat)
    requires n <= 64 && k2.table == k.table
    ensures PieceKeysBelow(k, b, n) == PieceKeysBelow(k2, b, n)
  {
    if n > 0 {
      SameTableSamePieceKeys(k, k2, b, n - 1);
    }
  }

  /** The en-passant column keys never enter the key: the line that would XOR them is commented out. */
  lemma PassantKeysUnused(k: Keys, b: Board, passant: seq<Word>)
    requires |passant| == 8
    ensures Key(k, b) == Key(k.(passantColumn := passant), b)
  {
    SameTableSamePieceKeys(k, k.(passantColumn := passant), b, 64);
  }
}
