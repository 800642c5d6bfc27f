/**
 * Positions and moves (logic/Board.java fields, logic/Move.java). A board refers to the
 * move that produced it and a move to the board it was generated on, so both datatypes
 * live in one module.
 */
module Positions {
  import opened Wrappers
  import opened Colors
  import opened Pieces

  /** The Move subclasses the generators create. */
  datatype MoveKind =
    | Plain                        // Move itself: the king's step
    | Major                        // Move.MajorMove: onto an empty square
    | Attack(attacked: Piece)      // Move.AttackMove
    | PawnPush                     // Move.PawnMove
    | PawnAttack(attacked: Piece)  // Move.PawnAttackMove
    | KingSideCastle(rook: Piece, rookFrom: Square, rookTo: Square)
    | QueenSideCastle(rook: Piece, rookFrom: Square, rookTo: Square)

  /**
   * A position: the square-to-piece map (a key may map to None, as a Java map may hold
   * null), the side to move, the moves-without-capture counter, the move that led here
   * and the castled flags of the two players.
   */
  datatype Board = Board(
    state: map<Square, Option<Piece>>,
    turn: Color,
    movesWithoutEat: int,
    transitionMove: Move,
    whiteHasCastled: bool,
    blackHasCastled: bool)

  /** A move of a piece to a square, generated on a board; NullMove ends the history. */
  datatype Move = NullMove | Move(board: Board, piece: Piece, to: Square, kind: MoveKind)

  /** Board.getPieceAtCoordinate: the mapped piece, or None for an empty or absent square. */
  function GetPieceAtCoordinate(b: Board, c: int): (r: Option<Piece>)
    ensures r.Some? ==> IsValidCoordinate(c) && c in b.state && b.state[c] == r
    ensures IsValidCoordinate(c) && c in b.state ==> r == b.state[c]
  {
    if IsValidCoordinate(c) && c in b.state then b.state[c] else None
  }

  predicate IsEmpty(b: Board, c: int)
  {
    GetPieceAtCoordinate(b, c).None?
  }

  /** Piece.isFriendlyPieceOnCoordinate: the square holds a piece of p's colour. */
  predicate IsFriendlyPieceOnCoordinate(b: Board, p: Piece, c: int)
  {
    GetPieceAtCoordinate(b, c).Some? && GetPieceAtCoordinate(b, c).value.color == p.color
  }

  /** The occupant of a square that is neither empty nor friendly is an enemy piece. */
  predicate IsEnemyOn(b: Board, p: Piece, c: int, q: Piece)
  {
    GetPieceAtCoordinate(b, c) == Some(q) && q.color != p.color
  }

  /** A move of p generated on b that goes to an empty square (MajorMove) or captures an enemy (AttackMove). */
  predicate QuietOrCapture(b: Board, p: Piece, m: Move)
  {
    m.Move? && m.board == b && m.piece == p
    && ((m.kind == Major && IsEmpty(b, m.to))
        || (m.kind.Attack? && IsEnemyOn(b, p, m.to, m.kind.attacked)))
  }

  /** Move.isAttack: the AttackMove kinds (PawnAttackMove is an AttackMove). */
  predicate IsAttack(m: Move)
  {
    m.Move? && (m.kind.Attack? || m.kind.PawnAttack?)
  }

  /** Move.isCastle. */
  predicate IsCastle(m: Move)
  {
    m.Move? && (m.kind.KingSideCastle? || m.kind.QueenSideCastle?)
  }

  function AttackedPiece(m: Move): Piece
    requires IsAttack(m)
  {
    m.kind.attacked
  }

  /** A pawn move that reaches the last rank of its side. */
  predicate IsPawnPromotion(m: Move)
  {
    m.Move? && m.piece.kind == Pawn
    && (if m.piece.color == White then m.to < 8 else m.to >= 56)
  }

  /** Board.equals: same square map and same side to move, whatever the history. */
  predicate SamePosition(a: Board, b: Board)
  {
    a.state == b.state && a.turn == b.turn
  }

  /** Every occupied key holds a piece whose position is that key. */
  predicate WellFormed(b: Board)
  {
    forall k :: k in b.state && b.state[k].Some? ==> b.state[k].value.position == k
  }

  /** Board.equals is an equivalence, and equal boards agree on every square. */
  lemma SamePositionIsEquivalence(a: Board, b: Board, c: Board)
    ensures SamePosition(a, a)
    ensures SamePosition(a, b) ==> SamePosition(b, a)
    ensures SamePosition(a, b) && SamePosition(b, c) ==> SamePosition(a, c)
    ensures SamePosition(a, b) ==> forall s :: GetPieceAtCoordinate(a, s) == GetPieceAtCoordinate(b, s)
  {
  }
}
