/**
 * Move.executeMove (logic/Move.java): the new square map is rebuilt from the active pieces
 * of both sides, the origin is cleared, the moved piece is put on its destination and the
 * turn passes to the opponent.
 */
module Execution {
  import opened Wrappers
  import opened Colors
  import opened Pieces
  import opened Positions
  import opened Boards

  /** The puts of one executeMove loop, in list order; the skipped piece is not put. */
  function PutPieces(st: State, ps: seq<Piece>, skip: Option<Piece>): State
  {
    if ps == [] then st
    else
      var prev := PutPieces(st, ps[..|ps| - 1], skip);
      var p := ps[|ps| - 1];
      if Some(p) == skip then prev else prev[p.position := Some(p)]
  }

  /** The square map executeMove builds. */
  function ExecutedState(m: Move): State
    requires m.Move?
  {
    var b := m.board;
    var mine := PutPieces(map[], ActivePieces(b.state, b.turn), Some(m.piece));
    var all := PutPieces(mine, ActivePieces(b.state, Opponent(b.turn)), None);
    all[m.piece.position := None][m.to := Some(MovePiece(m.piece, m.to))]
  }

  /**
   * The board executeMove returns: the rebuilt map, the opponent to move, and a fresh
   * board's counter and castled flags; its history link is the executed move.
   */
  function Execute(m: Move): (nb: Board)
    requires m.Move?
  {
    Board(ExecutedState(m), Opponent(m.board.turn), 0, m, false, false)
  }

  /** One of executeMove's loops: each listed piece but the skipped one is put on its square. */
  method PutAll(st: State, ps: seq<Piece>, skip: Option<Piece>) returns (newState: State)
    ensures newState == PutPieces(st, ps, skip)
  {
    newState := st;
    for i := 0 to |ps|
      invariant newState == PutPieces(st, ps[..i], skip)
    {
      assert ps[..i + 1][..i] == ps[..i];
      if Some(ps[i]) != skip {
        newState := newState[ps[i].position := Some(ps[i])];
      }
    }
    assert ps[..|ps|] == ps;
  }

  /** Move.executeMove. */
  method ExecuteMove(m: Move) returns (nb: Board)
    requires m.Move?
    ensures nb == Execute(m)
  {
    var b := m.board;
    var mine := GetActivePieces(b.state, b.turn);
    var empty: State := map[];
    var newState: State := PutAll(empty, mine, Some(m.piece));
    var theirs := GetActivePieces(b.state, Opponent(b.turn));
    newState := PutAll(newState, theirs, None);
    newState := newState[m.piece.position := None];
    newState := newState[m.to := Some(MovePiece(m.piece, m.to))];
    nb := Board(newState, Opponent(b.turn), 0, m, false, false);
  }

  /** A square no put piece stands on keeps its entry. */
  lemma {:induction false} PutPiecesKeep(st: State, ps: seq<Piece>, skip: Option<Piece>, s: Square)
    requires forall i :: 0 <= i < |ps| && ps[i].position == s ==> Some(ps[i]) == skip
    ensures (s in PutPieces(st, ps, skip)) == (s in st)
    ensures s in st ==> PutPieces(st, ps, skip)[s] == st[s]
  {
    if ps != [] {
      PutPiecesKeep(st, ps[..|ps| - 1], skip, s);
    }
  }

  /** A square on which exactly one piece of the list stands, and it is put, ends up holding it. */
  lemma {:induction false} PutPiecesPut(st: State, ps: seq<Piece>, skip: Option<Piece>, q: Piece)
    requires q in ps && Some(q) != skip
    requires forall i :: 0 <= i < |ps| && ps[i].position == q.position ==> ps[i] == q
    ensures q.position in PutPieces(st, ps, skip) && PutPieces(st, ps, skip)[q.position] == Some(q)
  {
    var front := ps[..|ps| - 1];
    if ps[|ps| - 1] != q {
      assert q in front;
      PutPiecesPut(st, front, skip, q);
    }
  }

  /** Executing a move puts the moved piece, marked as moved, on the destination. */
  lemma ExecuteDestination(m: Move)
    requires m.Move?
    ensures GetPieceAtCoordinate(Execute(m), m.to) == Some(MovePiece(m.piece, m.to))
    ensures Execute(m).turn == Opponent(m.board.turn) && Execute(m).transitionMove == m
  {
  }

  /** Executing a move that leaves its square empties the origin. */
  lemma ExecuteOrigin(m: Move)
    requires m.Move? && m.piece.position != m.to
    ensures m.piece.position in Execute(m).state && Execute(m).state[m.piece.position] == None
    ensures GetPieceAtCoordinate(Execute(m), m.piece.position) == None
  {
  }

  /** On a well-formed board the pieces of one colour on square s are exactly the occupant of s. */
  lemma PiecesOnSquare(b: Board, c: Color, s: Square, p: Piece)
    requires WellFormed(b) && p in ActivePieces(b.state, c) && p.position == s
    ensures s in b.state && b.state[s] == Some(p)
  {
    ActivePiecesMembership(b.state, c, p);
  }

  /**
   * On a well-formed board every square other than the origin and the destination keeps
   * its occupant: the mover's other pieces and all opponent pieces are copied in place.
   */
  lemma ExecuteFrame(m: Move, s: Square)
    requires m.Move? && WellFormed(m.board) && s != m.piece.position && s != m.to
    ensures GetPieceAtCoordinate(Execute(m), s) == GetPieceAtCoordinate(m.board, s)
  {
    var b := m.board;
    var mineList := ActivePieces(b.state, b.turn);
    var theirList := ActivePieces(b.state, Opponent(b.turn));
    var mine := PutPieces(map[], mineList, Some(m.piece));
    forall i | 0 <= i < |mineList| && mineList[i].position == s
      ensures s in b.state && b.state[s] == Some(mineList[i])
    {
      PiecesOnSquare(b, b.turn, s, mineList[i]);
    }
    forall i | 0 <= i < |theirList| && theirList[i].position == s
      ensures s in b.state && b.state[s] == Some(theirList[i])
    {
      PiecesOnSquare(b, Opponent(b.turn), s, theirList[i]);
    }
    if s in b.state && b.state[s].Some? {
      var q := b.state[s].value;
      DirectionsOpposite(b.turn);
      if q.color == b.turn {
        ActivePiecesMembership(b.state, b.turn, q);
        PutPiecesPut(map[], mineList, Some(m.piece), q);
        PutPiecesKeep(mine, theirList, None, s);
      } else {
        ActivePiecesMembership(b.state, Opponent(b.turn), q);
        PutPiecesPut(mine, theirList, None, q);
      }
    } else {
      PutPiecesKeep(map[], mineList, Some(m.piece), s);
      PutPiecesKeep(mine, theirList, None, s);
    }
  }
}
