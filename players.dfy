/** Player.getAttacksOnBox (logic/player/Player.java): the moves of a list that end on one square. */
module Attacks {
  import opened Pieces
  import opened Positions

  /** Whether a move of the list ends on the square. */
  predicate Targets(m: Move, box: int)
  {
    m.Move? && m.to == box
  }

  /** Player.getAttacksOnBox as a value. */
  function AttacksOnBox(box: int, moves: seq<Move>): seq<Move>
  {
    if moves == [] then []
    else
      var m := moves[|moves| - 1];
      AttacksOnBox(box, moves[..|moves| - 1]) + (if Targets(m, box) then [m] else [])
  }

  /** Player.getAttacksOnBox. */
  method GetAttacksOnBox(box: int, moves: seq<Move>) returns (attackMoves: seq<Move>)
    ensures attackMoves == AttacksOnBox(box, moves)
  {
    attackMoves := [];
    for i := 0 to |moves|
      invariant attackMoves == AttacksOnBox(box, moves[..i])
    {
      assert moves[..i + 1][..i] == moves[..i];
      if moves[i].Move? && box == moves[i].to {
        attackMoves := attackMoves + [moves[i]];
      }
    }
    assert moves[..|moves|] == moves;
  }

  /** The filter distributes over concatenation, so it keeps the order of the moves it keeps. */
  lemma {:induction false} AttacksOnBoxAppend(box: int, xs: seq<Move>, ys: seq<Move>)
    ensures AttacksOnBox(box, xs + ys) == AttacksOnBox(box, xs) + AttacksOnBox(box, ys)
    decreases |ys|
  {
    if ys == [] {
      assert xs + ys == xs;
    } else {
      var front := ys[..|ys| - 1];
      assert (xs + ys)[..|xs + ys| - 1] == xs + front;
      AttacksOnBoxAppend(box, xs, front);
    }
  }

  /** A one-move list is kept exactly when its move ends on the square. */
  lemma AttacksOnBoxSingle(box: int, m: Move)
    ensures AttacksOnBox(box, [m]) == if Targets(m, box) then [m] else []
  {
    assert [m][..0] == [];
  }

  /** The kept moves are exactly the listed moves that end on the square. */
  lemma {:induction false} AttacksOnBoxMembership(box: int, moves: seq<Move>, m: Move)
    ensures m in AttacksOnBox(box, moves) <==> m in moves && Targets(m, box)
  {
    if moves != [] {
      var front := moves[..|moves| - 1];
      AttacksOnBoxMembership(box, front, m);
      assert moves == front + [moves[|moves| - 1]];
    }
  }

  /** No move is kept exactly when no listed move ends on the square. */
  lemma AttacksOnBoxEmpty(box: int, moves: seq<Move>)
    ensures AttacksOnBox(box, moves) == [] <==> forall i :: 0 <= i < |moves| ==> !Targets(moves[i], box)
  {
    if AttacksOnBox(box, moves) != [] {
      AttacksOnBoxMembership(box, moves, AttacksOnBox(box, moves)[0]);
    }
    forall i | 0 <= i < |moves| && Targets(moves[i], box)
      ensures AttacksOnBox(box, moves) != []
    {
      AttacksOnBoxMembership(box, moves, moves[i]);
    }
  }
}

/**
 * WhitePlayer.calculateCastles and BlackPlayer.calculateCastles: the castling moves offered
 * from the fixed home squares of each side.
 */
module Castling {
  import opened Wrappers
  import opened Colors
  import opened Pieces
  import opened Positions
  import opened Attacks

  /** One castling direction: where the king goes, the rook's squares, and the squares it examines. */
  datatype CastleSide = CastleSide(kingTo: Square, rookFrom: Square, rookTo: Square,
                                   mustBeEmpty: seq<Square>, mustBeSafe: seq<Square>)

  /** The king's home square: 60 for White, 4 for Black. */
  function KingHome(c: Color): Square
  {
    if c == White then 60 else 4
  }

  /** Kingside: the king to 62 with the rook from 63 to 61 (White), or to 6 with 7 to 5 (Black). */
  function KingSide(c: Color): CastleSide
  {
    if c == White then CastleSide(62, 63, 61, [61, 62], [61, 62])
    else CastleSide(6, 7, 5, [5, 6], [5, 6])
  }

  /**
   * Queenside: the king to 58 with the rook from 56 to 59 (White), or to 2 with 0 to 3
   * (Black); three squares must be empty but only the king's two are examined for attacks.
   */
  function QueenSide(c: Color): CastleSide
  {
    if c == White then CastleSide(58, 56, 59, [59, 58, 57], [59, 58])
    else CastleSide(2, 0, 3, [1, 2, 3], [2, 3])
  }

  predicate AllEmpty(b: Board, squares: seq<Square>)
  {
    forall i :: 0 <= i < |squares| ==> IsEmpty(b, squares[i])
  }

  predicate AllSafe(squares: seq<Square>, enemy: seq<Move>)
  {
    forall i :: 0 <= i < |squares| ==> AttacksOnBox(squares[i], enemy) == []
  }

  /** The square holds an unmoved Rook; its colour is not examined. */
  predicate RookReady(b: Board, s: Square)
  {
    GetPieceAtCoordinate(b, s).Some? && GetPieceAtCoordinate(b, s).value.kind == Kind.Rook
    && GetPieceAtCoordinate(b, s).value.firstMove
  }

  /** The conditions one castling direction adds to the king's gate. */
  predicate SideOpen(b: Board, side: CastleSide, enemy: seq<Move>)
  {
    AllEmpty(b, side.mustBeEmpty) && RookReady(b, side.rookFrom) && AllSafe(side.mustBeSafe, enemy)
  }

  function KingSideMove(b: Board, king: Piece, c: Color): Move
    requires RookReady(b, KingSide(c).rookFrom)
  {
    var side := KingSide(c);
    Move(b, king, side.kingTo, KingSideCastle(GetPieceAtCoordinate(b, side.rookFrom).value, side.rookFrom, side.rookTo))
  }

  function QueenSideMove(b: Board, king: Piece, c: Color): Move
    requires RookReady(b, QueenSide(c).rookFrom)
  {
    var side := QueenSide(c);
    Move(b, king, side.kingTo, QueenSideCastle(GetPieceAtCoordinate(b, side.rookFrom).value, side.rookFrom, side.rookTo))
  }

  /** The king has not moved, stands on its home square, and that square is not attacked. */
  predicate KingGate(king: Piece, c: Color, enemy: seq<Move>)
  {
    king.firstMove && king.position == KingHome(c) && AttacksOnBox(KingHome(c), enemy) == []
  }

  /** The castling moves after a passed gate: kingside first, then queenside. */
  function SideCastles(b: Board, king: Piece, c: Color, enemy: seq<Move>): seq<Move>
  {
    (if SideOpen(b, KingSide(c), enemy) then [KingSideMove(b, king, c)] else [])
    + (if SideOpen(b, QueenSide(c), enemy) then [QueenSideMove(b, king, c)] else [])
  }

  /**
   * calculateCastles with the gate both classes evidently intend: no castling out of check.
   * Without a king (findKing returned null) nothing is offered.
   */
  function Castles(b: Board, c: Color, king: Option<Piece>, enemy: seq<Move>): seq<Move>
  {
    if king.Some? && KingGate(king.value, c, enemy) then SideCastles(b, king.value, c, enemy) else []
  }

  /**
   * calculateCastles as written: Black's gate reads the isInCheck field, which the Player
   * constructor assigns only after calculateCastles has returned, so it is still false.
   */
  function CastlesAsWritten(b: Board, c: Color, king: Option<Piece>, enemy: seq<Move>): seq<Move>
  {
    if king.None? then []
    else if c == White then Castles(b, c, king, enemy)
    else if king.value.firstMove && king.value.position == KingHome(c) && !false then SideCastles(b, king.value, c, enemy)
    else []
  }

  /** calculateCastles (either class): the list is built with add under the nested conditions. */
  method CalculateCastles(b: Board, c: Color, king: Option<Piece>, enemy: seq<Move>) returns (castles: seq<Move>)
    ensures castles == Castles(b, c, king, enemy)
  {
    castles := [];
    if king.Some? && king.value.firstMove && king.value.position == KingHome(c) {
      var homeAttacks := GetAttacksOnBox(KingHome(c), enemy);
      if homeAttacks == [] {
        var ks := KingSide(c);
        if AllEmpty(b, ks.mustBeEmpty) && RookReady(b, ks.rookFrom) && AllSafe(ks.mustBeSafe, enemy) {
          castles := castles + [KingSideMove(b, king.value, c)];
        }
        var qs := QueenSide(c);
        if AllEmpty(b, qs.mustBeEmpty) && RookReady(b, qs.rookFrom) && AllSafe(qs.mustBeSafe, enemy) {
          castles := castles + [QueenSideMove(b, king.value, c)];
        }
      }
    }
  }

  /**
   * The castling moves are exactly: the kingside move when the gate passes and the
   * kingside squares are empty, its rook unmoved and its squares unattacked; and likewise
   * the queenside move. So there are at most two, at most one per side, each a castle of
   * the king two files along its home rank onto an empty square.
   */
  lemma CastlesExact(b: Board, c: Color, king: Option<Piece>, enemy: seq<Move>, m: Move)
    ensures |Castles(b, c, king, enemy)| <= 2
    ensures m in Castles(b, c, king, enemy) <==>
              king.Some? && KingGate(king.value, c, enemy)
              && ((SideOpen(b, KingSide(c), enemy) && m == KingSideMove(b, king.value, c))
                  || (SideOpen(b, QueenSide(c), enemy) && m == QueenSideMove(b, king.value, c)))
    ensures m in Castles(b, c, king, enemy) ==>
              IsCastle(m) && m.board == b && Some(m.piece) == king && IsEmpty(b, m.to)
              && Rank(m.to) == Rank(KingHome(c)) && Abs(File(m.to) - File(KingHome(c))) == 2
    ensures forall i, j :: 0 <= i < j < |Castles(b, c, king, enemy)| ==>
              Castles(b, c, king, enemy)[i].kind.KingSideCastle? && Castles(b, c, king, enemy)[j].kind.QueenSideCastle?
  {
    if m in Castles(b, c, king, enemy) {
      var ks, qs := KingSide(c), QueenSide(c);
      if m.kind.KingSideCastle? {
        assert AllEmpty(b, ks.mustBeEmpty) && ks.mustBeEmpty[1] == m.to;
      } else {
        assert AllEmpty(b, qs.mustBeEmpty) && qs.mustBeEmpty[1] == m.to;
      }
    }
  }

  /** Nothing is offered unless the king is unmoved on its home square and that square is unattacked. */
  lemma NoCastleOutOfCheck(b: Board, c: Color, king: Piece, enemy: seq<Move>)
    requires AttacksOnBox(king.position, enemy) != []
    ensures Castles(b, c, Some(king), enemy) == []
  {
  }

  /**
   * As written, a black king that is attacked on its home square may still castle: in the
   * position below a white rook's move onto square 4 attacks the king, yet the kingside
   * castle is offered, while the intended gate offers nothing.
   */
  lemma BlackCastlesOutOfCheck() returns (b: Board, king: Piece, enemy: seq<Move>)
    ensures AttacksOnBox(KingHome(Black), enemy) != [] && king.position == KingHome(Black)
    ensures RookReady(b, KingSide(Black).rookFrom)
    ensures CastlesAsWritten(b, Black, Some(king), enemy) == [KingSideMove(b, king, Black)]
    ensures Castles(b, Black, Some(king), enemy) == []
  {
    king := Piece(Kind.King, 4, Black, true);
    var rook := Piece(Kind.Rook, 7, Black, true);
    var attacker := Piece(Kind.Rook, 60, White, true);
    b := Board(map[4 := Some(king), 7 := Some(rook), 60 := Some(attacker)], White, 0, NullMove, false, false);
    enemy := [Move(b, attacker, 4, Attack(king))];
    AttacksOnBoxSingle(4, enemy[0]);
    forall s | s in [5, 6]
      ensures AttacksOnBox(s, enemy) == []
    {
      AttacksOnBoxSingle(s, enemy[0]);
    }
    assert SideOpen(b, KingSide(Black), enemy);
    assert !RookReady(b, QueenSide(Black).rookFrom);
  }
}

/**
 * Players (logic/player/Player.java, WhitePlayer.java, BlackPlayer.java): a side's view of
 * a board, its legal moves, check, checkmate and stalemate, and makeMove.
 */
module Players {
  import opened Wrappers
  import opened Colors
  import opened Pieces
  import opened Positions
  import opened Transitions
  import opened Boards
  import opened Execution
  import opened Attacks
  import opened Castling

  /** findKing: the first King among the side's active pieces, or None. */
  function FindKing(b: Board, c: Color): Option<Piece>
  {
    FirstOfKind(ActivePieces(b.state, c), Kind.King)
  }

  /** The moves of a side's pieces, without castles (what Board passes to the Player constructor). */
  function PieceMovesOf(b: Board, c: Color): seq<Move>
  {
    AllLegalMoves(b, ActivePieces(b.state, c))
  }

  /** Every move a side's pieces generate is a real move on that board. */
  lemma PieceMovesOfAreMoves(b: Board, c: Color)
    ensures forall m :: m in PieceMovesOf(b, c) ==> m.Move? && m.board == b && m.piece.color == c
  {
    forall m | m in PieceMovesOf(b, c)
      ensures m.Move? && m.board == b && m.piece.color == c
    {
      AllLegalMovesMembership(b, ActivePieces(b.state, c), m);
      var i :| 0 <= i < |ActivePieces(b.state, c)| && m in PieceMoves(b, ActivePieces(b.state, c)[i]);
      PieceMovesSound(b, ActivePieces(b.state, c)[i]);
    }
  }

  /** The Player constructor's legalMoves: the pieces' moves followed by the castling moves. */
  function LegalMoves(b: Board, c: Color): (r: seq<Move>)
    ensures forall m :: m in r ==> m.Move? && m.board == b
  {
    PieceMovesOfAreMoves(b, c);
    PieceMovesOf(b, c) + Castles(b, c, FindKing(b, c), PieceMovesOf(b, Opponent(c)))
  }

  /** The Player constructor's isInCheck: some enemy piece move ends on the king's square. */
  predicate IsInCheck(b: Board, c: Color)
  {
    FindKing(b, c).Some? && AttacksOnBox(FindKing(b, c).value.position, PieceMovesOf(b, Opponent(c))) != []
  }

  /** The side is in check exactly when an enemy piece move targets its king. */
  lemma IsInCheckIff(b: Board, c: Color)
    ensures IsInCheck(b, c) <==> (FindKing(b, c).Some?
              && exists m :: m in PieceMovesOf(b, Opponent(c)) && Targets(m, FindKing(b, c).value.position))
  {
    if FindKing(b, c).Some? {
      var box := FindKing(b, c).value.position;
      var enemy := PieceMovesOf(b, Opponent(c));
      PieceMovesOfAreMoves(b, Opponent(c));
      if AttacksOnBox(box, enemy) != [] {
        AttacksOnBoxMembership(box, enemy, AttacksOnBox(box, enemy)[0]);
      }
      forall m | m in enemy && Targets(m, box)
        ensures AttacksOnBox(box, enemy) != []
      {
        AttacksOnBoxMembership(box, enemy, m);
      }
    }
  }

  /**
   * Whether, on the executed board, a move of the side to move, generated on that board, ends
   * on c's king (none without a king). Java reads the list the old board's opponent holds,
   * fixed before the move (see README, "Left out").
   */
  predicate KingAttackedAfter(nb: Board, c: Color)
  {
    FindKing(nb, c).Some? && AttacksOnBox(FindKing(nb, c).value.position, LegalMoves(nb, nb.turn)) != []
  }

  /** Player.makeMove for a player of colour c on board b holding the list legal. */
  function MakeMoveOn(b: Board, legal: seq<Move>, c: Color, m: Move): (t: MoveTransition)
    requires forall x :: x in legal ==> x.Move?
    ensures t.fromBoard == b && t.transitionMove == m
    ensures t.moveStatus == Undone <==> m !in legal
    ensures t.moveStatus == LeftInCheck <==> m in legal && KingAttackedAfter(Execute(m), c)
    ensures t.moveStatus == Done ==> t.toBoard == Execute(m) && !KingAttackedAfter(t.toBoard, c)
    ensures t.moveStatus != Done ==> t.toBoard == b
  {
    if m !in legal then MoveTransition(b, b, m, Undone)
    else
      var transitionBoard := Execute(m);
      if KingAttackedAfter(transitionBoard, c) then MoveTransition(b, b, m, LeftInCheck)
      else MoveTransition(b, transitionBoard, m, Done)
  }

  /** Player.makeMove, for the player of colour c constructed on b. */
  function MakeMove(b: Board, c: Color, m: Move): MoveTransition
  {
    MakeMoveOn(b, LegalMoves(b, c), c, m)
  }

  /** makeMove accepts the i-th listed move. */
  predicate DoneAt(b: Board, legal: seq<Move>, c: Color, i: int)
    requires forall x :: x in legal ==> x.Move?
    requires 0 <= i < |legal|
  {
    MakeMoveOn(b, legal, c, legal[i]).moveStatus == Done
  }

  /** Player.isCanEscape: some listed move is accepted by makeMove. */
  predicate CanEscapeOn(b: Board, legal: seq<Move>, c: Color)
    requires forall x :: x in legal ==> x.Move?
  {
    exists i :: 0 <= i < |legal| && DoneAt(b, legal, c, i)
  }

  predicate CanEscape(b: Board, c: Color)
  {
    CanEscapeOn(b, LegalMoves(b, c), c)
  }

  /** Player.isInCheckMate. */
  predicate IsInCheckMate(b: Board, c: Color)
  {
    IsInCheck(b, c) && !CanEscape(b, c)
  }

  /** Player.isInStaleMate. */
  predicate IsInStaleMate(b: Board, c: Color)
  {
    !IsInCheck(b, c) && !CanEscape(b, c)
  }

  /**
   * Checkmate and stalemate never hold together, and in either one every legal move is
   * refused: makeMove reports LEFT_IN_CHECK and leaves the board unchanged.
   */
  lemma MateAndStalemateExclusive(b: Board, c: Color)
    ensures !(IsInCheckMate(b, c) && IsInStaleMate(b, c))
    ensures IsInCheckMate(b, c) || IsInStaleMate(b, c) ==>
              forall m :: m in LegalMoves(b, c) ==>
                MakeMove(b, c, m).moveStatus == LeftInCheck && MakeMove(b, c, m).toBoard == b
  {
    if IsInCheckMate(b, c) || IsInStaleMate(b, c) {
      forall m | m in LegalMoves(b, c)
        ensures MakeMove(b, c, m).moveStatus == LeftInCheck
      {
        var i :| 0 <= i < |LegalMoves(b, c)| && LegalMoves(b, c)[i] == m;
        assert !DoneAt(b, LegalMoves(b, c), c, i);
      }
    }
  }

  /**
   * A move makeMove accepts is carried out: the moved piece stands on the destination,
   * marked as moved, the opponent is to move, and the new board's history link is the move.
   */
  lemma DoneMoveExecuted(b: Board, c: Color, m: Move)
    requires MakeMove(b, c, m).moveStatus == Done
    ensures m in LegalMoves(b, c) && m.Move?
    ensures var nb := MakeMove(b, c, m).toBoard;
              GetPieceAtCoordinate(nb, m.to) == Some(MovePiece(m.piece, m.to))
              && nb.turn == Opponent(b.turn) && nb.transitionMove == m
  {
    ExecuteDestination(m);
  }

  /** The loop of Player.isCanEscape, over the status makeMove gives each move: stop at the first DONE. */
  method SearchDone(moves: seq<Move>, status: Move -> MoveStatus) returns (r: bool)
    ensures r <==> exists i :: 0 <= i < |moves| && status(moves[i]) == Done
  {
    for i := 0 to |moves|
      invariant forall j :: 0 <= j < i ==> status(moves[j]) != Done
    {
      var transitionStatus := status(moves[i]);
      if transitionStatus == Done {
        return true;
      }
    }
    return false;
  }

  /**
   * The part of a Player object its constructor derives from the board, and the two
   * setters; the remaining methods read board, color and legalMoves.
   */
  class Player {
    var board: Board
    const color: Color
    var legalMoves: seq<Move>
    var king: Option<Piece>
    var isInCheck: bool
    var isAi: bool
    var hasCastled: bool

    predicate Valid()
      reads this
    {
      forall x :: x in legalMoves ==> x.Move?
    }

    /** The Player constructor (with WhitePlayer/BlackPlayer's colour). */
    constructor(b: Board, c: Color, isAi: bool, hasCastled: bool)
      ensures board == b && color == c && legalMoves == LegalMoves(b, c) && king == FindKing(b, c)
      ensures isInCheck == IsInCheck(b, c) && this.isAi == isAi && this.hasCastled == hasCastled
      ensures Valid()
    {
      board := b;
      color := c;
      king := FindKing(b, c);
      legalMoves := LegalMoves(b, c);
      isInCheck := IsInCheck(b, c);
      this.isAi := isAi;
      this.hasCastled := hasCastled;
    }

    /** Player.setHasCastled. */
    method SetHasCastled(v: bool)
      modifies this
      ensures hasCastled == v
      ensures board == old(board) && legalMoves == old(legalMoves) && king == old(king)
      ensures isInCheck == old(isInCheck) && isAi == old(isAi)
    {
      hasCastled := v;
    }

    /** Player.setBoard: only the board changes; the derived fields keep their values. */
    method SetBoard(b: Board)
      modifies this
      ensures board == b
      ensures hasCastled == old(hasCastled) && legalMoves == old(legalMoves) && king == old(king)
      ensures isInCheck == old(isInCheck) && isAi == old(isAi)
    {
      board := b;
    }

    /** Player.isCanEscape: the loop returns at the first move makeMove accepts. */
    method IsCanEscape() returns (r: bool)
      requires Valid()
      ensures r == CanEscapeOn(board, legalMoves, color)
    {
      var b, legal, c := board, legalMoves, color;
      r := SearchDone(legal, m => MakeMoveOn(b, legal, c, m).moveStatus);
      assert forall i :: 0 <= i < |legal| ==>
               (DoneAt(b, legal, c, i) <==> MakeMoveOn(b, legal, c, legal[i]).moveStatus == Done);
    }
  }
}
