/**
 * Position bookkeeping of logic/Board.java: the active-piece lists derived from the square
 * map, move generation over a list of pieces, the board builder and the starting layout,
 * the insufficient-material test and the walk back through the move history.
 */
module Boards {
  import opened Wrappers
  import opened Colors
  import opened Pieces
  import opened Positions
  import KnightMoves
  import PawnMoves
  import BishopMoves
  import RookMoves
  import QueenMoves
  import KingMoves

  type State = map<Square, Option<Piece>>

  /** The pieces of one colour on the squares below n, in ascending square order. */
  function ActivePiecesBelow(state: State, color: Color, n: nat): (r: seq<Piece>)
    requires n <= 64
    ensures |r| <= n
    ensures forall p :: p in r ==> p.color == color
  {
    if n == 0 then []
    else
      var s: Square := n - 1;
      ActivePiecesBelow(state, color, n - 1)
      + (if s in state && state[s].Some? && state[s].value.color == color then [state[s].value] else [])
  }

  /** Board.getActivePieces: the non-empty entries of one colour, visited in ascending square order. */
  function ActivePieces(state: State, color: Color): seq<Piece>
  {
    ActivePiecesBelow(state, color, 64)
  }

  /** Board.getActivePieces. */
  method GetActivePieces(state: State, color: Color) returns (ps: seq<Piece>)
    ensures ps == ActivePieces(state, color)
  {
    ps := [];
    for n := 0 to 64
      invariant ps == ActivePiecesBelow(state, color, n)
    {
      if n in state && state[n].Some? && state[n].value.color == color {
        ps := ps + [state[n].value];
      }
    }
  }

  lemma {:induction false} ActivePiecesBelowMembership(state: State, color: Color, n: nat, p: Piece)
    requires n <= 64
    ensures (p in ActivePiecesBelow(state, color, n))
              <==> p.color == color && exists s: Square :: s < n && s in state && state[s] == Some(p)
  {
    if n > 0 {
      ActivePiecesBelowMembership(state, color, n - 1, p);
      var s: Square := n - 1;
      if p.color == color && s in state && state[s] == Some(p) {
        assert p in ActivePiecesBelow(state, color, n);
      }
    }
  }

  /** The white and black lists hold exactly the pieces of that colour found in the square map. */
  lemma ActivePiecesMembership(state: State, color: Color, p: Piece)
    ensures p in ActivePieces(state, color) <==> p.color == color && exists s :: s in state && state[s] == Some(p)
  {
    ActivePiecesBelowMembership(state, color, 64, p);
  }

  /** Piece.getLegalMoves, dispatched on the piece's kind. */
  function PieceMoves(b: Board, p: Piece): seq<Move>
  {
    match p.kind
    case Pawn => PawnMoves.LegalMoves(b, p)
    case Knight => KnightMoves.LegalMoves(b, p)
    case Bishop => BishopMoves.LegalMoves(b, p)
    case Rook => RookMoves.LegalMoves(b, p)
    case Queen => QueenMoves.LegalMoves(b, p)
    case King => KingMoves.LegalMoves(b, p)
  }

  /** Piece.getLegalMoves, dispatched on the piece's kind. */
  method GeneratePieceMoves(b: Board, p: Piece) returns (ms: seq<Move>)
    ensures ms == PieceMoves(b, p)
  {
    match p.kind
    case Pawn => ms := PawnMoves.GetLegalMoves(b, p);
    case Knight => ms := KnightMoves.GetLegalMoves(b, p);
    case Bishop => ms := BishopMoves.GetLegalMoves(b, p);
    case Rook => ms := RookMoves.GetLegalMoves(b, p);
    case Queen => ms := QueenMoves.GetLegalMoves(b, p);
    case King => ms := KingMoves.GetLegalMoves(b, p);
  }

  /** Whatever the kind, a generated move is a move of that piece on that board, never onto a friendly piece. */
  lemma PieceMovesSound(b: Board, p: Piece)
    ensures forall m :: m in PieceMoves(b, p) ==>
              m.Move? && m.board == b && m.piece == p && !IsFriendlyPieceOnCoordinate(b, p, m.to)
  {
    match p.kind
    case Pawn => PawnMoves.LegalMovesSound(b, p);
    case Knight => KnightMoves.LegalMovesSound(b, p);
    case King => KingMoves.LegalMovesSound(b, p);
    case _ =>
  }

  /** Board.getAllLegalMoves as a value: each piece's moves, in list order. */
  function AllLegalMoves(b: Board, ps: seq<Piece>): seq<Move>
  {
    if ps == [] then [] else AllLegalMoves(b, ps[..|ps| - 1]) + PieceMoves(b, ps[|ps| - 1])
  }

  /** Board.getAllLegalMoves. */
  method GetAllLegalMoves(b: Board, ps: seq<Piece>) returns (possible: seq<Move>)
    ensures possible == AllLegalMoves(b, ps)
  {
    possible := [];
    for i := 0 to |ps|
      invariant possible == AllLegalMoves(b, ps[..i])
    {
      assert ps[..i + 1][..i] == ps[..i];
      var ms := GeneratePieceMoves(b, ps[i]);
      possible := possible + ms;
    }
    assert ps[..|ps|] == ps;
  }

  /** A move is in the combined list exactly when one of the listed pieces generates it. */
  lemma {:induction false} AllLegalMovesMembership(b: Board, ps: seq<Piece>, m: Move)
    ensures m in AllLegalMoves(b, ps) <==> exists i :: 0 <= i < |ps| && m in PieceMoves(b, ps[i])
  {
    if ps != [] {
      var front := ps[..|ps| - 1];
      AllLegalMovesMembership(b, front, m);
      if m in AllLegalMoves(b, front) {
        var i :| 0 <= i < |front| && m in PieceMoves(b, front[i]);
        assert ps[i] == front[i];
      }
      if exists i :: 0 <= i < |ps| && m in PieceMoves(b, ps[i]) {
        var i :| 0 <= i < |ps| && m in PieceMoves(b, ps[i]);
        if i < |front| {
          assert ps[i] == front[i];
        }
      }
    }
  }

  /** The piece kinds of the back rank, file by file. */
  function BackRank(f: int): Kind
  {
    if f == 0 || f == 7 then Kind.Rook
    else if f == 1 || f == 6 then Kind.Knight
    else if f == 2 || f == 5 then Kind.Bishop
    else if f == 3 then Kind.Queen
    else Kind.King
  }

  /** The piece the starting layout puts on square s: Black on ranks 0 and 1, White on ranks 6 and 7. */
  function StartPiece(s: Square): Piece
  {
    if s < 8 then Piece(BackRank(s), s, Black, true)
    else if s < 16 then Piece(Kind.Pawn, s, Black, true)
    else if s < 56 then Piece(Kind.Pawn, s, White, true)
    else Piece(BackRank(s - 56), s, White, true)
  }

  /** The square map of the starting position. */
  function StartLayout(): State
  {
    map s: Square | s < 16 || 48 <= s :: Some(StartPiece(s))
  }

  /**
   * Board.BoardBuilder: the configuration a board is built from. The side to move is None
   * until setMoveMaker is called, as the Java field starts out null.
   */
  class BoardBuilder {
    var boardConfig: State
    var nextMoveMaker: Option<Color>
    var transitionMove: Move
    var isWhiteAi: bool
    var isBlackAi: bool
    var movesWithoutEat: int
    var whiteHasCastled: bool
    var blackHasCastled: bool

    constructor()
      ensures boardConfig == map[] && nextMoveMaker == None && transitionMove == NullMove
      ensures !isWhiteAi && !isBlackAi && movesWithoutEat == 0
      ensures !whiteHasCastled && !blackHasCastled
    {
      boardConfig := map[];
      nextMoveMaker := None;
      transitionMove := NullMove;
      isWhiteAi := false;
      isBlackAi := false;
      movesWithoutEat := 0;
      whiteHasCastled := false;
      blackHasCastled := false;
    }

    /** BoardBuilder.setPiece: the piece is put under its own position; nothing else changes. */
    method SetPiece(piece: Piece)
      modifies this
      ensures boardConfig == old(boardConfig)[piece.position := Some(piece)]
      ensures nextMoveMaker == old(nextMoveMaker) && transitionMove == old(transitionMove)
      ensures isWhiteAi == old(isWhiteAi) && isBlackAi == old(isBlackAi)
      ensures movesWithoutEat == old(movesWithoutEat)
      ensures whiteHasCastled == old(whiteHasCastled) && blackHasCastled == old(blackHasCastled)
    {
      boardConfig := boardConfig[piece.position := Some(piece)];
    }

    /** BoardBuilder.setMoveMaker. */
    method SetMoveMaker(c: Color)
      modifies this
      ensures nextMoveMaker == Some(c)
      ensures boardConfig == old(boardConfig) && transitionMove == old(transitionMove)
      ensures isWhiteAi == old(isWhiteAi) && isBlackAi == old(isBlackAi)
      ensures movesWithoutEat == old(movesWithoutEat)
      ensures whiteHasCastled == old(whiteHasCastled) && blackHasCastled == old(blackHasCastled)
    {
      nextMoveMaker := Some(c);
    }

    /** BoardBuilder.setMoveTransition. */
    method SetMoveTransition(m: Move)
      modifies this
      ensures transitionMove == m
      ensures boardConfig == old(boardConfig) && nextMoveMaker == old(nextMoveMaker)
      ensures isWhiteAi == old(isWhiteAi) && isBlackAi == old(isBlackAi)
      ensures movesWithoutEat == old(movesWithoutEat)
      ensures whiteHasCastled == old(whiteHasCastled) && blackHasCastled == old(blackHasCastled)
    {
      transitionMove := m;
    }

    /**
     * BoardBuilder.build (the Board constructor): the map, counter, history link and castled
     * flags are taken over; getPlayerForColor gives White only for White and Black otherwise,
     * so a builder whose side to move was never set yields Black to move.
     */
    function Build(): (b: Board)
      reads this
      ensures b.state == boardConfig && b.movesWithoutEat == movesWithoutEat
      ensures b.transitionMove == transitionMove
      ensures b.whiteHasCastled == whiteHasCastled && b.blackHasCastled == blackHasCastled
      ensures b.turn == White <==> nextMoveMaker == Some(White)
    {
      var turn := if nextMoveMaker == Some(White) then White else Black;
      Board(boardConfig, turn, movesWithoutEat, transitionMove, whiteHasCastled, blackHasCastled)
    }
  }

  /** Board.createNewBoard: the 32 pieces of the starting position, White to move, counter 0, no castles. */
  method CreateNewBoard(isWhiteAi: bool, isBlackAi: bool) returns (builder: BoardBuilder)
    ensures fresh(builder)
    ensures builder.boardConfig == StartLayout() && builder.nextMoveMaker == Some(White)
    ensures builder.transitionMove == NullMove && builder.movesWithoutEat == 0
    ensures builder.isWhiteAi == isWhiteAi && builder.isBlackAi == isBlackAi
    ensures !builder.whiteHasCastled && !builder.blackHasCastled
  {
    builder := new BoardBuilder();
    SetBlackLayout(builder);
    SetWhiteLayout(builder);
    builder.SetMoveMaker(White);
    builder.isWhiteAi := isWhiteAi;
    builder.isBlackAi := isBlackAi;
    builder.whiteHasCastled := false;
    builder.blackHasCastled := false;
    builder.movesWithoutEat := 0;
    StartLayoutDisplay();
  }

  /** The sixteen black puts of createNewBoard, applied to a map. */
  function BlackPuts(m: State): State
  {
    m
    [0 := Some(Piece(Kind.Rook, 0, Black, true))]
    [1 := Some(Piece(Kind.Knight, 1, Black, true))]
    [2 := Some(Piece(Kind.Bishop, 2, Black, true))]
    [3 := Some(Piece(Kind.Queen, 3, Black, true))]
    [4 := Some(Piece(Kind.King, 4, Black, true))]
    [5 := Some(Piece(Kind.Bishop, 5, Black, true))]
    [6 := Some(Piece(Kind.Knight, 6, Black, true))]
    [7 := Some(Piece(Kind.Rook, 7, Black, true))]
    [8 := Some(Piece(Kind.Pawn, 8, Black, true))]
    [9 := Some(Piece(Kind.Pawn, 9, Black, true))]
    [10 := Some(Piece(Kind.Pawn, 10, Black, true))]
    [11 := Some(Piece(Kind.Pawn, 11, Black, true))]
    [12 := Some(Piece(Kind.Pawn, 12, Black, true))]
    [13 := Some(Piece(Kind.Pawn, 13, Black, true))]
    [14 := Some(Piece(Kind.Pawn, 14, Black, true))]
    [15 := Some(Piece(Kind.Pawn, 15, Black, true))]
  }

  /** The sixteen white puts of createNewBoard, applied to a map. */
  function WhitePuts(m: State): State
  {
    m
    [48 := Some(Piece(Kind.Pawn, 48, White, true))]
    [49 := Some(Piece(Kind.Pawn, 49, White, true))]
    [50 := Some(Piece(Kind.Pawn, 50, White, true))]
    [51 := Some(Piece(Kind.Pawn, 51, White, true))]
    [52 := Some(Piece(Kind.Pawn, 52, White, true))]
    [53 := Some(Piece(Kind.Pawn, 53, White, true))]
    [54 := Some(Piece(Kind.Pawn, 54, White, true))]
    [55 := Some(Piece(Kind.Pawn, 55, White, true))]
    [56 := Some(Piece(Kind.Rook, 56, White, true))]
    [57 := Some(Piece(Kind.Knight, 57, White, true))]
    [58 := Some(Piece(Kind.Bishop, 58, White, true))]
    [59 := Some(Piece(Kind.Queen, 59, White, true))]
    [60 := Some(Piece(Kind.King, 60, White, true))]
    [61 := Some(Piece(Kind.Bishop, 61, White, true))]
    [62 := Some(Piece(Kind.Knight, 62, White, true))]
    [63 := Some(Piece(Kind.Rook, 63, White, true))]
  }

  /** The black half of createNewBoard's setPiece calls. */
  method SetBlackLayout(builder: BoardBuilder)
    modifies builder
    ensures builder.boardConfig == BlackPuts(old(builder.boardConfig))
    ensures builder.nextMoveMaker == old(builder.nextMoveMaker) && builder.transitionMove == old(builder.transitionMove)
    ensures builder.movesWithoutEat == old(builder.movesWithoutEat)
  {
    builder.SetPiece(Piece(Kind.Rook, 0, Black, true));
    builder.SetPiece(Piece(Kind.Knight, 1, Black, true));
    builder.SetPiece(Piece(Kind.Bishop, 2, Black, true));
    builder.SetPiece(Piece(Kind.Queen, 3, Black, true));
    builder.SetPiece(Piece(Kind.King, 4, Black, true));
    builder.SetPiece(Piece(Kind.Bishop, 5, Black, true));
    builder.SetPiece(Piece(Kind.Knight, 6, Black, true));
    builder.SetPiece(Piece(Kind.Rook, 7, Black, true));
    builder.SetPiece(Piece(Kind.Pawn, 8, Black, true));
    builder.SetPiece(Piece(Kind.Pawn, 9, Black, true));
    builder.SetPiece(Piece(Kind.Pawn, 10, Black, true));
    builder.SetPiece(Piece(Kind.Pawn, 11, Black, true));
    builder.SetPiece(Piece(Kind.Pawn, 12, Black, true));
    builder.SetPiece(Piece(Kind.Pawn, 13, Black, true));
    builder.SetPiece(Piece(Kind.Pawn, 14, Black, true));
    builder.SetPiece(Piece(Kind.Pawn, 15, Black, true));
  }

  /** The white half of createNewBoard's setPiece calls. */
  method SetWhiteLayout(builder: BoardBuilder)
    modifies builder
    ensures builder.boardConfig == WhitePuts(old(builder.boardConfig))
    ensures builder.nextMoveMaker == old(builder.nextMoveMaker) && builder.transitionMove == old(builder.transitionMove)
    ensures builder.movesWithoutEat == old(builder.movesWithoutEat)
  {
    builder.SetPiece(Piece(Kind.Pawn, 48, White, true));
    builder.SetPiece(Piece(Kind.Pawn, 49, White, true));
    builder.SetPiece(Piece(Kind.Pawn, 50, White, true));
    builder.SetPiece(Piece(Kind.Pawn, 51, White, true));
    builder.SetPiece(Piece(Kind.Pawn, 52, White, true));
    builder.SetPiece(Piece(Kind.Pawn, 53, White, true));
    builder.SetPiece(Piece(Kind.Pawn, 54, White, true));
    builder.SetPiece(Piece(Kind.Pawn, 55, White, true));
    builder.SetPiece(Piece(Kind.Rook, 56, White, true));
    builder.SetPiece(Piece(Kind.Knight, 57, White, true));
    builder.SetPiece(Piece(Kind.Bishop, 58, White, true));
    builder.SetPiece(Piece(Kind.Queen, 59, White, true));
    builder.SetPiece(Piece(Kind.King, 60, White, true));
    builder.SetPiece(Piece(Kind.Bishop, 61, White, true));
    builder.SetPiece(Piece(Kind.Knight, 62, White, true));
    builder.SetPiece(Piece(Kind.Rook, 63, White, true));
  }

  lemma StartLayoutDisplay()
    ensures WhitePuts(BlackPuts(map[])) == StartLayout()
  {
  }

  /**
   * The starting layout: Black's sixteen pieces fill squares 0..15 and White's sixteen fill
   * 48..63, all unmoved, each stored under its own square, kings on 4 and 60; squares
   * 16..47 are absent from the map.
   */
  lemma StartLayoutPlacement()
    ensures forall s: Square :: s in StartLayout() <==> s < 16 || 48 <= s
    ensures forall s :: s in StartLayout() ==>
              && StartLayout()[s].Some?
              && StartLayout()[s].value.position == s && StartLayout()[s].value.firstMove
              && (StartLayout()[s].value.color == Black <==> s < 16)
    ensures WellFormed(Board(StartLayout(), White, 0, NullMove, false, false))
    ensures StartLayout()[4] == Some(Piece(Kind.King, 4, Black, true))
    ensures StartLayout()[60] == Some(Piece(Kind.King, 60, White, true))
    ensures forall s :: 8 <= s < 16 || 48 <= s < 56 ==> StartLayout()[s].value.kind == Kind.Pawn
  {
  }

  /** The whole-step sums of the piece values: int material grows by the truncated value. */
  function MaterialSum(ps: seq<Piece>): int
  {
    if ps == [] then 0
    else
      var prev := MaterialSum(ps[..|ps| - 1]);
      var p := ps[|ps| - 1];
      if p.kind != Kind.King then (prev as real + Value(p.kind)).Floor else prev
  }

  /** The number of pieces of one kind. */
  function KindCount(ps: seq<Piece>, k: Kind): (n: nat)
    ensures n <= |ps|
    ensures n == 0 <==> forall i :: 0 <= i < |ps| ==> ps[i].kind != k
  {
    if ps == [] then 0
    else KindCount(ps[..|ps| - 1], k) + (if ps[|ps| - 1].kind == k then 1 else 0)
  }

  predicate HasPawn(ps: seq<Piece>)
  {
    exists i :: 0 <= i < |ps| && ps[i].kind == Kind.Pawn
  }

  /** Board.isNotEnoughMaterialToWin. */
  predicate IsNotEnoughMaterialToWin(ps: seq<Piece>)
  {
    MaterialSum(ps) <= 3 && !HasPawn(ps)
  }

  /** Board.isNotEnoughMaterialToWin. */
  method CheckNotEnoughMaterialToWin(ps: seq<Piece>) returns (r: bool)
    ensures r == IsNotEnoughMaterialToWin(ps)
  {
    var isPawn := false;
    var material := 0;
    for i := 0 to |ps|
      invariant material == MaterialSum(ps[..i])
      invariant isPawn <==> exists j :: 0 <= j < i && ps[j].kind == Kind.Pawn
    {
      assert ps[..i + 1][..i] == ps[..i];
      if ps[i].kind != Kind.King {
        material := (material as real + Value(ps[i].kind)).Floor;
      }
      if ps[i].kind == Kind.Pawn {
        isPawn := true;
      }
    }
    assert ps[..|ps|] == ps;
    r := material <= 3 && !isPawn;
  }

  lemma FloorShift(x: int, v: real)
    ensures (x as real + v).Floor == x + v.Floor
  {
  }

  /** Truncating after every step loses only the fractional part of the knight's 3.2. */
  lemma {:induction false} MaterialSumByKind(ps: seq<Piece>)
    ensures MaterialSum(ps) == KindCount(ps, Kind.Pawn) + 3 * KindCount(ps, Kind.Knight)
              + 3 * KindCount(ps, Kind.Bishop) + 5 * KindCount(ps, Kind.Rook) + 9 * KindCount(ps, Kind.Queen)
  {
    if ps != [] {
      var front, p := ps[..|ps| - 1], ps[|ps| - 1];
      MaterialSumByKind(front);
      var w := match p.kind
        case Pawn => 1 case Knight => 3 case Bishop => 3 case Rook => 5 case Queen => 9 case King => 0;
      if p.kind != Kind.King {
        FloorShift(MaterialSum(front), Value(p.kind));
      }
      assert MaterialSum(ps) == MaterialSum(front) + w;
    }
  }

  /**
   * A side cannot win by material exactly when it has no pawn, rook or queen and at most
   * one knight or bishop besides its king.
   */
  lemma NotEnoughMaterialCharacterised(ps: seq<Piece>)
    ensures (IsNotEnoughMaterialToWin(ps))
              <==> KindCount(ps, Kind.Pawn) == 0 && KindCount(ps, Kind.Rook) == 0 && KindCount(ps, Kind.Queen) == 0
                   && KindCount(ps, Kind.Knight) + KindCount(ps, Kind.Bishop) <= 1
  {
    MaterialSumByKind(ps);
  }

  /** Board.notEnoughMaterial: neither side can win. */
  predicate NotEnoughMaterial(b: Board)
  {
    IsNotEnoughMaterialToWin(ActivePieces(b.state, Black)) && IsNotEnoughMaterialToWin(ActivePieces(b.state, White))
  }

  /** The moves met walking back from m, at most n of them, stopping at the null move. */
  function History(m: Move, n: int): (r: seq<Move>)
    ensures n >= 0 ==> |r| <= n
    ensures n <= 0 ==> r == []
    ensures forall i :: 0 <= i < |r| ==> r[i].Move?
    ensures r != [] ==> r[0] == m
    ensures forall i :: 0 <= i < |r| - 1 ==> r[i + 1] == r[i].board.transitionMove
    ensures |r| < n ==> (r == [] && m == NullMove) || (r != [] && r[|r| - 1].board.transitionMove == NullMove)
    decreases m
  {
    if m.NullMove? || n <= 0 then [] else [m] + History(m.board.transitionMove, n - 1)
  }

  /** Board.lastNMoves: the newest N moves that led to b, newest first. */
  function LastNMoves(b: Board, n: int): seq<Move>
  {
    History(b.transitionMove, n)
  }

  /** Board.lastNMoves. */
  method GetLastNMoves(b: Board, n: int) returns (moveHistory: seq<Move>)
    ensures moveHistory == LastNMoves(b, n)
  {
    moveHistory := [];
    var currentMove := b.transitionMove;
    var i := 0;
    while currentMove != NullMove && i < n
      invariant moveHistory + History(currentMove, n - i) == LastNMoves(b, n)
      decreases currentMove
    {
      moveHistory := moveHistory + [currentMove];
      currentMove := currentMove.board.transitionMove;
      i := i + 1;
    }
  }

  /** The number of moves of a history list whose board equals b (Board.equals). */
  function CountSame(b: Board, hist: seq<Move>): (n: nat)
    ensures n <= |hist|
    ensures n == 0 <==> forall i :: 0 <= i < |hist| ==> !(hist[i].Move? && SamePosition(b, hist[i].board))
  {
    if hist == [] then 0
    else
      var m := hist[|hist| - 1];
      CountSame(b, hist[..|hist| - 1]) + (if m.Move? && SamePosition(b, m.board) then 1 else 0)
  }

  /** Board.isThreeTimesPosition. */
  predicate IsThreeTimesPosition(b: Board)
  {
    CountSame(b, LastNMoves(b, b.movesWithoutEat)) >= 3
  }

  /** Board.isThreeTimesPosition. */
  method CheckThreeTimesPosition(b: Board) returns (r: bool)
    ensures r == IsThreeTimesPosition(b)
  {
    var hist := GetLastNMoves(b, b.movesWithoutEat);
    var samePositionCounter := 0;
    for i := 0 to |hist|
      invariant samePositionCounter == CountSame(b, hist[..i])
    {
      assert hist[..i + 1][..i] == hist[..i];
      if hist[i].Move? && SamePosition(b, hist[i].board) {
        samePositionCounter := samePositionCounter + 1;
      }
    }
    assert hist[..|hist|] == hist;
    r := samePositionCounter >= 3;
  }

  /** Entry i of a history list is a move whose board equals b. */
  predicate SameAt(b: Board, hist: seq<Move>, i: int)
    requires 0 <= i < |hist|
  {
    hist[i].Move? && SamePosition(b, hist[i].board)
  }

  /** The indices of a history list whose board equals b. */
  function SameIndices(b: Board, hist: seq<Move>): set<int>
  {
    set i | 0 <= i < |hist| && SameAt(b, hist, i)
  }

  /** CountSame counts exactly the entries whose board equals b. */
  lemma {:induction false} CountSameIsIndices(b: Board, hist: seq<Move>)
    ensures CountSame(b, hist) == |SameIndices(b, hist)|
  {
    if hist != [] {
      var n := |hist| - 1;
      var p := hist[..n];
      CountSameIsIndices(b, p);
      assert forall i :: 0 <= i < n ==> SameAt(b, hist, i) == SameAt(b, p, i);
      if SameAt(b, hist, n) {
        assert SameIndices(b, hist) == SameIndices(b, p) + {n};
      } else {
        assert SameIndices(b, hist) == SameIndices(b, p);
      }
    }
  }

  /** A set of integers that is not empty has a member. */
  lemma SomeMember(s: set<int>)
    requires |s| > 0
    ensures exists i :: i in s
  {
    if forall i :: i !in s {
      assert false;
    }
  }

  /** A set of integers with at least three members holds three in increasing order. */
  lemma ThreeMembers(s: set<int>)
    requires |s| >= 3
    ensures exists i, j, k :: i < j < k && i in s && j in s && k in s
  {
    SomeMember(s);
    var x :| x in s;
    var s1 := s - {x};
    assert |s1| == |s| - 1;
    SomeMember(s1);
    var y :| y in s1;
    var s2 := s1 - {y};
    assert |s2| == |s1| - 1;
    SomeMember(s2);
    var z :| z in s2;
    var i, j, k := x, y, z;
    if i > j { i, j := j, i; }
    if j > k { j, k := k, j; }
    if i > j { i, j := j, i; }
    assert i < j < k && i in s && j in s && k in s;
  }

  /** A set of integers holding three distinct members has at least three. */
  lemma ThreeMembersCount(s: set<int>, i: int, j: int, k: int)
    requires i < j < k && i in s && j in s && k in s
    ensures |s| >= 3
  {
    var three := {i, j, k};
    assert |three| == 3;
    assert s == three + (s - three);
  }

  /** Three entries of a history list that equal b, with their indices in increasing order. */
  predicate ThreeSame(b: Board, hist: seq<Move>)
  {
    exists i, j, k :: 0 <= i < j < k < |hist| && SameAt(b, hist, i) && SameAt(b, hist, j) && SameAt(b, hist, k)
  }

  lemma ThreeSameFromCount(b: Board, hist: seq<Move>)
    requires |SameIndices(b, hist)| >= 3
    ensures ThreeSame(b, hist)
  {
    var s := SameIndices(b, hist);
    ThreeMembers(s);
    var i, j, k :| i < j < k && i in s && j in s && k in s;
    assert 0 <= i < j < k < |hist| && SameAt(b, hist, i) && SameAt(b, hist, j) && SameAt(b, hist, k);
  }

  lemma CountFromThreeSame(b: Board, hist: seq<Move>)
    requires ThreeSame(b, hist)
    ensures |SameIndices(b, hist)| >= 3
  {
    var i, j, k :| 0 <= i < j < k < |hist| && SameAt(b, hist, i) && SameAt(b, hist, j) && SameAt(b, hist, k);
    ThreeMembersCount(SameIndices(b, hist), i, j, k);
  }

  /** At least three entries of a history list equal b exactly when three distinct ones do. */
  lemma CountSameThree(b: Board, hist: seq<Move>)
    ensures CountSame(b, hist) >= 3 <==> ThreeSame(b, hist)
  {
    CountSameIsIndices(b, hist);
    if |SameIndices(b, hist)| >= 3 {
      ThreeSameFromCount(b, hist);
    }
    if ThreeSame(b, hist) {
      CountFromThreeSame(b, hist);
    }
  }

  /**
   * Board.isThreeTimesPosition holds exactly when three distinct moves among the last
   * movesWithoutEat ones left a board equal to this one; so the counter is then at least 3.
   */
  lemma ThreefoldNeedsHistory(b: Board)
    ensures IsThreeTimesPosition(b) <==> ThreeSame(b, LastNMoves(b, b.movesWithoutEat))
    ensures IsThreeTimesPosition(b) ==> b.movesWithoutEat >= 3 && |LastNMoves(b, b.movesWithoutEat)| >= 3
  {
    CountSameThree(b, LastNMoves(b, b.movesWithoutEat));
  }
}
