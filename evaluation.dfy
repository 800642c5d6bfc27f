/**
 * The position evaluation of logic/player/AI/PositionEvaluation.java: the game stage from the
 * material left, the checkmate and good-capture terms, the per-player sum of the eight terms
 * and the side-to-move signed evaluation.
 */
module Evaluation {
  import opened Colors
  import opened Pieces
  import opened Positions
  import opened Boards
  import opened Players
  import opened GameStages
  import Material
  import PawnStructure
  import RookStructure
  import KingSafety
  import CenterControl
  import Mobility
  import PieceLocation

  const OpeningMaterialSum: real := 60.0
  const MidgameMaterialSum: real := 28.0
  const MobilityValueOpening: real := 1.0
  const MobilityValueMidgame: real := 0.8
  const MobilityValueEnding: real := 0.4
  const AttackMultiplier: real := 0.01
  const Mate: real := 10000.0

  // ---------------------------------------------------------------- material and stage

  /** The values of the non-king pieces standing on the squares below n. */
  function MaterialBelow(state: State, n: nat): real
    requires n <= 64
  {
    if n == 0 then 0.0
    else
      var s: Square := n - 1;
      MaterialBelow(state, n - 1)
      + (if s in state && state[s].Some? && state[s].value.kind != Kind.King then Value(state[s].value.kind) else 0.0)
  }

  /** PositionEvaluation.calcMaterial: the map's values visited in ascending square order. */
  method CalcMaterial(b: Board) returns (materialSum: real)
    ensures materialSum == MaterialBelow(b.state, 64)
  {
    materialSum := 0.0;
    for s := 0 to 64
      invariant materialSum == MaterialBelow(b.state, s)
    {
      if s in b.state && b.state[s].Some? && b.state[s].value.kind != Kind.King {
        materialSum := materialSum + Value(b.state[s].value.kind);
      }
    }
  }

  lemma NonKingSumSnoc(xs: seq<Piece>, p: Piece)
    ensures Material.NonKingSum(xs + [p]) == Material.NonKingSum(xs) + (if p.kind != Kind.King then Value(p.kind) else 0.0)
  {
    assert (xs + [p])[..|xs + [p]| - 1] == xs;
  }

  lemma ActivePiecesStep(state: State, color: Color, n: nat)
    requires 0 < n <= 64
    ensures var s: Square := n - 1;
            ActivePiecesBelow(state, color, n)
              == if s in state && state[s].Some? && state[s].value.color == color
                 then ActivePiecesBelow(state, color, n - 1) + [state[s].value]
                 else ActivePiecesBelow(state, color, n - 1)
  {
    var xs := ActivePiecesBelow(state, color, n - 1);
    assert xs + [] == xs;
  }

  /** The material left splits into the non-king sums of White's and Black's active pieces. */
  lemma {:induction false} MaterialBelowSplits(state: State, n: nat)
    requires n <= 64
    ensures MaterialBelow(state, n)
              == Material.NonKingSum(ActivePiecesBelow(state, White, n)) + Material.NonKingSum(ActivePiecesBelow(state, Black, n))
  {
    if n > 0 {
      MaterialBelowSplits(state, n - 1);
      ActivePiecesStep(state, White, n);
      ActivePiecesStep(state, Black, n);
      var s: Square := n - 1;
      if s in state && state[s].Some? {
        var p := state[s].value;
        NonKingSumSnoc(ActivePiecesBelow(state, p.color, n - 1), p);
      }
    }
  }

  /** The material left on the board, never negative. */
  function MaterialLeft(b: Board): (r: real)
    ensures r == Material.NonKingSum(ActivePieces(b.state, White)) + Material.NonKingSum(ActivePieces(b.state, Black))
    ensures r >= 0.0
  {
    MaterialBelowSplits(b.state, 64);
    MaterialBelow(b.state, 64)
  }

  /** The stage thresholds of calculateGameStage. */
  function StageOf(materialLeft: real): (s: GameStage)
    ensures s == Opening <==> materialLeft > OpeningMaterialSum
    ensures s == Midgame <==> MidgameMaterialSum < materialLeft <= OpeningMaterialSum
    ensures s == Ending <==> materialLeft <= MidgameMaterialSum
  {
    if materialLeft > OpeningMaterialSum then Opening
    else if materialLeft <= OpeningMaterialSum && materialLeft > MidgameMaterialSum then Midgame
    else Ending
  }

  function StageIndex(s: GameStage): nat
  {
    match s
    case Opening => 0
    case Midgame => 1
    case Ending => 2
  }

  /** Less material never gives an earlier stage: the stage only moves towards the ending. */
  lemma StageMonotone(less: real, more: real)
    requires less <= more
    ensures StageIndex(StageOf(more)) <= StageIndex(StageOf(less))
  {
  }

  /** PositionEvaluation.calculateGameStage. */
  function GameStageOf(b: Board): GameStage
  {
    StageOf(MaterialLeft(b))
  }

  /** PositionEvaluation.calculateGameStage. */
  method CalculateGameStage(b: Board) returns (s: GameStage)
    ensures s == GameStageOf(b)
  {
    var materialLeft := CalcMaterial(b);
    MaterialBelowSplits(b.state, 64);
    if materialLeft > OpeningMaterialSum {
      return Opening;
    } else if materialLeft <= OpeningMaterialSum && materialLeft > MidgameMaterialSum {
      return Midgame;
    }
    return Ending;
  }

  // ---------------------------------------------------------------- checkmate and attacks

  /** PositionEvaluation.checkmate: MATE exactly when the rival of c is checkmated. */
  function CheckmateTerm(b: Board, c: Color): (r: real)
    ensures r == Mate <==> IsInCheckMate(b, Opponent(c))
    ensures r == 0.0 <==> !IsInCheckMate(b, Opponent(c))
  {
    if IsInCheckMate(b, Opponent(c)) then Mate else 0.0
  }

  /** A capture whose mover is worth no more than the piece it takes. */
  predicate GoodAttack(m: Move)
  {
    IsAttack(m) && Value(m.piece.kind) <= Value(AttackedPiece(m).kind)
  }

  /** The number of good captures among the moves. */
  function GoodAttacks(moves: seq<Move>): (n: nat)
    ensures n <= |moves|
  {
    if moves == [] then 0
    else GoodAttacks(moves[..|moves| - 1]) + (if GoodAttack(moves[|moves| - 1]) then 1 else 0)
  }

  /** The count is zero exactly when no move is a good capture. */
  lemma {:induction false} GoodAttacksZero(moves: seq<Move>)
    ensures GoodAttacks(moves) == 0 <==> forall m :: m in moves ==> !GoodAttack(m)
  {
    if moves != [] {
      var front := moves[..|moves| - 1];
      GoodAttacksZero(front);
      assert moves == front + [moves[|moves| - 1]];
      forall m | m in front ensures m in moves { }
    }
  }

  /** A king's captures always count: the King's value field is never set, so it is 0. */
  lemma KingCapturesCount(m: Move)
    requires IsAttack(m) && m.piece.kind == Kind.King
    ensures GoodAttack(m)
  {
  }

  /** PositionEvaluation.attacks as a value. */
  function AttacksValue(moves: seq<Move>): (r: real)
    ensures 0.0 <= r <= |moves| as real * AttackMultiplier
  {
    GoodAttacks(moves) as real * AttackMultiplier
  }

  /** PositionEvaluation.attacks. */
  method CalculateAttacks(moves: seq<Move>) returns (r: real)
    ensures r == AttacksValue(moves)
  {
    var attackScore: nat := 0;
    for i := 0 to |moves|
      invariant attackScore == GoodAttacks(moves[..i])
    {
      assert moves[..i + 1][..i] == moves[..i];
      var move := moves[i];
      if IsAttack(move) {
        var movedPiece := move.piece;
        var attackedPiece := AttackedPiece(move);
        if Value(movedPiece.kind) <= Value(attackedPiece.kind) {
          attackScore := attackScore + 1;
        }
      }
    }
    assert moves[..|moves|] == moves;
    r := attackScore as real * AttackMultiplier;
  }

  // ---------------------------------------------------------------- the eight terms of score

  function MobilityWeight(s: GameStage): real
  {
    match s
    case Opening => MobilityValueOpening
    case Midgame => MobilityValueMidgame
    case Ending => MobilityValueEnding
  }

  /** Player.hasCastled, taken from the builder's flags when the players are built. */
  function HasCastled(b: Board, c: Color): bool
  {
    if c == White then b.whiteHasCastled else b.blackHasCastled
  }

  function MobilityTerm(b: Board, c: Color): (r: real)
    ensures r >= 0.0
  {
    Mobility.MobilityValue(LegalMoves(b, c), c)
  }

  function PawnStructTerm(b: Board, c: Color): real
  {
    PawnStructure.PawnStructValue(b, ActivePieces(b.state, c))
  }

  function AttacksTerm(b: Board, c: Color): (r: real)
    ensures r >= 0.0
  {
    AttacksValue(LegalMoves(b, c))
  }

  function RookStructTerm(b: Board, c: Color): real
  {
    RookStructure.RookStructValue(b, ActivePieces(b.state, c))
  }

  function CenterControlTerm(b: Board, c: Color): (r: real)
    ensures r >= 0.0
  {
    CenterControl.CenterControlValue(b, c, LegalMoves(b, c))
  }

  /** KingSafety.calculateKingSafety against the rival's legal moves; a side without a king scores 0. */
  function KingSafetyTerm(b: Board, c: Color): real
  {
    match FindKing(b, c)
    case None => 0.0
    case Some(king) => KingSafety.KingSafetyValue(b, king, HasCastled(b, c), LegalMoves(b, Opponent(c)))
  }

  function PieceLocationTerm(t: Tables, b: Board, c: Color, s: GameStage): real
  {
    PieceLocation.PieceLocationValue(t, ActivePieces(b.state, c), s)
  }

  /** The eight terms score adds up for one player. */
  datatype Terms = Terms(
    mobility: real, pawnStruct: real, checkmate: real, attacks: real,
    rookStruct: real, centerControl: real, kingSafety: real, pieceLocation: real)

  /** The terms of the player of colour c at the given stage. */
  function TermsOf(t: Tables, b: Board, c: Color, s: GameStage): Terms
  {
    Terms(MobilityTerm(b, c), PawnStructTerm(b, c), CheckmateTerm(b, c), AttacksTerm(b, c),
          RookStructTerm(b, c), CenterControlTerm(b, c), KingSafetyTerm(b, c), PieceLocationTerm(t, b, c, s))
  }

  /** The switch of PositionEvaluation.score: the terms summed in the order of each stage's case. */
  function StageSum(x: Terms, s: GameStage): real
  {
    match s
    case Opening =>
      x.mobility * MobilityValueOpening + x.pawnStruct + x.checkmate + x.attacks
      + x.rookStruct + x.centerControl + x.kingSafety + x.pieceLocation
    case Midgame =>
      x.mobility * MobilityValueMidgame + x.pawnStruct + x.centerControl + x.checkmate
      + x.attacks + x.rookStruct + x.kingSafety + x.pieceLocation
    case Ending =>
      x.mobility * MobilityValueEnding + x.pawnStruct + x.checkmate + x.attacks
      + x.centerControl + x.rookStruct + x.kingSafety + x.pieceLocation
  }

  /** PositionEvaluation.score. */
  function Score(t: Tables, b: Board, c: Color, s: GameStage): real
  {
    StageSum(TermsOf(t, b, c, s), s)
  }

  /** All three stages sum the same eight terms; only the weight of mobility differs. */
  lemma ScoreByStage(x: Terms, s: GameStage)
    ensures StageSum(x, s)
              == x.mobility * MobilityWeight(s) + x.pawnStruct + x.checkmate + x.attacks
                 + x.rookStruct + x.centerControl + x.kingSafety + x.pieceLocation
  {
  }

  /** Mobility weighs more the earlier the stage: 1, 0.8 and 0.4, all positive. */
  lemma MobilityWeightDecreases(s1: GameStage, s2: GameStage)
    requires StageIndex(s1) <= StageIndex(s2)
    ensures MobilityWeight(s1) >= MobilityWeight(s2) > 0.0
  {
  }

  /**
   * The checkmate term enters the sum once and unweighted: with CheckmateTerm's contract,
   * mating the rival adds exactly MATE to the score and otherwise nothing.
   */
  lemma MateAddsExactly(x: Terms, s: GameStage)
    ensures StageSum(x, s) == StageSum(x.(checkmate := 0.0), s) + x.checkmate
  {
  }

  /** Every term but mobility enters the sum unweighted, whatever the stage. */
  lemma StageSumLinear(x: Terms, y: Terms, s: GameStage)
    requires x.mobility == y.mobility
    ensures StageSum(x, s) - StageSum(y, s)
              == (x.pawnStruct - y.pawnStruct) + (x.checkmate - y.checkmate) + (x.attacks - y.attacks)
                 + (x.rookStruct - y.rookStruct) + (x.centerControl - y.centerControl)
                 + (x.kingSafety - y.kingSafety) + (x.pieceLocation - y.pieceLocation)
  {
  }

  // ---------------------------------------------------------------- evaluate

  /** White's terms against Black's at a stage, plus White's material advantage. */
  function Balance(white: Terms, black: Terms, advantage: real, s: GameStage): real
  {
    StageSum(white, s) - StageSum(black, s) + advantage
  }

  /** Every term of x is at most the same term of y. */
  predicate TermsLe(x: Terms, y: Terms)
  {
    x.mobility <= y.mobility && x.pawnStruct <= y.pawnStruct && x.checkmate <= y.checkmate
    && x.attacks <= y.attacks && x.rookStruct <= y.rookStruct && x.centerControl <= y.centerControl
    && x.kingSafety <= y.kingSafety && x.pieceLocation <= y.pieceLocation
  }

  /**
   * "The biggest it will return, the better for white": at every stage the balance grows
   * with each of White's terms and White's material advantage and shrinks with each of Black's.
   */
  lemma BalanceFavoursWhite(white1: Terms, white2: Terms, black1: Terms, black2: Terms,
                            advantage1: real, advantage2: real, s: GameStage)
    requires TermsLe(white1, white2) && TermsLe(black2, black1) && advantage1 <= advantage2
    ensures Balance(white1, black1, advantage1, s) <= Balance(white2, black2, advantage2, s)
  {
    MobilityWeightDecreases(s, s);
    ScoreByStage(white1, s);
    ScoreByStage(white2, s);
    ScoreByStage(black1, s);
    ScoreByStage(black2, s);
  }

  /**
   * The evaluation evaluate documents: White's score minus Black's, plus the material
   * advantage, at the board's stage, whoever is to move (see BalanceFavoursWhite).
   */
  function WhiteBalance(t: Tables, b: Board): real
  {
    var s := GameStageOf(b);
    Balance(TermsOf(t, b, White, s), TermsOf(t, b, Black, s),
            Material.TotalAdvantage(ActivePieces(b.state, White), ActivePieces(b.state, Black)), s)
  }

  /**
   * PositionEvaluation.evaluate as written: the documented balance when White is to move,
   * and its negation, Black's view, when Black is to move.
   */
  function Evaluate(t: Tables, b: Board): (r: real)
    ensures b.turn == White ==> r == WhiteBalance(t, b)
    ensures b.turn == Black ==> r == -WhiteBalance(t, b)
  {
    var s := GameStageOf(b);
    if b.turn == White then
      (Score(t, b, White, s) - Score(t, b, Black, s))
      + Material.TotalAdvantage(ActivePieces(b.state, White), ActivePieces(b.state, Black))
    else
      -((Score(t, b, White, s) - Score(t, b, Black, s))
        + Material.TotalAdvantage(ActivePieces(b.state, White), ActivePieces(b.state, Black)))
  }

  /** With Black to move, evaluate as written shrinks as White's terms and material grow. */
  lemma EvaluateFavoursBlackToMove(t: Tables, b1: Board, b2: Board)
    requires b1.turn == Black && b2.turn == Black && GameStageOf(b1) == GameStageOf(b2)
    requires var s := GameStageOf(b1);
             TermsLe(TermsOf(t, b1, White, s), TermsOf(t, b2, White, s))
             && TermsLe(TermsOf(t, b2, Black, s), TermsOf(t, b1, Black, s))
             && Material.TotalAdvantage(ActivePieces(b1.state, White), ActivePieces(b1.state, Black))
                <= Material.TotalAdvantage(ActivePieces(b2.state, White), ActivePieces(b2.state, Black))
    ensures Evaluate(t, b2) <= Evaluate(t, b1)
  {
    var s := GameStageOf(b1);
    BalanceFavoursWhite(TermsOf(t, b1, White, s), TermsOf(t, b2, White, s), TermsOf(t, b1, Black, s), TermsOf(t, b2, Black, s),
                        Material.TotalAdvantage(ActivePieces(b1.state, White), ActivePieces(b1.state, Black)),
                        Material.TotalAdvantage(ActivePieces(b2.state, White), ActivePieces(b2.state, Black)), s);
  }
}
