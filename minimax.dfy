/**
 * The alpha-beta search of logic/player/AI/Minimax.java: separate max and min recursions with
 * fail-hard cutoffs, a quiescence extension bounded by a global counter, and a transposition
 * table that is written but never read. The search is specified by functions that thread the
 * counter and the table through the recursion; the class Minimax holds the two static fields
 * and its methods are proved equal to those functions.
 */
module Search {
  import opened Wrappers
  import opened Colors
  import opened Pieces
  import opened Positions
  import opened Transitions
  import opened Boards
  import opened Players
  import opened Outcome
  import opened MoveOrdering
  import opened Scores
  import opened Caching
  import Zobrist
  import Evaluation

  /** MAX_QUIESCENCE = 5000 * 5. */
  const MaxQuiescence: int := 25000

  /**
   * What the search asks of a position: the game result, the side to move's legal moves,
   * makeMove, the evaluation, the hash code, the side to move's check and checkmate status,
   * and Move.isPawnThreat.
   */
  datatype Rules = Rules(
    gameResult: Board -> GameResult,
    legalMoves: Board -> seq<RealMove>,
    makeMove: (Board, RealMove) -> MoveTransition,
    evaluate: Board -> real,
    hashCode: Board -> Zobrist.Word,
    isInCheck: Board -> bool,
    isInCheckMate: Board -> bool,
    isPawnThreat: Move -> bool)

  /**
   * The rules as written: Board, Player, PositionEvaluation and Zobrist as defined elsewhere,
   * with leaves valued by evaluate, which is Black's view when Black is to move.
   */
  function ChessAsWritten(t: Tables, keys: Zobrist.Keys, isPawnThreat: Move -> bool): (r: Rules)
    ensures forall b :: r.legalMoves(b) == LegalMoves(b, b.turn)
    ensures forall b :: r.evaluate(b) == Evaluation.Evaluate(t, b)
  {
    Rules(
      (b: Board) => Result(b),
      (b: Board) => LegalMoves(b, b.turn),
      (b: Board, m: RealMove) => MakeMove(b, b.turn, m),
      (b: Board) => Evaluation.Evaluate(t, b),
      (b: Board) => Zobrist.Key(keys, b),
      (b: Board) => IsInCheck(b, b.turn),
      (b: Board) => IsInCheckMate(b, b.turn),
      isPawnThreat)
  }

  /** The corrected rules: the same, with leaves valued from White's side, as max and min read them. */
  function Chess(t: Tables, keys: Zobrist.Keys, isPawnThreat: Move -> bool): (r: Rules)
    ensures forall b :: r.legalMoves(b) == LegalMoves(b, b.turn)
    ensures forall b :: r.evaluate(b) == Evaluation.WhiteBalance(t, b)
  {
    ChessAsWritten(t, keys, isPawnThreat).(evaluate := (b: Board) => Evaluation.WhiteBalance(t, b))
  }

  /** The two static fields: quiescenceCount and transpositionTable. */
  datatype SearchState = SearchState(quiescenceCount: int, transpositionTable: map<Zobrist.Word, CachedEntry>)

  predicate CountInRange(st: SearchState)
  {
    0 <= st.quiescenceCount <= MaxQuiescence
  }

  // ---------------------------------------------------------------- quiescence

  /** The number of attacks among the moves. */
  function AttacksIn(moves: seq<Move>): (n: nat)
    ensures n <= |moves|
  {
    if moves == [] then 0 else AttacksIn(moves[..|moves| - 1]) + (if IsAttack(moves[|moves| - 1]) then 1 else 0)
  }

  /** The activity measure of calculateQuiescenceDepth on the board a move reached. */
  function ActivityMeasure(r: Rules, toBoard: Board): nat
  {
    (if r.isInCheck(toBoard) then 1 else 0)
    + (if IsPawnPromotion(toBoard.transitionMove) then 2 else 0)
    + (if IsAttack(toBoard.transitionMove) then 2 else 0)
    + (if r.isPawnThreat(toBoard.transitionMove) then 1 else 0)
    + AttacksIn(LastNMoves(toBoard, 3))
  }

  /**
   * calculateQuiescenceDepth: the child depth and the new counter. The depth becomes 3, and
   * the counter grows by one, exactly when the depth is 1, the counter is below the limit
   * and the position is active; otherwise the depth drops by one and the counter stays.
   */
  function QuiescenceDepth(r: Rules, toBoard: Board, depth: int, count: int): (res: (int, int))
    ensures res.0 == 3 && res.1 == count + 1
            <==> depth == 1 && count < MaxQuiescence && ActivityMeasure(r, toBoard) >= 2
    ensures !(depth == 1 && count < MaxQuiescence && ActivityMeasure(r, toBoard) >= 2)
            ==> res == (depth - 1, count)
  {
    if depth == 1 && count < MaxQuiescence && ActivityMeasure(r, toBoard) >= 2 then (3, count + 1)
    else (depth - 1, count)
  }

  /**
   * The counter never passes the limit, and the pair (limit - counter, depth) strictly
   * decreases from a searching node to its child: this is what bounds the recursion.
   */
  lemma QuiescenceMeasureDecreases(r: Rules, toBoard: Board, depth: int, count: int)
    requires depth >= 1 && 0 <= count <= MaxQuiescence
    ensures var res := QuiescenceDepth(r, toBoard, depth, count);
            count <= res.1 <= MaxQuiescence && res.0 >= 0
            && (MaxQuiescence - res.1 < MaxQuiescence - count || (res.1 == count && res.0 < depth))
  {
  }

  /** The loop of calculateQuiescenceDepth over the last moves: it counts the attacks. */
  method CountAttacks(moves: seq<Move>) returns (n: nat)
    ensures n == AttacksIn(moves)
  {
    n := 0;
    for k := 0 to |moves|
      invariant n == AttacksIn(moves[..k])
    {
      assert moves[..k + 1][..k] == moves[..k];
      if IsAttack(moves[k]) {
        n := n + 1;
      }
    }
    assert moves[..|moves|] == moves;
  }

  // ---------------------------------------------------------------- max and min

  /** The search stops at depth 0 and when the game is over. */
  predicate IsLeaf(r: Rules, b: Board, depth: int)
  {
    depth == 0 || r.gameResult(b) != NotFinished
  }

  /** The value of a leaf: 0 on a draw, the evaluation otherwise. */
  function LeafValue(r: Rules, b: Board): Score
  {
    if r.gameResult(b) == Draw then Val(0.0) else Val(r.evaluate(b))
  }

  /** Minimax.max with the counter and the table it leaves. */
  function MaxValue(r: Rules, b: Board, depth: nat, highest: Score, lowest: Score, st: SearchState): (res: (Score, SearchState))
    requires CountInRange(st)
    ensures CountInRange(res.1) && st.quiescenceCount <= res.1.quiescenceCount
    ensures IsLeaf(r, b, depth) ==> res == (LeafValue(r, b), st)
    ensures !IsLeaf(r, b, depth) && Le(highest, lowest) ==> Le(highest, res.0) && Le(res.0, lowest)
    decreases MaxQuiescence - st.quiescenceCount, depth, 1, 0
  {
    if IsLeaf(r, b, depth) then (LeafValue(r, b), st)
    else MaxLoop(r, b, depth, SortMoves(r.legalMoves(b)), 0, lowest, highest, st)
  }

  /**
   * The search of the child of an accepted move of max: the quiescence depth is computed,
   * min searches the child with the window [currentHighest, lowest], and the running best
   * becomes the larger of the two.
   */
  function MaxChild(r: Rules, toBoard: Board, depth: nat, lowest: Score, currentHighest: Score, st: SearchState): (res: (Score, SearchState))
    requires CountInRange(st) && depth >= 1
    ensures CountInRange(res.1) && st.quiescenceCount <= res.1.quiescenceCount
    ensures Le(currentHighest, res.0)
    decreases MaxQuiescence - st.quiescenceCount, depth, 0, 0
  {
    var quiescence := QuiescenceDepth(r, toBoard, depth, st.quiescenceCount);
    QuiescenceMeasureDecreases(r, toBoard, depth, st.quiescenceCount);
    var child := MinValue(r, toBoard, quiescence.0, currentHighest, lowest, st.(quiescenceCount := quiescence.1));
    (Scores.Max(currentHighest, child.0), child.1)
  }

  /**
   * The loop of max from the i-th sorted move on: as soon as the running best reaches
   * lowest, lowest is returned, else the running best is recorded in the table under the
   * child's hash.
   */
  function MaxLoop(r: Rules, b: Board, depth: nat, moves: seq<RealMove>, i: nat, lowest: Score,
                   currentHighest: Score, st: SearchState): (res: (Score, SearchState))
    requires CountInRange(st) && depth >= 1 && i <= |moves|
    ensures CountInRange(res.1) && st.quiescenceCount <= res.1.quiescenceCount
    ensures Le(currentHighest, lowest) ==> Le(currentHighest, res.0) && Le(res.0, lowest)
    decreases MaxQuiescence - st.quiescenceCount, depth, 0, |moves| - i
  {
    if i == |moves| then (currentHighest, st)
    else
      var moveTransition := r.makeMove(b, moves[i]);
      if moveTransition.moveStatus != Done then MaxLoop(r, b, depth, moves, i + 1, lowest, currentHighest, st)
      else
        var toBoard := moveTransition.toBoard;
        var child := MaxChild(r, toBoard, depth, lowest, currentHighest, st);
        var newHighest := child.0;
        if Le(lowest, newHighest) then (lowest, child.1)
        else
          var table := child.1.transpositionTable[r.hashCode(toBoard) := CachedEntry(depth, newHighest, toBoard.turn)];
          MaxLoop(r, b, depth, moves, i + 1, lowest, newHighest, child.1.(transpositionTable := table))
  }

  /** Minimax.min with the counter and the table it leaves. */
  function MinValue(r: Rules, b: Board, depth: nat, highest: Score, lowest: Score, st: SearchState): (res: (Score, SearchState))
    requires CountInRange(st)
    ensures CountInRange(res.1) && st.quiescenceCount <= res.1.quiescenceCount
    ensures IsLeaf(r, b, depth) ==> res == (LeafValue(r, b), st)
    ensures !IsLeaf(r, b, depth) && Le(highest, lowest) ==> Le(highest, res.0) && Le(res.0, lowest)
    decreases MaxQuiescence - st.quiescenceCount, depth, 1, 0
  {
    if IsLeaf(r, b, depth) then (LeafValue(r, b), st)
    else MinLoop(r, b, depth, SortMoves(r.legalMoves(b)), 0, highest, lowest, st)
  }

  /** The search of the child of an accepted move of min, by max with the window [highest, currentLowest]. */
  function MinChild(r: Rules, toBoard: Board, depth: nat, highest: Score, currentLowest: Score, st: SearchState): (res: (Score, SearchState))
    requires CountInRange(st) && depth >= 1
    ensures CountInRange(res.1) && st.quiescenceCount <= res.1.quiescenceCount
    ensures Le(res.0, currentLowest)
    decreases MaxQuiescence - st.quiescenceCount, depth, 0, 0
  {
    var quiescence := QuiescenceDepth(r, toBoard, depth, st.quiescenceCount);
    QuiescenceMeasureDecreases(r, toBoard, depth, st.quiescenceCount);
    var child := MaxValue(r, toBoard, quiescence.0, highest, currentLowest, st.(quiescenceCount := quiescence.1));
    (Scores.Min(currentLowest, child.0), child.1)
  }

  /**
   * The loop of min: as soon as the running minimum falls to highest or below, highest is
   * returned, else the running minimum is recorded under the child's hash.
   */
  function MinLoop(r: Rules, b: Board, depth: nat, moves: seq<RealMove>, i: nat, highest: Score,
                   currentLowest: Score, st: SearchState): (res: (Score, SearchState))
    requires CountInRange(st) && depth >= 1 && i <= |moves|
    ensures CountInRange(res.1) && st.quiescenceCount <= res.1.quiescenceCount
    ensures Le(highest, currentLowest) ==> Le(highest, res.0) && Le(res.0, currentLowest)
    decreases MaxQuiescence - st.quiescenceCount, depth, 0, |moves| - i
  {
    if i == |moves| then (currentLowest, st)
    else
      var moveTransition := r.makeMove(b, moves[i]);
      if moveTransition.moveStatus != Done then MinLoop(r, b, depth, moves, i + 1, highest, currentLowest, st)
      else
        var toBoard := moveTransition.toBoard;
        var child := MinChild(r, toBoard, depth, highest, currentLowest, st);
        var newLowest := child.0;
        if Le(newLowest, highest) then (highest, child.1)
        else
          var table := child.1.transpositionTable[r.hashCode(toBoard) := CachedEntry(depth, newLowest, toBoard.turn)];
          MinLoop(r, b, depth, moves, i + 1, highest, newLowest, child.1.(transpositionTable := table))
  }

  // ---------------------------------------------------------------- the root

  /** The i-th sorted move is accepted and leaves the side to move checkmated. */
  predicate MatesAt(r: Rules, b: Board, moves: seq<RealMove>, j: int)
    requires 0 <= j < |moves|
  {
    var t := r.makeMove(b, moves[j]);
    t.moveStatus == Done && r.isInCheckMate(t.toBoard)
  }

  predicate DoneAt(r: Rules, b: Board, moves: seq<RealMove>, j: int)
    requires 0 <= j < |moves|
  {
    r.makeMove(b, moves[j]).moveStatus == Done
  }

  /** Where the root loop stopped: at a mating move, or after the last move. */
  datatype RootOutcome = RootOutcome(mate: bool, bestMove: Option<RealMove>, highestSeen: Score, lowestSeen: Score, st: SearchState)

  /** Two outcomes that differ at most in the transposition table. */
  predicate SameOutcome(o1: RootOutcome, o2: RootOutcome)
  {
    o1.mate == o2.mate && o1.bestMove == o2.bestMove && o1.highestSeen == o2.highestSeen
    && o1.lowestSeen == o2.lowestSeen && SameCount(o1.st, o2.st)
  }

  predicate Lt(a: Score, b: Score)
  {
    !Le(b, a)
  }

  /** The search of a root move's child: by min when White is to move, by max otherwise. */
  function RootChild(r: Rules, toBoard: Board, depth: nat, color: Color, highestSeen: Score, lowestSeen: Score,
                     st: SearchState): (res: (Score, SearchState))
    requires CountInRange(st)
    ensures CountInRange(res.1) && st.quiescenceCount <= res.1.quiescenceCount
  {
    if color == White then MinValue(r, toBoard, depth, highestSeen, lowestSeen, st)
    else MaxValue(r, toBoard, depth, highestSeen, lowestSeen, st)
  }

  lemma RootChildIgnoresTable(r: Rules, toBoard: Board, depth: nat, color: Color, highestSeen: Score, lowestSeen: Score,
                              st1: SearchState, st2: SearchState)
    requires CountInRange(st1) && SameCount(st1, st2)
    ensures RootChild(r, toBoard, depth, color, highestSeen, lowestSeen, st1).0
            == RootChild(r, toBoard, depth, color, highestSeen, lowestSeen, st2).0
    ensures SameCount(RootChild(r, toBoard, depth, color, highestSeen, lowestSeen, st1).1,
                      RootChild(r, toBoard, depth, color, highestSeen, lowestSeen, st2).1)
  {
    if color == White {
      MinIgnoresTable(r, toBoard, depth, highestSeen, lowestSeen, st1, st2);
    } else {
      MaxIgnoresTable(r, toBoard, depth, highestSeen, lowestSeen, st1, st2);
    }
  }

  /**
   * One accepted, non-mating root move: its child is searched, the table maps the child's
   * hash to the child's value, and the move becomes the best one when its value strictly
   * improves on the best seen for the side to move.
   */
  function RootStep(r: Rules, depth: int, color: Color, m: RealMove, toBoard: Board,
                    highestSeen: Score, lowestSeen: Score, bestMove: Option<RealMove>, st: SearchState): (res: RootOutcome)
    requires CountInRange(st) && depth >= 1
    ensures CountInRange(res.st) && st.quiescenceCount <= res.st.quiescenceCount
    ensures var child := RootChild(r, toBoard, depth - 1, color, highestSeen, lowestSeen, st);
            var improves := (color == White && Lt(highestSeen, child.0)) || (color == Black && Lt(child.0, lowestSeen));
            !res.mate
            && res.bestMove == (if improves then Some(m) else bestMove)
            && res.highestSeen == (if color == White then Max(highestSeen, child.0) else highestSeen)
            && res.lowestSeen == (if color == Black then Min(lowestSeen, child.0) else lowestSeen)
            && res.st.quiescenceCount == child.1.quiescenceCount
            && res.st.transpositionTable == child.1.transpositionTable[r.hashCode(toBoard) := CachedEntry(depth, child.0, toBoard.turn)]
  {
    var child := RootChild(r, toBoard, depth - 1, color, highestSeen, lowestSeen, st);
    var currentValue := child.0;
    var st' := child.1.(transpositionTable := child.1.transpositionTable[r.hashCode(toBoard) := CachedEntry(depth, currentValue, toBoard.turn)]);
    if color == White && Lt(highestSeen, currentValue) then
      RootOutcome(false, Some(m), currentValue, lowestSeen, st')
    else if color == Black && Lt(currentValue, lowestSeen) then
      RootOutcome(false, Some(m), highestSeen, currentValue, st')
    else
      RootOutcome(false, bestMove, highestSeen, lowestSeen, st')
  }

  lemma RootStepIgnoresTable(r: Rules, depth: int, color: Color, m: RealMove, toBoard: Board,
                             highestSeen: Score, lowestSeen: Score, bestMove: Option<RealMove>, st1: SearchState, st2: SearchState)
    requires CountInRange(st1) && SameCount(st1, st2) && depth >= 1
    ensures SameOutcome(RootStep(r, depth, color, m, toBoard, highestSeen, lowestSeen, bestMove, st1),
                        RootStep(r, depth, color, m, toBoard, highestSeen, lowestSeen, bestMove, st2))
  {
    RootChildIgnoresTable(r, toBoard, depth - 1, color, highestSeen, lowestSeen, st1, st2);
  }

  /** The loop of MiniMaxAB from the i-th sorted move on. */
  function RootLoop(r: Rules, b: Board, depth: int, color: Color, moves: seq<RealMove>, i: nat,
                    highestSeen: Score, lowestSeen: Score, bestMove: Option<RealMove>, st: SearchState): (res: RootOutcome)
    requires CountInRange(st) && depth >= 1 && i <= |moves|
    ensures CountInRange(res.st) && st.quiescenceCount <= res.st.quiescenceCount
    decreases |moves| - i
  {
    if i == |moves| then RootOutcome(false, bestMove, highestSeen, lowestSeen, st)
    else
      var moveTransition := r.makeMove(b, moves[i]);
      if moveTransition.moveStatus != Done then
        RootLoop(r, b, depth, color, moves, i + 1, highestSeen, lowestSeen, bestMove, st)
      else if r.isInCheckMate(moveTransition.toBoard) then
        RootOutcome(true, Some(moves[i]), highestSeen, lowestSeen, st)
      else
        var o := RootStep(r, depth, color, moves[i], moveTransition.toBoard, highestSeen, lowestSeen, bestMove, st);
        RootLoop(r, b, depth, color, moves, i + 1, o.highestSeen, o.lowestSeen, o.bestMove, o.st)
  }

  /** The index of the first sorted move from the i-th on that is accepted and mates, or |moves|. */
  function FirstMate(r: Rules, b: Board, moves: seq<RealMove>, i: nat): (k: nat)
    requires i <= |moves|
    ensures i <= k <= |moves|
    decreases |moves| - i
  {
    if i == |moves| then |moves| else if MatesAt(r, b, moves, i) then i else FirstMate(r, b, moves, i + 1)
  }

  /** FirstMate finds a mating move, and no earlier move mates. */
  lemma {:induction false} FirstMateSpec(r: Rules, b: Board, moves: seq<RealMove>, i: nat)
    requires i <= |moves|
    ensures var k := FirstMate(r, b, moves, i);
            (k < |moves| ==> MatesAt(r, b, moves, k)) && forall j :: i <= j < k ==> !MatesAt(r, b, moves, j)
    decreases |moves| - i
  {
    if i < |moves| && !MatesAt(r, b, moves, i) {
      FirstMateSpec(r, b, moves, i + 1);
    }
  }

  /** The root loop stops exactly at the first mating move and returns that move. */
  lemma {:induction false} RootLoopMate(r: Rules, b: Board, depth: int, color: Color, moves: seq<RealMove>, i: nat,
                                        highestSeen: Score, lowestSeen: Score, bestMove: Option<RealMove>, st: SearchState)
    requires CountInRange(st) && depth >= 1 && i <= |moves|
    ensures var res := RootLoop(r, b, depth, color, moves, i, highestSeen, lowestSeen, bestMove, st);
            var k := FirstMate(r, b, moves, i);
            (res.mate <==> k < |moves|) && (res.mate ==> res.bestMove == Some(moves[k]))
    decreases |moves| - i
  {
    if i < |moves| {
      var moveTransition := r.makeMove(b, moves[i]);
      if moveTransition.moveStatus != Done {
        RootLoopMate(r, b, depth, color, moves, i + 1, highestSeen, lowestSeen, bestMove, st);
      } else if !r.isInCheckMate(moveTransition.toBoard) {
        var o := RootStep(r, depth, color, moves[i], moveTransition.toBoard, highestSeen, lowestSeen, bestMove, st);
        RootLoopMate(r, b, depth, color, moves, i + 1, o.highestSeen, o.lowestSeen, o.bestMove, o.st);
      }
    }
  }

  /** The root loop after the first k sorted moves, started from init; it stays put after a mate. */
  function RootPrefix(r: Rules, b: Board, depth: int, color: Color, moves: seq<RealMove>, k: nat,
                      init: RootOutcome): (res: RootOutcome)
    requires CountInRange(init.st) && depth >= 1 && k <= |moves|
    ensures CountInRange(res.st)
  {
    if k == 0 then init
    else
      var o := RootPrefix(r, b, depth, color, moves, k - 1, init);
      var t := r.makeMove(b, moves[k - 1]);
      if o.mate || t.moveStatus != Done then o
      else if r.isInCheckMate(t.toBoard) then RootOutcome(true, Some(moves[k - 1]), o.highestSeen, o.lowestSeen, o.st)
      else RootStep(r, depth, color, moves[k - 1], t.toBoard, o.highestSeen, o.lowestSeen, o.bestMove, o.st)
  }

  /** The loop from the start is the loop from the k-th move on, after the first k moves. */
  lemma {:induction false} RootLoopIsPrefix(r: Rules, b: Board, depth: int, color: Color, moves: seq<RealMove>, k: nat,
                                            init: RootOutcome)
    requires CountInRange(init.st) && depth >= 1 && k <= |moves| && !init.mate
    ensures var p := RootPrefix(r, b, depth, color, moves, k, init);
            RootLoop(r, b, depth, color, moves, 0, init.highestSeen, init.lowestSeen, init.bestMove, init.st)
            == if p.mate then p else RootLoop(r, b, depth, color, moves, k, p.highestSeen, p.lowestSeen, p.bestMove, p.st)
    decreases k
  {
    if k > 0 {
      RootLoopIsPrefix(r, b, depth, color, moves, k - 1, init);
    }
  }

  /** The value the child of the j-th sorted move gets from min or max, in the window the loop has reached. */
  function RootValueAt(r: Rules, b: Board, depth: int, color: Color, moves: seq<RealMove>, j: nat,
                       init: RootOutcome): Score
    requires CountInRange(init.st) && depth >= 1 && j < |moves|
  {
    var o := RootPrefix(r, b, depth, color, moves, j, init);
    RootChild(r, r.makeMove(b, moves[j]).toBoard, depth - 1, color, o.highestSeen, o.lowestSeen, o.st).0
  }

  /** The best value seen for the side to move: highestSeen for White, lowestSeen for Black. */
  function BestSeen(color: Color, o: RootOutcome): Score
  {
    if color == White then o.highestSeen else o.lowestSeen
  }

  /** a is at least as good as c for color: no smaller for White, no larger for Black. */
  predicate NoWorse(color: Color, a: Score, c: Score)
  {
    if color == White then Le(c, a) else Le(a, c)
  }

  /**
   * The root choice after the first k moves, from init, when none of them mates: the best
   * value seen is no worse than the start and than every accepted move's value, the other
   * bound is untouched, and either the best value strictly improved on the start and the
   * best move is the first accepted move whose value reached it, or nothing changed.
   */
  predicate ChoiceSoFar(r: Rules, b: Board, depth: int, color: Color, moves: seq<RealMove>, k: nat,
                        init: RootOutcome, p: RootOutcome)
    requires CountInRange(init.st) && depth >= 1 && k <= |moves|
  {
    var best := BestSeen(color, p);
    !p.mate
    && (if color == White then p.lowestSeen == init.lowestSeen else p.highestSeen == init.highestSeen)
    && NoWorse(color, best, BestSeen(color, init))
    && (forall j :: 0 <= j < k && DoneAt(r, b, moves, j) ==> NoWorse(color, best, RootValueAt(r, b, depth, color, moves, j, init)))
    && (if best == BestSeen(color, init) then p.bestMove == init.bestMove
        else exists j :: 0 <= j < k && DoneAt(r, b, moves, j) && p.bestMove == Some(moves[j])
               && RootValueAt(r, b, depth, color, moves, j, init) == best
               && forall i :: 0 <= i < j && DoneAt(r, b, moves, i) ==> RootValueAt(r, b, depth, color, moves, i, init) != best)
  }

  /** One more accepted, non-mating move keeps the root choice. */
  lemma ChoiceStep(r: Rules, b: Board, depth: int, color: Color, moves: seq<RealMove>, k: nat, init: RootOutcome)
    requires CountInRange(init.st) && depth >= 1 && k < |moves| && !init.mate && !MatesAt(r, b, moves, k)
    requires ChoiceSoFar(r, b, depth, color, moves, k, init, RootPrefix(r, b, depth, color, moves, k, init))
    ensures ChoiceSoFar(r, b, depth, color, moves, k + 1, init, RootPrefix(r, b, depth, color, moves, k + 1, init))
  {
    var p := RootPrefix(r, b, depth, color, moves, k, init);
    var p' := RootPrefix(r, b, depth, color, moves, k + 1, init);
    var v := RootValueAt(r, b, depth, color, moves, k, init);
    var best := BestSeen(color, p);
    if DoneAt(r, b, moves, k) {
      if NoWorse(color, best, v) {
        assert BestSeen(color, p') == best && p'.bestMove == p.bestMove;
      } else {
        assert BestSeen(color, p') == v && p'.bestMove == Some(moves[k]);
        forall j | 0 <= j < k && DoneAt(r, b, moves, j)
          ensures NoWorse(color, v, RootValueAt(r, b, depth, color, moves, j, init))
          ensures RootValueAt(r, b, depth, color, moves, j, init) != v
        {
          LeTotalOrder(RootValueAt(r, b, depth, color, moves, j, init), best, v);
          LeTotalOrder(v, best, RootValueAt(r, b, depth, color, moves, j, init));
        }
        LeTotalOrder(BestSeen(color, init), best, v);
        LeTotalOrder(v, best, BestSeen(color, init));
      }
    } else {
      assert p' == p;
    }
  }

  /** The root choice holds after every prefix of moves without a mate. */
  lemma {:induction false} ChoiceUpTo(r: Rules, b: Board, depth: int, color: Color, moves: seq<RealMove>, k: nat,
                                      init: RootOutcome)
    requires CountInRange(init.st) && depth >= 1 && k <= |moves| && !init.mate
    requires forall j :: 0 <= j < k ==> !MatesAt(r, b, moves, j)
    ensures ChoiceSoFar(r, b, depth, color, moves, k, init, RootPrefix(r, b, depth, color, moves, k, init))
    decreases k
  {
    if k == 0 {
      LeTotalOrder(BestSeen(color, init), BestSeen(color, init), BestSeen(color, init));
    } else {
      ChoiceUpTo(r, b, depth, color, moves, k - 1, init);
      ChoiceStep(r, b, depth, color, moves, k - 1, init);
    }
  }

  /**
   * Without a mate the root loop keeps, of the accepted moves, the first whose child value is
   * strictly the highest (White) or lowest (Black), ties keeping the earlier move; its best
   * value is no worse than the start and than every accepted move's value.
   */
  lemma RootLoopBest(r: Rules, b: Board, depth: int, color: Color, moves: seq<RealMove>,
                     highestSeen: Score, lowestSeen: Score, bestMove: Option<RealMove>, st: SearchState)
    requires CountInRange(st) && depth >= 1 && FirstMate(r, b, moves, 0) == |moves|
    ensures var init := RootOutcome(false, bestMove, highestSeen, lowestSeen, st);
            ChoiceSoFar(r, b, depth, color, moves, |moves|, init,
                        RootLoop(r, b, depth, color, moves, 0, highestSeen, lowestSeen, bestMove, st))
  {
    var init := RootOutcome(false, bestMove, highestSeen, lowestSeen, st);
    FirstMateSpec(r, b, moves, 0);
    ChoiceUpTo(r, b, depth, color, moves, |moves|, init);
    RootLoopIsPrefix(r, b, depth, color, moves, |moves|, init);
  }

  /** At depth 1 a root move's value is its child's leaf value. */
  lemma RootValueAtDepthOne(r: Rules, b: Board, color: Color, moves: seq<RealMove>, j: nat, init: RootOutcome)
    requires CountInRange(init.st) && j < |moves|
    ensures RootValueAt(r, b, 1, color, moves, j, init) == LeafValue(r, r.makeMove(b, moves[j]).toBoard)
  {
  }

  /** A leaf that is no draw, has Black to move and is valued by evaluate as written is worth minus White's balance. */
  lemma NegatedLeaf(r: Rules, t: Tables, c: Board)
    requires r.gameResult(c) != Draw && r.evaluate(c) == Evaluation.Evaluate(t, c) && c.turn == Black
    ensures LeafValue(r, c) == Val(-Evaluation.WhiteBalance(t, c))
  {
  }

  /** A depth-1 White root move whose child is such a leaf is worth minus White's balance of the child. */
  lemma NegatedRootValue(r: Rules, t: Tables, b: Board, moves: seq<RealMove>, j: nat, init: RootOutcome)
    requires CountInRange(init.st) && j < |moves|
    requires var c := r.makeMove(b, moves[j]).toBoard;
             r.gameResult(c) != Draw && r.evaluate(c) == Evaluation.Evaluate(t, c) && c.turn == Black
    ensures RootValueAt(r, b, 1, White, moves, j, init) == Val(-Evaluation.WhiteBalance(t, r.makeMove(b, moves[j]).toBoard))
  {
    RootValueAtDepthOne(r, b, White, moves, j, init);
    NegatedLeaf(r, t, r.makeMove(b, moves[j]).toBoard);
  }

  /** Under either set of chess rules an accepted move hands the turn to the other side. */
  lemma ChessDoneFlipsTurn(t: Tables, keys: Zobrist.Keys, isPawnThreat: Move -> bool, b: Board, m: RealMove)
    requires ChessAsWritten(t, keys, isPawnThreat).makeMove(b, m).moveStatus == Done
    ensures ChessAsWritten(t, keys, isPawnThreat).makeMove(b, m).toBoard.turn == Opponent(b.turn)
    ensures Chess(t, keys, isPawnThreat).makeMove(b, m) == ChessAsWritten(t, keys, isPawnThreat).makeMove(b, m)
  {
    DoneMoveExecuted(b, b.turn, m);
  }

  /**
   * As written, a depth-1 search with White to move values each accepted move by its child,
   * a leaf with Black to move, through evaluate: that is minus White's balance, so the loop
   * keeps the move whose position is worst for White (unless it is a draw, valued 0).
   */
  lemma DepthOneRootAsWritten(t: Tables, keys: Zobrist.Keys, isPawnThreat: Move -> bool, r: Rules, b: Board,
                              moves: seq<RealMove>, j: nat, init: RootOutcome)
    requires r == ChessAsWritten(t, keys, isPawnThreat)
    requires b.turn == White && CountInRange(init.st) && j < |moves|
    requires DoneAt(r, b, moves, j) && r.gameResult(r.makeMove(b, moves[j]).toBoard) != Draw
    ensures RootValueAt(r, b, 1, White, moves, j, init) == Val(-Evaluation.WhiteBalance(t, r.makeMove(b, moves[j]).toBoard))
  {
    ChessDoneFlipsTurn(t, keys, isPawnThreat, b, moves[j]);
    NegatedRootValue(r, t, b, moves, j, init);
  }

  /** With the corrected rules the same search values each root move, for either side, by White's balance of its child. */
  lemma DepthOneRootCorrected(t: Tables, keys: Zobrist.Keys, isPawnThreat: Move -> bool, r: Rules, b: Board, color: Color,
                              moves: seq<RealMove>, j: nat, init: RootOutcome)
    requires r == Chess(t, keys, isPawnThreat)
    requires CountInRange(init.st) && j < |moves| && r.gameResult(r.makeMove(b, moves[j]).toBoard) != Draw
    ensures RootValueAt(r, b, 1, color, moves, j, init) == Val(Evaluation.WhiteBalance(t, r.makeMove(b, moves[j]).toBoard))
  {
    RootValueAtDepthOne(r, b, color, moves, j, init);
  }

  /**
   * What MiniMaxAB returns: the chosen move (null when no move was kept), or Unbounded for a
   * depth below 1, where the search would go on past the depth-0 test (see README).
   */
  datatype SearchResult = Searched(move: Option<RealMove>) | Unbounded

  /** The root loop of MiniMaxAB, with the counter reset and the bounds at the infinities. */
  function RootSearch(r: Rules, b: Board, depth: int, st: SearchState): RootOutcome
    requires depth >= 1
  {
    RootLoop(r, b, depth, b.turn, SortMoves(r.legalMoves(b)), 0, NegInf, PosInf, None, st.(quiescenceCount := 0))
  }

  /** Minimax.MiniMaxAB: the move chosen and the counter and table it leaves. */
  function MiniMax(r: Rules, b: Board, depth: int, st: SearchState): (res: (SearchResult, SearchState))
  {
    if depth < 1 then (Unbounded, st)
    else
      var out := RootSearch(r, b, depth, st);
      if out.mate then (Searched(out.bestMove), out.st)
      else
        (Searched(out.bestMove),
         out.st.(transpositionTable := out.st.transpositionTable[r.hashCode(b) := CachedEntry(depth, BestSeen(b.turn, out), b.turn)]))
  }

  /**
   * MiniMaxAB's choice. Below depth 1 nothing is searched. Otherwise it is the first sorted
   * move that mates, when there is one; without a mate it is the first accepted move whose
   * child value is strictly the highest (White) or lowest (Black), or null when no value beat
   * the infinity it started from, and the root's hash is then mapped to an entry of the root
   * depth, that best value and the colour to move.
   */
  lemma MiniMaxChoice(r: Rules, b: Board, depth: int, st: SearchState)
    ensures depth < 1 ==> MiniMax(r, b, depth, st) == (Unbounded, st)
    ensures depth >= 1 ==>
            var moves := SortMoves(r.legalMoves(b));
            var res := MiniMax(r, b, depth, st);
            var k := FirstMate(r, b, moves, 0);
            var init := RootOutcome(false, None, NegInf, PosInf, st.(quiescenceCount := 0));
            var out := RootSearch(r, b, depth, st);
            CountInRange(res.1) && res.0 == Searched(out.bestMove)
            && (k < |moves| ==> out.bestMove == Some(moves[k]) && res.1 == out.st)
            && (k == |moves|
                ==> ChoiceSoFar(r, b, depth, b.turn, moves, |moves|, init, out)
                    && res.1.quiescenceCount == out.st.quiescenceCount
                    && res.1.transpositionTable
                       == out.st.transpositionTable[r.hashCode(b) := CachedEntry(depth, BestSeen(b.turn, out), b.turn)])
  {
    if depth >= 1 {
      var moves := SortMoves(r.legalMoves(b));
      RootLoopMate(r, b, depth, b.turn, moves, 0, NegInf, PosInf, None, st.(quiescenceCount := 0));
      if FirstMate(r, b, moves, 0) == |moves| {
        RootLoopBest(r, b, depth, b.turn, moves, NegInf, PosInf, None, st.(quiescenceCount := 0));
      }
    }
  }

  // ---------------------------------------------------------------- the table is never read

  /** Two states that differ at most in their table. */
  predicate SameCount(st1: SearchState, st2: SearchState)
  {
    st1.quiescenceCount == st2.quiescenceCount
  }

  lemma {:induction false} MaxIgnoresTable(r: Rules, b: Board, depth: nat, highest: Score, lowest: Score, st1: SearchState, st2: SearchState)
    requires CountInRange(st1) && SameCount(st1, st2)
    ensures MaxValue(r, b, depth, highest, lowest, st1).0 == MaxValue(r, b, depth, highest, lowest, st2).0
    ensures SameCount(MaxValue(r, b, depth, highest, lowest, st1).1, MaxValue(r, b, depth, highest, lowest, st2).1)
    decreases MaxQuiescence - st1.quiescenceCount, depth, 1, 0
  {
    if !IsLeaf(r, b, depth) {
      MaxLoopIgnoresTable(r, b, depth, SortMoves(r.legalMoves(b)), 0, lowest, highest, st1, st2);
    }
  }

  lemma {:induction false} MaxChildIgnoresTable(r: Rules, toBoard: Board, depth: nat, lowest: Score, currentHighest: Score,
                                                st1: SearchState, st2: SearchState)
    requires CountInRange(st1) && SameCount(st1, st2) && depth >= 1
    ensures MaxChild(r, toBoard, depth, lowest, currentHighest, st1).0 == MaxChild(r, toBoard, depth, lowest, currentHighest, st2).0
    ensures SameCount(MaxChild(r, toBoard, depth, lowest, currentHighest, st1).1, MaxChild(r, toBoard, depth, lowest, currentHighest, st2).1)
    decreases MaxQuiescence - st1.quiescenceCount, depth, 0, 0
  {
    var quiescence := QuiescenceDepth(r, toBoard, depth, st1.quiescenceCount);
    QuiescenceMeasureDecreases(r, toBoard, depth, st1.quiescenceCount);
    MinIgnoresTable(r, toBoard, quiescence.0, currentHighest, lowest,
                    st1.(quiescenceCount := quiescence.1), st2.(quiescenceCount := quiescence.1));
  }

  lemma {:induction false} MaxLoopIgnoresTable(r: Rules, b: Board, depth: nat, moves: seq<RealMove>, i: nat, lowest: Score,
                                               currentHighest: Score, st1: SearchState, st2: SearchState)
    requires CountInRange(st1) && SameCount(st1, st2) && depth >= 1 && i <= |moves|
    ensures MaxLoop(r, b, depth, moves, i, lowest, currentHighest, st1).0 == MaxLoop(r, b, depth, moves, i, lowest, currentHighest, st2).0
    ensures SameCount(MaxLoop(r, b, depth, moves, i, lowest, currentHighest, st1).1, MaxLoop(r, b, depth, moves, i, lowest, currentHighest, st2).1)
    decreases MaxQuiescence - st1.quiescenceCount, depth, 0, |moves| - i
  {
    if i < |moves| {
      var moveTransition := r.makeMove(b, moves[i]);
      if moveTransition.moveStatus != Done {
        MaxLoopIgnoresTable(r, b, depth, moves, i + 1, lowest, currentHighest, st1, st2);
      } else {
        var toBoard := moveTransition.toBoard;
        MaxChildIgnoresTable(r, toBoard, depth, lowest, currentHighest, st1, st2);
        var child1 := MaxChild(r, toBoard, depth, lowest, currentHighest, st1);
        var child2 := MaxChild(r, toBoard, depth, lowest, currentHighest, st2);
        if !Le(lowest, child1.0) {
          var e := CachedEntry(depth, child1.0, toBoard.turn);
          MaxLoopIgnoresTable(r, b, depth, moves, i + 1, lowest, child1.0,
            child1.1.(transpositionTable := child1.1.transpositionTable[r.hashCode(toBoard) := e]),
            child2.1.(transpositionTable := child2.1.transpositionTable[r.hashCode(toBoard) := e]));
        }
      }
    }
  }

  lemma {:induction false} MinIgnoresTable(r: Rules, b: Board, depth: nat, highest: Score, lowest: Score, st1: SearchState, st2: SearchState)
    requires CountInRange(st1) && SameCount(st1, st2)
    ensures MinValue(r, b, depth, highest, lowest, st1).0 == MinValue(r, b, depth, highest, lowest, st2).0
    ensures SameCount(MinValue(r, b, depth, highest, lowest, st1).1, MinValue(r, b, depth, highest, lowest, st2).1)
    decreases MaxQuiescence - st1.quiescenceCount, depth, 1, 0
  {
    if !IsLeaf(r, b, depth) {
      MinLoopIgnoresTable(r, b, depth, SortMoves(r.legalMoves(b)), 0, highest, lowest, st1, st2);
    }
  }

  lemma {:induction false} MinChildIgnoresTable(r: Rules, toBoard: Board, depth: nat, highest: Score, currentLowest: Score,
                                                st1: SearchState, st2: SearchState)
    requires CountInRange(st1) && SameCount(st1, st2) && depth >= 1
    ensures MinChild(r, toBoard, depth, highest, currentLowest, st1).0 == MinChild(r, toBoard, depth, highest, currentLowest, st2).0
    ensures SameCount(MinChild(r, toBoard, depth, highest, currentLowest, st1).1, MinChild(r, toBoard, depth, highest, currentLowest, st2).1)
    decreases MaxQuiescence - st1.quiescenceCount, depth, 0, 0
  {
    var quiescence := QuiescenceDepth(r, toBoard, depth, st1.quiescenceCount);
    QuiescenceMeasureDecreases(r, toBoard, depth, st1.quiescenceCount);
    MaxIgnoresTable(r, toBoard, quiescence.0, highest, currentLowest,
                    st1.(quiescenceCount := quiescence.1), st2.(quiescenceCount := quiescence.1));
  }

  lemma {:induction false} MinLoopIgnoresTable(r: Rules, b: Board, depth: nat, moves: seq<RealMove>, i: nat, highest: Score,
                                               currentLowest: Score, st1: SearchState, st2: SearchState)
    requires CountInRange(st1) && SameCount(st1, st2) && depth >= 1 && i <= |moves|
    ensures MinLoop(r, b, depth, moves, i, highest, currentLowest, st1).0 == MinLoop(r, b, depth, moves, i, highest, currentLowest, st2).0
    ensures SameCount(MinLoop(r, b, depth, moves, i, highest, currentLowest, st1).1, MinLoop(r, b, depth, moves, i, highest, currentLowest, st2).1)
    decreases MaxQuiescence - st1.quiescenceCount, depth, 0, |moves| - i
  {
    if i < |moves| {
      var moveTransition := r.makeMove(b, moves[i]);
      if moveTransition.moveStatus != Done {
        MinLoopIgnoresTable(r, b, depth, moves, i + 1, highest, currentLowest, st1, st2);
      } else {
        var toBoard := moveTransition.toBoard;
        MinChildIgnoresTable(r, toBoard, depth, highest, currentLowest, st1, st2);
        var child1 := MinChild(r, toBoard, depth, highest, currentLowest, st1);
        var child2 := MinChild(r, toBoard, depth, highest, currentLowest, st2);
        if !Le(child1.0, highest) {
          var e := CachedEntry(depth, child1.0, toBoard.turn);
          MinLoopIgnoresTable(r, b, depth, moves, i + 1, highest, child1.0,
            child1.1.(transpositionTable := child1.1.transpositionTable[r.hashCode(toBoard) := e]),
            child2.1.(transpositionTable := child2.1.transpositionTable[r.hashCode(toBoard) := e]));
        }
      }
    }
  }

  lemma {:induction false} RootLoopIgnoresTable(r: Rules, b: Board, depth: int, color: Color, moves: seq<RealMove>, i: nat,
                                                highestSeen: Score, lowestSeen: Score, bestMove: Option<RealMove>,
                                                st1: SearchState, st2: SearchState)
    requires CountInRange(st1) && SameCount(st1, st2) && depth >= 1 && i <= |moves|
    ensures SameOutcome(RootLoop(r, b, depth, color, moves, i, highestSeen, lowestSeen, bestMove, st1),
                        RootLoop(r, b, depth, color, moves, i, highestSeen, lowestSeen, bestMove, st2))
    decreases |moves| - i
  {
    if i < |moves| {
      var moveTransition := r.makeMove(b, moves[i]);
      if moveTransition.moveStatus != Done {
        RootLoopIgnoresTable(r, b, depth, color, moves, i + 1, highestSeen, lowestSeen, bestMove, st1, st2);
      } else if !r.isInCheckMate(moveTransition.toBoard) {
        var toBoard := moveTransition.toBoard;
        RootStepIgnoresTable(r, depth, color, moves[i], toBoard, highestSeen, lowestSeen, bestMove, st1, st2);
        var s1 := RootStep(r, depth, color, moves[i], toBoard, highestSeen, lowestSeen, bestMove, st1);
        var s2 := RootStep(r, depth, color, moves[i], toBoard, highestSeen, lowestSeen, bestMove, st2);
        RootLoopIgnoresTable(r, b, depth, color, moves, i + 1, s1.highestSeen, s1.lowestSeen, s1.bestMove, s1.st, s2.st);
      }
    }
  }

  /**
   * The table is written but never read, and the counter is reset on entry: the move
   * MiniMaxAB chooses does not depend on the state the previous searches left.
   */
  lemma MiniMaxIgnoresState(r: Rules, b: Board, depth: int, st1: SearchState, st2: SearchState)
    ensures MiniMax(r, b, depth, st1).0 == MiniMax(r, b, depth, st2).0
  {
    if depth >= 1 {
      var moves := SortMoves(r.legalMoves(b));
      RootLoopIgnoresTable(r, b, depth, b.turn, moves, 0, NegInf, PosInf, None,
                           st1.(quiescenceCount := 0), st2.(quiescenceCount := 0));
    }
  }

  // ---------------------------------------------------------------- alpha-beta against plain minimax

  /** The fixed-depth minimax value of a position where the maximising side moves. */
  function MinimaxMax(r: Rules, b: Board, depth: nat): Score
    decreases depth, 1, 0
  {
    if IsLeaf(r, b, depth) then LeafValue(r, b) else BestForMax(r, b, depth, SortMoves(r.legalMoves(b)), 0)
  }

  /** The largest minimax value of the children of the accepted moves from the i-th on. */
  function BestForMax(r: Rules, b: Board, depth: nat, moves: seq<RealMove>, i: nat): Score
    requires depth >= 1 && i <= |moves|
    decreases depth, 0, |moves| - i
  {
    if i == |moves| then NegInf
    else
      var moveTransition := r.makeMove(b, moves[i]);
      if moveTransition.moveStatus != Done then BestForMax(r, b, depth, moves, i + 1)
      else Scores.Max(MinimaxMin(r, moveTransition.toBoard, depth - 1), BestForMax(r, b, depth, moves, i + 1))
  }

  /** The fixed-depth minimax value of a position where the minimising side moves. */
  function MinimaxMin(r: Rules, b: Board, depth: nat): Score
    decreases depth, 1, 0
  {
    if IsLeaf(r, b, depth) then LeafValue(r, b) else BestForMin(r, b, depth, SortMoves(r.legalMoves(b)), 0)
  }

  function BestForMin(r: Rules, b: Board, depth: nat, moves: seq<RealMove>, i: nat): Score
    requires depth >= 1 && i <= |moves|
    decreases depth, 0, |moves| - i
  {
    if i == |moves| then PosInf
    else
      var moveTransition := r.makeMove(b, moves[i]);
      if moveTransition.moveStatus != Done then BestForMin(r, b, depth, moves, i + 1)
      else Scores.Min(MinimaxMax(r, moveTransition.toBoard, depth - 1), BestForMin(r, b, depth, moves, i + 1))
  }

  /** The quiescence budget is used up: no position is searched deeper than its depth. */
  predicate Saturated(st: SearchState)
  {
    st.quiescenceCount == MaxQuiescence
  }

  /**
   * Once the quiescence budget is used up, max is a correct fail-hard alpha-beta search of
   * the fixed-depth minimax value v: the result is at most highest when v is, at least lowest
   * when v is, and v in between; below the leaves it is exactly v forced into the window.
   */
  lemma {:induction false} MaxValueAgrees(r: Rules, b: Board, depth: nat, highest: Score, lowest: Score, st: SearchState)
    requires Saturated(st) && Le(highest, lowest)
    ensures Agrees(MaxValue(r, b, depth, highest, lowest, st).0, MinimaxMax(r, b, depth), highest, lowest)
    ensures !IsLeaf(r, b, depth) ==> MaxValue(r, b, depth, highest, lowest, st).0 == Clamp(MinimaxMax(r, b, depth), highest, lowest)
    decreases depth, 1, 0
  {
    if IsLeaf(r, b, depth) {
      ClampAgrees(LeafValue(r, b), highest, lowest);
    } else {
      MaxLoopClamps(r, b, depth, SortMoves(r.legalMoves(b)), 0, lowest, highest, st);
      ClampAgrees(MinimaxMax(r, b, depth), highest, lowest);
    }
  }

  /** The child search of max in saturated state: it reaches lowest when the true value does. */
  lemma {:induction false} MaxChildAgrees(r: Rules, toBoard: Board, depth: nat, lowest: Score, currentHighest: Score, st: SearchState)
    requires Saturated(st) && depth >= 1 && Le(currentHighest, lowest)
    ensures var res := MaxChild(r, toBoard, depth, lowest, currentHighest, st);
            var best := Scores.Max(currentHighest, MinimaxMin(r, toBoard, depth - 1));
            Saturated(res.1) && (Le(lowest, res.0) <==> Le(lowest, best)) && (!Le(lowest, res.0) ==> res.0 == best)
    decreases depth, 0, 0
  {
    var quiescence := QuiescenceDepth(r, toBoard, depth, st.quiescenceCount);
    var st' := st.(quiescenceCount := quiescence.1);
    assert quiescence == (depth - 1, MaxQuiescence) && Saturated(st');
    MinValueAgrees(r, toBoard, depth - 1, currentHighest, lowest, st');
    var child := MinValue(r, toBoard, depth - 1, currentHighest, lowest, st');
    MaxOfAgrees(currentHighest, child.0, MinimaxMin(r, toBoard, depth - 1), lowest);
  }

  lemma {:induction false} MaxLoopClamps(r: Rules, b: Board, depth: nat, moves: seq<RealMove>, i: nat, lowest: Score,
                                         currentHighest: Score, st: SearchState)
    requires Saturated(st) && depth >= 1 && i <= |moves| && Le(currentHighest, lowest)
    ensures MaxLoop(r, b, depth, moves, i, lowest, currentHighest, st).0
            == Min(Max(currentHighest, BestForMax(r, b, depth, moves, i)), lowest)
    decreases depth, 0, |moves| - i
  {
    if i == |moves| {
      assert Max(currentHighest, NegInf) == currentHighest;
    } else {
      var moveTransition := r.makeMove(b, moves[i]);
      if moveTransition.moveStatus != Done {
        MaxLoopClamps(r, b, depth, moves, i + 1, lowest, currentHighest, st);
      } else {
        var toBoard := moveTransition.toBoard;
        MaxChildAgrees(r, toBoard, depth, lowest, currentHighest, st);
        var child := MaxChild(r, toBoard, depth, lowest, currentHighest, st);
        var c := MinimaxMin(r, toBoard, depth - 1);
        var v := BestForMax(r, b, depth, moves, i + 1);
        MaxFold(currentHighest, child.0, c, v, lowest);
        if !Le(lowest, child.0) {
          var table := child.1.transpositionTable[r.hashCode(toBoard) := CachedEntry(depth, child.0, toBoard.turn)];
          MaxLoopClamps(r, b, depth, moves, i + 1, lowest, child.0, child.1.(transpositionTable := table));
        }
      }
    }
  }

  /** The same for min: a correct fail-hard search of the fixed-depth minimax value. */
  lemma {:induction false} MinValueAgrees(r: Rules, b: Board, depth: nat, highest: Score, lowest: Score, st: SearchState)
    requires Saturated(st) && Le(highest, lowest)
    ensures Agrees(MinValue(r, b, depth, highest, lowest, st).0, MinimaxMin(r, b, depth), highest, lowest)
    ensures !IsLeaf(r, b, depth) ==> MinValue(r, b, depth, highest, lowest, st).0 == Clamp(MinimaxMin(r, b, depth), highest, lowest)
    decreases depth, 1, 0
  {
    if IsLeaf(r, b, depth) {
      ClampAgrees(LeafValue(r, b), highest, lowest);
    } else {
      MinLoopClamps(r, b, depth, SortMoves(r.legalMoves(b)), 0, highest, lowest, st);
      ClampInWindow(MinimaxMin(r, b, depth), highest, lowest);
      ClampAgrees(MinimaxMin(r, b, depth), highest, lowest);
    }
  }

  lemma {:induction false} MinChildAgrees(r: Rules, toBoard: Board, depth: nat, highest: Score, currentLowest: Score, st: SearchState)
    requires Saturated(st) && depth >= 1 && Le(highest, currentLowest)
    ensures var res := MinChild(r, toBoard, depth, highest, currentLowest, st);
            var best := Scores.Min(currentLowest, MinimaxMax(r, toBoard, depth - 1));
            Saturated(res.1) && (Le(res.0, highest) <==> Le(best, highest)) && (!Le(res.0, highest) ==> res.0 == best)
    decreases depth, 0, 0
  {
    var quiescence := QuiescenceDepth(r, toBoard, depth, st.quiescenceCount);
    var st' := st.(quiescenceCount := quiescence.1);
    assert quiescence == (depth - 1, MaxQuiescence) && Saturated(st');
    MaxValueAgrees(r, toBoard, depth - 1, highest, currentLowest, st');
    var child := MaxValue(r, toBoard, depth - 1, highest, currentLowest, st');
    MinOfAgrees(currentLowest, child.0, MinimaxMax(r, toBoard, depth - 1), highest);
  }

  lemma {:induction false} MinLoopClamps(r: Rules, b: Board, depth: nat, moves: seq<RealMove>, i: nat, highest: Score,
                                         currentLowest: Score, st: SearchState)
    requires Saturated(st) && depth >= 1 && i <= |moves| && Le(highest, currentLowest)
    ensures MinLoop(r, b, depth, moves, i, highest, currentLowest, st).0
            == Max(Min(currentLowest, BestForMin(r, b, depth, moves, i)), highest)
    decreases depth, 0, |moves| - i
  {
    if i == |moves| {
      assert Min(currentLowest, PosInf) == currentLowest;
    } else {
      var moveTransition := r.makeMove(b, moves[i]);
      if moveTransition.moveStatus != Done {
        MinLoopClamps(r, b, depth, moves, i + 1, highest, currentLowest, st);
      } else {
        var toBoard := moveTransition.toBoard;
        MinChildAgrees(r, toBoard, depth, highest, currentLowest, st);
        var child := MinChild(r, toBoard, depth, highest, currentLowest, st);
        var c := MinimaxMax(r, toBoard, depth - 1);
        var w := BestForMin(r, b, depth, moves, i + 1);
        MinFold(currentLowest, child.0, c, w, highest);
        if !Le(child.0, highest) {
          var table := child.1.transpositionTable[r.hashCode(toBoard) := CachedEntry(depth, child.0, toBoard.turn)];
          MinLoopClamps(r, b, depth, moves, i + 1, highest, child.0, child.1.(transpositionTable := table));
        }
      }
    }
  }

  // ---------------------------------------------------------------- the class

  /**
   * Minimax with its two static fields: the quiescence counter and the transposition table
   * (hash code to cached depth, score and colour to move). The methods are proved to compute
   * the specification functions above and to leave the state those functions describe.
   */
  class Minimax {
    var quiescenceCount: int
    var transpositionTable: map<Zobrist.Word, CachedEntry>
    const rules: Rules

    function State(): SearchState
      reads this
    {
      SearchState(quiescenceCount, transpositionTable)
    }

    /** The static initialisers: a zero counter and an empty table. */
    constructor(rules: Rules)
      ensures State() == SearchState(0, map[]) && this.rules == rules
    {
      quiescenceCount := 0;
      transpositionTable := map[];
      this.rules := rules;
    }

    /** calculateQuiescenceDepth, with its loop over the last three moves. */
    method CalculateQuiescenceDepth(toBoard: Board, depth: int) returns (d: int)
      modifies this
      ensures (d, quiescenceCount) == QuiescenceDepth(rules, toBoard, depth, old(quiescenceCount))
      ensures transpositionTable == old(transpositionTable)
    {
      if depth == 1 && quiescenceCount < MaxQuiescence {
        var activityMeasure := 0;
        if rules.isInCheck(toBoard) {
          activityMeasure := activityMeasure + 1;
        }
        if IsPawnPromotion(toBoard.transitionMove) {
          activityMeasure := activityMeasure + 2;
        }
        if IsAttack(toBoard.transitionMove) {
          activityMeasure := activityMeasure + 2;
        }
        if rules.isPawnThreat(toBoard.transitionMove) {
          activityMeasure := activityMeasure + 1;
        }
        var lastMoves := GetLastNMoves(toBoard, 3);
        var attacks := CountAttacks(lastMoves);
        activityMeasure := activityMeasure + attacks;
        if activityMeasure >= 2 {
          quiescenceCount := quiescenceCount + 1;
          return 3;
        }
      }
      return depth - 1;
    }

    /**
     * The body of max's loop for an accepted move: the child's cache entry, the quiescence
     * depth, the child's search by min and the new running best. The entry comes back with
     * the new running best as its score.
     */
    method MaxMove(toBoard: Board, depth: nat, lowest: Score, currentHighest: Score) returns (newHighest: Score, cd: CachedData)
      requires CountInRange(State()) && depth >= 1
      modifies this
      ensures (newHighest, State()) == MaxChild(rules, toBoard, depth, lowest, currentHighest, old(State()))
      ensures fresh(cd) && cd.Entry() == CachedEntry(depth, newHighest, toBoard.turn)
      decreases MaxQuiescence - quiescenceCount, depth, 0
    {
      cd := new CachedData();
      cd.SetTurnColor(toBoard.turn);
      cd.SetDepth(depth);
      ghost var before := State();
      var childDepth := CalculateQuiescenceDepth(toBoard, depth);
      QuiescenceMeasureDecreases(rules, toBoard, depth, before.quiescenceCount);
      var childValue := Min(toBoard, childDepth, currentHighest, lowest);
      newHighest := Scores.Max(currentHighest, childValue);
      cd.SetScore(newHighest);
    }

    /** max: the value for the side that maximises, searched with the window [highest, lowest]. */
    method Max(b: Board, depth: nat, highest: Score, lowest: Score) returns (value: Score)
      requires CountInRange(State())
      modifies this
      ensures (value, State()) == MaxValue(rules, b, depth, highest, lowest, old(State()))
      decreases MaxQuiescence - quiescenceCount, depth, 1
    {
      var result := rules.gameResult(b);
      if depth == 0 || result != NotFinished {
        if result == Draw {
          return Val(0.0);
        }
        return Val(rules.evaluate(b));
      }
      var currentHighest := highest;
      var sortedMoves := SortMoves(rules.legalMoves(b));
      var i := 0;
      while i < |sortedMoves|
        invariant 0 <= i <= |sortedMoves| && CountInRange(State())
        invariant old(quiescenceCount) <= quiescenceCount
        invariant MaxLoop(rules, b, depth, sortedMoves, i, lowest, currentHighest, State())
                  == MaxValue(rules, b, depth, highest, lowest, old(State()))
        decreases |sortedMoves| - i
      {
        var moveTransition := rules.makeMove(b, sortedMoves[i]);
        if moveTransition.moveStatus == Done {
          var toBoard := moveTransition.toBoard;
          var boardIndex := rules.hashCode(toBoard);
          var cd;
          currentHighest, cd := MaxMove(toBoard, depth, lowest, currentHighest);
          if Le(lowest, currentHighest) {
            cd.SetScore(lowest);
            return lowest;
          }
          transpositionTable := transpositionTable[boardIndex := cd.Entry()];
        }
        i := i + 1;
      }
      return currentHighest;
    }

    /** The body of min's loop for an accepted move, with the child searched by max. */
    method MinMove(toBoard: Board, depth: nat, highest: Score, currentLowest: Score) returns (newLowest: Score, cd: CachedData)
      requires CountInRange(State()) && depth >= 1
      modifies this
      ensures (newLowest, State()) == MinChild(rules, toBoard, depth, highest, currentLowest, old(State()))
      ensures fresh(cd) && cd.Entry() == CachedEntry(depth, newLowest, toBoard.turn)
      decreases MaxQuiescence - quiescenceCount, depth, 0
    {
      cd := new CachedData();
      cd.SetTurnColor(toBoard.turn);
      cd.SetDepth(depth);
      ghost var before := State();
      var childDepth := CalculateQuiescenceDepth(toBoard, depth);
      QuiescenceMeasureDecreases(rules, toBoard, depth, before.quiescenceCount);
      var childValue := Max(toBoard, childDepth, highest, currentLowest);
      newLowest := Scores.Min(currentLowest, childValue);
      cd.SetScore(newLowest);
    }

    /** min: the value for the side that minimises, searched with the window [highest, lowest]. */
    method Min(b: Board, depth: nat, highest: Score, lowest: Score) returns (value: Score)
      requires CountInRange(State())
      modifies this
      ensures (value, State()) == MinValue(rules, b, depth, highest, lowest, old(State()))
      decreases MaxQuiescence - quiescenceCount, depth, 1
    {
      var result := rules.gameResult(b);
      if depth == 0 || result != NotFinished {
        if result == Draw {
          return Val(0.0);
        }
        return Val(rules.evaluate(b));
      }
      var currentLowest := lowest;
      var sortedMoves := SortMoves(rules.legalMoves(b));
      var i := 0;
      while i < |sortedMoves|
        invariant 0 <= i <= |sortedMoves| && CountInRange(State())
        invariant old(quiescenceCount) <= quiescenceCount
        invariant MinLoop(rules, b, depth, sortedMoves, i, highest, currentLowest, State())
                  == MinValue(rules, b, depth, highest, lowest, old(State()))
        decreases |sortedMoves| - i
      {
        var moveTransition := rules.makeMove(b, sortedMoves[i]);
        if moveTransition.moveStatus == Done {
          var toBoard := moveTransition.toBoard;
          var boardIndex := rules.hashCode(toBoard);
          var cd;
          currentLowest, cd := MinMove(toBoard, depth, highest, currentLowest);
          if Le(currentLowest, highest) {
            cd.SetScore(lowest);
            return highest;
          }
          transpositionTable := transpositionTable[boardIndex := cd.Entry()];
        }
        i := i + 1;
      }
      return currentLowest;
    }

    /** The child search of a root move: min when White is to move, max otherwise. */
    method SearchChild(color: Color, toBoard: Board, depth: nat, highestSeenValue: Score, lowestSeenValue: Score)
      returns (currentValue: Score)
      requires CountInRange(State())
      modifies this
      ensures (currentValue, State()) == RootChild(rules, toBoard, depth, color, highestSeenValue, lowestSeenValue, old(State()))
    {
      if color == White {
        currentValue := Min(toBoard, depth, highestSeenValue, lowestSeenValue);
      } else {
        currentValue := Max(toBoard, depth, highestSeenValue, lowestSeenValue);
      }
    }

    /**
     * The body of MiniMaxAB's loop for an accepted move that does not mate: the child's
     * search, the table entry for the child and the update of the best move.
     */
    method SearchRootMove(color: Color, move: RealMove, toBoard: Board, depth: int,
                          highestSeenValue: Score, lowestSeenValue: Score, bestMove: Option<RealMove>)
      returns (highestSeen: Score, lowestSeen: Score, best: Option<RealMove>)
      requires CountInRange(State()) && depth >= 1
      modifies this
      ensures RootOutcome(false, best, highestSeen, lowestSeen, State())
              == RootStep(rules, depth, color, move, toBoard, highestSeenValue, lowestSeenValue, bestMove, old(State()))
    {
      highestSeen, lowestSeen, best := highestSeenValue, lowestSeenValue, bestMove;
      ghost var st0 := State();
      var boardIndex := rules.hashCode(toBoard);
      var cd := new CachedData();
      cd.SetTurnColor(toBoard.turn);
      cd.SetDepth(depth);
      var currentValue := SearchChild(color, toBoard, depth - 1, highestSeenValue, lowestSeenValue);
      ghost var child := RootChild(rules, toBoard, depth - 1, color, highestSeenValue, lowestSeenValue, st0);
      cd.SetScore(currentValue);
      transpositionTable := transpositionTable[boardIndex := cd.Entry()];
      assert State() == child.1.(transpositionTable := child.1.transpositionTable[boardIndex := CachedEntry(depth, currentValue, toBoard.turn)]);
      if color == White && Lt(highestSeenValue, currentValue) {
        highestSeen := currentValue;
        best := Some(move);
      } else if color == Black && Lt(currentValue, lowestSeenValue) {
        lowestSeen := currentValue;
        best := Some(move);
      }
    }

    /** MiniMaxAB: the move the computer plays at the given depth, or None; Unbounded below depth 1. */
    method MiniMaxAB(b: Board, depth: int) returns (result: SearchResult)
      modifies this
      ensures (result, State()) == MiniMax(rules, b, depth, old(State()))
    {
      if depth < 1 {
        return Unbounded;
      }
      var color := b.turn;
      var bestMove := None;
      var highestSeenValue := NegInf;
      var lowestSeenValue := PosInf;
      quiescenceCount := 0;
      var sortedMoves := SortMoves(rules.legalMoves(b));
      ghost var whole := RootLoop(rules, b, depth, color, sortedMoves, 0, NegInf, PosInf, None, State());
      var i := 0;
      while i < |sortedMoves|
        invariant 0 <= i <= |sortedMoves| && CountInRange(State())
        invariant RootLoop(rules, b, depth, color, sortedMoves, i, highestSeenValue, lowestSeenValue, bestMove, State()) == whole
        decreases |sortedMoves| - i
      {
        var move := sortedMoves[i];
        var moveTransition := rules.makeMove(b, move);
        if moveTransition.moveStatus == Done {
          if rules.isInCheckMate(moveTransition.toBoard) {
            return Searched(Some(move));
          }
          highestSeenValue, lowestSeenValue, bestMove :=
            SearchRootMove(color, move, moveTransition.toBoard, depth, highestSeenValue, lowestSeenValue, bestMove);
        }
        i := i + 1;
      }
      var cd := new CachedData();
      cd.SetTurnColor(b.turn);
      cd.SetDepth(depth);
      if b.turn == White {
        cd.SetScore(highestSeenValue);
      } else {
        cd.SetScore(lowestSeenValue);
      }
      transpositionTable := transpositionTable[rules.hashCode(b) := cd.Entry()];
      result := Searched(bestMove);
    }
  }
}
