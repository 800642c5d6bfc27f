# A verified model of a Java chess engine's rules and search

This project models the core of a small chess program written in Java. It covers:

- the board and its pieces, and how each piece generates moves;
- executing a move, and how a player accepts or refuses it;
- the game result, including castling and draws;
- the position evaluation of the computer player;
- the Zobrist hash;
- the alpha-beta search (`Minimax.MiniMaxAB`) that picks the computer's move.

The board is a map from squares 0..63 to an optional piece. Square 0 is Black's corner, so rank `s / 8` and file `s % 8` are counted from Black's side. The side to move, the counter of moves without a capture, the history link (the move that produced the board) and the castled flags are kept on the board too.

Pieces and moves are values:

- a `Piece` is a kind, a square, a colour and a first-move flag;
- a `Move` is a move kind, the board it was generated on, the moved piece and the destination;
- `Board` and `Move` are mutually recursive datatypes, because each Java object links to the other.

The Java code changes state in three places, and each becomes a class or a method:

- `BoardBuilder`, `Player` and `CachedData` are classes whose methods update fields in place, with `modifies` clauses;
- the search's two static fields, the quiescence counter and the transposition table, are fields of the class `Search.Minimax`;
- every loop of the source is a method with loop invariants. Each method is proved equal to a specification function, and the properties are lemmas about those functions.

Modules follow the packages:

- `Colors`, `Pieces`, `Positions`, `Transitions` and `Execution` for `logic`;
- `KnightMoves`, `PawnMoves`, `KingMoves`, `BishopMoves`, `RookMoves` and `QueenMoves`, with the shared ray walk in `Sliding` and `SlidingGeometry`, for `logic/Pieces`;
- `Boards` for `Board.java`, and `Attacks`, `Castling` and `Players` for `logic/player`;
- `Outcome` for `Board.gameResult`;
- one module per evaluation class in `logic/player/AI`;
- `MoveOrdering` for `SortMoves` and `Minimax.sortMoves`, `Scores` for the arithmetic of doubles, and `Search` for `Minimax.java`.

Headline results:

- The move generators are exact. A square is a knight, king or pawn destination exactly when the chess geometry allows it and no friendly piece stands there. With the column guards, the sliding pieces reach exactly the squares along an open ray. No offset wraps around a board edge.
- `Move.executeMove` puts the moved piece, marked as moved, on the destination, and it empties the origin. Every other square keeps its occupant.
- `Player.makeMove` refuses an unlisted move (UNDONE). It also refuses a move after which a move of the side then to move reaches the king (LEFT_IN_CHECK); the model generates those moves on the executed board, which this revision of the source does not (see Left out). Checkmate and stalemate exclude each other. A decided game leaves the loser no accepted move.
- The evaluation terms have their stated ranges and signs, and the stage thresholds are exact.
- Boards that are equal in the sense of `Board.equals` get equal Zobrist keys. Flipping the side to move changes the key by exactly `whiteMove`.
- The sorted move list is a permutation of the legal moves, and attacks come first.
- The transposition table is written but never read, so the search result does not depend on earlier searches.
- Once the quiescence budget is used up, `max` and `min` are correct fail-hard alpha-beta searches. Each returns the fixed-depth minimax value clamped to its window.
- `MiniMaxAB` returns the first sorted move that mates, if there is one. Otherwise it returns the first accepted move whose child value is strictly the highest (White) or lowest (Black), and records that value for the root.
- As written, `evaluate` answers from the side to move, while the search reads leaf values from White's side (see Findings).

## Model

| member | source | states |
|---|---|---|
| Colors.Direction | src/logic/Color.java:6-15 | White's direction is -1 and Black's is +1, and each value belongs to exactly one colour |
| Colors.Opponent | src/logic/Board.java:95-102 | the opponent is always the other colour |
| Colors.DirectionsOpposite | src/logic/Color.java:9-13 | the two directions are negations of each other; Opponent is an involution; there are exactly two colours |
| Pieces.Value | src/logic/Pieces/Knight.java:41-44 | the value constants: Pawn 1, Knight 3.2, Bishop 3, Rook 5, Queen 9; every value lies in 0..9 and only the King's (never assigned) is 0 |
| Pieces.LocationBonusIgnoresFirstMove | src/logic/Pieces/Knight.java:51-53 | the location bonus reads only kind, colour and square, never the first-move flag |
| Pieces.FirstOfKindSpec | src/logic/player/WhitePlayer.java:32-38 | a piece of the kind is found exactly when the list holds one, and it is the first such piece in list order |
| Pieces.FindFirstOfKind | src/logic/player/WhitePlayer.java:32-38 | the early-return search loop returns the first piece of the kind, or None |
| Positions.GetPieceAtCoordinate | src/logic/Board.java:119-124 | a present key yields its mapped entry; an absent key (or an off-board index) yields None, and a piece is only ever returned from a key of the map |
| Positions.SamePositionIsEquivalence | src/logic/Board.java:339-345 | Board.equals (same map, same side to move) is reflexive, symmetric and transitive, and equal boards agree on every square |
| KnightMoves.GetLegalMoves | src/logic/Pieces/Knight.java:58-76 | the loop over the eight offsets returns exactly LegalMoves, the offsets' contributions in order |
| KnightMoves.MovesFor | src/logic/Pieces/Knight.java:63-74 | at most one move per offset |
| KnightMoves.MovesForSpec | src/logic/Pieces/Knight.java:63-74 | each generated move is a Major move onto an empty square or an Attack on an enemy, by an offset that the four guards let through |
| KnightMoves.UnguardedStepIsJump | src/logic/Pieces/Knight.java:78-105 | an offset the guards let through that stays on the board is a knight jump (one file and two ranks or two files and one rank), so no move wraps across an edge |
| KnightMoves.JumpIsUnguardedStep | src/logic/Pieces/Knight.java:78-105 | conversely every knight jump is one of the eight offsets and no guard rejects it |
| KnightMoves.StepInMovesFor | src/logic/Pieces/Knight.java:63-74 | whatever one offset contributes is in the final list |
| KnightMoves.LegalMovesSound | src/logic/Pieces/Knight.java:58-76 | at most eight moves, each a Major move or an Attack on an enemy piece, each a knight jump onto a square without a friendly piece |
| KnightMoves.LegalMovesComplete | src/logic/Pieces/Knight.java:58-76 | a square is a destination if and only if it is a knight jump away and holds no friendly piece |
| Sliding.Ray | src/logic/Pieces/Rook.java:63-86 | every move of one ray is a Major move onto an empty square or an Attack on an enemy piece |
| Sliding.RaysFor | src/logic/Pieces/Rook.java:61-87 | every move of the rays of all masks is a Major move or an Attack on an enemy piece |
| Sliding.GetSlidingMoves | src/logic/Pieces/Rook.java:58-89 | the nested for/while loop shared by Bishop, Rook and Queen returns exactly RaysFor |
| SlidingGeometry.AlongCoordinates | src/logic/Pieces/Rook.java:63-67 | k steps of a direction that stay on the board move exactly k times the direction's rank and file step |
| SlidingGeometry.RayShape | src/logic/Pieces/Rook.java:63-86 | a move of a ray lands k >= 1 steps out, every square before it is empty and every visited square passed the guard |
| SlidingGeometry.RayGeometry | src/logic/Pieces/Rook.java:63-67 | with an exact guard, every square of an unguarded walk is k steps of rank and file away |
| SlidingGeometry.RaySound | src/logic/Pieces/Rook.java:63-86 | every move of a ray reaches its target: on the board k >= 1 steps out, over empty squares, onto a square without a friendly piece |
| SlidingGeometry.RayComplete | src/logic/Pieces/Rook.java:63-86 | every square a ray reaches is the destination of one of its moves |
| SlidingGeometry.InRaysFor | src/logic/Pieces/Rook.java:61-87 | every move of the combined list comes from the ray of one mask |
| SlidingGeometry.RayInRaysFor | src/logic/Pieces/Rook.java:61-87 | every move of one mask's ray is in the combined list |
| SlidingGeometry.SlidingMovesExact | src/logic/Pieces/Rook.java:58-89 | with exact guards, the destinations are exactly the squares some ray reaches |
| BishopMoves.GetLegalMoves | src/logic/Pieces/Bishop.java:46-73 | Bishop.getLegalMoves returns exactly the diagonal rays' moves |
| BishopMoves.GuardsExact | src/logic/Pieces/Bishop.java:75-79 | the column guard fires exactly when a diagonal step would leave files 0..7 |
| BishopMoves.LegalMovesExact | src/logic/Pieces/Bishop.java:46-73 | a square is a destination if and only if a diagonal ray reaches it |
| BishopMoves.LegalMovesSound | src/logic/Pieces/Bishop.java:46-73 | every move is a Major move or an Attack on an enemy, never onto a friendly piece, and as many files as ranks away (at least one) |
| RookMoves.GetLegalMoves | src/logic/Pieces/Rook.java:58-89 | Rook.getLegalMoves returns exactly the orthogonal rays' moves |
| RookMoves.GuardsExact | src/logic/Pieces/Rook.java:91-95 | the column guard fires exactly when a sideways step would leave files 0..7 |
| RookMoves.LegalMovesExact | src/logic/Pieces/Rook.java:58-89 | a square is a destination if and only if an orthogonal ray reaches it |
| RookMoves.LegalMovesSound | src/logic/Pieces/Rook.java:58-89 | every move is a Major move or an Attack on an enemy, never onto a friendly piece, and keeps either the rank or the file |
| QueenMoves.GetLegalMoves | src/logic/Pieces/Queen.java:56-83 | Queen.getLegalMoves returns exactly the eight rays' moves |
| QueenMoves.GuardsExact | src/logic/Pieces/Queen.java:85-89 | the column guard fires exactly when a step would leave files 0..7 |
| QueenMoves.LegalMovesExact | src/logic/Pieces/Queen.java:56-83 | a square is a destination if and only if one of the eight rays reaches it |
| QueenMoves.LegalMovesSound | src/logic/Pieces/Queen.java:56-83 | every move is a Major move or an Attack on an enemy, never onto a friendly piece, along a rank, a file or a diagonal, and leaves the square |
| KingMoves.MovesFor | src/logic/Pieces/King.java:20-28 | at most one move per offset |
| KingMoves.MovesForSpec | src/logic/Pieces/King.java:20-28 | each generated move is a plain step onto a square without a friendly piece, by an offset the guard lets through |
| KingMoves.GetLegalMoves | src/logic/Pieces/King.java:17-31 | the loop returns exactly LegalMoves |
| KingMoves.UnguardedStepIsNeighbour | src/logic/Pieces/King.java:32-36 | an unguarded offset that stays on the board reaches a neighbouring square |
| KingMoves.NeighbourIsUnguardedStep | src/logic/Pieces/King.java:32-36 | every neighbouring square is one of the offsets and the guard never rejects it |
| KingMoves.StepInMovesFor | src/logic/Pieces/King.java:20-28 | whatever one offset contributes is in the final list |
| KingMoves.LegalMovesSound | src/logic/Pieces/King.java:17-31 | at most eight plain moves, each onto a neighbouring square without a friendly piece |
| KingMoves.LegalMovesComplete | src/logic/Pieces/King.java:17-31 | a square is a destination if and only if it neighbours the king and holds no friendly piece |
| PawnMoves.MovesFor | src/logic/Pieces/Pawn.java:49-71 | at most one move per offset |
| PawnMoves.MovesForSpec | src/logic/Pieces/Pawn.java:49-71 | each generated move is what the offset leading to its destination contributes |
| PawnMoves.GetLegalMoves | src/logic/Pieces/Pawn.java:46-73 | the loop returns exactly LegalMoves |
| PawnMoves.StepSound | src/logic/Pieces/Pawn.java:50-69 | each offset contributes only pawn steps: a push onto an empty square, a double push from an unmoved pawn across two empty squares, or a capture of an enemy one file aside without wrapping |
| PawnMoves.StepInMovesFor | src/logic/Pieces/Pawn.java:49-71 | whatever one offset contributes is in the final list |
| PawnMoves.LegalMovesSound | src/logic/Pieces/Pawn.java:46-73 | at most four moves, each a pawn step in the pawn's own direction |
| PawnMoves.LegalMovesComplete | src/logic/Pieces/Pawn.java:46-85 | a square is a destination if and only if it is a push, double-push or capture target |
| Boards.ActivePiecesBelow | src/logic/Board.java:140-149 | the pieces gathered from the squares below n all have the requested colour, at most one per square |
| Boards.GetActivePieces | src/logic/Board.java:140-149 | the loop over the square map returns ActivePieces, the pieces of one colour in square order |
| Boards.ActivePiecesBelowMembership | src/logic/Board.java:140-149 | a piece is gathered below n exactly when it has the colour and sits in the map under a square below n |
| Boards.ActivePiecesMembership | src/logic/Board.java:140-149 | a piece is active for a colour exactly when it has that colour and is in the square map |
| Boards.GeneratePieceMoves | src/logic/Board.java:157-165 | the kind dispatch returns each piece class's own move list |
| Boards.PieceMovesSound | src/logic/Board.java:157-165 | whatever the kind, every generated move belongs to that piece on that board and never lands on a friendly piece |
| Boards.GetAllLegalMoves | src/logic/Board.java:157-165 | the loop concatenates every listed piece's moves in list order |
| Boards.AllLegalMovesMembership | src/logic/Board.java:157-165 | a move is in the combined list exactly when one of the listed pieces generates it |
| Boards.BoardBuilder.constructor | src/logic/Board.java:315-317 | a new builder has an empty map, no side to move, the null move and every flag and counter at its default |
| Boards.BoardBuilder.SetPiece | src/logic/Board.java:319-322 | the piece is stored under its own square and nothing else changes |
| Boards.BoardBuilder.SetMoveMaker | src/logic/Board.java:324-327 | the side to move is set and nothing else changes |
| Boards.BoardBuilder.SetMoveTransition | src/logic/Board.java:329-332 | the history link is set and nothing else changes |
| Boards.BoardBuilder.Build | src/logic/Board.java:32-44 | the board takes over the map, counter, history link and castled flags; White moves exactly when the builder's side is White |
| Boards.CreateNewBoard | src/logic/Board.java:171-216 | the builder holds the starting layout, White to move, the null move, counter 0, no castles, and the AI flags passed in |
| Boards.SetBlackLayout | src/logic/Board.java:176-191 | the sixteen black puts are applied and nothing else changes |
| Boards.SetWhiteLayout | src/logic/Board.java:193-208 | the sixteen white puts are applied and nothing else changes |
| Boards.StartLayoutDisplay | src/logic/Board.java:176-208 | the thirty-two puts, Black's then White's, give the starting layout |
| Boards.StartLayoutPlacement | src/logic/Board.java:171-216 | Black fills squares 0..15 and White 48..63, each piece unmoved under its own square, kings on 4 and 60, pawns on the second ranks, nothing on 16..47, and the board is well formed |
| Boards.KindCount | src/logic/Board.java:249-261 | the count is at most the list length and is 0 exactly when no piece of the kind is listed |
| Boards.CheckNotEnoughMaterialToWin | src/logic/Board.java:249-261 | the loop decides IsNotEnoughMaterialToWin |
| Boards.MaterialSumByKind | src/logic/Board.java:249-261 | adding the values into an int truncates each step, so the sum is pawns + 3 knights + 3 bishops + 5 rooks + 9 queens |
| Boards.NotEnoughMaterialCharacterised | src/logic/Board.java:249-261 | a side cannot win by material exactly when it has no pawn, rook or queen and at most one knight or bishop |
| Boards.History | src/logic/Board.java:288-302 | at most n moves, none of them the null move, starting from the given move and following each board's history link, stopping early only at the null move |
| Boards.GetLastNMoves | src/logic/Board.java:288-302 | the loop returns the newest n moves that led to the board |
| Boards.CountSame | src/logic/Board.java:268-281 | at most the history's length, and 0 exactly when no earlier board equals this one |
| Boards.CountSameIsIndices | src/logic/Board.java:268-281 | the counter is the number of history entries whose board equals this one |
| Boards.CountSameThree | src/logic/Board.java:268-281 | the counter reaches 3 exactly when three distinct history entries have a board equal to this one |
| Boards.CheckThreeTimesPosition | src/logic/Board.java:268-281 | the loop decides IsThreeTimesPosition |
| Boards.ThreefoldNeedsHistory | src/logic/Board.java:268-281 | a threefold repetition holds exactly when three distinct moves among the last movesWithoutEat left a board equal to this one; the counter and the history are then at least 3 long |
| Attacks.GetAttacksOnBox | src/logic/player/Player.java:93-101 | the loop keeps exactly the moves ending on the square, in order |
| Attacks.AttacksOnBoxAppend | src/logic/player/Player.java:93-101 | the filter distributes over concatenation, so the order of kept moves is preserved |
| Attacks.AttacksOnBoxSingle | src/logic/player/Player.java:97-98 | a one-move list is kept exactly when its move ends on the square |
| Attacks.AttacksOnBoxMembership | src/logic/player/Player.java:93-101 | a move is kept exactly when it is listed and ends on the square |
| Attacks.AttacksOnBoxEmpty | src/logic/player/Player.java:93-101 | the result is empty exactly when no listed move ends on the square |
| Castling.CalculateCastles | src/logic/player/WhitePlayer.java:68-102 | the nested conditions and adds build exactly Castles |
| Castling.CastlesExact | src/logic/player/WhitePlayer.java:68-102 | a castle is offered exactly when the king is unmoved on its unattacked home square and, for that side, the squares between are empty, the corner holds an unmoved rook and the king's path is unattacked; at most two moves, kingside before queenside, each two files along the home rank onto an empty square |
| Castling.NoCastleOutOfCheck | src/logic/player/WhitePlayer.java:70 | with the intended gate no castle is offered while the king's square is attacked |
| Castling.BlackCastlesOutOfCheck | src/logic/player/BlackPlayer.java:63 | as written Black's gate ignores check: a concrete position where the black king is attacked yet castles kingside, while the intended gate offers nothing |
| Players.PieceMovesOfAreMoves | src/logic/Board.java:157-165 | every move a side's pieces generate is a real move of one of that side's pieces on that board |
| Players.LegalMoves | src/logic/player/Player.java:38 | the player's list (piece moves then castles) holds only real moves on that board |
| Players.IsInCheckIff | src/logic/player/Player.java:39 | a side is in check exactly when it has a king and some enemy piece move ends on the king's square |
| Players.MakeMoveOn | src/logic/player/Player.java:148-172 | an unlisted move is UNDONE, a listed one that leaves the king attacked is LEFT_IN_CHECK, and only then is the board kept; a DONE transition carries the executed board with the king safe |
| Players.MateAndStalemateExclusive | src/logic/player/Player.java:111-123 | checkmate and stalemate never hold together, and in either every legal move is refused with LEFT_IN_CHECK and the board is kept |
| Players.DoneMoveExecuted | src/logic/player/Player.java:148-163 | an accepted move is a listed move, and after it the moved piece stands on the destination, marked as moved, the opponent is to move and the history link is the move |
| Players.SearchDone | src/logic/player/Player.java:131-139 | the early-return loop answers whether some listed move is accepted |
| Players.Player.constructor | src/logic/player/Player.java:35-42 | the player's board, colour, king, legal moves (piece moves plus castles), check flag and flags are those of the board |
| Players.Player.SetHasCastled | src/logic/player/Player.java:79-81 | only the castled flag changes |
| Players.Player.SetBoard | src/logic/player/Player.java:83-85 | only the board changes; the derived fields keep their values |
| Players.Player.IsCanEscape | src/logic/player/Player.java:131-139 | the player can escape exactly when makeMove accepts one of its legal moves |
| Outcome.Result | src/logic/Board.java:223-233 | Black wins exactly when White is mated; White wins exactly when White is not mated and Black is; a draw exactly when neither is mated and a draw condition holds; unfinished exactly when none of these holds |
| Outcome.NoEscapeEndsGame | src/logic/Board.java:223-233 | a side to move with no accepted move is mated or stalemated, so the game is over |
| Outcome.LoserCannotMove | src/logic/Board.java:223-233 | a decided game leaves the loser no accepted move: makeMove refuses each with LEFT_IN_CHECK |
| Execution.PutAll | src/logic/Move.java:30-39 | each loop puts every listed piece but the moving one on its square |
| Execution.ExecuteMove | src/logic/Move.java:28-46 | the method returns the board Execute describes |
| Execution.PutPiecesKeep | src/logic/Move.java:30-39 | a square no put piece stands on keeps its entry |
| Execution.PutPiecesPut | src/logic/Move.java:30-39 | a square on which exactly one put piece stands ends up holding it |
| Execution.ExecuteDestination | src/logic/Move.java:41-44 | after a move the moved piece, marked as moved, stands on the destination, the opponent is to move and the history link is the move |
| Execution.ExecuteOrigin | src/logic/Move.java:41 | a move that leaves its square empties the origin |
| Execution.ExecuteFrame | src/logic/Move.java:28-46 | on a well-formed board every other square keeps its occupant |
| EvaluationAssistants.BoardInit | src/logic/player/AI/EvaluationAssistants.java:7-18 | a fresh 8 x 8 matrix whose cell (i, j) holds square 8i + j |
| EvaluationAssistants.CoordinatesExact | src/logic/player/AI/EvaluationAssistants.java:7-18 | every cell holds a square whose rank is its row and file its column, and every square is in exactly one cell |
| Caching.CachedData.constructor | src/logic/player/AI/CachedData.java:13-18 | a fresh record has depth 0, score 0 and White to move |
| Caching.CachedData.SetDepth | src/logic/player/AI/CachedData.java:32-34 | only the depth changes |
| Caching.CachedData.SetScore | src/logic/player/AI/CachedData.java:36-38 | only the score changes |
| Caching.CachedData.SetTurnColor | src/logic/player/AI/CachedData.java:40-42 | only the turn colour changes |
| CenterControl.CenterOccupied | src/logic/player/AI/CenterControl.java:37-45 | at most one count per centre square looked at |
| CenterControl.PawnsOnCenter | src/logic/player/AI/CenterControl.java:37-45 | the loop counts the centre squares holding a piece of the side's colour (any kind) and scales by 0.08 |
| CenterControl.CenterHalves | src/logic/player/AI/CenterControl.java:53-87 | the enemy pair and the own pair are disjoint and together are the four centre squares; a side's own pair is the other side's enemy pair |
| CenterControl.AttacksOnPairZero | src/logic/player/AI/CenterControl.java:53-87 | a pair scores zero exactly when no listed move ends on either of its squares |
| CenterControl.CenterControlValue | src/logic/player/AI/CenterControl.java:20-29 | centre control is never negative |
| CenterControl.CalculateCenterControl | src/logic/player/AI/CenterControl.java:20-87 | the method returns the sum of the enemy-centre term (0.06 per attack), the own-centre term (0.025) and the occupation term |
| Evaluation.CalcMaterial | src/logic/player/AI/PositionEvaluation.java:59-69 | the loop over the square map adds the values of the non-king pieces |
| Evaluation.NonKingSumSnoc | src/logic/player/AI/PositionEvaluation.java:61-66 | appending one piece adds its value unless it is a king |
| Evaluation.ActivePiecesStep | src/logic/Board.java:140-149 | one more square adds its occupant of the colour, if any, at the end |
| Evaluation.MaterialBelowSplits | src/logic/player/AI/PositionEvaluation.java:59-69 | the material on the map splits into White's and Black's non-king sums |
| Evaluation.MaterialLeft | src/logic/player/AI/PositionEvaluation.java:59-69 | what calcMaterial adds is the two sides' non-king sums, never negative |
| Evaluation.StageOf | src/logic/player/AI/PositionEvaluation.java:45-52 | OPENING exactly above 60, MIDGAME exactly in (28, 60], ENDING exactly at or below 28 |
| Evaluation.StageMonotone | src/logic/player/AI/PositionEvaluation.java:45-52 | less material never gives an earlier stage |
| Evaluation.CalculateGameStage | src/logic/player/AI/PositionEvaluation.java:45-52 | the method returns the stage of the material left |
| Evaluation.CheckmateTerm | src/logic/player/AI/PositionEvaluation.java:123-125 | MATE (10000) exactly when the rival is checkmated, and 0 exactly when not |
| Evaluation.GoodAttacks | src/logic/player/AI/PositionEvaluation.java:132-144 | at most one count per move |
| Evaluation.GoodAttacksZero | src/logic/player/AI/PositionEvaluation.java:132-144 | the count is zero exactly when no move captures a piece worth at least the mover |
| Evaluation.KingCapturesCount | src/logic/player/AI/PositionEvaluation.java:138 | a king's capture always counts, as the king's value is 0 |
| Evaluation.AttacksValue | src/logic/player/AI/PositionEvaluation.java:132-144 | the attack term lies between 0 and 0.01 per move |
| Evaluation.CalculateAttacks | src/logic/player/AI/PositionEvaluation.java:132-144 | the loop returns the attack term |
| Evaluation.MobilityTerm | src/logic/player/AI/PositionEvaluation.java:86 | the mobility term is never negative |
| Evaluation.AttacksTerm | src/logic/player/AI/PositionEvaluation.java:88 | the attack term is never negative |
| Evaluation.CenterControlTerm | src/logic/player/AI/PositionEvaluation.java:90 | the centre-control term is never negative |
| Evaluation.ScoreByStage | src/logic/player/AI/PositionEvaluation.java:79-116 | all three stages sum the same eight terms; only mobility's weight differs |
| Evaluation.MobilityWeightDecreases | src/logic/player/AI/PositionEvaluation.java:17-19 | mobility weighs 1, 0.8 and 0.4: positive and never more at a later stage |
| Evaluation.MateAddsExactly | src/logic/player/AI/PositionEvaluation.java:88 | the checkmate term enters the score once and unweighted |
| Evaluation.StageSumLinear | src/logic/player/AI/PositionEvaluation.java:79-116 | every term but mobility enters the score unweighted at every stage |
| Evaluation.Evaluate | src/logic/player/AI/PositionEvaluation.java:30-38 | as written: the documented balance, WhiteBalance, when White is to move, and its negation, Black's view, when Black is to move |
| Evaluation.BalanceFavoursWhite | src/logic/player/AI/PositionEvaluation.java:24-25 | the corrected evaluation grows with each of White's terms and with White's material advantage and shrinks with each of Black's terms, at every stage |
| Evaluation.EvaluateFavoursBlackToMove | src/logic/player/AI/PositionEvaluation.java:35-36 | with Black to move, evaluate as written shrinks when White's terms and material advantage grow and Black's terms shrink |
| KingSafety.ChebyshevDistance | src/logic/player/AI/KingSafety.java:68-80 | the distance between two squares lies in 0..7 |
| KingSafety.ChebyshevDistanceMetric | src/logic/player/AI/KingSafety.java:68-80 | the distance is symmetric and is 0 exactly between equal squares |
| KingSafety.ClosestIsFirstMinimal | src/logic/player/AI/KingSafety.java:49-56 | nothing is chosen exactly when every enemy move is a king move; otherwise the chosen piece makes a non-king move of least distance, and every earlier non-king move is strictly farther |
| KingSafety.FindClosest | src/logic/player/AI/KingSafety.java:45-56 | the loop returns the closest non-king mover and its distance, or null and Integer.MAX_VALUE |
| KingSafety.CalculateKingTropism | src/logic/player/AI/KingSafety.java:41-60 | the method returns the tropism penalty of value / 200 * (10 - distance), or 0 |
| KingSafety.KingTropismSign | src/logic/player/AI/KingSafety.java:41-60 | tropism never rewards: it is 0 exactly when every enemy move is a king move and negative otherwise |
| KingSafety.PawnFromOtherSideMeansOppositeEdges | src/logic/player/AI/KingSafety.java:144-149 | the wrap test holds exactly between a king on one edge file and a spot on the other edge file |
| KingSafety.PawnsShield | src/logic/player/AI/KingSafety.java:103-135 | the shield term is 0.3 or -0.3, and 0.3 only with the king on its own two home ranks |
| KingSafety.CalcPawnsShield | src/logic/player/AI/KingSafety.java:103-135 | the nested loops over the seven shapes return the bonus at the first complete shape with the king home, else the punishment |
| KingSafety.CastleValue | src/logic/player/AI/KingSafety.java:88-95 | a castled king gets 0.2 plus the shield term; otherwise a moved king loses 0.1 and an unmoved one scores 0 |
| KingSafety.CastleValues | src/logic/player/AI/KingSafety.java:88-135 | the castle term is 0.5, -0.1 or 0, and 0.5 only after castling with the king on its home ranks |
| KingSafety.CalculateKingSafety | src/logic/player/AI/KingSafety.java:31-34 | the method returns the castle term plus the tropism term |
| PieceLocation.LocationSumAppend | src/logic/player/AI/PieceLocation.java:25-27 | the location sum over a split list is the sum of the two parts |
| PieceLocation.FindQueen | src/logic/player/AI/PieceLocation.java:62-70 | the loop returns the first queen of the list, or null |
| PieceLocation.EarlyQueenDevelopment | src/logic/player/AI/PieceLocation.java:37-55 | the term is -0.5 or 0, and non-zero only in the opening |
| PieceLocation.EarlyQueenPunished | src/logic/player/AI/PieceLocation.java:37-55 | the punishment falls exactly in the opening on a list whose first queen stands off its colour's two home ranks (48..63 for White, 0..15 for Black) |
| PieceLocation.CalculatePieceLocation | src/logic/player/AI/PieceLocation.java:22-29 | the loop returns 0.8 times the sum of the location bonuses plus the early-queen term |
| PieceLocation.PieceLocationAfterOpening | src/logic/player/AI/PieceLocation.java:22-55 | outside the opening the term is the reduced bonus sum alone |
| Material.NonKingSum | src/logic/player/AI/Material.java:51-58 | the summed value of the non-king pieces is never negative |
| Material.GetTotalAdvantage | src/logic/player/AI/Material.java:45-73 | both accumulation loops and the formula give TotalAdvantage |
| Material.MaterialOf | src/logic/player/AI/Material.java:21-33 | material hands both lists to getTotalAdvantage |
| Material.AdvantageProperties | src/logic/player/AI/Material.java:68-72 | level material scores 0, the advantage never exceeds 31 either way, and while the total is at most 80 its sign names the side ahead (White on a tie) |
| Material.NonNegativeBonus | src/logic/player/AI/Material.java:70 | the trade-down bonus is never negative while the total material is at most 80 |
| Material.KingsIgnored | src/logic/player/AI/Material.java:51-67 | inserting a king anywhere changes neither the sum nor the pawn count |
| Mobility.RookMoveClassified | src/logic/player/AI/Mobility.java:53-65 | every rook move is exactly one of side (under eight indices), forward or backward |
| Mobility.KnightMoveDirected | src/logic/player/AI/Mobility.java:73-82 | a knight jump always covers at least six indices, so it is scored forward or backward, never 0 |
| Mobility.BishopMoveDirected | src/logic/player/AI/Mobility.java:90-99 | a diagonal move covers at least seven indices, so it is scored forward or backward, never 0 |
| Mobility.MobilityValue | src/logic/player/AI/Mobility.java:30-45 | mobility is never negative |
| Mobility.CalculateMobility | src/logic/player/AI/Mobility.java:30-45 | the loop sums each move's score by the mover's kind, 0.001 for kinds without a table |
| Mobility.MobilityBounds | src/logic/player/AI/Mobility.java:17-45 | the sum is at most 0.02 per move |
| MoveOrdering.Compare | src/logic/player/AI/SortMoves.java:16-25 | the comparison chain yields -1, 0 or 1 |
| MoveOrdering.CompareIsLexicographic | src/logic/player/AI/SortMoves.java:16-25 | the comparator is the lexicographic order of (attack, castle, advancing, value): negative, zero and positive exactly in its three cases |
| MoveOrdering.AttacksFirst | src/logic/player/AI/SortMoves.java:19 | an attack sorts before a non-attack |
| MoveOrdering.CastlesNext | src/logic/player/AI/SortMoves.java:20 | among moves alike in attacking, a castle sorts first |
| MoveOrdering.AdvancesThenValue | src/logic/player/AI/SortMoves.java:21-23 | then index-increasing moves first, then the more valuable mover first |
| MoveOrdering.CompareReflexive | src/logic/player/AI/SortMoves.java:16-25 | every move compares equal to itself |
| MoveOrdering.CompareAntisymmetric | src/logic/player/AI/SortMoves.java:16-25 | swapping the arguments negates the result |
| MoveOrdering.CompareTransitive | src/logic/player/AI/SortMoves.java:16-25 | "sorts no later" is transitive, so the comparator is a total preorder |
| MoveOrdering.Insert | src/logic/player/AI/Minimax.java:98-102 | inserting adds exactly the one move to the multiset of the list |
| MoveOrdering.InsertSorted | src/logic/player/AI/Minimax.java:98-102 | inserting into a sorted list keeps it sorted |
| MoveOrdering.SortMovesSpec | src/logic/player/AI/Minimax.java:98-102 | the sorted copy is a permutation of the legal moves, ordered by the comparator |
| MoveOrdering.SortedAttacksFirst | src/logic/player/AI/Minimax.java:98-102 | in the sorted copy every attack comes before every non-attack |
| PawnStructure.GetPawnsPlacesArray | src/logic/player/AI/PawnStruct.java:116-125 | a fresh eight-entry array holding the pawn count of every file |
| PawnStructure.FileCountsSum | src/logic/player/AI/PawnStruct.java:116-125 | the file counts add up to the number of pawns |
| PawnStructure.SumIsSumFiles | src/logic/player/AI/PawnStruct.java:116-125 | the first n counts add up to the pawns on the first n files |
| PawnStructure.SumFilesCountsPawns | src/logic/player/AI/PawnStruct.java:116-125 | every pawn is on one of the eight files |
| PawnStructure.SumFilesNoPieces | src/logic/player/AI/PawnStruct.java:118 | an empty list has no pawns on any file |
| PawnStructure.SumFilesStep | src/logic/player/AI/PawnStruct.java:119-123 | one more piece raises the count of the first n files by one exactly when it is a pawn on one of them |
| PawnStructure.CalculateDoublePawns | src/logic/player/AI/PawnStruct.java:153-162 | the loop punishes, at -0.35 each, the pawns beyond the first on every file |
| PawnStructure.DoubledZero | src/logic/player/AI/PawnStruct.java:153-162 | nothing is punished exactly when no file holds two pawns |
| PawnStructure.CalculateIsolatedPawns | src/logic/player/AI/PawnStruct.java:170-188 | the edge tests and the inner loop punish, at -0.18 each, the pawns of files without a neighbouring pawn file |
| PawnStructure.IsolatedBounds | src/logic/player/AI/PawnStruct.java:170-188 | the isolated pawns are at most the pawns, and none exactly when no isolated file holds a pawn |
| PawnStructure.CountPawnIslands | src/logic/player/AI/PawnStruct.java:132-144 | the skip-ahead loop punishes, at -0.1 each, the maximal runs of files holding pawns |
| PawnStructure.IslandsBound | src/logic/player/AI/PawnStruct.java:132-144 | n files hold at most (n + 1) / 2 islands |
| PawnStructure.AtMostFourIslands | src/logic/player/AI/PawnStruct.java:132-144 | eight files hold at most four islands |
| PawnStructure.ScanFile | src/logic/player/AI/PawnStruct.java:56-63 | a neighbour-file scan finds support exactly when some square of that file holds a supporting pawn |
| PawnStructure.ScanOpenFile | src/logic/player/AI/PawnStruct.java:93-98 | the forward scan reports an open file exactly when no visited square holds an enemy pawn |
| PawnStructure.BackwardPawns | src/logic/player/AI/PawnStruct.java:41-108 | the loop punishes backward pawns at -0.15 and those also on an open file at a further -0.08 |
| PawnStructure.BackwardCountsOrdered | src/logic/player/AI/PawnStruct.java:99-104 | open-file backward pawns are backward pawns, and backward pawns are pawns |
| PawnStructure.File7SupportOfAnyColour | src/logic/player/AI/PawnStruct.java:83-91 | on file 7 the scan of file 6 has no colour test, so an enemy pawn there also clears backward status |
| PawnStructure.PawnStruct | src/logic/player/AI/PawnStruct.java:27-33 | the method returns the sum of the four pawn terms |
| PawnStructure.PawnStructNeverPositive | src/logic/player/AI/PawnStruct.java:15-33 | the pawn structure never scores above 0 |
| RookStructure.FindRooks | src/logic/player/AI/RookStruct.java:39-47 | the loop returns the rooks of the list in order |
| RookStructure.RooksExact | src/logic/player/AI/RookStruct.java:39-47 | the rooks found are exactly the list's rooks, one entry each |
| RookStructure.CalculateConnectedColumnRooks | src/logic/player/AI/RookStruct.java:56-67 | the early-return scan returns ColumnBonus |
| RookStructure.CalculateConnectedRowRooks | src/logic/player/AI/RookStruct.java:76-88 | the early-return scan returns RowBonus |
| RookStructure.ColumnBonusMeansConnected | src/logic/player/AI/RookStruct.java:56-67 | with the first rook lower, 0.12 is paid exactly when the rooks share a file and every square of it between them is empty |
| RookStructure.RowBonusMeansConnected | src/logic/player/AI/RookStruct.java:76-88 | with the first rook lower, 0.07 is paid exactly when the rooks share a rank and every square between them is empty |
| RookStructure.ReversedPairScoresNothing | src/logic/player/AI/RookStruct.java:59-79 | with the first rook higher, both scans start on the second rook's own occupied square, so the pair earns nothing |
| RookStructure.RookStructValue | src/logic/player/AI/RookStruct.java:21-32 | nothing is paid unless there are exactly two rooks |
| RookStructure.RookStruct | src/logic/player/AI/RookStruct.java:21-32 | the method adds the row and column bonuses of exactly two rooks |
| RookStructure.RookStructValues | src/logic/player/AI/RookStruct.java:21-88 | at most one bonus is paid: the term is 0, 0.07 or 0.12 |
| Zobrist.XorZero | src/logic/player/AI/Zobrist.java:66-70 | XOR with the zero key is the identity |
| Zobrist.XorSelf | src/logic/player/AI/Zobrist.java:66-90 | XOR of a key with itself is zero |
| Zobrist.XorCommutes | src/logic/player/AI/Zobrist.java:66-90 | XOR commutes |
| Zobrist.XorAssociates | src/logic/player/AI/Zobrist.java:66-90 | XOR associates |
| Zobrist.ZeroRow | src/logic/player/AI/Zobrist.java:47 | a zero row of the requested length |
| Zobrist.IndexOf | src/logic/player/AI/Zobrist.java:13-41 | the column lies in 0..11, below 6 exactly for White |
| Zobrist.IndexOfInjective | src/logic/player/AI/Zobrist.java:13-41 | two pieces share a column exactly when they share kind and colour |
| Zobrist.IndexOfOnto | src/logic/player/AI/Zobrist.java:13-41 | every column belongs to some kind and colour |
| Zobrist.XorIf | src/logic/player/AI/Zobrist.java:73-90 | an unset flag leaves the key unchanged |
| Zobrist.GetKeyForBoard | src/logic/player/AI/Zobrist.java:65-93 | the loop and the flag tests give Key: piece keys, then flag keys, then the side key |
| Zobrist.SameSquaresSamePieceKeys | src/logic/player/AI/Zobrist.java:68-71 | boards agreeing on every square have equal piece keys |
| Zobrist.SameSquaresSameFlags | src/logic/player/AI/Zobrist.java:73-84 | boards agreeing on every square get the same flag keys |
| Zobrist.KeyDeterminedByContents | src/logic/player/AI/Zobrist.java:65-93 | equal square contents and side to move give equal keys |
| Zobrist.EqualBoardsEqualKeys | src/logic/player/AI/Zobrist.java:65-93 | boards equal in the sense of Board.equals hash alike |
| Zobrist.TurnFlipsWhiteMove | src/logic/player/AI/Zobrist.java:89-90 | boards differing only in the side to move have keys differing by exactly whiteMove |
| Zobrist.NoFlagsOnceMoved | src/logic/player/AI/Zobrist.java:73-84 | with no unmoved king or rook on the six home squares only the piece keys and the side key remain |
| Zobrist.SameTableSamePieceKeys | src/logic/player/AI/Zobrist.java:68-71 | the piece keys depend only on the table |
| Zobrist.PassantKeysUnused | src/logic/player/AI/Zobrist.java:86-87 | the en-passant column keys never enter the key |
| Scores.LeTotalOrder | src/logic/player/AI/Minimax.java:145-149 | the <= of scores is a total order |
| Scores.Max | src/logic/player/AI/Minimax.java:145-146 | Math.max is an upper bound of both arguments and one of them |
| Scores.Min | src/logic/player/AI/Minimax.java:200-201 | Math.min is a lower bound of both arguments and one of them |
| Scores.ClampInWindow | src/logic/player/AI/Minimax.java:145-152 | a clamp lies in a non-empty window and keeps a value already inside it |
| Scores.ClampAgrees | src/logic/player/AI/Minimax.java:145-152 | the exact value and its clamp both agree with it in the fail-hard sense |
| Scores.MaxOfAgrees | src/logic/player/AI/Minimax.java:145-152 | folding an agreeing child value into the running best reaches the bound exactly when the true value does, and otherwise gives the true maximum |
| Scores.MinOfAgrees | src/logic/player/AI/Minimax.java:200-208 | the same for the running minimum |
| Scores.MaxFold | src/logic/player/AI/Minimax.java:145-153 | one step of the max loop: a cutoff returns the clamped best, otherwise continuing gives the same clamped best |
| Scores.MinFold | src/logic/player/AI/Minimax.java:200-209 | the same step for the min loop |
| Search.ChessAsWritten | src/logic/player/AI/Minimax.java:43-65 | the rules as written: the side to move's legal moves, and evaluate as the leaf value |
| Search.Chess | src/logic/player/AI/PositionEvaluation.java:24-25 | the corrected rules: the same legal moves, with leaves valued by White's balance |
| Search.AttacksIn | src/logic/player/AI/Minimax.java:243-247 | at most one count per move |
| Search.QuiescenceDepth | src/logic/player/AI/Minimax.java:228-255 | the depth becomes 3 and the counter grows by one exactly at depth 1 below the 25000 limit with activity at least 2; otherwise the depth drops by one and the counter stays |
| Search.QuiescenceMeasureDecreases | src/logic/player/AI/Minimax.java:228-255 | the counter never passes the limit and (limit - counter, depth) strictly decreases from a node to its child, so the search ends |
| Search.CountAttacks | src/logic/player/AI/Minimax.java:243-247 | the loop counts the attacks among the last moves |
| Search.MaxValue | src/logic/player/AI/Minimax.java:112-157 | a leaf returns 0 on a draw and the evaluation otherwise, leaving the state; an inner node's value lies in the window, and the counter only grows |
| Search.MaxChild | src/logic/player/AI/Minimax.java:145-146 | the running best never decreases |
| Search.MaxLoop | src/logic/player/AI/Minimax.java:130-156 | the loop's value lies between the running best and the upper bound |
| Search.MinValue | src/logic/player/AI/Minimax.java:167-214 | a leaf returns 0 on a draw and the evaluation otherwise; an inner node's value lies in the window, and the counter only grows |
| Search.MinChild | src/logic/player/AI/Minimax.java:200-201 | the running minimum never increases |
| Search.MinLoop | src/logic/player/AI/Minimax.java:184-213 | the loop's value lies between the lower bound and the running minimum |
| Search.RootChild | src/logic/player/AI/Minimax.java:63-65 | the counter only grows |
| Search.RootChildIgnoresTable | src/logic/player/AI/Minimax.java:63-65 | the child value and counter do not depend on the table |
| Search.RootStep | src/logic/player/AI/Minimax.java:60-78 | the child is searched by min for White and by max for Black; the table maps the child's hash to the root depth, the child value and the child's colour; the move becomes the best exactly when its value is strictly above highestSeen (White) or below lowestSeen (Black), and that bound becomes the maximum (minimum) of the old bound and the value |
| Search.RootStepIgnoresTable | src/logic/player/AI/Minimax.java:60-78 | one root step's outcome does not depend on the table |
| Search.RootLoop | src/logic/player/AI/Minimax.java:45-80 | the counter only grows |
| Search.FirstMate | src/logic/player/AI/Minimax.java:45-50 | the index lies between the start and the end of the list |
| Search.FirstMateSpec | src/logic/player/AI/Minimax.java:45-50 | the index found mates and no earlier move does |
| Search.RootLoopMate | src/logic/player/AI/Minimax.java:45-50 | the root loop stops exactly at the first mating move and returns it |
| Search.RootLoopIsPrefix | src/logic/player/AI/Minimax.java:45-80 | the loop from the first move is the first k moves followed by the loop from the k-th, or the stop at a mate among the first k |
| Search.RootLoopBest | src/logic/player/AI/Minimax.java:45-80 | without a mate the best value returned is no worse than the start and than every accepted move's value, the other bound is untouched, and the move returned is the first accepted move whose value reached it when it strictly beat the start, else the start move |
| Search.MiniMaxChoice | src/logic/player/AI/Minimax.java:34-91 | below depth 1 the result is Unbounded and the state unchanged; otherwise the first sorted move that mates, when there is one; without a mate the choice of RootLoopBest from null and the two infinities, with the root's hash mapped to the root depth, the best value seen and the colour to move |
| Search.RootValueAtDepthOne | src/logic/player/AI/Minimax.java:63-65 | at depth 1 a root move's value is its child's leaf value |
| Search.NegatedLeaf | src/logic/player/AI/Minimax.java:173-178 | a leaf that is no draw, has Black to move and is valued by evaluate as written is worth minus White's balance |
| Search.NegatedRootValue | src/logic/player/AI/Minimax.java:63-65 | a depth-1 White root move whose child is such a leaf is worth minus White's balance of the child |
| Search.ChessDoneFlipsTurn | src/logic/Move.java:44 | under both rule sets an accepted move hands the turn to the other side |
| Search.DepthOneRootAsWritten | src/logic/player/AI/Minimax.java:63-65 | as written, a depth-1 search with White to move values each accepted move whose child is no draw at minus White's balance of the child |
| Search.DepthOneRootCorrected | src/logic/player/AI/Minimax.java:63-65 | with the corrected rules each root move whose child is no draw is valued at White's balance of the child, for either side to move |
| Search.MaxIgnoresTable | src/logic/player/AI/Minimax.java:135-140 | max's value and counter do not depend on the table |
| Search.MaxChildIgnoresTable | src/logic/player/AI/Minimax.java:135-146 | the same for the child search of max |
| Search.MaxLoopIgnoresTable | src/logic/player/AI/Minimax.java:130-156 | the same for max's loop |
| Search.MinIgnoresTable | src/logic/player/AI/Minimax.java:189-195 | min's value and counter do not depend on the table |
| Search.MinChildIgnoresTable | src/logic/player/AI/Minimax.java:189-201 | the same for the child search of min |
| Search.MinLoopIgnoresTable | src/logic/player/AI/Minimax.java:184-213 | the same for min's loop |
| Search.RootLoopIgnoresTable | src/logic/player/AI/Minimax.java:45-80 | the root loop's outcome does not depend on the table |
| Search.MiniMaxIgnoresState | src/logic/player/AI/Minimax.java:41-57 | the counter is reset and the table never read, so the chosen move does not depend on earlier searches |
| Search.MaxValueAgrees | src/logic/player/AI/Minimax.java:112-157 | once the quiescence budget is used up, max is a correct fail-hard alpha-beta search of the fixed-depth minimax value: the clamp of it to the window at inner nodes |
| Search.MaxChildAgrees | src/logic/player/AI/Minimax.java:145-149 | the child search of max reaches the bound exactly when the true value does |
| Search.MaxLoopClamps | src/logic/player/AI/Minimax.java:130-156 | max's loop returns the best child value, clamped to the bound |
| Search.MinValueAgrees | src/logic/player/AI/Minimax.java:167-214 | the same for min |
| Search.MinChildAgrees | src/logic/player/AI/Minimax.java:200-205 | the child search of min reaches the bound exactly when the true value does |
| Search.MinLoopClamps | src/logic/player/AI/Minimax.java:184-213 | min's loop returns the least child value, clamped to the bound |
| Search.Minimax.constructor | src/logic/player/AI/Minimax.java:18-20 | the static state starts with a zero counter and an empty table |
| Search.Minimax.CalculateQuiescenceDepth | src/logic/player/AI/Minimax.java:228-255 | the method returns the depth and counter of QuiescenceDepth and leaves the table |
| Search.Minimax.MaxMove | src/logic/player/AI/Minimax.java:142-147 | the child search of max, with a fresh cache entry holding the depth, new best and child's side |
| Search.Minimax.Max | src/logic/player/AI/Minimax.java:112-157 | max's result and new state are those of MaxValue |
| Search.Minimax.MinMove | src/logic/player/AI/Minimax.java:197-202 | the child search of min, with a fresh cache entry holding the depth, new minimum and child's side |
| Search.Minimax.Min | src/logic/player/AI/Minimax.java:167-214 | min's result and new state are those of MinValue |
| Search.Minimax.SearchChild | src/logic/player/AI/Minimax.java:63-65 | the root child search by min for White and by max for Black |
| Search.Minimax.SearchRootMove | src/logic/player/AI/Minimax.java:60-78 | one non-mating root move: child search, table entry and best-move update as RootStep |
| Search.Minimax.MiniMaxAB | src/logic/player/AI/Minimax.java:34-91 | the result and the new state are those of MiniMax: Unbounded with nothing changed below depth 1 |

## Left out

- The user interface, `Program.java`, printing and timing (`evaluationDetails`, `calculateTimeTaken`, `toString`) are not part of this model.
- The iteration order of `board_state.values()`, a `HashMap`, is modelled as ascending square order. Nothing proved depends on it except the order of the move lists.
- Doubles are modelled as exact reals, with `Double.NEGATIVE_INFINITY` and `POSITIVE_INFINITY` added as the `Score` sentinels. Rounding is not modelled.
- Java's `int` is modelled as unbounded. No count in the core comes near 2^31.
- The piece-square tables (for example `Knight.java:18-38`) are a validated parameter of type `Tables`, not transcribed constants. Lemmas about the location term hold for every table.
- The Zobrist tables and flag keys come from `java.util.Random`, so they are a parameter of type `Keys`. A 64-bit key is a sequence of 64 booleans with pointwise XOR, rather than a bit-vector.
- `Piece.movePiece`, the `Move` subclasses and the predicates `isAttack`, `isCastle`, `isPawnPromotion` and `isPawnThreat` are not in this revision of the source. Their modelled behaviour:
  - `movePiece` sets the position and clears the first-move flag;
  - a move carries a `MoveKind` (`Plain` for the king's step, `Major`, `Attack`, `PawnPush`, `PawnAttack`, `KingSideCastle`, `QueenSideCastle`);
  - `isPawnPromotion` holds for a pawn move onto its last rank;
  - `isPawnThreat` is a parameter of the search rules.
- `Piece.movePiece` mutates the very object the old board still holds. The model is value-based: the old board keeps the unmoved piece, and aliasing is not modelled.
- The `new Board()` of `executeMove` has no constructor in this revision. The model gives the new board a zero counter, no castled flags and the executed move as its history link.
- Castling moves the king only: `executeMove` (`Move.java:28-46`) does not relocate the rook, and no move generator promotes a pawn. The model follows the code.
- En passant is not generated by the code and is not modelled. Its Zobrist keys are proved unused (`Zobrist.PassantKeysUnused`).
- A side without a king makes Java throw `NullPointerException` in `findKing`'s callers. The model makes the king an `Option`, so such a side is not in check, offers no castles, and scores 0 for king safety.
- `Board.setTurn`, `setMovesWithoutEat` and the getters are plain field accesses on values and have no members of their own.
- This revision of `Piece.java` has no `value`, `firstMove` or `locationBonus` members, and its constructor takes two arguments where the subclasses pass three. The model follows the subclasses and the callers.
- `PositionEvaluation` passes `gameStage` to `Rook.locationBonus`, `KingSafety.calculateKingSafety` and `PieceLocation`, and calls `Mobility.mobility` with one argument. Some of these signatures disagree with the declarations shown. The model uses the declared behaviour: location bonuses ignore the stage.
- `Pieces.LocationBonus` ignores the game stage that the Rook's caller passes, because `Rook.java:50-52` does not use it.
- `MoveOrdering.SortMovesSpec`: `Ordering.immutableSortedCopy` is a stable sort. The model uses an insertion sort into the first position where the new move sorts no later, and proves only "sorted and a permutation", not stability.
- `Search.MaxValueAgrees` and `Search.MinValueAgrees` are proved only in a saturated state, where the quiescence budget (25000 extensions) is used up. Before that, `calculateQuiescenceDepth` may search a child to depth 3, so the value is the alpha-beta value of a deeper, position-dependent tree, which the model does not define.
- `Search.Minimax.MiniMaxAB` returns `Unbounded` for a depth below 1 and searches nothing. At such a depth the Java code searches the children at depth -1 or lower. That search never meets the `depth == 0` test again, so only positions whose every line ends in a finished game would stop it. The model does not follow that search, and it does not report a mating first move, which the Java code would return before any child is searched.
- The transposition-table lookups (`transpositionTable.get` in `Minimax.java:52`, `136` and `191`) are not modelled. Their results are used only by commented-out code. `Search.MiniMaxIgnoresState` proves that the table never influences the choice.
- `Search.Rules` abstracts what the search needs from a position: game result, legal moves, makeMove, evaluation, hash, check status and `isPawnThreat`. `Search.ChessAsWritten` instantiates it with this model's definitions and `evaluate` as written; `Search.Chess` does the same with the corrected evaluation (see Findings). The search lemmas hold for any rules.
- `Players.MakeMoveOn` and `Players.KingAttackedAfter` test the king against the moves of the side to move generated on the executed board, and the search rules give every board freshly generated moves. As written, `Move.java:44` hands the new board `board.getOponnent()`, the old board's opponent `Player`. Its `legalMoves` were fixed on the old board (`Player.java:35-39`), so `makeMove` (`Player.java:156`) and the search's children (`Minimax.java:46`, `max` and `min`) would read the list from before the move: a pinned piece could move, and a king could capture a protected piece. This `Move.java` does not compile against this `Board.java`, which declares neither `getOponnent` nor a constructor without arguments (`Board.java:32`, `95`), so the model does not follow that object sharing.
- `Player.isMoveLegal` (`Player.java:170-172`) and `executeMove`'s `pieceMoved.equals(piece)` (`Move.java:33`) compare references, since neither `Move` nor `Piece` declares `equals`. The model compares values. The two agree for the moves the callers take from the player's own list and for the piece a move carries.
- `Evaluation.Evaluate` models `evaluate` as written (see Findings). `Search.Chess` values leaves with the corrected `Evaluation.WhiteBalance`; `Search.ChessAsWritten` keeps `evaluate`.
- `Castling.CastlesAsWritten` models Black's gate as written (see Findings). The rest of the model, through `Castling.Castles`, uses the gate that White's code shows.

## Findings

| source | as written | input that shows it | evidently intended | confidence | as-written member | corrected member |
|---|---|---|---|---|---|---|
| src/logic/player/BlackPlayer.java:63 | Black's castling gate tests the field `isInCheck`, which the `Player` constructor (`Player.java:38-39`) assigns only after `calculateCastles` returns, so the field is still `false` | a black king unmoved on square 4, attacked by a white rook's move onto 4, with squares 5 and 6 empty and an unmoved rook on 7: the kingside castle is offered | no castling out of check, as White's gate tests with `getAttacksOnBox(60, opponentLegals)` (`WhitePlayer.java:70`) | not executed | Castling.CastlesAsWritten, Castling.BlackCastlesOutOfCheck | Castling.Castles, Castling.NoCastleOutOfCheck |
| src/logic/player/AI/PositionEvaluation.java:35-36 | `evaluate` returns White's balance when White is to move and its negation when Black is to move, while its documentation (lines 24-25) says the larger the value the better for White, and `MiniMaxAB`, `max` and `min` maximise for White and minimise for Black | a depth-1 search with White to move: every child has Black to move and is a leaf, so each accepted move is valued at minus White's balance of its child, and the root keeps the move whose position is worst for White (a draw counts 0) | leaf values from White's side whoever is to move | not executed | Evaluation.Evaluate, Search.DepthOneRootAsWritten | Evaluation.WhiteBalance, Evaluation.BalanceFavoursWhite, Search.DepthOneRootCorrected |
