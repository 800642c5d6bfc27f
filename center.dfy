/** The centre-control term of the evaluation (logic/player/AI/CenterControl.java). */
module CenterControl {
  import opened Colors
  import opened Pieces
  import opened Positions
  import opened Attacks

  const AttacksOnEnemyCenterMultiplier: real := 0.06
  const AttacksOnSelfCenterMultiplier: real := 0.025
  const PawnsOnCenterMultiplier: real := 0.08
  const CenterCoordinate: seq<Square> := [27, 28, 35, 36]

  /** The square holds a piece of colour c (of any kind: the code does not test for a pawn). */
  predicate OwnPieceOn(b: Board, c: Color, s: int)
  {
    GetPieceAtCoordinate(b, s).Some? && GetPieceAtCoordinate(b, s).value.color == c
  }

  /** How many of the first n centre squares hold a piece of colour c. */
  function CenterOccupied(b: Board, c: Color, n: nat): (r: nat)
    requires n <= 4
    ensures r <= n
  {
    if n == 0 then 0
    else CenterOccupied(b, c, n - 1) + (if OwnPieceOn(b, c, CenterCoordinate[n - 1]) then 1 else 0)
  }

  /** CenterControl.pawnsOnCenter. */
  method PawnsOnCenter(b: Board, c: Color) returns (r: real)
    ensures r == CenterOccupied(b, c, 4) as real * PawnsOnCenterMultiplier
  {
    var numberOfPawnsOnCenter := 0;
    for k := 0 to |CenterCoordinate|
      invariant numberOfPawnsOnCenter == CenterOccupied(b, c, k)
    {
      var i := CenterCoordinate[k];
      if GetPieceAtCoordinate(b, i).Some? && GetPieceAtCoordinate(b, i).value.color == c {
        numberOfPawnsOnCenter := numberOfPawnsOnCenter + 1;
      }
    }
    r := numberOfPawnsOnCenter as real * PawnsOnCenterMultiplier;
  }

  /** The centre squares on the opponent's half: 27 and 28 for White, 35 and 36 for Black. */
  function EnemyCenter(c: Color): (Square, Square)
  {
    if c == White then (27, 28) else (35, 36)
  }

  /** The centre squares on the player's own half: 35 and 36 for White, 27 and 28 for Black. */
  function SelfCenter(c: Color): (Square, Square)
  {
    if c == White then (35, 36) else (27, 28)
  }

  /** The number of listed moves ending on either square of a pair. */
  function AttacksOnPair(pair: (Square, Square), moves: seq<Move>): nat
  {
    |AttacksOnBox(pair.0, moves)| + |AttacksOnBox(pair.1, moves)|
  }

  /** CenterControl.calculateAttacksOnEnemyCenter. */
  function AttacksOnEnemyCenter(c: Color, moves: seq<Move>): real
  {
    AttacksOnPair(EnemyCenter(c), moves) as real * AttacksOnEnemyCenterMultiplier
  }

  /** CenterControl.calculateAttacksOnSelfCenter. */
  function AttacksOnSelfCenter(c: Color, moves: seq<Move>): real
  {
    AttacksOnPair(SelfCenter(c), moves) as real * AttacksOnSelfCenterMultiplier
  }

  /**
   * The two pairs are disjoint and together make up the four centre squares; a side's own
   * centre is the other side's enemy centre.
   */
  lemma CenterHalves(c: Color)
    ensures var (e0, e1) := EnemyCenter(c); var (s0, s1) := SelfCenter(c);
            {e0, e1} !! {s0, s1} && {e0, e1} + {s0, s1} == set i | 0 <= i < 4 :: CenterCoordinate[i]
    ensures SelfCenter(c) == EnemyCenter(Opponent(c))
  {
    assert CenterCoordinate[0] == 27 && CenterCoordinate[1] == 28;
    assert CenterCoordinate[2] == 35 && CenterCoordinate[3] == 36;
  }

  /** A pair's attack count is zero exactly when no listed move ends on either square of it. */
  lemma AttacksOnPairZero(pair: (Square, Square), moves: seq<Move>)
    ensures AttacksOnPair(pair, moves) == 0 <==>
              forall i :: 0 <= i < |moves| ==> !Targets(moves[i], pair.0) && !Targets(moves[i], pair.1)
  {
    AttacksOnBoxEmpty(pair.0, moves);
    AttacksOnBoxEmpty(pair.1, moves);
  }

  /** CenterControl.centerControl: the two attack terms and the centre-occupation term. */
  function CenterControlValue(b: Board, c: Color, moves: seq<Move>): (r: real)
    ensures r >= 0.0
  {
    AttacksOnEnemyCenter(c, moves) + AttacksOnSelfCenter(c, moves) + CenterOccupied(b, c, 4) as real * PawnsOnCenterMultiplier
  }

  /** CenterControl.centerControl. */
  method CalculateCenterControl(b: Board, c: Color, moves: seq<Move>) returns (r: real)
    ensures r == CenterControlValue(b, c, moves)
  {
    var (e0, e1) := EnemyCenter(c);
    var enemy0 := GetAttacksOnBox(e0, moves);
    var enemy1 := GetAttacksOnBox(e1, moves);
    var (s0, s1) := SelfCenter(c);
    var self0 := GetAttacksOnBox(s0, moves);
    var self1 := GetAttacksOnBox(s1, moves);
    var pawns := PawnsOnCenter(b, c);
    r := (|enemy0| + |enemy1|) as real * AttacksOnEnemyCenterMultiplier
         + (|self0| + |self1|) as real * AttacksOnSelfCenterMultiplier + pawns;
  }
}
