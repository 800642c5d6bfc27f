/**
 * The move-ordering comparator of logic/player/AI/SortMoves.java and the sorted copy the
 * search iterates over (Minimax.sortMoves).
 */
module MoveOrdering {
  import opened Colors
  import opened Pieces
  import opened Positions

  /** The moves a legal-move list holds: never the null move. */
  type RealMove = m: Move | m.Move?
    witness Move(Board(map[], White, 0, NullMove, false, false), Piece(Kind.Pawn, 8, White, true), 0, Major)

  /** ComparisonChain.compareTrueFirst: true sorts before false. */
  function TrueFirst(a: bool, b: bool): int
  {
    if a == b then 0 else if a then -1 else 1
  }

  /** ComparisonChain.compare on two doubles: the sign of a - b. */
  function CompareReal(a: real, b: real): int
  {
    if a < b then -1 else if a > b then 1 else 0
  }

  /** The moved piece's square index grows. */
  predicate Advances(m: RealMove)
  {
    m.piece.position < m.to
  }

  /** SortMoves.compare: attacks, then castles, then index-increasing moves, then more valuable movers first. */
  function Compare(m1: RealMove, m2: RealMove): (r: int)
    ensures -1 <= r <= 1
  {
    var attack := TrueFirst(IsAttack(m1), IsAttack(m2));
    if attack != 0 then attack
    else
      var castle := TrueFirst(IsCastle(m1), IsCastle(m2));
      if castle != 0 then castle
      else
        var advance := TrueFirst(Advances(m1), Advances(m2));
        if advance != 0 then advance
        else CompareReal(Value(m2.piece.kind), Value(m1.piece.kind))
  }

  /** An independent reading of the chain: the rank of a move, to be ordered lexicographically. */
  datatype Rank = Rank(attack: int, castle: int, advance: int, value: real)

  function RankOf(m: RealMove): Rank
  {
    Rank(if IsAttack(m) then 0 else 1, if IsCastle(m) then 0 else 1, if Advances(m) then 0 else 1, -Value(m.piece.kind))
  }

  predicate RankLess(a: Rank, b: Rank)
  {
    a.attack < b.attack
    || (a.attack == b.attack && a.castle < b.castle)
    || (a.attack == b.attack && a.castle == b.castle && a.advance < b.advance)
    || (a.attack == b.attack && a.castle == b.castle && a.advance == b.advance && a.value < b.value)
  }

  /** Compare is the lexicographic order of the ranks: negative, zero and positive in the three cases. */
  lemma CompareIsLexicographic(m1: RealMove, m2: RealMove)
    ensures Compare(m1, m2) < 0 <==> RankLess(RankOf(m1), RankOf(m2))
    ensures Compare(m1, m2) == 0 <==> RankOf(m1) == RankOf(m2)
    ensures Compare(m1, m2) > 0 <==> RankLess(RankOf(m2), RankOf(m1))
  {
  }

  /** Attacks sort before non-attacks. */
  lemma AttacksFirst(m1: RealMove, m2: RealMove)
    requires IsAttack(m1) && !IsAttack(m2)
    ensures Compare(m1, m2) < 0 && Compare(m2, m1) > 0
  {
  }

  /** Among moves alike in attacking, castles sort first. */
  lemma CastlesNext(m1: RealMove, m2: RealMove)
    requires IsAttack(m1) == IsAttack(m2) && IsCastle(m1) && !IsCastle(m2)
    ensures Compare(m1, m2) < 0
  {
  }

  /** Then index-increasing moves, then the more valuable mover. */
  lemma AdvancesThenValue(m1: RealMove, m2: RealMove)
    requires IsAttack(m1) == IsAttack(m2) && IsCastle(m1) == IsCastle(m2)
    ensures Advances(m1) && !Advances(m2) ==> Compare(m1, m2) < 0
    ensures Advances(m1) == Advances(m2) ==> (Compare(m1, m2) < 0 <==> Value(m1.piece.kind) > Value(m2.piece.kind))
  {
  }

  /** compare(m, m) == 0. */
  lemma CompareReflexive(m: RealMove)
    ensures Compare(m, m) == 0
  {
  }

  /** Swapping the arguments negates the result. */
  lemma CompareAntisymmetric(m1: RealMove, m2: RealMove)
    ensures Compare(m1, m2) == -Compare(m2, m1)
  {
  }

  /** "Sorts no later" is transitive, so the comparator is a total preorder. */
  lemma CompareTransitive(m1: RealMove, m2: RealMove, m3: RealMove)
    requires Compare(m1, m2) <= 0 && Compare(m2, m3) <= 0
    ensures Compare(m1, m3) <= 0
  {
    CompareIsLexicographic(m1, m2);
    CompareIsLexicographic(m2, m3);
    CompareIsLexicographic(m1, m3);
  }

  predicate Sorted(s: seq<RealMove>)
  {
    forall i, j :: 0 <= i < j < |s| ==> Compare(s[i], s[j]) <= 0
  }

  /** Insert m into a list before the first element it sorts no later than. */
  function Insert(m: RealMove, s: seq<RealMove>): (r: seq<RealMove>)
    ensures multiset(r) == multiset(s) + multiset{m}
  {
    if s == [] then [m]
    else if Compare(m, s[0]) <= 0 then [m] + s
    else
      assert s == [s[0]] + s[1..];
      [s[0]] + Insert(m, s[1..])
  }

  /** A head no later than every element of a sorted tail gives a sorted list. */
  lemma SortedCons(h: RealMove, rest: seq<RealMove>)
    requires Sorted(rest)
    requires forall x :: x in rest ==> Compare(h, x) <= 0
    ensures Sorted([h] + rest)
  {
    var r := [h] + rest;
    forall i, j | 0 <= i < j < |r|
      ensures Compare(r[i], r[j]) <= 0
    {
      if i == 0 {
        assert r[j] in rest;
      } else {
        assert r[i] == rest[i - 1] && r[j] == rest[j - 1];
      }
    }
  }

  /** A lower bound of m and of every element of s bounds every element of Insert(m, s). */
  lemma InsertBounded(h: RealMove, m: RealMove, s: seq<RealMove>)
    requires Compare(h, m) <= 0
    requires forall j :: 0 <= j < |s| ==> Compare(h, s[j]) <= 0
    ensures forall x :: x in Insert(m, s) ==> Compare(h, x) <= 0
  {
    forall x | x in Insert(m, s)
      ensures Compare(h, x) <= 0
    {
      assert x in multiset(Insert(m, s));
      if x != m {
        assert x in multiset(s);
        var j :| 0 <= j < |s| && s[j] == x;
      }
    }
  }

  lemma {:induction false} InsertSorted(m: RealMove, s: seq<RealMove>)
    requires Sorted(s)
    ensures Sorted(Insert(m, s))
  {
    if s == [] {
    } else if Compare(m, s[0]) <= 0 {
      forall j | 0 <= j < |s|
        ensures Compare(m, s[j]) <= 0
      {
        if j > 0 {
          CompareTransitive(m, s[0], s[j]);
        }
      }
      SortedCons(m, s);
    } else {
      var t := s[1..];
      InsertSorted(m, t);
      CompareAntisymmetric(m, s[0]);
      assert forall j :: 0 <= j < |t| ==> t[j] == s[j + 1];
      InsertBounded(s[0], m, t);
      SortedCons(s[0], Insert(m, t));
    }
  }

  /** Minimax.sortMoves: a copy of the list sorted by the comparator (Ordering.immutableSortedCopy). */
  function SortMoves(legalMoves: seq<RealMove>): seq<RealMove>
  {
    if legalMoves == [] then [] else Insert(legalMoves[0], SortMoves(legalMoves[1..]))
  }

  /** The sorted copy holds the same moves as often, in the comparator's order. */
  lemma {:induction false} SortMovesSpec(legalMoves: seq<RealMove>)
    ensures multiset(SortMoves(legalMoves)) == multiset(legalMoves)
    ensures Sorted(SortMoves(legalMoves))
  {
    if legalMoves != [] {
      assert legalMoves == [legalMoves[0]] + legalMoves[1..];
      SortMovesSpec(legalMoves[1..]);
      InsertSorted(legalMoves[0], SortMoves(legalMoves[1..]));
    }
  }

  /** In the sorted copy every attack comes before every non-attack. */
  lemma SortedAttacksFirst(legalMoves: seq<RealMove>, i: int, j: int)
    requires 0 <= i < |SortMoves(legalMoves)| && 0 <= j < |SortMoves(legalMoves)|
    requires IsAttack(SortMoves(legalMoves)[j]) && !IsAttack(SortMoves(legalMoves)[i])
    ensures j < i
  {
    var s := SortMoves(legalMoves);
    SortMovesSpec(legalMoves);
    if i < j {
      AttacksFirst(s[j], s[i]);
    }
  }
}
