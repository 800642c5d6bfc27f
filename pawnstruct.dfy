/** The pawn-structure term of the evaluation (logic/player/AI/PawnStruct.java). */
module PawnStructure {
  import opened Wrappers
  import opened Colors
  import opened Pieces
  import opened Positions
  import opened Boards

  const DoublePawnPunishment: real := -0.35
  const PawnIslandPunishment: real := -0.1
  const BackwardPawnPunishment: real := -0.15
  /** BACKWARD_PAWN_PUNISHMENT - 0.03. */
  const IsolatedPawnPunishment: real := -0.18
  const OpenFileBackwardPawnPunishment: real := -0.08

  // ---- getPawnsPlacesArray ----------------------------------------------------------

  /** The number of pawns in the list standing on file f. */
  function PawnsOnFile(ps: seq<Piece>, f: int): nat
  {
    if ps == [] then 0
    else
      var p := ps[|ps| - 1];
      PawnsOnFile(ps[..|ps| - 1], f) + (if p.kind == Kind.Pawn && p.position % 8 == f then 1 else 0)
  }

  /** The pawn count of every file, file 0 first. */
  function FileCounts(ps: seq<Piece>): seq<nat>
  {
    seq(8, f => PawnsOnFile(ps, f))
  }

  function Sum(cs: seq<nat>): nat
  {
    if cs == [] then 0 else Sum(cs[..|cs| - 1]) + cs[|cs| - 1]
  }

  /** PawnStruct.getPawnsPlacesArray: one counter per file, bumped for each pawn. */
  method GetPawnsPlacesArray(ps: seq<Piece>) returns (pawnsArr: array<nat>)
    ensures fresh(pawnsArr)
    ensures pawnsArr[..] == FileCounts(ps)
  {
    pawnsArr := new nat[8](f => 0);
    for i := 0 to |ps|
      invariant pawnsArr.Length == 8
      invariant forall f :: 0 <= f < 8 ==> pawnsArr[f] == PawnsOnFile(ps[..i], f)
    {
      assert ps[..i + 1][..i] == ps[..i];
      if ps[i].kind == Kind.Pawn {
        pawnsArr[ps[i].position % 8] := pawnsArr[ps[i].position % 8] + 1;
      }
    }
    assert ps[..|ps|] == ps;
  }

  /** Summing the file counts of the first n files. */
  function SumFiles(ps: seq<Piece>, n: nat): nat
  {
    if n == 0 then 0 else SumFiles(ps, n - 1) + PawnsOnFile(ps, n - 1)
  }

  /** Every pawn stands on exactly one file, so the file counts add up to the pawn count. */
  lemma {:induction false} FileCountsSum(ps: seq<Piece>)
    ensures Sum(FileCounts(ps)) == KindCount(ps, Kind.Pawn)
  {
    SumIsSumFiles(ps, 8);
    assert FileCounts(ps)[..8] == FileCounts(ps);
    SumFilesCountsPawns(ps);
  }

  lemma {:induction false} SumIsSumFiles(ps: seq<Piece>, n: nat)
    requires n <= 8
    ensures Sum(FileCounts(ps)[..n]) == SumFiles(ps, n)
  {
    if n > 0 {
      SumIsSumFiles(ps, n - 1);
      assert FileCounts(ps)[..n][..n - 1] == FileCounts(ps)[..n - 1];
    } else {
      assert FileCounts(ps)[..0] == [];
    }
    if n == 8 {
      assert FileCounts(ps)[..8] == FileCounts(ps);
    }
  }

  lemma {:induction false} SumFilesCountsPawns(ps: seq<Piece>)
    ensures SumFiles(ps, 8) == KindCount(ps, Kind.Pawn)
  {
    if ps == [] {
      SumFilesNoPieces(8);
    } else {
      var init, p := ps[..|ps| - 1], ps[|ps| - 1];
      SumFilesCountsPawns(init);
      SumFilesStep(ps, p, 8);
    }
  }

  lemma {:induction false} SumFilesNoPieces(n: nat)
    ensures SumFiles([], n) == 0
  {
    if n > 0 {
      SumFilesNoPieces(n - 1);
    }
  }

  /** Adding the last piece of the list raises the sum over the first n files by one exactly if it is a pawn there. */
  lemma {:induction false} SumFilesStep(ps: seq<Piece>, p: Piece, n: nat)
    requires ps != [] && p == ps[|ps| - 1]
    ensures SumFiles(ps, n) == SumFiles(ps[..|ps| - 1], n)
              + (if p.kind == Kind.Pawn && p.position % 8 < n then 1 else 0)
  {
    if n > 0 {
      SumFilesStep(ps, p, n - 1);
    }
  }

  // ---- calculateDoublePawns ---------------------------------------------------------

  /** The pawns beyond the first on each file. */
  function Doubled(cs: seq<nat>): nat
  {
    if cs == [] then 0
    else Doubled(cs[..|cs| - 1]) + (if cs[|cs| - 1] > 1 then cs[|cs| - 1] - 1 else 0)
  }

  /** PawnStruct.calculateDoublePawns. */
  method CalculateDoublePawns(pawnsArr: array<nat>) returns (r: real)
    ensures r == Doubled(pawnsArr[..]) as real * DoublePawnPunishment
  {
    var pawnDoubledTotal := 0;
    for i := 0 to pawnsArr.Length
      invariant pawnDoubledTotal == Doubled(pawnsArr[..i])
    {
      assert pawnsArr[..i + 1][..i] == pawnsArr[..i];
      if pawnsArr[i] > 1 {
        pawnDoubledTotal := pawnDoubledTotal + pawnsArr[i] - 1;
      }
    }
    assert pawnsArr[..pawnsArr.Length] == pawnsArr[..];
    r := pawnDoubledTotal as real * DoublePawnPunishment;
  }

  /** No file holds two pawns exactly when there is nothing to punish. */
  lemma {:induction false} DoubledZero(cs: seq<nat>)
    ensures Doubled(cs) == 0 <==> forall f :: 0 <= f < |cs| ==> cs[f] <= 1
  {
    if cs != [] {
      var init := cs[..|cs| - 1];
      DoubledZero(init);
      assert forall f :: 0 <= f < |init| ==> init[f] == cs[f];
    }
  }

  // ---- calculateIsolatedPawns -------------------------------------------------------

  /** No friendly pawn on a neighbouring file; the edge files have one neighbour only. */
  predicate IsolatedFile(cs: seq<nat>, f: int)
    requires |cs| == 8 && 0 <= f < 8
  {
    (f == 0 || cs[f - 1] == 0) && (f == 7 || cs[f + 1] == 0)
  }

  /** The pawns on isolated files among files lo..hi-1. */
  function IsolatedBetween(cs: seq<nat>, lo: int, hi: int): nat
    requires |cs| == 8 && 0 <= lo <= hi <= 8
    decreases hi - lo
  {
    if lo == hi then 0
    else IsolatedBetween(cs, lo, hi - 1) + (if IsolatedFile(cs, hi - 1) then cs[hi - 1] else 0)
  }

  /** The number of isolated pawns. */
  function Isolated(cs: seq<nat>): nat
    requires |cs| == 8
  {
    IsolatedBetween(cs, 0, 8)
  }

  /** PawnStruct.calculateIsolatedPawns: the two edge files first, then the inner files. */
  method CalculateIsolatedPawns(pawnsArr: array<nat>) returns (r: real)
    requires pawnsArr.Length == 8
    ensures r == Isolated(pawnsArr[..]) as real * IsolatedPawnPunishment
  {
    ghost var cs := pawnsArr[..];
    var numIsolatedPawns := 0;
    if pawnsArr[0] > 0 && pawnsArr[1] == 0 {
      numIsolatedPawns := numIsolatedPawns + pawnsArr[0];
    }
    if pawnsArr[7] > 0 && pawnsArr[6] == 0 {
      numIsolatedPawns := numIsolatedPawns + pawnsArr[7];
    }
    ghost var edges := numIsolatedPawns;
    assert edges == IsolatedBetween(cs, 0, 1) + (if IsolatedFile(cs, 7) then cs[7] else 0);
    for i := 1 to pawnsArr.Length - 1
      invariant numIsolatedPawns == edges + IsolatedBetween(cs, 0, i) - IsolatedBetween(cs, 0, 1)
    {
      if pawnsArr[i - 1] == 0 && pawnsArr[i + 1] == 0 {
        numIsolatedPawns := numIsolatedPawns + pawnsArr[i];
      }
    }
    r := numIsolatedPawns as real * IsolatedPawnPunishment;
  }

  /** The isolated pawns are some of the pawns; none exactly when no isolated file holds one. */
  lemma {:induction false} IsolatedBounds(cs: seq<nat>, hi: int)
    requires |cs| == 8 && 0 <= hi <= 8
    ensures IsolatedBetween(cs, 0, hi) <= Sum(cs[..hi])
    ensures IsolatedBetween(cs, 0, hi) == 0 <==> forall f :: 0 <= f < hi && IsolatedFile(cs, f) ==> cs[f] == 0
  {
    if hi > 0 {
      IsolatedBounds(cs, hi - 1);
      assert cs[..hi][..hi - 1] == cs[..hi - 1];
    }
  }

  // ---- PawnIslands ------------------------------------------------------------------

  /** File f starts a run of files that hold pawns. */
  predicate StartsIsland(cs: seq<nat>, f: int)
    requires 0 <= f < |cs|
  {
    cs[f] > 0 && (f == 0 || cs[f - 1] == 0)
  }

  /** The islands that start among the first n files. */
  function IslandsBelow(cs: seq<nat>, n: int): nat
    requires 0 <= n <= |cs|
  {
    if n == 0 then 0 else IslandsBelow(cs, n - 1) + (if StartsIsland(cs, n - 1) then 1 else 0)
  }

  function Islands(cs: seq<nat>): nat
  {
    IslandsBelow(cs, |cs|)
  }

  /**
   * PawnStruct.PawnIslands: on a non-empty file, skip to the end of its run and count one
   * island; the loop's own increment then passes over the empty file that ended the run.
   */
  method CountPawnIslands(pawnsArr: array<nat>) returns (r: real)
    ensures r == Islands(pawnsArr[..]) as real * PawnIslandPunishment
  {
    ghost var cs := pawnsArr[..];
    var pawnsIslands := 0;
    var i := 0;
    while i < pawnsArr.Length
      invariant 0 <= i <= pawnsArr.Length + 1
      invariant 0 < i <= pawnsArr.Length ==> cs[i - 1] == 0
      invariant pawnsIslands == IslandsBelow(cs, if i <= pawnsArr.Length then i else pawnsArr.Length)
    {
      if pawnsArr[i] > 0 {
        ghost var start := i;
        assert StartsIsland(cs, start);
        while i < pawnsArr.Length && pawnsArr[i] > 0
          invariant start <= i <= pawnsArr.Length
          invariant forall f :: start <= f < i ==> cs[f] > 0
          invariant IslandsBelow(cs, i) == IslandsBelow(cs, start) + (if i > start then 1 else 0)
        {
          assert !StartsIsland(cs, i) || i == start;
          i := i + 1;
        }
        pawnsIslands := pawnsIslands + 1;
      }
      if i < pawnsArr.Length {
        assert !StartsIsland(cs, i);
      }
      i := i + 1;
    }
    r := pawnsIslands as real * PawnIslandPunishment;
  }

  /** Islands are separated by empty files, so n files hold at most (n + 1) / 2 of them. */
  lemma {:induction false} IslandsBound(cs: seq<nat>, n: int)
    requires 0 <= n <= |cs|
    ensures IslandsBelow(cs, n) <= (n + 1) / 2
  {
    if n >= 2 {
      IslandsBound(cs, n - 1);
      IslandsBound(cs, n - 2);
    }
  }

  /** Eight files hold at most four islands. */
  lemma AtMostFourIslands(cs: seq<nat>)
    requires |cs| == 8
    ensures Islands(cs) <= 4
  {
    IslandsBound(cs, 8);
  }

  // ---- BackwardPawns ----------------------------------------------------------------

  /**
   * A pawn on square s that the backward test accepts as support for p: a friendly one
   * (any colour when anyColour holds) that stands level with p or behind it.
   */
  predicate Supports(b: Board, p: Piece, s: Square, anyColour: bool)
  {
    var q := GetPieceAtCoordinate(b, s);
    q.Some? && q.value.kind == Kind.Pawn && (anyColour || q.value.color == p.color)
    && (p.position - s) * Direction(p.color) >= -1
  }

  /** Some square of the given file supports p. */
  predicate FileSupports(b: Board, p: Piece, file: int, anyColour: bool)
  {
    exists s: Square :: s % 8 == file && Supports(b, p, s, anyColour)
  }

  /** One of the neighbour-file scans of BackwardPawns: squares file, file + 8, ... below 64. */
  method ScanFile(b: Board, p: Piece, file: int, anyColour: bool) returns (found: bool)
    requires 0 <= file < 8
    ensures found == FileSupports(b, p, file, anyColour)
  {
    found := false;
    var i := file;
    while i < 64
      invariant file <= i && i % 8 == file
      invariant found <==> exists s: Square :: s % 8 == file && s < i && Supports(b, p, s, anyColour)
      decreases 64 - i
    {
      forall s: Square | s % 8 == file && s < i + 8
        ensures s < i || s == i
      {
        SameFileApart(s, i);
      }
      var pieceChecked := GetPieceAtCoordinate(b, i);
      if pieceChecked.Some? && pieceChecked.value.kind == Kind.Pawn
         && (anyColour || pieceChecked.value.color == p.color)
      {
        var dif := (p.position - i) * Direction(p.color);
        if dif >= -1 {
          found := true;
        }
      }
      assert found <==> (exists s: Square :: s % 8 == file && s < i && Supports(b, p, s, anyColour))
                        || Supports(b, p, i, anyColour);
      i := i + 8;
    }
  }

  /**
   * The neighbour test of BackwardPawns: an inner file looks at both neighbours for a
   * friendly pawn, file 0 at file 1, and file 7 at file 6 for a pawn of either colour.
   */
  predicate IsBackward(b: Board, p: Piece)
  {
    var col := p.position % 8;
    if col == 0 then !FileSupports(b, p, 1, false)
    else if col == 7 then !FileSupports(b, p, 6, true)
    else !FileSupports(b, p, col + 1, false) && !FileSupports(b, p, col - 1, false)
  }

  /**
   * The squares the open-file scan visits: from p's own square forwards in steps of 8 while
   * the index stays strictly between 0 and 64 (so nothing when p stands on square 0).
   */
  predicate OnOpenFileScan(p: Piece, s: Square)
  {
    0 < p.position && 0 < s && s % 8 == p.position % 8
    && (if p.color == White then s <= p.position else s >= p.position)
  }

  /** Whether the scan, now at index i, has already passed square s. */
  predicate Passed(p: Piece, s: int, i: int)
  {
    if p.color == White then s > i else s < i
  }

  predicate EnemyPawnOn(b: Board, p: Piece, s: Square)
  {
    var q := GetPieceAtCoordinate(b, s);
    q.Some? && q.value.kind == Kind.Pawn && q.value.color != p.color
  }

  /** No enemy pawn on the squares the open-file scan visits. */
  predicate IsOpenFile(b: Board, p: Piece)
  {
    !exists s: Square :: OnOpenFileScan(p, s) && EnemyPawnOn(b, p, s)
  }

  /** The open-file scan of BackwardPawns. */
  method ScanOpenFile(b: Board, p: Piece) returns (isOpenFile: bool)
    ensures isOpenFile == IsOpenFile(b, p)
  {
    isOpenFile := true;
    var d := Direction(p.color);
    var step := 8 * d;
    assert step == if p.color == White then -8 else 8;
    var i := p.position;
    while i < 64 && i > 0
      invariant i % 8 == p.position % 8
      invariant if p.color == White then i <= p.position else i >= p.position
      invariant 0 < p.position || i == 0
      invariant -8 < i < 72
      invariant isOpenFile <==>
                  !exists s: Square :: OnOpenFileScan(p, s) && Passed(p, s, i) && EnemyPawnOn(b, p, s)
      decreases if d == 1 then 64 - i else i
    {
      forall s: Square | OnOpenFileScan(p, s)
        ensures Passed(p, s, i + step) <==> Passed(p, s, i) || s == i
      {
        SameFileApart(s, i);
      }
      var pieceChecked := GetPieceAtCoordinate(b, i);
      if pieceChecked.Some? && pieceChecked.value.kind == Kind.Pawn && pieceChecked.value.color != p.color {
        isOpenFile := false;
      }
      assert OnOpenFileScan(p, i);
      assert isOpenFile <==>
               !((exists s: Square :: OnOpenFileScan(p, s) && Passed(p, s, i) && EnemyPawnOn(b, p, s))
                 || EnemyPawnOn(b, p, i));
      assert (i + step) % 8 == i % 8;
      i := i + step;
    }
  }

  /** The pawns in the list that the neighbour test finds backward. */
  function BackwardCount(b: Board, ps: seq<Piece>): nat
  {
    if ps == [] then 0
    else
      var p := ps[|ps| - 1];
      BackwardCount(b, ps[..|ps| - 1]) + (if p.kind == Kind.Pawn && IsBackward(b, p) then 1 else 0)
  }

  /** The backward pawns whose file is also open. */
  function OpenBackwardCount(b: Board, ps: seq<Piece>): nat
  {
    if ps == [] then 0
    else
      var p := ps[|ps| - 1];
      OpenBackwardCount(b, ps[..|ps| - 1])
      + (if p.kind == Kind.Pawn && IsBackward(b, p) && IsOpenFile(b, p) then 1 else 0)
  }

  function BackwardValue(b: Board, ps: seq<Piece>): real
  {
    BackwardCount(b, ps) as real * BackwardPawnPunishment
    + OpenBackwardCount(b, ps) as real * OpenFileBackwardPawnPunishment
  }

  /** PawnStruct.BackwardPawns: the two counters, then their weighted sum. */
  method BackwardPawns(b: Board, ps: seq<Piece>) returns (r: real)
    ensures r == BackwardValue(b, ps)
  {
    var backwardCounter, openFileCounter := 0, 0;
    for k := 0 to |ps|
      invariant backwardCounter == BackwardCount(b, ps[..k])
      invariant openFileCounter == OpenBackwardCount(b, ps[..k])
    {
      assert ps[..k + 1][..k] == ps[..k];
      var piece := ps[k];
      var isBackward := true;
      if piece.kind == Kind.Pawn {
        var pawnCol := piece.position % 8;
        if pawnCol != 7 && pawnCol != 0 {
          var right := ScanFile(b, piece, pawnCol + 1, false);
          var left := ScanFile(b, piece, pawnCol - 1, false);
          isBackward := !right && !left;
        }
        if pawnCol == 0 {
          var right := ScanFile(b, piece, pawnCol + 1, false);
          isBackward := !right;
        }
        if pawnCol == 7 {
          var left := ScanFile(b, piece, pawnCol - 1, true);
          isBackward := !left;
        }
        assert isBackward == IsBackward(b, piece);
        var isOpenFile := ScanOpenFile(b, piece);
        if isBackward && isOpenFile {
          backwardCounter := backwardCounter + 1;
          openFileCounter := openFileCounter + 1;
        } else if isBackward {
          backwardCounter := backwardCounter + 1;
        }
      }
    }
    assert ps[..|ps|] == ps;
    r := backwardCounter as real * BackwardPawnPunishment + openFileCounter as real * OpenFileBackwardPawnPunishment;
  }

  /** Open-file backward pawns are backward pawns, and backward pawns are pawns. */
  lemma {:induction false} BackwardCountsOrdered(b: Board, ps: seq<Piece>)
    ensures OpenBackwardCount(b, ps) <= BackwardCount(b, ps) <= KindCount(ps, Kind.Pawn)
  {
    if ps != [] {
      BackwardCountsOrdered(b, ps[..|ps| - 1]);
    }
  }

  /** On file 7 the scan of file 6 has no colour test, so an enemy pawn there can clear backward status too. */
  lemma File7SupportOfAnyColour(b: Board, p: Piece, s: Square)
    requires p.position % 8 == 7 && s % 8 == 6
    requires GetPieceAtCoordinate(b, s).Some? && GetPieceAtCoordinate(b, s).value.kind == Kind.Pawn
    requires (p.position - s) * Direction(p.color) >= -1
    ensures !IsBackward(b, p)
  {
    assert Supports(b, p, s, true);
  }

  // ---- pawnStruct -------------------------------------------------------------------

  /** PawnStruct.pawnStruct on the player's board and piece list. */
  function PawnStructValue(b: Board, ps: seq<Piece>): real
  {
    var cs := FileCounts(ps);
    Doubled(cs) as real * DoublePawnPunishment + Isolated(cs) as real * IsolatedPawnPunishment
    + Islands(cs) as real * PawnIslandPunishment + BackwardValue(b, ps)
  }

  /** PawnStruct.pawnStruct: the file counts, then the four terms. */
  method PawnStruct(b: Board, ps: seq<Piece>) returns (r: real)
    ensures r == PawnStructValue(b, ps)
  {
    var pawnsArr := GetPawnsPlacesArray(ps);
    var doubled := CalculateDoublePawns(pawnsArr);
    var isolated := CalculateIsolatedPawns(pawnsArr);
    var islands := CountPawnIslands(pawnsArr);
    var backward := BackwardPawns(b, ps);
    r := doubled + isolated + islands + backward;
  }

  /** Every term is a count times a punishment, so the pawn structure never scores above 0. */
  lemma PawnStructNeverPositive(b: Board, ps: seq<Piece>)
    ensures PawnStructValue(b, ps) <= 0.0
  {
  }
}
