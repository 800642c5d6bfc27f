/** The coordinate matrix shared by the evaluation terms (logic/player/AI/EvaluationAssistants.java). */
module EvaluationAssistants {
  /** EvaluationAssistants.size: the number of squares. */
  const Size: int := 64

  /** The square on row i and column j of the coordinate matrix. */
  function Coordinate(i: int, j: int): int
  {
    i * 8 + j
  }

  /** EvaluationAssistants.boardInit: fills an 8 x 8 matrix row by row with the square indices. */
  method BoardInit() returns (matrix: array2<int>)
    ensures fresh(matrix)
    ensures matrix.Length0 == 8 && matrix.Length1 == 8
    ensures forall i, j :: 0 <= i < 8 && 0 <= j < 8 ==> matrix[i, j] == Coordinate(i, j)
  {
    matrix := new int[8, 8];
    for i := 0 to 8
      invariant forall i', j :: 0 <= i' < i && 0 <= j < 8 ==> matrix[i', j] == Coordinate(i', j)
    {
      for j := 0 to 8
        invariant forall i', j' :: 0 <= i' < i && 0 <= j' < 8 ==> matrix[i', j'] == Coordinate(i', j')
        invariant forall j' :: 0 <= j' < j ==> matrix[i, j'] == Coordinate(i, j')
      {
        matrix[i, j] := i * 8 + j;
      }
    }
  }

  /**
   * Every matrix entry is a square whose rank is its row and whose file is its column,
   * and every square is the entry of exactly one cell.
   */
  lemma CoordinatesExact()
    ensures forall i, j :: 0 <= i < 8 && 0 <= j < 8 ==>
              0 <= Coordinate(i, j) < Size && Coordinate(i, j) / 8 == i && Coordinate(i, j) % 8 == j
    ensures forall s :: 0 <= s < Size ==> Coordinate(s / 8, s % 8) == s && 0 <= s / 8 < 8
    ensures forall i, j, i', j' ::
              (0 <= i < 8 && 0 <= j < 8 && 0 <= i' < 8 && 0 <= j' < 8 && Coordinate(i, j) == Coordinate(i', j'))
              ==> i == i' && j == j'
  {
  }
}
