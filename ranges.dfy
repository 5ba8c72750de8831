/** The `range` loops of range.go: the visit order over a slice, the nested range over a
    2D slice, and the first-match search that stops at `break`. */
module Ranges {
  import opened Spec

  /** `for i, element := range s`: the (index, value) pairs in the order the loop sees
      them, indices 0 to len-1 in increasing order. */
  method RangeVisit<T>(s: seq<T>) returns (visited: seq<(nat, T)>)
    ensures |visited| == |s|
    ensures forall k :: 0 <= k < |s| ==> visited[k] == (k, s[k])
  {
    visited := [];
    for i := 0 to |s|
      invariant |visited| == i
      invariant forall k :: 0 <= k < i ==> visited[k] == (k, s[k])
    {
      visited := visited + [(i, s[i])];
    }
  }

  /** The cells of a 2D slice in row-major order, as (row, column, value). */
  function Cells(matrix: seq<seq<int>>): seq<(nat, nat, int)>
  {
    if matrix == [] then []
    else Cells(matrix[..|matrix| - 1]) + RowCells(|matrix| - 1, matrix[|matrix| - 1])
  }

  /** The cells of one row, as (row, column, value). */
  function RowCells(rowIndex: nat, row: seq<int>): (r: seq<(nat, nat, int)>)
    ensures |r| == |row|
    ensures forall k :: 0 <= k < |row| ==> r[k] == (rowIndex, k, row[k])
  {
    seq(|row|, k requires 0 <= k < |row| => (rowIndex, k, row[k]))
  }

  /** `for rowIndex, row := range matrix { for colIndex, value := range row { ... } }`: every
      cell, exactly once each, row by row and within a row by column. */
  method MatrixVisit(matrix: seq<seq<int>>) returns (visited: seq<(nat, nat, int)>)
    ensures visited == Cells(matrix)
  {
    visited := [];
    for rowIndex := 0 to |matrix|
      invariant visited == Cells(matrix[..rowIndex])
    {
      var row := matrix[rowIndex];
      var done := visited;
      for colIndex := 0 to |row|
        invariant visited == done + RowCells(rowIndex, row[..colIndex])
      {
        assert RowCells(rowIndex, row[..colIndex + 1]) == RowCells(rowIndex, row[..colIndex]) + [(rowIndex, colIndex, row[colIndex])];
        visited := visited + [(rowIndex, colIndex, row[colIndex])];
      }
      assert row[..|row|] == row;
      assert matrix[..rowIndex + 1][..rowIndex] == matrix[..rowIndex];
    }
    assert matrix[..|matrix|] == matrix;
  }

  /** Row-major order visits `matrix[i][j]` at position (sum of the earlier row lengths) + j. */
  lemma {:induction false} CellsAt(matrix: seq<seq<int>>, i: nat, j: nat)
    requires i < |matrix| && j < |matrix[i]|
    ensures |Cells(matrix[..i])| + j < |Cells(matrix)|
    ensures Cells(matrix)[|Cells(matrix[..i])| + j] == (i, j, matrix[i][j])
  {
    var last := |matrix| - 1;
    var init := matrix[..last];
    assert Cells(matrix) == Cells(init) + RowCells(last, matrix[last]);
    if i == last {
      assert matrix[..i] == init;
    } else {
      assert init[..i] == matrix[..i];
      CellsAt(init, i, j);
    }
  }

  /** The visited cells are exactly the cells of the matrix, each with its own value. */
  lemma {:induction false} CellsMembers(matrix: seq<seq<int>>)
    ensures forall i: nat, j: nat, v: int :: (i, j, v) in Cells(matrix) <==>
      i < |matrix| && j < |matrix[i]| && v == matrix[i][j]
  {
    if matrix != [] {
      var last := |matrix| - 1;
      var init := matrix[..last];
      CellsMembers(init);
      assert Cells(matrix) == Cells(init) + RowCells(last, matrix[last]);
      forall i: nat, j: nat | i < |matrix| && j < |matrix[i]|
        ensures (i, j, matrix[i][j]) in Cells(matrix)
      {
        CellsAt(matrix, i, j);
      }
    }
  }

  /** range.go's 3 by 3 matrix is visited as (0,0,1), (0,1,2), ... , (2,2,9). */
  method MatrixDemo() returns (visited: seq<(nat, nat, int)>)
    ensures visited == [(0, 0, 1), (0, 1, 2), (0, 2, 3), (1, 0, 4), (1, 1, 5), (1, 2, 6),
                        (2, 0, 7), (2, 1, 8), (2, 2, 9)]
  {
    var matrix := [[1, 2, 3], [4, 5, 6], [7, 8, 9]];
    visited := MatrixVisit(matrix);
    ThreeRows(matrix);
  }

  /** The cells of the 3 by 3 matrix, one row at a time. */
  lemma ThreeRows(matrix: seq<seq<int>>)
    requires matrix == [[1, 2, 3], [4, 5, 6], [7, 8, 9]]
    ensures Cells(matrix) == [(0, 0, 1), (0, 1, 2), (0, 2, 3), (1, 0, 4), (1, 1, 5), (1, 2, 6),
                              (2, 0, 7), (2, 1, 8), (2, 2, 9)]
  {
    var r0, r1, r2 := RowCells(0, [1, 2, 3]), RowCells(1, [4, 5, 6]), RowCells(2, [7, 8, 9]);
    assert r0 == [(0, 0, 1), (0, 1, 2), (0, 2, 3)];
    assert r1 == [(1, 0, 4), (1, 1, 5), (1, 2, 6)];
    assert r2 == [(2, 0, 7), (2, 1, 8), (2, 2, 9)];
    assert matrix[..0] == [];
    assert Cells(matrix[..1]) == r0 by {
      assert matrix[..1][..0] == [];
    }
    assert Cells(matrix[..2]) == r0 + r1 by {
      assert matrix[..2][..1] == matrix[..1];
    }
    assert Cells(matrix) == r0 + r1 + r2 by {
      assert matrix[..2] == matrix[..|matrix| - 1];
    }
  }

  /** `for index, value := range numbers { if value == target { ...; break } }`: the index of
      the first element equal to the target, or nothing when none is. */
  method FindFirst(numbers: seq<int>, target: int) returns (found: Option<nat>)
    ensures found.Some? ==> found.value < |numbers| && numbers[found.value] == target
    ensures found.Some? ==> forall k :: 0 <= k < found.value ==> numbers[k] != target
    ensures found.None? <==> target !in numbers
  {
    found := None;
    for index := 0 to |numbers|
      invariant forall k :: 0 <= k < index ==> numbers[k] != target
    {
      if numbers[index] == target {
        found := Some(index);
        break;
      }
    }
  }

  /** range.go finds 30 at position 2 of [10 20 30 40 50]. */
  method FindDemo() returns (found: Option<nat>)
    ensures found == Some(2)
  {
    var numbers := [10, 20, 30, 40, 50];
    found := FindFirst(numbers, 30);
    assert numbers[2] == 30;
  }

  /** The recipe loop numbers steps from 1: step k is shown as k + 1. */
  method RecipeSteps(steps: seq<string>) returns (lines: seq<(nat, string)>)
    ensures |lines| == |steps|
    ensures forall k :: 0 <= k < |steps| ==> lines[k] == (k + 1, steps[k])
  {
    lines := [];
    for stepNumber := 0 to |steps|
      invariant |lines| == stepNumber
      invariant forall k :: 0 <= k < stepNumber ==> lines[k] == (k + 1, steps[k])
    {
      lines := lines + [(stepNumber + 1, steps[stepNumber])];
    }
  }
}
