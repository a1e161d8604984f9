/** Row-major concatenation of nested sequences (JS arrays of arrays walked row by row). */
module Seqs {
  import opened JsNumbers

  /** The rows of `rows` laid end to end, in order. */
  function Flatten<T>(rows: seq<seq<T>>): seq<T>
  {
    if rows == [] then [] else Flatten(rows[..|rows| - 1]) + rows[|rows| - 1]
  }

  lemma FlattenSnoc<T>(rows: seq<seq<T>>, row: seq<T>)
    ensures Flatten(rows + [row]) == Flatten(rows) + row
  {
    assert (rows + [row])[..|rows|] == rows;
  }

  /** An element is in the flattening exactly when it is in one of the rows. */
  lemma {:induction false} FlattenMember<T>(rows: seq<seq<T>>, v: T)
    ensures v in Flatten(rows) <==> exists y :: 0 <= y < |rows| && v in rows[y]
  {
    if rows != [] {
      var init := rows[..|rows| - 1];
      FlattenMember(init, v);
      assert forall y :: 0 <= y < |init| ==> init[y] == rows[y];
    }
  }

  /** Rows of equal length `w` flatten to |rows| * w elements. */
  lemma {:induction false} FlattenUniformLength<T>(rows: seq<seq<T>>, w: nat)
    requires forall r :: 0 <= r < |rows| ==> |rows[r]| == w
    ensures |Flatten(rows)| == |rows| * w
  {
    if rows != [] {
      var n := |rows| - 1;
      var init := rows[..n];
      assert forall r :: 0 <= r < n ==> init[r] == rows[r];
      FlattenUniformLength(init, w);
      assert |rows| * w == n * w + w;
    }
  }

  /** Cell (y, x) of a layout with rows of equal length `w` sits at offset y * w + x. */
  lemma {:induction false} FlattenUniformCell<T>(rows: seq<seq<T>>, w: nat, y: nat, x: nat)
    requires forall r :: 0 <= r < |rows| ==> |rows[r]| == w
    requires y < |rows| && x < w
    ensures y * w + x < |Flatten(rows)| && Flatten(rows)[y * w + x] == rows[y][x]
  {
    var n := |rows| - 1;
    var init := rows[..n];
    assert forall r :: 0 <= r < n ==> init[r] == rows[r];
    FlattenUniformLength(init, w);
    assert Flatten(rows) == Flatten(init) + rows[n];
    if y < n {
      FlattenUniformCell(init, w, y, x);
    } else {
      assert y * w == |Flatten(init)|;
    }
  }

  /** Offset i of a layout with rows of equal length `w` is cell (i / w, i % w). */
  lemma FlattenUniformAt<T>(rows: seq<seq<T>>, w: nat, i: nat)
    requires forall r :: 0 <= r < |rows| ==> |rows[r]| == w
    requires i < |Flatten(rows)|
    ensures w > 0 && i / w < |rows| && i % w < w
    ensures Flatten(rows)[i] == rows[i / w][i % w]
  {
    FlattenUniformLength(rows, w);
    RowMajorIndex(i, w, |rows|);
    FlattenUniformCell(rows, w, i / w, i % w);
  }

  /** A row-major offset below height * width splits into a row below height and a column below width. */
  lemma RowMajorIndex(i: nat, width: nat, height: nat)
    requires i < height * width
    ensures width > 0 && i / width < height && i % width < width
    ensures i == (i / width) * width + i % width
  {
    if width > 0 && i / width >= height {
      MulMonotone(height, i / width, width);
    }
  }

  lemma MulMonotone(a: nat, b: nat, c: nat)
    requires a <= b
    ensures a * c <= b * c
  {
    if a < b && c > 0 {
      assert b * c == a * c + (b - a) * c;
      MulAtLeast(b - a, c);
    }
  }

  /** Extending a prefix by one element. */
  lemma PrefixSnoc<T>(s: seq<T>, n: nat)
    requires n < |s|
    ensures s[..n + 1] == s[..n] + [s[n]]
  {
  }

  /** Distinct offsets of a row-major layout lie in distinct cells. */
  lemma DistinctOffsetsDistinctCells(i: nat, j: nat, w: nat)
    requires w > 0 && i != j
    ensures i % w != j % w || i / w != j / w
  {
    assert i == (i / w) * w + i % w;
    assert j == (j / w) * w + j % w;
  }

  /** The cell (column, row) of offset i in a row-major layout of width w. */
  lemma CellOf(i: nat, w: nat) returns (x: nat, y: nat)
    requires w > 0
    ensures x == i % w && y == i / w
  {
    x, y := i % w, i / w;
  }

  /** Appending one element after a concatenation. */
  lemma SnocAssoc<T>(a: seq<T>, b: seq<T>, v: T)
    ensures (a + b) + [v] == a + (b + [v])
  {
  }

  lemma ConcatAssoc<T>(a: seq<T>, b: seq<T>, c: seq<T>)
    ensures (a + b) + c == a + (b + c)
  {
  }
}
