/**
 * Splitting a training or test matrix into features and target: the target is
 * the last column, the features are every other column (`a[:, :-1]`, `a[:, -1]`).
 */
module ColumnSplit {
  import opened Wrappers

  /** A dense numeric 2-D array with `width` columns. */
  datatype Matrix = Matrix(width: nat, rows: seq<seq<real>>)

  /** Every row has exactly `width` entries, as in a NumPy 2-D array. */
  predicate WellFormed(m: Matrix)
  {
    forall i :: 0 <= i < |m.rows| ==> |m.rows[i]| == m.width
  }

  datatype Split = Split(features: seq<seq<real>>, target: seq<real>)

  /**
   * Slices off the last column. Indexing column -1 of an array with no
   * columns raises, which is the `None` case.
   */
  function SplitLastColumn(m: Matrix): (r: Option<Split>)
    requires WellFormed(m)
    ensures r.None? <==> m.width == 0
    ensures r.Some? ==>
              && |r.value.features| == |m.rows|
              && |r.value.target| == |m.rows|
              && forall i :: 0 <= i < |m.rows| ==> |r.value.features[i]| == m.width - 1
  {
    if m.width == 0 then None
    else
      Some(Split(seq(|m.rows|, i requires 0 <= i < |m.rows| => m.rows[i][..m.width - 1]),
                 seq(|m.rows|, i requires 0 <= i < |m.rows| => m.rows[i][m.width - 1])))
  }

  /** Puts a target column back after the feature columns (`np.column_stack([X, y])`). */
  function ColumnStack(xs: seq<seq<real>>, y: seq<real>): (rows: seq<seq<real>>)
    requires |xs| == |y|
    ensures |rows| == |xs|
    ensures forall i :: 0 <= i < |xs| ==> |rows[i]| == |xs[i]| + 1 && rows[i][..|xs[i]|] == xs[i] && rows[i][|xs[i]|] == y[i]
  {
    seq(|xs|, i requires 0 <= i < |xs| => xs[i] + [y[i]])
  }

  /** Splitting then stacking gives back the original rows: no entry is lost or moved. */
  lemma SplitThenStack(m: Matrix)
    requires WellFormed(m) && m.width > 0
    ensures SplitLastColumn(m).Some?
    ensures ColumnStack(SplitLastColumn(m).value.features, SplitLastColumn(m).value.target) == m.rows
  {
    var s := SplitLastColumn(m).value;
    var rows := ColumnStack(s.features, s.target);
    forall i | 0 <= i < |m.rows|
      ensures rows[i] == m.rows[i]
    {
      assert m.rows[i] == m.rows[i][..m.width - 1] + [m.rows[i][m.width - 1]];
    }
  }

  /**
   * Stacking `width` feature columns and a target, then splitting, recovers
   * exactly those features and that target (the test fixtures stack 7
   * feature columns and a score column).
   */
  lemma StackThenSplit(xs: seq<seq<real>>, y: seq<real>, width: nat)
    requires |xs| == |y|
    requires forall i :: 0 <= i < |xs| ==> |xs[i]| == width
    ensures WellFormed(Matrix(width + 1, ColumnStack(xs, y)))
    ensures SplitLastColumn(Matrix(width + 1, ColumnStack(xs, y))) == Some(Split(xs, y))
  {
    var m := Matrix(width + 1, ColumnStack(xs, y));
    var s := SplitLastColumn(m).value;
    forall i | 0 <= i < |xs|
      ensures s.features[i] == xs[i] && s.target[i] == y[i]
    {
      assert m.rows[i] == xs[i] + [y[i]];
    }
    assert s.features == xs && s.target == y;
  }
}
