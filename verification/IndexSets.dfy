/** Sizes of sets of indices and of index pairs, shared by the results that count them. */
module IndexSets {

  /** A set that at most x joins. */
  lemma {:induction false} Grows(before: set<nat>, after: set<nat>, x: nat, joins: bool)
    requires x !in before
    requires forall j :: j in after <==> j in before || (joins && j == x)
    ensures |after| == |before| + if joins then 1 else 0
  {
    if joins {
      assert after == before + {x};
    } else {
      assert after == before;
    }
  }

  ghost function Column(s: set<nat>, b: nat): set<(nat, nat)> {
    set a | a in s :: (a, b)
  }

  lemma {:induction false} ColumnSize(s: set<nat>, b: nat)
    ensures |Column(s, b)| == |s|
    decreases |s|
  {
    if s != {} {
      var a :| a in s;
      ColumnSize(s - {a}, b);
      assert Column(s, b) == Column(s - {a}, b) + {(a, b)};
    }
  }

  ghost function Grid(rows: set<nat>, cols: set<nat>): set<(nat, nat)> {
    set i, j | i in rows && j in cols :: (i, j)
  }

  lemma {:induction false} GridSize(rows: set<nat>, cols: set<nat>)
    ensures |Grid(rows, cols)| == |rows| * |cols|
    decreases |cols|
  {
    if cols == {} {
      assert Grid(rows, cols) == {};
    } else {
      var j :| j in cols;
      GridSize(rows, cols - {j});
      ColumnSize(rows, j);
      GridSplit(rows, cols, j);
      assert |rows| * |cols| == |rows| * |cols - {j}| + |rows|;
    }
  }

  lemma {:induction false} GridSplit(rows: set<nat>, cols: set<nat>, j: nat)
    requires j in cols
    ensures |Grid(rows, cols)| == |Grid(rows, cols - {j})| + |Column(rows, j)|
  {
    assert Grid(rows, cols) == Grid(rows, cols - {j}) + Column(rows, j);
    assert Grid(rows, cols - {j}) !! Column(rows, j);
  }
}
