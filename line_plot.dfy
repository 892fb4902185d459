/** `generate_heatmap_plot`: the line plot beside the scatter plot, drawn
    from the data rows behind the selected points. Several rows collapse to
    their column-wise mean or standard deviation; values are reals. */
module LinePlot {
  import opened Outcomes
  import opened Indexing

  /** `display_option`: the two values the mean/deviation toggle offers. */
  datatype DisplayOption = Mean | Sigma

  /** What `selected_images` holds: a list of rows (from a multi-point
      selection, or the empty list), or one unwrapped row (from a click). */
  datatype Selected<X> = Rows(rows: seq<seq<X>>) | Row(row: seq<X>)

  /** The y values of the line: the values themselves, or the elementwise
      square roots of the given values (`np.std` is the root of the
      population variance). */
  datatype Series = Values(ys: seq<real>) | SquareRoots(radicands: seq<real>)

  /** The figure: no data trace, or one line `go.Scatter(x=x, y=…)`. */
  datatype Figure = Blank | Line(x: seq<nat>, y: Series)

  /** `len(selected_images)`. */
  function Length<X>(sel: Selected<X>): nat {
    match sel
    case Rows(rows) => |rows|
    case Row(row) => |row|
  }

  /** `np.array(rows).shape[1]` for a non-empty rectangular list of rows. */
  function ColumnCount(rows: seq<seq<real>>): nat {
    if |rows| == 0 then 0 else |rows[0]|
  }

  /** Every row reaches column `j`. */
  ghost predicate HasColumn(rows: seq<seq<real>>, j: nat) {
    forall i :: 0 <= i < |rows| ==> j < |rows[i]|
  }

  /** The sum of column `j` over the rows. */
  function ColumnSum(rows: seq<seq<real>>, j: nat): real
    requires HasColumn(rows, j)
  {
    if |rows| == 0 then 0.0
    else
      var n := |rows| - 1;
      ColumnSum(rows[..n], j) + rows[n][j]
  }

  /** The sum of squared deviations of column `j` from `m`. */
  function SquaredDeviations(rows: seq<seq<real>>, j: nat, m: real): real
    requires HasColumn(rows, j)
  {
    if |rows| == 0 then 0.0
    else
      var n := |rows| - 1;
      SquaredDeviations(rows[..n], j, m) + (rows[n][j] - m) * (rows[n][j] - m)
  }

  /** The arithmetic mean of column `j`. */
  function ColumnMean(rows: seq<seq<real>>, j: nat): real
    requires |rows| > 0 && HasColumn(rows, j)
  {
    ColumnSum(rows, j) / (|rows| as real)
  }

  /** The population variance of column `j` (`np.std` with `ddof=0`, squared). */
  function ColumnVariance(rows: seq<seq<real>>, j: nat): real
    requires |rows| > 0 && HasColumn(rows, j)
  {
    SquaredDeviations(rows, j, ColumnMean(rows, j)) / (|rows| as real)
  }

  /** In a non-empty rectangular list every column below the first row's
      width is reached by every row. */
  lemma ColumnsReached(rows: seq<seq<real>>)
    requires |rows| > 0 && Rectangular(rows)
    ensures forall j :: 0 <= j < ColumnCount(rows) ==> HasColumn(rows, j)
  {
  }

  /** `np.mean(rows, axis=0)`. */
  function ColumnMeans(rows: seq<seq<real>>): (m: seq<real>)
    requires |rows| > 0 && Rectangular(rows)
    ensures |m| == ColumnCount(rows)
  {
    ColumnsReached(rows);
    seq(ColumnCount(rows), j requires 0 <= j < ColumnCount(rows) => ColumnMean(rows, j))
  }

  /** The squares of `np.std(rows, axis=0)`. */
  function ColumnVariances(rows: seq<seq<real>>): (v: seq<real>)
    requires |rows| > 0 && Rectangular(rows)
    ensures |v| == ColumnCount(rows)
  {
    ColumnsReached(rows);
    seq(ColumnCount(rows), j requires 0 <= j < ColumnCount(rows) => ColumnVariance(rows, j))
  }

  /** `generate_heatmap_plot` as written. An empty selection gives a blank
      figure. Otherwise `x = np.arange(shape[1])` runs first: a single
      unwrapped row is a one-dimensional array, which has no `shape[1]`, so
      it raises before the `ndim == 1` branch is reached. A list of rows is
      drawn as its column-wise mean or standard deviation over the column
      positions. Layout and margins are not modelled. */
  function HeatmapPlot(sel: Selected<real>, option: DisplayOption): (r: Result<Figure>)
    requires sel.Rows? ==> Rectangular(sel.rows)
    ensures r == Ok(Blank) <==> Length(sel) == 0
    ensures r == Err(IndexError) <==> sel.Row? && |sel.row| > 0
    ensures r.Ok? && r.value.Line? ==>
      && sel.Rows? && |sel.rows| > 0
      && |r.value.x| == ColumnCount(sel.rows)
      && (forall j :: 0 <= j < |r.value.x| ==> r.value.x[j] == j)
  {
    if Length(sel) == 0 then Ok(Blank)
    else
      match sel
      case Row(_) => Err(IndexError)
      case Rows(rows) =>
        var x := Range(ColumnCount(rows));
        match option
        case Mean => Ok(Line(x, Values(ColumnMeans(rows))))
        case Sigma => Ok(Line(x, SquareRoots(ColumnVariances(rows))))
  }

  /** `generate_heatmap_plot` as evidently intended: the `ndim == 1` branch
      is reached, so a single row is drawn as it is, over its positions. */
  function IntendedHeatmapPlot(sel: Selected<real>, option: DisplayOption): (r: Result<Figure>)
    requires sel.Rows? ==> Rectangular(sel.rows)
    ensures r.Ok?
    ensures r == Ok(Blank) <==> Length(sel) == 0
  {
    match sel
    case Row(row) => if |row| == 0 then Ok(Blank) else Ok(Line(Range(|row|), Values(row)))
    case Rows(_) => HeatmapPlot(sel, option)
  }

  /** The column sums of rows within `[lo, hi]` lie within `|rows|` times
      those bounds. */
  lemma {:induction false} ColumnSumBounds(rows: seq<seq<real>>, j: nat, lo: real, hi: real)
    requires HasColumn(rows, j)
    requires forall i :: 0 <= i < |rows| ==> lo <= rows[i][j] <= hi
    ensures (|rows| as real) * lo <= ColumnSum(rows, j) <= (|rows| as real) * hi
  {
    if |rows| > 0 {
      var n := |rows| - 1;
      ColumnSumBounds(rows[..n], j, lo, hi);
      assert ColumnSum(rows, j) == ColumnSum(rows[..n], j) + rows[n][j];
      assert (|rows| as real) * lo == (n as real) * lo + lo;
      assert (|rows| as real) * hi == (n as real) * hi + hi;
    }
  }

  /** Each value of the mean line lies between the smallest and the largest
      value of its column. */
  lemma MeanWithinColumnBounds(rows: seq<seq<real>>, j: nat, lo: real, hi: real)
    requires |rows| > 0 && HasColumn(rows, j)
    requires forall i :: 0 <= i < |rows| ==> lo <= rows[i][j] <= hi
    ensures lo <= ColumnMean(rows, j) <= hi
  {
    ColumnSumBounds(rows, j, lo, hi);
    var k := |rows| as real;
    assert ColumnSum(rows, j) / k >= lo by {
      assert ColumnSum(rows, j) >= k * lo;
    }
    assert ColumnSum(rows, j) / k <= hi by {
      assert ColumnSum(rows, j) <= k * hi;
    }
  }

  /** Sums of squares are never negative. */
  lemma {:induction false} SquaredDeviationsNonNegative(rows: seq<seq<real>>, j: nat, m: real)
    requires HasColumn(rows, j)
    ensures SquaredDeviations(rows, j, m) >= 0.0
  {
    if |rows| > 0 {
      var n := |rows| - 1;
      SquaredDeviationsNonNegative(rows[..n], j, m);
      var d := rows[n][j] - m;
      assert d * d >= 0.0 by {
        if d < 0.0 {
          assert d * d == (-d) * (-d);
        }
      }
    }
  }

  /** The standard-deviation line takes the roots of non-negative values, so
      every point of it is defined. */
  lemma VariancesNonNegative(rows: seq<seq<real>>)
    requires |rows| > 0 && Rectangular(rows)
    ensures forall j :: 0 <= j < |ColumnVariances(rows)| ==> ColumnVariances(rows)[j] >= 0.0
  {
    ColumnsReached(rows);
    forall j | 0 <= j < ColumnCount(rows)
      ensures ColumnVariance(rows, j) >= 0.0
    {
      SquaredDeviationsNonNegative(rows, j, ColumnMean(rows, j));
    }
  }

  /** Copies of one row sum to that many times the row. */
  lemma {:induction false} CopiesSum(rows: seq<seq<real>>, r: seq<real>, j: nat)
    requires forall i :: 0 <= i < |rows| ==> rows[i] == r
    requires j < |r|
    ensures HasColumn(rows, j)
    ensures ColumnSum(rows, j) == (|rows| as real) * r[j]
    ensures SquaredDeviations(rows, j, r[j]) == 0.0
  {
    if |rows| > 0 {
      var n := |rows| - 1;
      CopiesSum(rows[..n], r, j);
    }
  }

  /** Selecting the same row any number of times draws that row as the mean
      and a flat zero line as the deviation; in particular a one-row
      selection is its own mean. */
  lemma CopiesOfOneRow(rows: seq<seq<real>>, r: seq<real>)
    requires |rows| > 0
    requires forall i :: 0 <= i < |rows| ==> rows[i] == r
    ensures Rectangular(rows)
    ensures ColumnMeans(rows) == r
    ensures ColumnVariances(rows) == seq(|r|, _ => 0.0)
  {
    assert ColumnCount(rows) == |r|;
    forall j | 0 <= j < |r|
      ensures ColumnMean(rows, j) == r[j] && ColumnVariance(rows, j) == 0.0
    {
      CopiesSum(rows, r, j);
    }
  }

  /** The mean of `[[1, 1], [3, 3]]` is `[2, 2]`, and its standard deviation
      `[1, 1]` is the root of the variance `[1, 1]`. */
  lemma TwoRowExample()
    ensures Rectangular([[1.0, 1.0], [3.0, 3.0]])
    ensures HeatmapPlot(Rows([[1.0, 1.0], [3.0, 3.0]]), Mean) == Ok(Line([0, 1], Values([2.0, 2.0])))
    ensures HeatmapPlot(Rows([[1.0, 1.0], [3.0, 3.0]]), Sigma) == Ok(Line([0, 1], SquareRoots([1.0, 1.0])))
  {
    var rows: seq<seq<real>> := [[1.0, 1.0], [3.0, 3.0]];
    assert rows[..1] == [[1.0, 1.0]];
    assert rows[..1][..0] == [];
    forall j | 0 <= j < 2
      ensures ColumnMean(rows, j) == 2.0 && ColumnVariance(rows, j) == 1.0
    {
      assert ColumnSum(rows, j) == 4.0;
      assert SquaredDeviations(rows, j, 2.0) == 2.0;
    }
    assert ColumnMeans(rows) == [2.0, 2.0];
    assert ColumnVariances(rows) == [1.0, 1.0];
    assert Range(2) == [0, 1];
  }

  /** A single unwrapped row never reaches a figure as written. */
  lemma SingleRowFails(row: seq<real>, option: DisplayOption)
    requires |row| > 0
    ensures HeatmapPlot(Row(row), option) == Err(IndexError)
  {
  }

  /** As intended, a single row is drawn as the mean of the one-row
      selection holding it would be, whatever the display option. */
  lemma IntendedRowIsOneRowMean(row: seq<real>, option: DisplayOption)
    requires |row| > 0
    ensures Rectangular([row])
    ensures IntendedHeatmapPlot(Row(row), option) == HeatmapPlot(Rows([row]), Mean)
  {
    CopiesOfOneRow([row], row);
  }
}
