/** `update_heatmap`: resolving a box/lasso selection or a click on the
    scatter plot back to data rows through each point's `customdata[0]`, and
    drawing those rows as the line plot. */
module Viewer {
  import opened Outcomes
  import opened Indexing
  import opened Traces
  import opened LinePlot
  import Scatter

  /** A point of a Plotly selection or click event: its `customdata` row. */
  datatype Point = Point(customdata: seq<int>)

  /** The `points` of `selectedData` or `clickData`. */
  datatype Event = Event(points: seq<Point>)

  /** `point["customdata"][0]`. */
  function FirstTag(p: Point): (r: Result<int>)
    ensures r.Ok? <==> |p.customdata| > 0
    ensures r.Ok? ==> r.value == p.customdata[0]
  {
    if |p.customdata| == 0 then Err(IndexError) else Ok(p.customdata[0])
  }

  /** `data[i]` on a Python list: a negative index counts from the end. */
  function PyIndex<X>(data: seq<X>, i: int): (r: Result<X>)
    ensures r.Ok? <==> -|data| <= i < |data|
    ensures 0 <= i < |data| ==> r == Ok(data[i])
    ensures -|data| <= i < 0 ==> r == Ok(data[|data| + i])
  {
    if 0 <= i < |data| then Ok(data[i])
    else if -|data| <= i < 0 then Ok(data[|data| + i])
    else Err(IndexError)
  }

  /** Every point carries a tag. */
  ghost predicate AllTagged(points: seq<Point>) {
    forall k :: 0 <= k < |points| ==> |points[k].customdata| > 0
  }

  /** `[point["customdata"][0] for point in points]`: the tags of the points,
      in the order of the points. */
  function SelectedIndices(points: seq<Point>): (r: Result<seq<int>>)
    ensures r.Ok? <==> AllTagged(points)
    ensures r.Ok? ==> |r.value| == |points| && forall k :: 0 <= k < |points| ==> r.value[k] == points[k].customdata[0]
    ensures r.Err? ==> r.error == IndexError
  {
    if |points| == 0 then Ok([])
    else
      var n := |points| - 1;
      match SelectedIndices(points[..n])
      case Err(e) => Err(e)
      case Ok(front) =>
        match FirstTag(points[n])
        case Err(e) => Err(e)
        case Ok(t) => Ok(front + [t])
  }

  /** Every index is a valid Python index of `data`. */
  ghost predicate AllInRange<X>(data: seq<X>, idx: seq<int>) {
    forall k :: 0 <= k < |idx| ==> -|data| <= idx[k] < |data|
  }

  /** `[data[i] for i in idx]`, with Python's list indexing. */
  function SelectedRows<X>(data: seq<X>, idx: seq<int>): (r: Result<seq<X>>)
    ensures r.Ok? <==> AllInRange(data, idx)
    ensures r.Ok? ==> |r.value| == |idx| && forall k :: 0 <= k < |idx| ==> Ok(r.value[k]) == PyIndex(data, idx[k])
    ensures r.Err? ==> r.error == IndexError
  {
    if |idx| == 0 then Ok([])
    else
      var n := |idx| - 1;
      match SelectedRows(data, idx[..n])
      case Err(e) => Err(e)
      case Ok(front) =>
        match PyIndex(data, idx[n])
        case Err(e) => Err(e)
        case Ok(row) => Ok(front + [row])
  }

  /** Whether an event is present and holds at least one point. */
  predicate HasPoints(event: Option<Event>) {
    event.Some? && |event.value.points| > 0
  }

  /** The first half of `update_heatmap`: `selected_images`. A selection with
      points gives the rows of all its points, in order; otherwise a click
      with points gives the unwrapped row of its first point; otherwise the
      empty list. */
  function ResolveSelection<X>(click: Option<Event>, selected: Option<Event>, data: seq<seq<X>>): (r: Result<Selected<X>>)
    ensures HasPoints(selected) ==>
      var points := selected.value.points;
      && (r.Ok? <==> AllTagged(points) && AllInRange(data, SelectedIndices(points).value))
      && (r.Ok? ==>
            && r.value.Rows?
            && |r.value.rows| == |points|
            && forall k :: 0 <= k < |points| ==> Ok(r.value.rows[k]) == PyIndex(data, points[k].customdata[0]))
    ensures !HasPoints(selected) && HasPoints(click) ==>
      var p := click.value.points[0];
      && (r.Ok? <==> |p.customdata| > 0 && -|data| <= p.customdata[0] < |data|)
      && (r.Ok? ==> r.value.Row? && Ok(r.value.row) == PyIndex(data, p.customdata[0]))
    ensures !HasPoints(selected) && !HasPoints(click) ==> r == Ok(Rows([]))
    ensures r.Err? ==> r.error == IndexError
  {
    if HasPoints(selected) then
      match SelectedIndices(selected.value.points)
      case Err(e) => Err(e)
      case Ok(idx) =>
        match SelectedRows(data, idx)
        case Err(e) => Err(e)
        case Ok(rows) => Ok(Rows(rows))
    else if HasPoints(click) then
      match FirstTag(click.value.points[0])
      case Err(e) => Err(e)
      case Ok(t) =>
        match PyIndex(data, t)
        case Err(e) => Err(e)
        case Ok(row) => Ok(Row(row))
    else Ok(Rows([]))
  }

  /** Rows taken from a rectangular list form a rectangular list. */
  lemma ResolvedRowsRectangular<X>(click: Option<Event>, selected: Option<Event>, data: seq<seq<X>>)
    requires Rectangular(data)
    ensures var r := ResolveSelection(click, selected, data);
      r.Ok? && r.value.Rows? ==> Rectangular(r.value.rows)
  {
    var r := ResolveSelection(click, selected, data);
    if r.Ok? && r.value.Rows? && HasPoints(selected) {
      var points := selected.value.points;
      forall k | 0 <= k < |points|
        ensures |r.value.rows[k]| == |data[0]|
      {
        var t := points[k].customdata[0];
        assert Ok(r.value.rows[k]) == PyIndex(data, t);
      }
    }
  }

  /** `update_heatmap` as written: the resolved rows drawn by
      `generate_heatmap_plot`. */
  function UpdateHeatmap(click: Option<Event>, selected: Option<Event>, option: DisplayOption, data: seq<seq<real>>)
    : (r: Result<Figure>)
    requires Rectangular(data)
    ensures !HasPoints(selected) && !HasPoints(click) ==> r == Ok(Blank)
    ensures HasPoints(selected) && r.Ok? ==> ResolveSelection(click, selected, data).Ok?
  {
    ResolvedRowsRectangular(click, selected, data);
    match ResolveSelection(click, selected, data)
    case Err(e) => Err(e)
    case Ok(sel) => HeatmapPlot(sel, option)
  }

  /** Selecting points whose tags index `data` draws, over the columns of
      `data`, the column-wise mean (or deviation) of the tagged rows taken in
      selection order, whatever the click holds. */
  lemma SelectionDrawsColumnStatistics(click: Option<Event>, e: Event, option: DisplayOption, data: seq<seq<real>>)
    requires Rectangular(data)
    requires |e.points| > 0
    requires forall i :: 0 <= i < |e.points| ==>
      |e.points[i].customdata| > 0 && 0 <= e.points[i].customdata[0] < |data|
    ensures var rows := seq(|e.points|, i requires 0 <= i < |e.points| && |e.points[i].customdata| > 0
                                          && 0 <= e.points[i].customdata[0] < |data| => data[e.points[i].customdata[0]]);
      && |data| > 0
      && Rectangular(rows)
      && UpdateHeatmap(click, Some(e), option, data)
         == Ok(Line(Range(|data[0]|),
                    match option
                    case Mean => Values(ColumnMeans(rows))
                    case Sigma => SquareRoots(ColumnVariances(rows))))
  {
    var rows := seq(|e.points|, i requires 0 <= i < |e.points| && |e.points[i].customdata| > 0
                                  && 0 <= e.points[i].customdata[0] < |data| => data[e.points[i].customdata[0]]);
    var r := ResolveSelection(click, Some(e), data);
    assert AllTagged(e.points) && AllInRange(data, SelectedIndices(e.points).value);
    forall k | 0 <= k < |e.points|
      ensures r.value.rows[k] == rows[k]
    {
      assert Ok(r.value.rows[k]) == PyIndex(data, e.points[k].customdata[0]);
    }
    assert r.value.rows == rows;
    assert ColumnCount(rows) == |data[0]|;
  }

  /** `update_heatmap` drawing through the intended `generate_heatmap_plot`. */
  function IntendedUpdateHeatmap(click: Option<Event>, selected: Option<Event>, option: DisplayOption,
                                 data: seq<seq<real>>): (r: Result<Figure>)
    requires Rectangular(data)
    ensures !HasPoints(selected) && !HasPoints(click) ==> r == Ok(Blank)
  {
    ResolvedRowsRectangular(click, selected, data);
    match ResolveSelection(click, selected, data)
    case Err(e) => Err(e)
    case Ok(sel) => IntendedHeatmapPlot(sel, option)
  }

  /** A selection with points decides alone: the click is not consulted. */
  lemma SelectionTakesPrecedence<X>(click: Option<Event>, selected: Option<Event>, data: seq<seq<X>>)
    requires HasPoints(selected)
    ensures ResolveSelection(click, selected, data) == ResolveSelection(None, selected, data)
  {
  }

  /** A click is consulted only through its first point. */
  lemma ClickUsesFirstPoint<X>(p: Point, rest: seq<Point>, selected: Option<Event>, data: seq<seq<X>>)
    ensures ResolveSelection(Some(Event([p] + rest)), selected, data) == ResolveSelection(Some(Event([p])), selected, data)
  {
  }

  /** A negative tag picks the row that many places from the end. */
  lemma NegativeTagsWrap<X>(data: seq<X>, i: int)
    requires 0 <= i < |data|
    ensures PyIndex(data, i - |data|) == PyIndex(data, i)
    ensures PyIndex(data, i + |data|).Err?
  {
  }

  /** A point of the scatter figure: the trace `trace` and the position
      `k` in it. */
  ghost predicate PointOf<T>(g: map<int, Trace<T>>, trace: int, k: int) {
    trace in g && 0 <= k < |g[trace].customdata|
  }

  /** The selection event Plotly reports for the chosen points of the
      figure: each point carries its trace's `customdata` row. */
  function EventOf<T>(g: map<int, Trace<T>>, picks: seq<(int, int)>): (e: Event)
    requires forall i :: 0 <= i < |picks| ==> PointOf(g, picks[i].0, picks[i].1)
    ensures |e.points| == |picks|
  {
    Event(seq(|picks|, i requires 0 <= i < |picks| && PointOf(g, picks[i].0, picks[i].1) =>
                         Point(g[picks[i].0].customdata[picks[i].1])))
  }

  /** The tag a picked point carries. */
  function PickedTag<T>(g: map<int, Trace<T>>, pick: (int, int)): int
    requires PointOf(g, pick.0, pick.1) && |g[pick.0].customdata[pick.1]| > 0
  {
    g[pick.0].customdata[pick.1][0]
  }

  /** Selecting points whose tags are indices of `data` resolves to the rows
      at those tags, in the order of the selection. */
  lemma ResolvesPickedTags<T, X>(g: map<int, Trace<T>>, picks: seq<(int, int)>, data: seq<seq<X>>, click: Option<Event>)
    requires |picks| > 0
    requires forall i :: 0 <= i < |picks| ==>
      && PointOf(g, picks[i].0, picks[i].1)
      && |g[picks[i].0].customdata[picks[i].1]| > 0
      && 0 <= PickedTag(g, picks[i]) < |data|
    ensures var r := ResolveSelection(click, Some(EventOf(g, picks)), data);
      && r.Ok? && r.value.Rows? && |r.value.rows| == |picks|
      && forall i :: 0 <= i < |picks| ==> r.value.rows[i] == data[PickedTag(g, picks[i])]
  {
    var e := EventOf(g, picks);
    assert forall i :: 0 <= i < |picks| ==> e.points[i].customdata[0] == PickedTag(g, picks[i]);
    var r := ResolveSelection(click, Some(e), data);
    forall i | 0 <= i < |picks|
      ensures r.value.rows[i] == data[PickedTag(g, picks[i])]
    {
      assert Ok(r.value.rows[i]) == PyIndex(data, e.points[i].customdata[0]);
    }
  }

  /** The round trip: selecting any points of a scatter figure resolves, in
      the order of the selection, to the data rows at the positions of the
      latent vectors the points were drawn from. For every selected point
      the resolved row is `data[j]`, where `j` is a shown point whose
      coordinates the point displays. */
  lemma SelectingScatterPointsResolvesTheirRows<T, X>(
    latent: seq<seq<T>>, nComponents: int, clusterSelection: int, clusters: seq<int>, clusterNames: map<int, string>,
    labelSelection: Scatter.LabelSelection, labels: Option<seq<int>>, labelNames: seq<(string, int)>,
    colorBy: Scatter.ColorBy, data: seq<seq<X>>, picks: seq<(int, int)>, click: Option<Event>)
    requires Scatter.ValidRequest(latent, clusterSelection, clusters, clusterNames, labelSelection, labels, labelNames, colorBy)
    requires Scatter.ScatterFigure(latent, nComponents, clusterSelection, clusters, clusterNames, labelSelection, labels,
                                   labelNames, colorBy).Ok?
    requires |latent| <= |data|
    requires |picks| > 0
    requires forall i :: 0 <= i < |picks| ==>
      PointOf(Scatter.ScatterFigure(latent, nComponents, clusterSelection, clusters, clusterNames, labelSelection, labels,
                                    labelNames, colorBy).value, picks[i].0, picks[i].1)
    ensures var g := Scatter.ScatterFigure(latent, nComponents, clusterSelection, clusters, clusterNames, labelSelection,
                                           labels, labelNames, colorBy).value;
      var r := ResolveSelection(click, Some(EventOf(g, picks)), data);
      && r.Ok? && r.value.Rows? && |r.value.rows| == |picks|
      && forall i :: 0 <= i < |picks| ==>
           var t := g[picks[i].0];
           var k := picks[i].1;
           && |t.customdata[k]| == 1
           && var j := t.customdata[k][0];
              && Scatter.Displays(t, k, latent, Scatter.Dims(nComponents), j)
              && Scatter.Shown(clusterSelection, labelSelection, clusters, Scatter.EffectiveLabels(labels, |latent|),
                               labelNames, j)
              && r.value.rows[i] == data[j]
  {
    var g := Scatter.ScatterFigure(latent, nComponents, clusterSelection, clusters, clusterNames, labelSelection, labels,
                                   labelNames, colorBy).value;
    forall i | 0 <= i < |picks|
      ensures var t := g[picks[i].0];
        var k := picks[i].1;
        && |t.customdata[k]| == 1
        && Scatter.Displays(t, k, latent, Scatter.Dims(nComponents), t.customdata[k][0])
        && Scatter.Shown(clusterSelection, labelSelection, clusters, Scatter.EffectiveLabels(labels, |latent|),
                         labelNames, t.customdata[k][0])
    {
      Scatter.ShownTagsAreOrigins(latent, nComponents, clusterSelection, clusters, clusterNames, labelSelection, labels,
                                  labelNames, colorBy, picks[i].0);
    }
    ResolvesPickedTags(g, picks, data, click);
  }

  /** As written, clicking a point of a scatter figure (with no selection)
      never draws its row: the unwrapped row reaches
      `generate_heatmap_plot`, which raises at `shape[1]` (unless the row is
      empty). */
  lemma ClickedScatterPointFails<T>(
    latent: seq<seq<T>>, nComponents: int, clusterSelection: int, clusters: seq<int>, clusterNames: map<int, string>,
    labelSelection: Scatter.LabelSelection, labels: Option<seq<int>>, labelNames: seq<(string, int)>,
    colorBy: Scatter.ColorBy, data: seq<seq<real>>, trace: int, k: int, rest: seq<Point>, option: DisplayOption)
    requires Scatter.ValidRequest(latent, clusterSelection, clusters, clusterNames, labelSelection, labels, labelNames, colorBy)
    requires Scatter.ScatterFigure(latent, nComponents, clusterSelection, clusters, clusterNames, labelSelection, labels,
                                   labelNames, colorBy).Ok?
    requires |latent| <= |data| && Rectangular(data)
    requires |data[0]| > 0
    requires PointOf(Scatter.ScatterFigure(latent, nComponents, clusterSelection, clusters, clusterNames, labelSelection,
                                           labels, labelNames, colorBy).value, trace, k)
    ensures var g := Scatter.ScatterFigure(latent, nComponents, clusterSelection, clusters, clusterNames, labelSelection,
                                           labels, labelNames, colorBy).value;
      UpdateHeatmap(Some(Event([Point(g[trace].customdata[k])] + rest)), None, option, data) == Err(IndexError)
  {
    var g := Scatter.ScatterFigure(latent, nComponents, clusterSelection, clusters, clusterNames, labelSelection, labels,
                                   labelNames, colorBy).value;
    Scatter.ShownTagsAreOrigins(latent, nComponents, clusterSelection, clusters, clusterNames, labelSelection, labels,
                                labelNames, colorBy, trace);
    var j := g[trace].customdata[k][0];
    var click := Some(Event([Point(g[trace].customdata[k])] + rest));
    assert ResolveSelection(click, None, data) == Ok(Row(data[j]));
  }

  /** As intended, clicking a point of a scatter figure (with no selection)
      draws the data row of the latent vector it was drawn from. */
  lemma ClickedScatterPointPlotsItsRow<T>(
    latent: seq<seq<T>>, nComponents: int, clusterSelection: int, clusters: seq<int>, clusterNames: map<int, string>,
    labelSelection: Scatter.LabelSelection, labels: Option<seq<int>>, labelNames: seq<(string, int)>,
    colorBy: Scatter.ColorBy, data: seq<seq<real>>, trace: int, k: int, rest: seq<Point>, option: DisplayOption)
    requires Scatter.ValidRequest(latent, clusterSelection, clusters, clusterNames, labelSelection, labels, labelNames, colorBy)
    requires Scatter.ScatterFigure(latent, nComponents, clusterSelection, clusters, clusterNames, labelSelection, labels,
                                   labelNames, colorBy).Ok?
    requires |latent| <= |data| && Rectangular(data)
    requires |data[0]| > 0
    requires PointOf(Scatter.ScatterFigure(latent, nComponents, clusterSelection, clusters, clusterNames, labelSelection,
                                           labels, labelNames, colorBy).value, trace, k)
    ensures var g := Scatter.ScatterFigure(latent, nComponents, clusterSelection, clusters, clusterNames, labelSelection,
                                           labels, labelNames, colorBy).value;
      var j := g[trace].customdata[k][0];
      && 0 <= j < |latent|
      && IntendedUpdateHeatmap(Some(Event([Point(g[trace].customdata[k])] + rest)), None, option, data)
         == Ok(Line(Range(|data[j]|), Values(data[j])))
  {
    var g := Scatter.ScatterFigure(latent, nComponents, clusterSelection, clusters, clusterNames, labelSelection, labels,
                                   labelNames, colorBy).value;
    Scatter.ShownTagsAreOrigins(latent, nComponents, clusterSelection, clusters, clusterNames, labelSelection, labels,
                                labelNames, colorBy, trace);
    var j := g[trace].customdata[k][0];
    var click := Some(Event([Point(g[trace].customdata[k])] + rest));
    assert ResolveSelection(click, None, data) == Ok(Row(data[j]));
  }
}
