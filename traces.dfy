/** Splitting scatter points into one Plotly marker trace per distinct label,
    as `generate_scattergl_plot` (two coordinates) and
    `generate_scatter3d_plot` (three coordinates) do. Coordinates are only
    copied, so their type is a parameter. */
module Traces {
  import opened Outcomes
  import opened Indexing

  /** One marker trace: its legend name, its coordinate lists (`x`, `y` and,
      in three dimensions, `z`) and its `customdata`, a column of one-element
      rows holding each point's tag. */
  datatype Trace<T> = Trace(name: string, columns: seq<seq<T>>, customdata: seq<seq<int>>)

  /** What the builders need of their arguments: every coordinate list and the
      custom indices reach as far as the labels do, and every label that
      occurs is a key of the name map (a missing key raises `KeyError`). */
  ghost predicate Groupable<T>(columns: seq<seq<T>>, labels: seq<int>, names: map<int, string>, custom: Option<seq<int>>) {
    && (forall d :: 0 <= d < |columns| ==> |columns[d]| >= |labels|)
    && (custom.Some? ==> |custom.value| >= |labels|)
    && (forall l :: l in labels ==> l in names)
  }

  /** `[i for i, l in enumerate(labels) if l == lbl]`: the ascending
      positions of the points that carry `lbl`. */
  function Members(labels: seq<int>, lbl: int): (r: seq<nat>)
    ensures StrictlyIncreasing(r)
    ensures forall k :: 0 <= k < |r| ==> r[k] < |labels| && labels[r[k]] == lbl
    ensures forall i :: 0 <= i < |labels| && labels[i] == lbl ==> i in r
  {
    Where(seq(|labels|, i requires 0 <= i < |labels| => labels[i] == lbl))
  }

  /** The tag of the point at position `i`: `custom[i]` when custom indices
      are given, else `i` itself. */
  function Tag(custom: Option<seq<int>>, i: nat): int
    requires custom.Some? ==> i < |custom.value|
  {
    match custom
    case None => i
    case Some(c) => c[i]
  }

  /** The trace the loop body builds for `lbl`. */
  function TraceFor<T>(columns: seq<seq<T>>, labels: seq<int>, names: map<int, string>, custom: Option<seq<int>>, lbl: int): Trace<T>
    requires Groupable(columns, labels, names, custom)
    requires lbl in names
  {
    var idx := Members(labels, lbl);
    Trace(names[lbl],
          seq(|columns|, d requires 0 <= d < |columns| => Gather(columns[d], idx)),
          seq(|idx|, k requires 0 <= k < |idx| => [Tag(custom, idx[k])]))
  }

  /** The traces of the figure, keyed by the label each one draws: one per
      lbl in `set(labels)`. */
  function Grouping<T>(columns: seq<seq<T>>, labels: seq<int>, names: map<int, string>, custom: Option<seq<int>>): map<int, Trace<T>>
    requires Groupable(columns, labels, names, custom)
  {
    map l | l in labels :: TraceFor(columns, labels, names, custom, l)
  }

  /** The body of the builders' loop: the trace for one label, with its
      points' coordinates and tags. */
  method LabelTrace<T>(columns: seq<seq<T>>, labels: seq<int>, names: map<int, string>, custom: Option<seq<int>>, lbl: int)
    returns (trace: Trace<T>)
    requires Groupable(columns, labels, names, custom)
    requires lbl in names
    ensures trace == TraceFor(columns, labels, names, custom, lbl)
  {
    var traceIndices := Members(labels, lbl);
    var traceColumns := seq(|columns|, d requires 0 <= d < |columns| => Gather(columns[d], traceIndices));
    var traceCustomIndices: seq<int>;
    if custom.Some? {
      traceCustomIndices := Gather(custom.value, traceIndices);
    } else {
      traceCustomIndices := traceIndices;
    }
    var customdata := seq(|traceCustomIndices|, k requires 0 <= k < |traceCustomIndices| => [traceCustomIndices[k]]);
    trace := Trace(names[lbl], traceColumns, customdata);
    assert customdata == TraceFor(columns, labels, names, custom, lbl).customdata;
  }

  /** `set(labels)`, listed without repetition in the order the labels
      first occur: one order in which the builders' loop may visit the set
      (Python leaves that order unspecified). */
  function Distinct(labels: seq<int>): (r: seq<int>)
    ensures forall l :: l in r <==> l in labels
    ensures forall j, k :: 0 <= j < k < |r| ==> r[j] != r[k]
  {
    if |labels| == 0 then []
    else
      var n := |labels| - 1;
      var front := Distinct(labels[..n]);
      assert forall l :: l in labels <==> l in labels[..n] || l == labels[n];
      if labels[n] in front then front else front + [labels[n]]
  }

  /** The loop shared by both builders: one trace for each label in
      `set(labels)`. Python appends the traces to a list in the iteration
      order of the set; here they are keyed by label. */
  method GroupByLabel<T>(columns: seq<seq<T>>, labels: seq<int>, names: map<int, string>, custom: Option<seq<int>>)
    returns (traces: map<int, Trace<T>>)
    requires Groupable(columns, labels, names, custom)
    ensures traces == Grouping(columns, labels, names, custom)
  {
    var uniqueLabels := Distinct(labels);
    traces := map[];
    for n := 0 to |uniqueLabels|
      invariant forall l :: l in traces <==> l in uniqueLabels[..n]
      invariant forall l :: l in traces ==> l in labels && traces[l] == TraceFor(columns, labels, names, custom, l)
    {
      var trace := LabelTrace(columns, labels, names, custom, uniqueLabels[n]);
      assert uniqueLabels[..n + 1] == uniqueLabels[..n] + [uniqueLabels[n]];
      traces := traces[uniqueLabels[n] := trace];
    }
    assert uniqueLabels[..|uniqueLabels|] == uniqueLabels;
    assert forall l :: l in traces <==> l in labels;
  }

  /** `generate_scattergl_plot(x, y, labels, names, custom_indices=custom)`. */
  method ScatterGlPlot<T>(x: seq<T>, y: seq<T>, labels: seq<int>, names: map<int, string>, custom: Option<seq<int>>)
    returns (traces: map<int, Trace<T>>)
    requires Groupable([x, y], labels, names, custom)
    ensures traces == Grouping([x, y], labels, names, custom)
    ensures forall l :: l in traces ==> |traces[l].columns| == 2
  {
    traces := GroupByLabel([x, y], labels, names, custom);
  }

  /** `generate_scatter3d_plot(x, y, z, labels, names, custom_indices=custom)`. */
  method Scatter3dPlot<T>(x: seq<T>, y: seq<T>, z: seq<T>, labels: seq<int>, names: map<int, string>, custom: Option<seq<int>>)
    returns (traces: map<int, Trace<T>>)
    requires Groupable([x, y, z], labels, names, custom)
    ensures traces == Grouping([x, y, z], labels, names, custom)
    ensures forall l :: l in traces ==> |traces[l].columns| == 3
  {
    traces := GroupByLabel([x, y, z], labels, names, custom);
  }

  /** The trace of a label that occurs holds, point by point, the tag and
      the coordinates of the ascending positions carrying that label. */
  lemma TraceAt<T>(columns: seq<seq<T>>, labels: seq<int>, names: map<int, string>, custom: Option<seq<int>>, lbl: int)
    requires Groupable(columns, labels, names, custom)
    requires lbl in labels
    ensures var g := Grouping(columns, labels, names, custom);
      var idx := Members(labels, lbl);
      && lbl in g
      && g[lbl].name == names[lbl]
      && |g[lbl].columns| == |columns|
      && |g[lbl].customdata| == |idx|
      && (forall k :: 0 <= k < |idx| ==> g[lbl].customdata[k] == [Tag(custom, idx[k])])
      && (forall d :: 0 <= d < |columns| ==> g[lbl].columns[d] == Gather(columns[d], idx))
  {
  }

  /** There is one trace per distinct label, and none for no points. */
  lemma GroupingKeys<T>(columns: seq<seq<T>>, labels: seq<int>, names: map<int, string>, custom: Option<seq<int>>)
    requires Groupable(columns, labels, names, custom)
    ensures var g := Grouping(columns, labels, names, custom);
      && g.Keys == (set l | l in labels)
      && (forall l :: l in g ==> g[l].name == names[l] && |g[l].columns| == |columns| && |g[l].customdata| > 0)
      && (|labels| == 0 ==> g == map[])
  {
    var g := Grouping(columns, labels, names, custom);
    forall l | l in g
      ensures |g[l].customdata| > 0
    {
      var i :| 0 <= i < |labels| && labels[i] == l;
      assert i in Members(labels, l);
    }
  }

  /** Without custom indices every point sits, tagged with its position, in
      the trace of its own label. */
  lemma GroupingCovers<T>(columns: seq<seq<T>>, labels: seq<int>, names: map<int, string>)
    requires Groupable(columns, labels, names, None)
    ensures var g := Grouping(columns, labels, names, None);
      forall i :: 0 <= i < |labels| ==> labels[i] in g && [i] in g[labels[i]].customdata
  {
    var g := Grouping(columns, labels, names, None);
    forall i | 0 <= i < |labels|
      ensures labels[i] in g && [i] in g[labels[i]].customdata
    {
      TraceAt(columns, labels, names, None, labels[i]);
      var idx := Members(labels, labels[i]);
      var k :| 0 <= k < |idx| && idx[k] == i;
      assert g[labels[i]].customdata[k] == [i];
    }
  }

  /** Without custom indices every tag in the trace of label `l` is the
      position of a point carrying `l` (so a point is in no other trace),
      the tags ascend, and each coordinate list holds the coordinates of
      exactly the tagged points. */
  lemma GroupingTagsSound<T>(columns: seq<seq<T>>, labels: seq<int>, names: map<int, string>, l: int)
    requires Groupable(columns, labels, names, None)
    requires l in Grouping(columns, labels, names, None)
    ensures var t := Grouping(columns, labels, names, None)[l];
      && (forall k :: 0 <= k < |t.customdata| ==>
            |t.customdata[k]| == 1 && 0 <= t.customdata[k][0] < |labels| && labels[t.customdata[k][0]] == l)
      && (forall j, k :: 0 <= j < k < |t.customdata| ==> t.customdata[j][0] < t.customdata[k][0])
      && (forall d, k :: 0 <= d < |columns| && 0 <= k < |t.customdata| ==>
            |t.columns[d]| == |t.customdata| && t.columns[d][k] == columns[d][t.customdata[k][0]])
  {
    TraceAt(columns, labels, names, None, l);
  }

  /** Custom indices that are the positions themselves tag every point as no
      custom indices do. */
  lemma PositionTagsAreDefault<T>(columns: seq<seq<T>>, labels: seq<int>, names: map<int, string>)
    requires Groupable(columns, labels, names, None)
    ensures Groupable(columns, labels, names, Some(Range(|labels|)))
    ensures Grouping(columns, labels, names, Some(Range(|labels|))) == Grouping(columns, labels, names, None)
  {
    var tagged := Grouping(columns, labels, names, Some(Range(|labels|)));
    var plain := Grouping(columns, labels, names, None);
    forall l | l in labels
      ensures tagged[l] == plain[l]
    {
      assert tagged[l].customdata == plain[l].customdata;
    }
  }
}
