/** `generate_scatter_plot`: which points of the latent space are shown (a
    cluster filter and a label filter with sentinel values), which id is
    shown under which name, and how the shown points are handed to the trace
    builders together with their original indices. */
module Scatter {
  import opened Outcomes
  import opened Indexing
  import opened Traces

  /** `color_by`: "cluster" colours by cluster id; any other value by label. */
  datatype ColorBy = ByLabel | ByCluster

  /** `label_selection`: -2 for all labels, -1 for the unlabeled points, or a
      key of `label_names`. */
  datatype LabelSelection = AllLabels | Unlabeled | Named(name: string)

  /** The items of a Python dict in insertion order: the keys are distinct. */
  ghost predicate IsDict(items: seq<(string, int)>) {
    forall j, k :: 0 <= j < k < |items| ==> items[j].0 != items[k].0
  }

  ghost predicate HasKey(items: seq<(string, int)>, key: string) {
    exists k :: 0 <= k < |items| && items[k].0 == key
  }

  /** `label_names[key]`: the id stored under a name. */
  function Lookup(items: seq<(string, int)>, key: string): (v: int)
    requires HasKey(items, key)
    ensures IsDict(items) ==> forall k :: 0 <= k < |items| && items[k].0 == key ==> v == items[k].1
  {
    var n := |items| - 1;
    if items[n].0 == key then items[n].1
    else
      assert HasKey(items[..n], key) by {
        var k :| 0 <= k < |items| && items[k].0 == key;
        assert items[..n][k].0 == key;
      }
      Lookup(items[..n], key)
  }

  /** `{value: key for key, value in label_names.items()}`: id to name. */
  function Inverted(items: seq<(string, int)>): map<int, string> {
    if |items| == 0 then map[]
    else
      var n := |items| - 1;
      Inverted(items[..n])[items[n].1 := items[n].0]
  }

  /** The inverted dict has exactly the ids as keys, and each id names the
      last item carrying it (so, when no two names share an id, it undoes
      `label_names`). */
  lemma {:induction false} InvertedLaws(items: seq<(string, int)>)
    ensures forall k :: 0 <= k < |items| ==> items[k].1 in Inverted(items)
    ensures forall id :: id in Inverted(items) ==> exists k :: 0 <= k < |items| && items[k].1 == id
    ensures forall k :: 0 <= k < |items| && (forall j :: k < j < |items| ==> items[j].1 != items[k].1) ==>
      Inverted(items)[items[k].1] == items[k].0
  {
    if |items| > 0 {
      var n := |items| - 1;
      var front := items[..n];
      InvertedLaws(front);
      var m := Inverted(items);
      assert m == Inverted(front)[items[n].1 := items[n].0];
      forall k | 0 <= k < |items|
        ensures items[k].1 in m
      {
        if k < n { assert front[k] == items[k]; }
      }
      forall id | id in m
        ensures exists k :: 0 <= k < |items| && items[k].1 == id
      {
        if id != items[n].1 {
          var k :| 0 <= k < n && front[k].1 == id;
          assert items[k].1 == id;
        }
      }
      forall k | 0 <= k < |items| && (forall j :: k < j < |items| ==> items[j].1 != items[k].1)
        ensures m[items[k].1] == items[k].0
      {
        if k < n {
          assert front[k] == items[k];
          assert forall j :: k < j < n ==> front[j].1 != front[k].1;
        }
      }
    }
  }

  /** The labels used: the given ones, or -1 ("Unlabeled") for every point. */
  function EffectiveLabels(labels: Option<seq<int>>, n: nat): seq<int> {
    match labels
    case None => seq(n, _ => -1)
    case Some(ls) => ls
  }

  /** `vals`: the id each point is grouped and coloured by. */
  function Vals(colorBy: ColorBy, clusters: seq<int>, labs: seq<int>): seq<int> {
    if colorBy == ByCluster then clusters else labs
  }

  /** `vals_names`: the trace name of each id. */
  function NameMap(colorBy: ColorBy, clusterNames: map<int, string>, labelNames: seq<(string, int)>): map<int, string> {
    if colorBy == ByCluster then clusterNames else Inverted(labelNames)[-1 := "Unlabeled"]
  }

  /** Whether point `i` passes the filter. With all clusters (-1) the label
      filter alone decides, and -1 keeps only the unlabeled points. With one
      cluster the point must be in it, and -1 then keeps every label. */
  predicate Shown(clusterSelection: int, labelSelection: LabelSelection, clusters: seq<int>, labs: seq<int>,
                  labelNames: seq<(string, int)>, i: nat)
    requires clusterSelection >= -1
    requires i < |labs|
    requires clusterSelection > -1 ==> i < |clusters|
    requires labelSelection.Named? ==> HasKey(labelNames, labelSelection.name)
  {
    if clusterSelection == -1 then
      match labelSelection
      case AllLabels => true
      case Unlabeled => labs[i] == -1
      case Named(name) => labs[i] == Lookup(labelNames, name)
    else
      && clusters[i] == clusterSelection
      && match labelSelection
         case Named(name) => labs[i] == Lookup(labelNames, name)
         case _ => true
  }

  /** What the code needs of its arguments to reach a figure or an
      `IndexError`/`NameError`: a rectangular array of latent vectors, a label
      list as long as the vectors whenever one is given (even where the code
      never reads it), a cluster list as long wherever it is read, a cluster
      filter the code knows (-1 or a cluster id), a label filter naming a key
      of `label_names`, and a name for every id that a shown point carries (a
      missing one raises `KeyError`; the name is demanded even where the code
      raises `IndexError` or `NameError` before it looks one up). */
  ghost predicate ValidRequest<T>(latent: seq<seq<T>>, clusterSelection: int, clusters: seq<int>, clusterNames: map<int, string>,
                                  labelSelection: LabelSelection, labels: Option<seq<int>>, labelNames: seq<(string, int)>,
                                  colorBy: ColorBy)
  {
    && Rectangular(latent)
    && clusterSelection >= -1
    && (labels.Some? ==> |labels.value| == |latent|)
    && (colorBy == ByCluster || clusterSelection > -1 ==> |clusters| == |latent|)
    && IsDict(labelNames)
    && (labelSelection.Named? ==> HasKey(labelNames, labelSelection.name))
    && var labs := EffectiveLabels(labels, |latent|);
       forall i :: 0 <= i < |latent| && Shown(clusterSelection, labelSelection, clusters, labs, labelNames, i) ==>
         Vals(colorBy, clusters, labs)[i] in NameMap(colorBy, clusterNames, labelNames)
  }

  /** The filter as a boolean mask over the points. */
  function ShownMask(n: nat, clusterSelection: int, labelSelection: LabelSelection, clusters: seq<int>, labs: seq<int>,
                     labelNames: seq<(string, int)>): (m: seq<bool>)
    requires clusterSelection >= -1
    requires |labs| == n
    requires clusterSelection > -1 ==> |clusters| == n
    requires labelSelection.Named? ==> HasKey(labelNames, labelSelection.name)
    ensures |m| == n
  {
    seq(n, i requires 0 <= i < n => Shown(clusterSelection, labelSelection, clusters, labs, labelNames, i))
  }

  /** The original indices of the shown points, ascending. */
  function ShownIndices(n: nat, clusterSelection: int, labelSelection: LabelSelection, clusters: seq<int>, labs: seq<int>,
                        labelNames: seq<(string, int)>): seq<nat>
    requires clusterSelection >= -1
    requires |labs| == n
    requires clusterSelection > -1 ==> |clusters| == n
    requires labelSelection.Named? ==> HasKey(labelNames, labelSelection.name)
  {
    Where(ShownMask(n, clusterSelection, labelSelection, clusters, labs, labelNames))
  }

  /** The number of coordinates per point (zero for no points: numpy then
      sees a one-dimensional array). */
  function Width<T>(latent: seq<seq<T>>): nat {
    if |latent| == 0 then 0 else |latent[0]|
  }

  /** `latent_vectors[:, d]`. */
  function Column<T>(latent: seq<seq<T>>, d: nat): (c: seq<T>)
    requires forall i :: 0 <= i < |latent| ==> d < |latent[i]|
    ensures |c| == |latent| && forall i :: 0 <= i < |latent| ==> c[i] == latent[i][d]
  {
    seq(|latent|, i requires 0 <= i < |latent| => latent[i][d])
  }

  /** `latent_vectors[:, d]` for each coordinate `d < dims`. */
  function FullColumns<T>(latent: seq<seq<T>>, dims: nat): seq<seq<T>>
    requires forall i :: 0 <= i < |latent| ==> dims <= |latent[i]|
  {
    seq(dims, d requires 0 <= d < dims => Column(latent, d))
  }

  /** `latent_vectors[selected, d]` for each coordinate `d < dims`. */
  function ShownColumns<T>(latent: seq<seq<T>>, sel: seq<nat>, dims: nat): seq<seq<T>>
    requires forall i :: 0 <= i < |latent| ==> dims <= |latent[i]|
    requires forall k :: 0 <= k < |sel| ==> sel[k] < |latent|
  {
    seq(dims, d requires 0 <= d < dims => Gather(Column(latent, d), sel))
  }

  /** The coordinates the code plots: two for `n_components == 2`, else three. */
  function Dims(nComponents: int): nat {
    if nComponents == 2 then 2 else 3
  }

  /** Whether the request is the unfiltered one: all clusters and all labels. */
  predicate Unfiltered(clusterSelection: int, labelSelection: LabelSelection) {
    clusterSelection == -1 && labelSelection == AllLabels
  }

  /** In a rectangular array every row is as wide as the first. */
  lemma RowsWide<T>(latent: seq<seq<T>>, dims: nat)
    requires Rectangular(latent)
    requires dims <= Width(latent)
    ensures forall i :: 0 <= i < |latent| ==> dims <= |latent[i]|
  {
  }

  /** The shown points of a valid request are points of `latent`, and each
      carries an id that has a name. */
  lemma ShownNamed<T>(latent: seq<seq<T>>, clusterSelection: int, clusters: seq<int>, clusterNames: map<int, string>,
                      labelSelection: LabelSelection, labels: Option<seq<int>>, labelNames: seq<(string, int)>,
                      colorBy: ColorBy)
    requires ValidRequest(latent, clusterSelection, clusters, clusterNames, labelSelection, labels, labelNames, colorBy)
    ensures var labs := EffectiveLabels(labels, |latent|);
      var vals := Vals(colorBy, clusters, labs);
      var sel := ShownIndices(|latent|, clusterSelection, labelSelection, clusters, labs, labelNames);
      && |vals| == |latent|
      && forall k :: 0 <= k < |sel| ==> sel[k] < |latent| && vals[sel[k]] in NameMap(colorBy, clusterNames, labelNames)
  {
    var labs := EffectiveLabels(labels, |latent|);
    var mask := ShownMask(|latent|, clusterSelection, labelSelection, clusters, labs, labelNames);
    var sel := Where(mask);
    assert forall k :: 0 <= k < |sel| ==> mask[sel[k]];
  }

  /** Points `sel` of `latent` whose ids have names, handed to the builders
      with `custom_indices=sel`, meet what the builders need. */
  lemma SelectionGroupable<T>(latent: seq<seq<T>>, sel: seq<nat>, dims: nat, vals: seq<int>, names: map<int, string>)
    requires forall i :: 0 <= i < |latent| ==> dims <= |latent[i]|
    requires forall k :: 0 <= k < |sel| ==> sel[k] < |latent|
    requires |vals| == |latent|
    requires forall k :: 0 <= k < |sel| ==> vals[sel[k]] in names
    ensures Groupable(ShownColumns(latent, sel, dims), Gather(vals, sel), names, Some(sel))
  {
    var shownVals := Gather(vals, sel);
    forall l | l in shownVals
      ensures l in names
    {
      var k :| 0 <= k < |shownVals| && shownVals[k] == l;
    }
  }

  /** The figure as specified: the shown points, grouped by id, each tagged
      with its original index; or the exception the code raises. */
  function ScatterFigure<T>(latent: seq<seq<T>>, nComponents: int, clusterSelection: int, clusters: seq<int>,
                            clusterNames: map<int, string>, labelSelection: LabelSelection, labels: Option<seq<int>>,
                            labelNames: seq<(string, int)>, colorBy: ColorBy): Result<map<int, Trace<T>>>
    requires ValidRequest(latent, clusterSelection, clusters, clusterNames, labelSelection, labels, labelNames, colorBy)
  {
    if !Unfiltered(clusterSelection, labelSelection) && nComponents != 2 && nComponents != 3 then Err(NameError)
    else if Width(latent) < Dims(nComponents) then Err(IndexError)
    else
      var labs := EffectiveLabels(labels, |latent|);
      var vals := Vals(colorBy, clusters, labs);
      var names := NameMap(colorBy, clusterNames, labelNames);
      var sel := ShownIndices(|latent|, clusterSelection, labelSelection, clusters, labs, labelNames);
      var dims := Dims(nComponents);
      RowsWide(latent, dims);
      ShownNamed(latent, clusterSelection, clusters, clusterNames, labelSelection, labels, labelNames, colorBy);
      SelectionGroupable(latent, sel, dims, vals, names);
      Ok(Grouping(ShownColumns(latent, sel, dims), Gather(vals, sel), names, Some(sel)))
  }

  /** The filtering half of `generate_scatter_plot`, for every request other
      than the unfiltered one: the ascending original indices of the points
      that pass the filter. */
  method SelectPoints(n: nat, clusterSelection: int, labelSelection: LabelSelection, clusters: seq<int>, labs: seq<int>,
                      labelNames: seq<(string, int)>)
    returns (selected: seq<nat>)
    requires !Unfiltered(clusterSelection, labelSelection)
    requires clusterSelection >= -1
    requires |labs| == n
    requires clusterSelection > -1 ==> |clusters| == n
    requires labelSelection.Named? ==> HasKey(labelNames, labelSelection.name)
    ensures selected == ShownIndices(n, clusterSelection, labelSelection, clusters, labs, labelNames)
  {
    ghost var shown := ShownMask(n, clusterSelection, labelSelection, clusters, labs, labelNames);
    // Python starts from `None`; with `clusterSelection >= -1` one of the three blocks below assigns it
    selected := [];
    if clusterSelection == -1 && labelSelection != AllLabels {
      var target := -1;
      if labelSelection != Unlabeled {
        target := Lookup(labelNames, labelSelection.name);
      }
      var mask := seq(n, i requires 0 <= i < n => labs[i] == target);
      assert mask == shown;
      selected := Where(mask);
    }
    if labelSelection == AllLabels && clusterSelection > -1 {
      var mask := seq(n, i requires 0 <= i < n => clusters[i] == clusterSelection);
      assert mask == shown;
      selected := Where(mask);
    }
    if labelSelection != AllLabels && clusterSelection > -1 {
      if labelSelection != Unlabeled {
        var selectedLabel := Lookup(labelNames, labelSelection.name);
        var mask := seq(n, i requires 0 <= i < n => clusters[i] == clusterSelection && labs[i] == selectedLabel);
        assert mask == shown;
        selected := Where(mask);
      } else {
        var mask := seq(n, i requires 0 <= i < n => clusters[i] == clusterSelection);
        assert mask == shown;
        selected := Where(mask);
      }
    }
  }

  /** The unfiltered branch of `generate_scatter_plot`: every point, grouped
      by id, without custom indices. */
  method PlotAllPoints<T>(latent: seq<seq<T>>, nComponents: int, vals: seq<int>, valsNames: map<int, string>)
    returns (fig: Result<map<int, Trace<T>>>)
    requires Rectangular(latent)
    requires |vals| == |latent|
    requires forall l :: l in vals ==> l in valsNames
    ensures Width(latent) < Dims(nComponents) ==> fig == Err(IndexError)
    ensures Width(latent) >= Dims(nComponents) ==>
      && (forall i :: 0 <= i < |latent| ==> Dims(nComponents) <= |latent[i]|)
      && fig == Ok(Grouping(FullColumns(latent, Dims(nComponents)), vals, valsNames, None))
  {
    // numpy sees no second axis in an empty array, so `[:, d]` fails as for too few columns
    var width := if |latent| == 0 then 0 else |latent[0]|;
    if nComponents == 2 {
      if width < 2 {
        return Err(IndexError);
      }
      RowsWide(latent, 2);
      assert [Column(latent, 0), Column(latent, 1)] == FullColumns(latent, 2);
      var traces := ScatterGlPlot(Column(latent, 0), Column(latent, 1), vals, valsNames, None);
      fig := Ok(traces);
    } else {
      if width < 3 {
        return Err(IndexError);
      }
      RowsWide(latent, 3);
      assert [Column(latent, 0), Column(latent, 1), Column(latent, 2)] == FullColumns(latent, 3);
      var traces := Scatter3dPlot(Column(latent, 0), Column(latent, 1), Column(latent, 2), vals, valsNames, None);
      fig := Ok(traces);
    }
  }

  /** The filtered branch of `generate_scatter_plot`: the points `selected`,
      grouped by id and tagged with their original indices; a component
      count other than two or three leaves `scatter_data` unbound. */
  method PlotSelectedPoints<T>(latent: seq<seq<T>>, nComponents: int, selected: seq<nat>, vals: seq<int>,
                               valsNames: map<int, string>)
    returns (fig: Result<map<int, Trace<T>>>)
    requires Rectangular(latent)
    requires |vals| == |latent|
    requires forall k :: 0 <= k < |selected| ==> selected[k] < |latent| && vals[selected[k]] in valsNames
    ensures nComponents != 2 && nComponents != 3 ==> fig == Err(NameError)
    ensures (nComponents == 2 || nComponents == 3) && Width(latent) < nComponents ==> fig == Err(IndexError)
    ensures (nComponents == 2 || nComponents == 3) && Width(latent) >= nComponents ==>
      && (forall i :: 0 <= i < |latent| ==> nComponents <= |latent[i]|)
      && Groupable(ShownColumns(latent, selected, nComponents), Gather(vals, selected), valsNames, Some(selected))
      && fig == Ok(Grouping(ShownColumns(latent, selected, nComponents), Gather(vals, selected), valsNames, Some(selected)))
  {
    var width := if |latent| == 0 then 0 else |latent[0]|;
    var shownVals := Gather(vals, selected);
    if nComponents == 2 {
      if width < 2 {
        return Err(IndexError);
      }
      RowsWide(latent, 2);
      SelectionGroupable(latent, selected, 2, vals, valsNames);
      assert [Gather(Column(latent, 0), selected), Gather(Column(latent, 1), selected)] == ShownColumns(latent, selected, 2);
      var traces := ScatterGlPlot(Gather(Column(latent, 0), selected), Gather(Column(latent, 1), selected),
                                  shownVals, valsNames, Some(selected));
      fig := Ok(traces);
    } else if nComponents == 3 {
      if width < 3 {
        return Err(IndexError);
      }
      RowsWide(latent, 3);
      SelectionGroupable(latent, selected, 3, vals, valsNames);
      assert [Gather(Column(latent, 0), selected), Gather(Column(latent, 1), selected), Gather(Column(latent, 2), selected)]
        == ShownColumns(latent, selected, 3);
      var traces := Scatter3dPlot(Gather(Column(latent, 0), selected), Gather(Column(latent, 1), selected),
                                  Gather(Column(latent, 2), selected), shownVals, valsNames, Some(selected));
      fig := Ok(traces);
    } else {
      // `scatter_data` is unbound at `go.Figure(scatter_data)`
      fig := Err(NameError);
    }
  }

  /** `generate_scatter_plot`. The arguments keep the source's order; the
      layout (drag mode, margins, legend gap) is not modelled. */
  method ScatterPlot<T>(latent: seq<seq<T>>, nComponents: int, clusterSelection: int, clusters: seq<int>,
                        clusterNames: map<int, string>, labelSelection: LabelSelection, labels: Option<seq<int>>,
                        labelNames: seq<(string, int)>, colorBy: ColorBy)
    returns (fig: Result<map<int, Trace<T>>>)
    requires ValidRequest(latent, clusterSelection, clusters, clusterNames, labelSelection, labels, labelNames, colorBy)
    ensures fig == ScatterFigure(latent, nComponents, clusterSelection, clusters, clusterNames, labelSelection, labels,
                                 labelNames, colorBy)
  {
    var n := |latent|;
    var labs: seq<int>;
    if labels.None? {
      labs := seq(n, _ => -1);
    } else {
      labs := labels.value;
    }
    var valsNames: map<int, string> := map[];
    var vals: seq<int>;
    if colorBy == ByCluster {
      vals := clusters;
      valsNames := clusterNames;
    } else {
      vals := labs;
      valsNames := Inverted(labelNames);
      valsNames := valsNames[-1 := "Unlabeled"];
    }
    assert labs == EffectiveLabels(labels, n);
    assert vals == Vals(colorBy, clusters, labs);
    assert valsNames == NameMap(colorBy, clusterNames, labelNames);

    if clusterSelection == -1 && labelSelection == AllLabels {
      assert forall l :: l in vals ==> l in valsNames by {
        ShownNamed(latent, clusterSelection, clusters, clusterNames, labelSelection, labels, labelNames, colorBy);
        forall l | l in vals
          ensures l in valsNames
        {
          var i :| 0 <= i < n && vals[i] == l;
          assert Shown(clusterSelection, labelSelection, clusters, labs, labelNames, i);
        }
      }
      fig := PlotAllPoints(latent, nComponents, vals, valsNames);
      if Width(latent) >= Dims(nComponents) {
        UnfilteredFigure(latent, nComponents, clusters, clusterNames, labels, labelNames, colorBy);
      }
    } else {
      var selected := SelectPoints(n, clusterSelection, labelSelection, clusters, labs, labelNames);
      ShownNamed(latent, clusterSelection, clusters, clusterNames, labelSelection, labels, labelNames, colorBy);
      fig := PlotSelectedPoints(latent, nComponents, selected, vals, valsNames);
    }
  }

  /** Which requests fail: a filtered request for neither two nor three
      components reads an unbound variable, and otherwise a request for more
      coordinates than the vectors have indexes out of range; every other
      request gives a figure. */
  lemma ScatterFigureFails<T>(latent: seq<seq<T>>, nComponents: int, clusterSelection: int, clusters: seq<int>,
                              clusterNames: map<int, string>, labelSelection: LabelSelection, labels: Option<seq<int>>,
                              labelNames: seq<(string, int)>, colorBy: ColorBy)
    requires ValidRequest(latent, clusterSelection, clusters, clusterNames, labelSelection, labels, labelNames, colorBy)
    ensures var fig := ScatterFigure(latent, nComponents, clusterSelection, clusters, clusterNames, labelSelection, labels,
                                     labelNames, colorBy);
      && (fig == Err(NameError) <==>
            !Unfiltered(clusterSelection, labelSelection) && nComponents != 2 && nComponents != 3)
      && (fig == Err(IndexError) <==>
            (Unfiltered(clusterSelection, labelSelection) || nComponents == 2 || nComponents == 3) &&
            Width(latent) < Dims(nComponents))
      && (fig.Ok? <==>
            (Unfiltered(clusterSelection, labelSelection) || nComponents == 2 || nComponents == 3) &&
            Width(latent) >= Dims(nComponents))
  {
  }

  /** Indexing the columns with every position gives the full columns. */
  lemma ShownColumnsOfAll<T>(latent: seq<seq<T>>, dims: nat)
    requires forall i :: 0 <= i < |latent| ==> dims <= |latent[i]|
    ensures ShownColumns(latent, Range(|latent|), dims) == FullColumns(latent, dims)
  {
    forall d | 0 <= d < dims
      ensures Gather(Column(latent, d), Range(|latent|)) == Column(latent, d)
    {
      GatherRange(Column(latent, d));
    }
  }

  /** With all clusters and all labels every point is shown: the figure is
      the plain grouping of all points without custom indices. */
  lemma UnfilteredFigure<T>(latent: seq<seq<T>>, nComponents: int, clusters: seq<int>, clusterNames: map<int, string>,
                            labels: Option<seq<int>>, labelNames: seq<(string, int)>, colorBy: ColorBy)
    requires ValidRequest(latent, -1, clusters, clusterNames, AllLabels, labels, labelNames, colorBy)
    requires Width(latent) >= Dims(nComponents)
    ensures forall i :: 0 <= i < |latent| ==> Dims(nComponents) <= |latent[i]|
    ensures var vals := Vals(colorBy, clusters, EffectiveLabels(labels, |latent|));
      var names := NameMap(colorBy, clusterNames, labelNames);
      && Groupable(FullColumns(latent, Dims(nComponents)), vals, names, None)
      && ScatterFigure(latent, nComponents, -1, clusters, clusterNames, AllLabels, labels, labelNames, colorBy)
         == Ok(Grouping(FullColumns(latent, Dims(nComponents)), vals, names, None))
  {
    var n := |latent|;
    var dims := Dims(nComponents);
    var labs := EffectiveLabels(labels, n);
    var vals := Vals(colorBy, clusters, labs);
    var names := NameMap(colorBy, clusterNames, labelNames);
    var all := Range(n);
    assert ShownIndices(n, -1, AllLabels, clusters, labs, labelNames) == all by {
      var mask := ShownMask(n, -1, AllLabels, clusters, labs, labelNames);
      assert forall i :: 0 <= i < n ==> mask[i];
      WhereAll(mask);
    }
    RowsWide(latent, dims);
    var cols := FullColumns(latent, dims);
    assert Groupable(cols, vals, names, None) by {
      ShownNamed(latent, -1, clusters, clusterNames, AllLabels, labels, labelNames, colorBy);
      forall l | l in vals
        ensures l in names
      {
        var i :| 0 <= i < n && vals[i] == l;
        assert all[i] == i;
      }
    }
    assert ScatterFigure(latent, nComponents, -1, clusters, clusterNames, AllLabels, labels, labelNames, colorBy)
        == Ok(Grouping(ShownColumns(latent, all, dims), Gather(vals, all), names, Some(all)));
    ShownColumnsOfAll(latent, dims);
    GatherRange(vals);
    PositionTagsAreDefault(cols, vals, names);
  }

  /** Unfiltered, each point's tag is its position in `latent_vectors`, in
      the trace of its own id. */
  lemma UnfilteredShowsEveryPoint<T>(latent: seq<seq<T>>, nComponents: int, clusters: seq<int>, clusterNames: map<int, string>,
                                     labels: Option<seq<int>>, labelNames: seq<(string, int)>, colorBy: ColorBy)
    requires ValidRequest(latent, -1, clusters, clusterNames, AllLabels, labels, labelNames, colorBy)
    requires Width(latent) >= Dims(nComponents)
    ensures var g := ScatterFigure(latent, nComponents, -1, clusters, clusterNames, AllLabels, labels, labelNames, colorBy);
      var vals := Vals(colorBy, clusters, EffectiveLabels(labels, |latent|));
      && g.Ok?
      && forall t :: 0 <= t < |latent| ==> vals[t] in g.value && [t] in g.value[vals[t]].customdata
  {
    UnfilteredFigure(latent, nComponents, clusters, clusterNames, labels, labelNames, colorBy);
    GroupingCovers(FullColumns(latent, Dims(nComponents)), Vals(colorBy, clusters, EffectiveLabels(labels, |latent|)),
                   NameMap(colorBy, clusterNames, labelNames));
  }

  /** Point `k` of trace `t` stands for point `j` of `latent`: it is tagged
      `[j]` and displays the first `dims` coordinates of `latent[j]`. */
  ghost predicate Displays<T>(t: Trace<T>, k: int, latent: seq<seq<T>>, dims: nat, j: int) {
    && 0 <= k < |t.customdata|
    && t.customdata[k] == [j]
    && 0 <= j < |latent|
    && |t.columns| == dims
    && forall d :: 0 <= d < dims ==> k < |t.columns[d]| && d < |latent[j]| && t.columns[d][k] == latent[j][d]
  }

  /** The trace of id `l` when the points `sel` are handed to the builders
      with `custom_indices=sel`: its k-th tag is `sel[p]` for the k-th
      position `p` of the shown points carrying `l`, and its coordinates are
      those of point `sel[p]`. */
  lemma SelectedTraceAt<T>(latent: seq<seq<T>>, sel: seq<nat>, dims: nat, vals: seq<int>, names: map<int, string>, l: int)
    requires forall i :: 0 <= i < |latent| ==> dims <= |latent[i]|
    requires forall k :: 0 <= k < |sel| ==> sel[k] < |latent|
    requires |vals| == |latent|
    requires Groupable(ShownColumns(latent, sel, dims), Gather(vals, sel), names, Some(sel))
    requires l in Grouping(ShownColumns(latent, sel, dims), Gather(vals, sel), names, Some(sel))
    ensures var t := Grouping(ShownColumns(latent, sel, dims), Gather(vals, sel), names, Some(sel))[l];
      var idx := Members(Gather(vals, sel), l);
      && |t.columns| == dims
      && |t.customdata| == |idx|
      && forall k :: 0 <= k < |idx| ==>
           && idx[k] < |sel|
           && Displays(t, k, latent, dims, sel[idx[k]])
           && vals[sel[idx[k]]] == l
  {
    TraceAt(ShownColumns(latent, sel, dims), Gather(vals, sel), names, Some(sel), l);
  }

  /** The trace of id `l` for the points where `mask` holds: each tag is a
      point where the mask holds and that carries `l`, the point displayed
      is the point tagged, and the tags ascend. */
  lemma MaskedTraceLaws<T>(latent: seq<seq<T>>, mask: seq<bool>, dims: nat, vals: seq<int>, names: map<int, string>, l: int)
    requires |mask| == |latent| == |vals|
    requires forall i :: 0 <= i < |latent| ==> dims <= |latent[i]|
    requires Groupable(ShownColumns(latent, Where(mask), dims), Gather(vals, Where(mask)), names, Some(Where(mask)))
    requires l in Grouping(ShownColumns(latent, Where(mask), dims), Gather(vals, Where(mask)), names, Some(Where(mask)))
    ensures var t := Grouping(ShownColumns(latent, Where(mask), dims), Gather(vals, Where(mask)), names, Some(Where(mask)))[l];
      && (forall k :: 0 <= k < |t.customdata| ==>
            && |t.customdata[k]| == 1
            && Displays(t, k, latent, dims, t.customdata[k][0])
            && mask[t.customdata[k][0]]
            && vals[t.customdata[k][0]] == l)
      && (forall j, k :: 0 <= j < k < |t.customdata| ==> t.customdata[j][0] < t.customdata[k][0])
  {
    var sel := Where(mask);
    var t := Grouping(ShownColumns(latent, sel, dims), Gather(vals, sel), names, Some(sel))[l];
    var idx := Members(Gather(vals, sel), l);
    SelectedTraceAt(latent, sel, dims, vals, names, l);
    forall k | 0 <= k < |t.customdata|
      ensures |t.customdata[k]| == 1 && t.customdata[k][0] == sel[idx[k]]
    {
      assert Displays(t, k, latent, dims, sel[idx[k]]);
    }
    forall j, k | 0 <= j < k < |t.customdata|
      ensures t.customdata[j][0] < t.customdata[k][0]
    {
      assert idx[j] < idx[k];
    }
  }

  /** A figure of the filtered points is the grouping of the shown points,
      with their original indices as custom indices. */
  lemma FigureOfShown<T>(latent: seq<seq<T>>, nComponents: int, clusterSelection: int, clusters: seq<int>,
                         clusterNames: map<int, string>, labelSelection: LabelSelection, labels: Option<seq<int>>,
                         labelNames: seq<(string, int)>, colorBy: ColorBy)
    requires ValidRequest(latent, clusterSelection, clusters, clusterNames, labelSelection, labels, labelNames, colorBy)
    requires ScatterFigure(latent, nComponents, clusterSelection, clusters, clusterNames, labelSelection, labels, labelNames,
                           colorBy).Ok?
    ensures var labs := EffectiveLabels(labels, |latent|);
      var vals := Vals(colorBy, clusters, labs);
      var names := NameMap(colorBy, clusterNames, labelNames);
      var sel := ShownIndices(|latent|, clusterSelection, labelSelection, clusters, labs, labelNames);
      var dims := Dims(nComponents);
      && (forall i :: 0 <= i < |latent| ==> dims <= |latent[i]|)
      && (forall k :: 0 <= k < |sel| ==> sel[k] < |latent|)
      && |vals| == |latent|
      && Groupable(ShownColumns(latent, sel, dims), Gather(vals, sel), names, Some(sel))
      && ScatterFigure(latent, nComponents, clusterSelection, clusters, clusterNames, labelSelection, labels, labelNames,
                       colorBy).value == Grouping(ShownColumns(latent, sel, dims), Gather(vals, sel), names, Some(sel))
  {
    var labs := EffectiveLabels(labels, |latent|);
    var vals := Vals(colorBy, clusters, labs);
    var names := NameMap(colorBy, clusterNames, labelNames);
    var sel := ShownIndices(|latent|, clusterSelection, labelSelection, clusters, labs, labelNames);
    RowsWide(latent, Dims(nComponents));
    ShownNamed(latent, clusterSelection, clusters, clusterNames, labelSelection, labels, labelNames, colorBy);
    SelectionGroupable(latent, sel, Dims(nComponents), vals, names);
  }

  /** The shown indices are exactly the points passing the filter, ascending. */
  lemma ShownIndicesLaws(n: nat, clusterSelection: int, labelSelection: LabelSelection, clusters: seq<int>, labs: seq<int>,
                         labelNames: seq<(string, int)>)
    requires clusterSelection >= -1
    requires |labs| == n
    requires clusterSelection > -1 ==> |clusters| == n
    requires labelSelection.Named? ==> HasKey(labelNames, labelSelection.name)
    ensures var sel := ShownIndices(n, clusterSelection, labelSelection, clusters, labs, labelNames);
      && StrictlyIncreasing(sel)
      && (forall k :: 0 <= k < |sel| ==>
            sel[k] < n && Shown(clusterSelection, labelSelection, clusters, labs, labelNames, sel[k]))
      && (forall i :: 0 <= i < n && Shown(clusterSelection, labelSelection, clusters, labs, labelNames, i) ==> i in sel)
  {
    var mask := ShownMask(n, clusterSelection, labelSelection, clusters, labs, labelNames);
    assert forall i :: 0 <= i < n ==> mask[i] == Shown(clusterSelection, labelSelection, clusters, labs, labelNames, i);
  }

  /** Every tag in a trace of the figure is the original index of a shown
      point that carries the trace's id, and the trace's coordinates are that
      point's; within a trace the tags ascend. */
  lemma ShownTagsAreOrigins<T>(latent: seq<seq<T>>, nComponents: int, clusterSelection: int, clusters: seq<int>,
                               clusterNames: map<int, string>, labelSelection: LabelSelection, labels: Option<seq<int>>,
                               labelNames: seq<(string, int)>, colorBy: ColorBy, l: int)
    requires ValidRequest(latent, clusterSelection, clusters, clusterNames, labelSelection, labels, labelNames, colorBy)
    requires ScatterFigure(latent, nComponents, clusterSelection, clusters, clusterNames, labelSelection, labels, labelNames,
                           colorBy).Ok?
    requires l in ScatterFigure(latent, nComponents, clusterSelection, clusters, clusterNames, labelSelection, labels,
                                labelNames, colorBy).value
    ensures var t := ScatterFigure(latent, nComponents, clusterSelection, clusters, clusterNames, labelSelection, labels,
                                   labelNames, colorBy).value[l];
      var labs := EffectiveLabels(labels, |latent|);
      && (forall k :: 0 <= k < |t.customdata| ==>
            && |t.customdata[k]| == 1
            && Displays(t, k, latent, Dims(nComponents), t.customdata[k][0])
            && Shown(clusterSelection, labelSelection, clusters, labs, labelNames, t.customdata[k][0])
            && Vals(colorBy, clusters, labs)[t.customdata[k][0]] == l)
      && (forall j, k :: 0 <= j < k < |t.customdata| ==> t.customdata[j][0] < t.customdata[k][0])
  {
    var n := |latent|;
    var labs := EffectiveLabels(labels, n);
    var vals := Vals(colorBy, clusters, labs);
    var names := NameMap(colorBy, clusterNames, labelNames);
    var sel := ShownIndices(n, clusterSelection, labelSelection, clusters, labs, labelNames);
    var mask := ShownMask(n, clusterSelection, labelSelection, clusters, labs, labelNames);
    FigureOfShown(latent, nComponents, clusterSelection, clusters, clusterNames, labelSelection, labels, labelNames, colorBy);
    MaskedTraceLaws(latent, mask, Dims(nComponents), vals, names, l);
  }

  /** Every shown point appears, tagged with its original index, in the trace
      of its own id; a point that is not shown carries no tag of the figure. */
  lemma ShownPointsCovered<T>(latent: seq<seq<T>>, nComponents: int, clusterSelection: int, clusters: seq<int>,
                              clusterNames: map<int, string>, labelSelection: LabelSelection, labels: Option<seq<int>>,
                              labelNames: seq<(string, int)>, colorBy: ColorBy, t: nat)
    requires ValidRequest(latent, clusterSelection, clusters, clusterNames, labelSelection, labels, labelNames, colorBy)
    requires ScatterFigure(latent, nComponents, clusterSelection, clusters, clusterNames, labelSelection, labels, labelNames,
                           colorBy).Ok?
    requires t < |latent|
    ensures var g := ScatterFigure(latent, nComponents, clusterSelection, clusters, clusterNames, labelSelection, labels,
                                   labelNames, colorBy).value;
      var labs := EffectiveLabels(labels, |latent|);
      var vals := Vals(colorBy, clusters, labs);
      Shown(clusterSelection, labelSelection, clusters, labs, labelNames, t) <==>
        vals[t] in g && [t] in g[vals[t]].customdata
  {
    var n := |latent|;
    var labs := EffectiveLabels(labels, n);
    var vals := Vals(colorBy, clusters, labs);
    var names := NameMap(colorBy, clusterNames, labelNames);
    var sel := ShownIndices(n, clusterSelection, labelSelection, clusters, labs, labelNames);
    var g := ScatterFigure(latent, nComponents, clusterSelection, clusters, clusterNames, labelSelection, labels,
                           labelNames, colorBy).value;
    if Shown(clusterSelection, labelSelection, clusters, labs, labelNames, t) {
      assert vals[t] in g && [t] in g[vals[t]].customdata by {
        ShownIndicesLaws(n, clusterSelection, labelSelection, clusters, labs, labelNames);
        FigureOfShown(latent, nComponents, clusterSelection, clusters, clusterNames, labelSelection, labels, labelNames,
                      colorBy);
        var p :| 0 <= p < |sel| && sel[p] == t;
        var shownVals := Gather(vals, sel);
        assert shownVals[p] == vals[t];
        SelectedTraceAt(latent, sel, Dims(nComponents), vals, names, vals[t]);
        var idx := Members(shownVals, vals[t]);
        var k :| 0 <= k < |idx| && idx[k] == p;
        assert g[vals[t]].customdata[k] == [t];
      }
    }
    if vals[t] in g && [t] in g[vals[t]].customdata {
      ShownTagsAreOrigins(latent, nComponents, clusterSelection, clusters, clusterNames, labelSelection, labels, labelNames,
                          colorBy, vals[t]);
      var k :| 0 <= k < |g[vals[t]].customdata| && g[vals[t]].customdata[k] == [t];
      assert g[vals[t]].customdata[k][0] == t;
    }
  }

  /** The -1 label sentinel: across all clusters it keeps only the points
      labelled -1; inside one cluster it filters nothing, giving the same
      figure as "all labels". */
  lemma UnlabeledSentinel<T>(latent: seq<seq<T>>, nComponents: int, clusterSelection: int, clusters: seq<int>,
                             clusterNames: map<int, string>, labels: Option<seq<int>>, labelNames: seq<(string, int)>,
                             colorBy: ColorBy)
    requires ValidRequest(latent, clusterSelection, clusters, clusterNames, Unlabeled, labels, labelNames, colorBy)
    ensures var labs := EffectiveLabels(labels, |latent|);
      clusterSelection == -1 ==> forall i :: 0 <= i < |latent| ==>
        (Shown(clusterSelection, Unlabeled, clusters, labs, labelNames, i) <==> labs[i] == -1)
    ensures clusterSelection > -1 ==>
      && ValidRequest(latent, clusterSelection, clusters, clusterNames, AllLabels, labels, labelNames, colorBy)
      && ScatterFigure(latent, nComponents, clusterSelection, clusters, clusterNames, Unlabeled, labels, labelNames, colorBy)
         == ScatterFigure(latent, nComponents, clusterSelection, clusters, clusterNames, AllLabels, labels, labelNames, colorBy)
  {
    if clusterSelection > -1 {
      var n := |latent|;
      var labs := EffectiveLabels(labels, n);
      assert ShownMask(n, clusterSelection, Unlabeled, clusters, labs, labelNames)
          == ShownMask(n, clusterSelection, AllLabels, clusters, labs, labelNames);
    }
  }

  /** The name map: by cluster it is `cluster_names` itself; by label it is
      `label_names` inverted, with -1 named "Unlabeled" (replacing any name
      stored under -1), every id of `label_names` a key, no other key, and
      each id named by the last name carrying it. */
  lemma NameMapLaws(colorBy: ColorBy, clusterNames: map<int, string>, labelNames: seq<(string, int)>)
    ensures colorBy == ByCluster ==> NameMap(colorBy, clusterNames, labelNames) == clusterNames
    ensures var m := NameMap(colorBy, clusterNames, labelNames);
      colorBy == ByLabel ==>
        && -1 in m && m[-1] == "Unlabeled"
        && (forall k :: 0 <= k < |labelNames| ==> labelNames[k].1 in m)
        && (forall id :: id in m && id != -1 ==> exists k :: 0 <= k < |labelNames| && labelNames[k].1 == id)
        && (forall k ::
              (0 <= k < |labelNames| && labelNames[k].1 != -1 &&
               forall j :: k < j < |labelNames| ==> labelNames[j].1 != labelNames[k].1) ==>
              m[labelNames[k].1] == labelNames[k].0)
  {
    InvertedLaws(labelNames);
  }
}
