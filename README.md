# Latent-space explorer: scatter and line-plot bookkeeping

This project models the index bookkeeping of a small Dash application. The
application shows a two- or three-dimensional scatter plot of latent vectors
and, beside it, a line plot of the data rows behind the points the user
selects or clicks. The model covers the following steps:

- **Grouping** (`generate_scattergl_plot`, `generate_scatter3d_plot`). The
  points are split into one marker trace per distinct label. Each point is
  tagged, in the trace's `customdata`, with its position or with a supplied
  custom index.
- **Filtering** (`generate_scatter_plot`). The points are chosen by cluster
  and label, using the sentinels -1 (all clusters / unlabeled) and -2 (all
  labels). The id-to-name map is built here. The shown points go to the
  builders with their original indices as custom indices.
- **Resolving** (`update_heatmap`). A box/lasso selection or a click is
  mapped back to data rows through each point's `customdata[0]`.
- **Shaping** (`generate_heatmap_plot`). The resolved rows are drawn as
  their column-wise mean or standard deviation.

Files and modules:

| file | module | contents |
|---|---|---|
| `outcomes.dfy` | `Outcomes` | `Option`, `Result`, and the exceptions the code can raise (`IndexError`, `NameError`) as values |
| `indexing.dfy` | `Indexing` | `np.arange`, `np.where`, fancy indexing, rectangular arrays |
| `traces.dfy` | `Traces` | the grouping loop as methods, specified by the function `Grouping` (a map from label to trace) |
| `scatter.dfy` | `Scatter` | `generate_scatter_plot` as methods, specified by the function `ScatterFigure` and the filter predicate `Shown` |
| `line_plot.dfy` | `LinePlot` | `generate_heatmap_plot` over reals, with the intended variant |
| `viewer.dfy` | `Viewer` | `update_heatmap`, and the round trip from scatter points to data rows |

Coordinates are only copied, so they have a generic type. Traces are keyed
by label in a map, because the code iterates over a Python `set` and so
fixes no trace order. `label_names` is modelled as the sequence of its
items in insertion order. Inverting it keeps the last name of an id, so the
order matters.

The `ndim == 1` branch (utils/plot_utils.py:15-16) would draw a single row
as it is, but `shape[1]` at line 14 fails first; the model follows the code
as written and gives the intended behaviour beside it (see Findings).

## Model

| member | source | states |
|---|---|---|
| `Indexing.Range` | utils/plot_utils.py:14 | `np.arange(n)` has length n and holds each position at its own index |
| `Indexing.Where` | utils/plot_utils.py:241 | `np.where(mask)[0]` holds exactly the positions where the mask is true, in strictly ascending order |
| `Indexing.Gather` | utils/plot_utils.py:61-62 | `[a[i] for i in idx]` has one element per index, and element k is `a[idx[k]]` |
| `Indexing.WhereAll` | utils/plot_utils.py:214-226 | a mask that holds everywhere selects every position: `where` gives `arange(n)` |
| `Traces.Members` | utils/plot_utils.py:60 | the positions carrying a label are strictly ascending, each carries the label, and every position carrying it is listed |
| `Traces.Distinct` | utils/plot_utils.py:54 | `set(labels)` as a duplicate-free sequence that has exactly the labels' elements |
| `Traces.LabelTrace` | utils/plot_utils.py:59-77 | one loop iteration builds the trace the grouping specifies for that label: its name, its coordinates gathered at the member positions, and its tags as one-element rows |
| `Traces.GroupByLabel` | utils/plot_utils.py:53-80 | the loop over the distinct labels builds exactly one trace per label, each equal to the specified trace (loop invariant over the labels seen so far) |
| `Traces.ScatterGlPlot` | utils/plot_utils.py:31-91 | the 2-D builder returns the grouping of `[x, y]`, and every trace has two coordinate lists |
| `Traces.Scatter3dPlot` | utils/plot_utils.py:94-159 | the 3-D builder returns the grouping of `[x, y, z]`, and every trace has three coordinate lists |
| `Traces.TraceAt` | utils/plot_utils.py:60-75 | the trace of an occurring label is named by the name map, holds one tag per member position, and holds the coordinates at exactly those positions |
| `Traces.GroupingKeys` | utils/plot_utils.py:54-58 | there is one trace per distinct label and no other; each is non-empty and named by the map; no points give no traces |
| `Traces.GroupingCovers` | utils/plot_utils.py:58-67 | without custom indices every point sits, tagged with its position, in the trace of its own label |
| `Traces.GroupingTagsSound` | utils/plot_utils.py:60-67 | without custom indices every tag in a label's trace is a position carrying that label, the tags ascend, and the coordinates are those of the tagged points |
| `Traces.PositionTagsAreDefault` | utils/plot_utils.py:64-67 | passing the positions themselves as custom indices gives the same traces as passing none |
| `Scatter.Lookup` | utils/plot_utils.py:240 | `label_names[key]` on a dict is the id stored under that key |
| `Scatter.InvertedLaws` | utils/plot_utils.py:211 | the inverted dict has every id as a key and no other key, and each id is named by the last item carrying it |
| `Scatter.NameMapLaws` | utils/plot_utils.py:204-212 | colouring by cluster uses `cluster_names` unchanged; colouring by label uses the inverted `label_names` plus -1 named "Unlabeled", which overrides any name stored under -1 |
| `Scatter.SelectPoints` | utils/plot_utils.py:235-253 | the three sequential filter blocks compute exactly the ascending indices of the points the filter predicate admits |
| `Scatter.ShownIndicesLaws` | utils/plot_utils.py:235-253 | the shown indices ascend, each passes the filter, and every point passing the filter is among them |
| `Scatter.PlotAllPoints` | utils/plot_utils.py:214-226 | the unfiltered branch draws all points grouped by id without custom indices; too few coordinates raise `IndexError` |
| `Scatter.PlotSelectedPoints` | utils/plot_utils.py:255-272 | the filtered branch draws the selected points grouped by id with their original indices as custom indices; other component counts leave `scatter_data` unbound; too few coordinates raise `IndexError` |
| `Scatter.ScatterPlot` | utils/plot_utils.py:162-280 | the whole function returns the specified figure or exception for every valid request |
| `Scatter.ScatterFigureFails` | utils/plot_utils.py:214-272 | exactly the filtered requests for neither 2 nor 3 components raise `NameError`; exactly the remaining requests for more coordinates than the vectors have raise `IndexError`; all others give a figure |
| `Scatter.UnfilteredFigure` | utils/plot_utils.py:214-226 | with all clusters and all labels the figure is the plain grouping of every point without custom indices |
| `Scatter.UnfilteredShowsEveryPoint` | utils/plot_utils.py:214-226 | unfiltered, every point appears in the trace of its own id, tagged with its position in `latent_vectors` |
| `Scatter.MaskedTraceLaws` | utils/plot_utils.py:255-272 | in the trace of an id, each tag is a selected point carrying that id, the trace displays that point's coordinates, and the tags ascend |
| `Scatter.ShownTagsAreOrigins` | utils/plot_utils.py:235-272 | every tag in the figure is the original index of a point that passes the filter and carries the trace's id; the point displays that vector's coordinates; tags ascend within a trace |
| `Scatter.ShownPointsCovered` | utils/plot_utils.py:235-272 | a point passes the filter if and only if it appears, tagged with its original index, in the trace of its own id |
| `Scatter.UnlabeledSentinel` | utils/plot_utils.py:238-253 | label -1 keeps only unlabeled points across all clusters, but within one cluster it filters nothing: the figure equals the all-labels figure |
| `LinePlot.HeatmapPlot` | utils/plot_utils.py:5-28 | an empty selection gives a blank figure; a single unwrapped row raises `IndexError` at `shape[1]`; a list of rows gives one line over the column positions |
| `LinePlot.MeanWithinColumnBounds` | utils/plot_utils.py:17-18 | each value of the mean line lies between the bounds of its column |
| `LinePlot.VariancesNonNegative` | utils/plot_utils.py:19-20 | the values whose roots the standard-deviation line plots are never negative |
| `LinePlot.CopiesOfOneRow` | utils/plot_utils.py:17-20 | copies of one row have that row as mean and a zero deviation; in particular a one-row selection is its own mean |
| `LinePlot.TwoRowExample` | utils/plot_utils.py:17-20 | `[[1, 1], [3, 3]]` has mean `[2, 2]` and deviation `[1, 1]` (the roots of the variances `[1, 1]`) |
| `LinePlot.SingleRowFails` | utils/plot_utils.py:13-16 | a non-empty unwrapped row never reaches the `ndim == 1` branch: it raises `IndexError` |
| `LinePlot.IntendedHeatmapPlot` | utils/plot_utils.py:15-16 | with the `ndim == 1` branch reachable, every selection gives a figure, and exactly the empty ones give a blank figure |
| `LinePlot.IntendedRowIsOneRowMean` | utils/plot_utils.py:15-16 | as intended, a single row is drawn exactly as the mean of the one-row selection holding it |
| `Viewer.FirstTag` | callbacks/image_viewer.py:41 | `point["customdata"][0]` is the first tag, and an empty tag row raises `IndexError` |
| `Viewer.PyIndex` | callbacks/image_viewer.py:43 | `data[i]` succeeds exactly for `-len <= i < len`, and a negative index counts from the end |
| `Viewer.NegativeTagsWrap` | callbacks/image_viewer.py:43 | a tag `i - len(data)` picks the same row as `i`, and `i + len(data)` raises |
| `Viewer.SelectedIndices` | callbacks/image_viewer.py:40-42 | the comprehension succeeds exactly when every point has a tag, and it returns the tags in point order |
| `Viewer.SelectedRows` | callbacks/image_viewer.py:43 | the comprehension succeeds exactly when every index is in range, and it returns the indexed rows in order |
| `Viewer.ResolveSelection` | callbacks/image_viewer.py:38-48 | a selection with points gives the rows of all its points in order, or `IndexError`; otherwise a click with points gives the unwrapped row of its first point; otherwise `[]` |
| `Viewer.SelectionTakesPrecedence` | callbacks/image_viewer.py:39-45 | when the selection has points, the click is not consulted |
| `Viewer.ClickUsesFirstPoint` | callbacks/image_viewer.py:45-46 | a click is consulted only through its first point |
| `Viewer.UpdateHeatmap` | callbacks/image_viewer.py:32-51 | no selection and no click draw a blank figure; a figure drawn for a selection means that every selected point resolved |
| `Viewer.SelectionDrawsColumnStatistics` | callbacks/image_viewer.py:38-51 | selecting points whose tags index `data` draws, over the columns of `data`, the column-wise mean (or the roots of the column-wise variances) of the tagged rows in selection order, whatever the click holds |
| `Viewer.IntendedUpdateHeatmap` | callbacks/image_viewer.py:32-51 | the same callback drawing through the intended line plot: no selection and no click draw a blank figure |
| `Viewer.ResolvesPickedTags` | callbacks/image_viewer.py:40-43 | selecting points whose tags index `data` resolves, in selection order, to the rows at those tags |
| `Viewer.SelectingScatterPointsResolvesTheirRows` | callbacks/image_viewer.py:40-43 | round trip: selecting any points of a scatter figure resolves, in selection order, to `data[j]`, where j is the shown latent vector whose coordinates the point displays |
| `Viewer.ClickedScatterPointFails` | callbacks/image_viewer.py:45-46 | as written, clicking any point of a scatter figure with non-empty data rows raises `IndexError` |
| `Viewer.ClickedScatterPointPlotsItsRow` | callbacks/image_viewer.py:45-46 | as intended, clicking a point of a scatter figure draws the data row of the latent vector the point was drawn from |

## Left out

- `utils/data_utils.py` is not part of this model. It draws random Gaussian data with floating-point `exp`, so it has nothing deterministic to state.
- `callbacks/update_data.py`, `app.py`, `components/controls.py` and `components/image_viewer.py` are not part of this model. They hold Dash layout and callback wiring only.
- `update_scatter_plot` (callbacks/image_viewer.py:11-21) is not modelled. It copies axis ranges out of a Plotly figure dict.
- Plotly styling is not modelled: margins, `dragmode`, legend placement under `show_legend`, marker size and the trace mode.
- Trace order is not modelled. The code iterates over a `set`, so traces are a map keyed by label.
- Numbers are mathematical reals, not IEEE floats. The mean and variance are exact, and rounding is not modelled.
- LinePlot.HeatmapPlot: the standard-deviation line is given by the variances whose square roots it plots (`SquareRoots`). The roots themselves are not computed, because Dafny's reals have no square root.
- Display options other than "mean" and "sigma" are not modelled. They would leave `heatmap_data` unbound, but the toggle offers only those two values.
- `cluster_selection < -1` is excluded by `ValidRequest`. It leaves `selected_indices` as `None`, which the code never intends.
- Ragged arrays are excluded: `latent_vectors` and `data` must be rectangular (`Rectangular`). numpy would build an object array from ragged rows.
- Lists of mismatched lengths are excluded by preconditions: `clusters` against `latent_vectors` wherever the code reads it.
- Scatter.ScatterPlot: `ValidRequest` requires a given `labels` list to be as long as `latent_vectors` on every path, although with colouring by cluster and no label filter the code never reads it and still draws a figure; such inputs are not modelled.
- Scatter.ScatterFigureFails: `ValidRequest` requires a name for every shown id on every path, although the code raises `IndexError` (utils/plot_utils.py:217-223, 258-268) or `NameError` (utils/plot_utils.py:274) before any name lookup; for requests lacking such a name the model states nothing.
- A missing dictionary key raises `KeyError`. The model makes this a precondition, not an error value: a label without a name in the builders (`Groupable`), a shown id without a name (`ValidRequest`, demanded on every path as said above), and a `label_selection` that is not a key of `label_names` (`HasKey`).
- `label_names=None` is modelled as the empty item list, which gives the same name map.
- `cluster_names=None` with colouring by cluster is not modelled. It fails on the first name lookup, so it falls under the missing-name precondition.
- `label_names` keys are names (strings). Ids are integers, and the model does not look at the types numpy would infer.
- A point dict without a `customdata` key (a `KeyError`) is not modelled. Every point the builders draw carries one.
- Dash's callback machinery is not modelled: `prevent_initial_call`, the `Input`/`State` plumbing and serialisation of the figure to the browser.

## Findings

| source | as written | input that shows it | evidently intended | confidence | as-written member | corrected member |
|---|---|---|---|---|---|---|
| utils/plot_utils.py:14-16 | `x = np.arange(selected_images.shape[1])` runs before the `selected_images.ndim == 1` test, so a one-dimensional input raises `IndexError` and the `ndim == 1` branch is dead; the click path of callbacks/image_viewer.py:46 always passes such a row | a click (no selection) on any scatter point whose data row is `[0.5, 0.7]`: `np.array([0.5, 0.7]).shape[1]` raises | a single row is drawn as it is, over its positions `0 .. len-1` | not executed | `Viewer.ClickedScatterPointFails` | `Viewer.ClickedScatterPointPlotsItsRow` |
