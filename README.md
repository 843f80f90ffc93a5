# VNG Data Analyzer: the parse/analyse boundary and the legacy session format

This project models the layer of the VNG Data Analyzer that sits around its
parsing and analysis services. That layer lives in the Streamlit app
(`app.py`) and in the AI-interpretation component
(`ui/components/interpretation.py`). It covers:

- **The "Analyze" batch.** Uploads are validated, read and parsed in upload
  order. The first file that raises aborts the whole batch, and nothing is
  stored. When every file parses and the analysis succeeds, the parsed files
  and the results are flattened into the "legacy format" and stored in
  session state. The same step clears the selection and the interpretation.
- **The legacy format.** It is a set of nested dictionaries of primitives.
  A parsed file becomes `{name, data: category -> metric -> {value, is_flagged}}`.
  The results become `category -> metric -> {values, flags, delta, percent_change, std_dev}`.
- **Rebuilding `AnalysisResults` from that dictionary.** This happens before
  the interpretation service is called. `file_count` and `total_metrics` are
  recomputed from the stored shapes. The interpretation text is stored only
  when the service returns non-empty text.
- **The view gates.** The box plot needs three files and the correlation
  matrix needs two metrics. The multi-metric comparison needs between two and
  ten selected metrics, and its default is the first `min(3, n)` sorted metric
  names. The category filter offers "All Categories" and then the sorted keys.
  On the enhanced path the category chart shows its disclaimer when there is
  more than one file.

Modules:

- `Wrappers`: Option, Result and Outcome.
- `Models`: the typed domain objects (`ParsedFile`, `MetricValue`,
  `AnalysisResults`, `AnalysisResult`, `MetricData`).
- `Ordering`: Python's `<` on strings and `sorted` over a key set.
- `Legacy`: the dictionary value type `Json`, path lookup, and the two
  flattening comprehensions.
- `Reconstruct`: the reconstruction and its round trip.
- `Batch`: the per-file loop.
- `Session`: the session-state effects of both actions.
- `Views`: the gating rules.

The services are passed in as functions that either return a value or fail
with a `ServiceError`, because their code is not part of this model. That
covers validation, reading, parsing, analysis and AI interpretation. Widget
values (clicks, select-box and multiselect values, checkboxes) are
parameters. A `requires` on a view function states only what the widget
itself guarantees: a select box returns one of its options, or `None` when it
has none.

Two points about the code that the model states outright:

- A per-file error could have been reported while the other files go on.
  The code returns at the first failing file (`app.py:77-82`), so the model
  proves that later files are never processed and that nothing is stored.
  That early return also skips the result tabs on that rerun, even when
  results from an earlier run are still stored.
- The inner check "no valid files were processed" (`app.py:84-86`) is never
  reached: the loop either returns or yields one record per upload, and the
  upload list is non-empty there. The model has no branch for it. `PlanRun`
  proves instead that a completed run holds `0 < |parsed| == |uploads|`.

Edge cases the model makes explicit:

- A category whose name is the empty string is never rendered by the six
  selection views of the Charts tab (`app.py:194-212`), because each of them
  tests `if category:`, which is false for `""`. The Overview heatmap
  (`app.py:181-183`) and the unfiltered table (`app.py:232`) receive the
  whole results dictionary without that test.
  A metric named `""` is skipped only by the line chart and the box plot
  (`if metric:` at `app.py:253` and `app.py:371`). The correlation matrix,
  the multi-metric comparison and the category chart take every metric of
  the category, including one named `""`.
- A category literally named "All Categories" cannot be chosen alone in the
  detailed-analysis filter. Choosing it means "no filter".
- When the analysis returns no category, the stored results dictionary is
  empty. The result tabs then stay hidden and an interpretation request is
  refused.

## Model

| member | source | states |
|---|---|---|
| Legacy.FlattenFiles | app.py:92-107 | `file_data_list` has one entry per parsed file, and entry i carries file i's name |
| Legacy.FlattenFilesEntries | app.py:92-107 | entry i of `file_data_list` holds exactly file i's (category, metric) entries, each `value` and `is_flagged` copied from file i |
| Legacy.FlattenFileKeys | app.py:92-107 | a flattened file carries its name, exactly its category key set, and exactly each category's metric key set |
| Legacy.FlattenFileEntries | app.py:92-107 | `data[c][m]` exists in the flattened file iff the file has that (category, metric) pair, and its `value` and `is_flagged` are copied unchanged |
| Legacy.FlattenFile | app.py:93-105 | an entry is a dictionary with exactly the keys `name` and `data`, `name` holding the file's name (contents: see `FlattenFileKeys`, `FlattenFileEntries`) |
| Legacy.FlattenMetricData | app.py:112-118 | a statistics record has exactly the five keys, its `values` and `flags` lists as long as the originals (contents: see `Reconstruct.DecodeFlattened`) |
| Legacy.FlattenResults | app.py:110-122 | `analysis_results_dict` has exactly the categories of `results`, exactly each category's metric keys, and the same (category, metric) pairs |
| Reconstruct.DecodeMetricData | ui/components/interpretation.py:76-82 | a `MetricData` is built iff all five fields are present with their types; each of the five fields is copied verbatim from the entry |
| Reconstruct.DecodeFlattened | ui/components/interpretation.py:76-82 | decoding a flattened statistics record gives back the original `MetricData` |
| Reconstruct.TotalMetrics | ui/components/interpretation.py:92 | the sum of the per-category metric counts equals the number of (category, metric) entries |
| Reconstruct.RebuildCategory | ui/components/interpretation.py:73-85 | the rebuilt category is named by its key and has the same metric keys, each with the decoded statistics |
| Reconstruct.RebuildResults | ui/components/interpretation.py:72-87 | one `AnalysisResult` per category key, its `category` equal to the key, with the same metric keys and decoded entries |
| Reconstruct.Rebuild | ui/components/interpretation.py:72-93 | reconstruction succeeds iff every entry decodes; `file_count` is the length of the file list and `total_metrics` the number of entries |
| Reconstruct.RebuildFlattenedCategory | ui/components/interpretation.py:73-85 | rebuilding a flattened category gives its metrics back unchanged, under the key's name |
| Reconstruct.RebuildFlattenedResults | ui/components/interpretation.py:72-87 | the flattened results always decode, and rebuilding renames every category by its key |
| Reconstruct.RebuildFlattenRoundTrip | ui/components/interpretation.py:72-93 | rebuilding the flattened results gives the original value back iff every category equals its key, `file_count` is the file-list length and `total_metrics` the entry count |
| Batch.ProcessFile | app.py:66-82 | validate, read and parse in that order; the first stage that raises decides the error, which is exactly the validator's, the reader's or the parser's own; a record only when all three succeed, and then the parser's record |
| Batch.ParseBatch | app.py:63-82 | a successful batch holds one record per upload; a failure names a real upload, by position and name (see `ParseBatchSucceeds`, `ParseBatchFailsAtFirst`, `ParseBatchIgnoresLaterFiles`) |
| Batch.ParseBatchSucceeds | app.py:63-76 | the batch succeeds iff every file validates, reads and parses; it then holds one record per upload, in upload order |
| Batch.ParseBatchFailsAtFirst | app.py:64-82 | a failed batch names the first failing file, with its position, its name and the error it raised; every earlier file succeeded |
| Batch.ParseBatchIgnoresLaterFiles | app.py:77-82 | once a file has failed, files after it do not change the outcome |
| Batch.ParseUploads | app.py:63-82 | the loop over the uploads computes exactly the batch outcome |
| Session.AnalysisRequested | app.py:52-59 | the action runs iff the button was clicked and at least one file is uploaded; the disabled button adds no further condition |
| Session.PlanRun | app.py:52-89 | nothing runs without a click on an enabled button and a non-empty upload list; a rejected file is the batch's failure, the first failing upload, reported with its position, its own name and its error; a completed run holds one record per upload, in order, and the analysis result |
| Session.SessionState.RunAnalysis | app.py:59-143 | both flattened values are stored, and the selection and the interpretation cleared, only after a completed run; otherwise session state is unchanged; the tabs then show iff the new results have a category after a completed run, never after a rejected file, and otherwise iff the earlier stored values are non-empty |
| Session.SessionState.constructor | app.py:32 | session state starts with nothing stored |
| Session.Populated | app.py:143 | both stored values are present and non-empty, as Python's truth test on a dictionary and a list reads them (see `PlanInterpretation`, `PopulatedAfterRun`) |
| Session.TabsShown | app.py:77-143 | a rerun that rejected a file never shows the tabs; any other rerun shows them iff both stored values are non-empty |
| Session.PopulatedAfterRun | app.py:143 | after a completed run the result tabs appear iff the analysis produced some category |
| Session.Reply | ui/components/interpretation.py:96-102 | an interpretation is kept iff the service returned a non-empty text |
| Session.PlanInterpretation | ui/components/interpretation.py:64-96 | with either stored value missing or empty nothing is reconstructed and no service is called; an unconvertible dictionary stops before the service; otherwise the service's reply decides |
| Session.InterpretationSeesAnalysis | ui/components/interpretation.py:64-96 | after a completed run with well-formed results, the service receives exactly the analysed results |
| Session.SessionState.GetInterpretation | ui/components/interpretation.py:59-102 | only the interpretation slot changes, and only to a non-empty text the service returned |
| Views.BoxPlotView | app.py:351-375 | a warning iff there are fewer than 3 files; otherwise the box plot of exactly the chosen category and metric when both are non-empty, and nothing shown when either is not |
| Views.CorrelationView | app.py:384-400 | nothing shown without a chosen category; a warning iff it has fewer than 2 metrics; otherwise the matrix of exactly the chosen category |
| Views.DefaultSelection | app.py:422 | the default is the first `min(3, n)` entries of the metric list (see `DefaultSelectsSmallest`) |
| Views.DefaultSelectsSmallest | app.py:418-422 | the default multiselect holds the `min(3, n)` smallest metric names of the category, ascending |
| Views.ComparisonView | app.py:409-440 | nothing shown without a chosen category; a hint below 2 and a warning above 10 compared metrics; otherwise a comparison of exactly the chosen category and the compared metrics (the user's selection, or the default), all metrics of that category |
| Views.DefaultComparison | app.py:417-431 | with the default selection the comparison renders iff the category has at least 2 metrics, and then compares the default metrics |
| Views.CategoryChartView | app.py:283-318 | any non-default chart option selects the enhanced bar chart, whose disclaimer is shown iff there is more than one file |
| Ordering.SortedKeys | app.py:222 | `sorted(keys)` holds every key once, and only keys, in strictly ascending order |
| Views.FilterOptions | app.py:222 | the options are "All Categories" followed by the sorted category keys |
| Views.CategoryFilter | app.py:229 | the filter is `None` exactly for "All Categories" and otherwise the chosen value |
| Views.FilterCoversCategories | app.py:222-229 | every option yields no filter or a stored category; a category can be chosen iff it is not named "All Categories" |

## Left out

- Streamlit rendering is not modelled. That covers titles, tabs, spinners,
  messages (`st.error`, `st.success`, `st.info`), page configuration and
  styling. Only which panel or notice a view ends with is modelled.
- Chart construction, the heatmap, the tables and HTML export are left out.
  They are foreign plotting-library code. So is the line-chart and
  radar-chart selection, which gate only on a non-empty category and, for
  the line chart, a non-empty metric (`app.py:244`, `app.py:253`).
- The legacy visualiser's default category chart is a foreign call. Its
  disclaimer flag enters `Views.CategoryChartView` as a parameter.
- The internals of the file, parsing and analysis services are not part of
  this model, so no delta, percent-change, standard-deviation or anomaly
  formula appears. Each service is a function that returns a result or fails.
- `SessionRepository` is modelled as four slots of a class. The
  repository's own code is not part of this model, so the selection is
  represented only by whether one is held.
- The AI service, the API-key check and the secrets hint are left out
  (ui/components/interpretation.py:24-32). They are configuration plus an
  external network call. The service's reply is a parameter.
- Floating-point values are a `real` synonym on which nothing is computed,
  because the modelled code only copies them. NaN and the infinities (such
  as a sentinel `percent_change` for a zero baseline) have no `real` value.
- Python exceptions become `Result`/`Outcome` values. The model keeps only
  which exception kind was raised, not the message text shown to the user.
- Reconstruct.DecodeMetricData: it fails on a field whose stored type is
  wrong (for example a string where the list of values belongs). Python
  would build a `MetricData` holding that value unless the constructor checks
  types; domain/models.py is not part of this model. The only write of this
  dictionary (app.py:126) stores `FlattenResults` output, so such values never
  occur.
- Dictionary iteration order is not modelled, because Dafny maps are
  unordered. No modelled result depends on it: the sum in
  `Reconstruct.TotalMetrics` is order-independent, and a failed
  reconstruction fails whichever entry is met first.
