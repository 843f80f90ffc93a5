/**
 * The decision rules in app.py that choose what a view shows from the
 * stored legacy values and the widgets' current values: minimum file and
 * metric counts, the default metric selection, and the category filter.
 * The charts and tables themselves are not part of this model.
 */
module Views {
  import opened Wrappers
  import opened Legacy
  import opened Ordering

  const AllCategories := "All Categories"
  const MinBoxPlotFiles := 3
  const MinCorrelationMetrics := 2
  const MinComparedMetrics := 2
  const MaxComparedMetrics := 10
  const DefaultComparedMetrics := 3

  /** What a select box over `keys` can return: one of them, or `None` when there is none. */
  predicate Offered(keys: set<string>, choice: Option<string>)
  {
    if keys == {} then choice.None? else choice.Some? && choice.value in keys
  }

  /** `if category:` on a select box's value: a non-empty string. */
  predicate Chosen(choice: Option<string>)
  {
    choice.Some? && choice.value != ""
  }

  datatype Notice = NeedThreeFiles | NeedTwoMetrics | SelectTwoMetrics | TooManyMetrics

  /** What a chart view ends up showing. */
  datatype Panel =
    | Warning(notice: Notice)
    | Info(notice: Notice)
    | Blank
    | BoxPlot(category: string, metric: string)
    | Correlation(category: string)
    | Comparison(category: string, metrics: seq<string>)
    | CategoryChart(category: string, enhanced: bool, disclaimer: bool)

  function Min(a: int, b: int): int
  {
    if a <= b then a else b
  }

  /** `display_box_plot_selection`: refused below three files. */
  function BoxPlotView(results: LegacyResults, files: seq<Json>, category: Option<string>, metric: Option<string>): (p: Panel)
    requires Offered(results.Keys, category)
    requires category.Some? ==> Offered(results[category.value].Keys, metric)
    ensures p == Warning(NeedThreeFiles) <==> |files| < MinBoxPlotFiles
    ensures p.BoxPlot? <==> |files| >= MinBoxPlotFiles && Chosen(category) && Chosen(metric)
    ensures p.BoxPlot? ==> p == BoxPlot(category.value, metric.value)
    ensures p.BoxPlot? ==> p.category in results && p.metric in results[p.category]
    ensures |files| >= MinBoxPlotFiles && !(Chosen(category) && Chosen(metric)) ==> p == Blank
  {
    if |files| < MinBoxPlotFiles then Warning(NeedThreeFiles)
    else if !Chosen(category) then Blank
    else if !Chosen(metric) then Blank
    else BoxPlot(category.value, metric.value)
  }

  /** `display_correlation_matrix_selection`: refused below two metrics in the category. */
  function CorrelationView(results: LegacyResults, category: Option<string>): (p: Panel)
    requires Offered(results.Keys, category)
    ensures p.Correlation? <==> Chosen(category) && |results[category.value]| >= MinCorrelationMetrics
    ensures p == Warning(NeedTwoMetrics) <==> Chosen(category) && |results[category.value]| < MinCorrelationMetrics
    ensures p.Correlation? ==> p == Correlation(category.value)
    ensures p.Correlation? ==> p.category in results
    ensures !Chosen(category) ==> p == Blank
  {
    if !Chosen(category) then Blank
    else if |results[category.value]| < MinCorrelationMetrics then Warning(NeedTwoMetrics)
    else Correlation(category.value)
  }

  /** The multiselect's default: the first `min(3, n)` of the available metrics. */
  function DefaultSelection(available: seq<string>): (r: seq<string>)
    ensures |r| == Min(DefaultComparedMetrics, |available|)
    ensures r == available[..|r|]
  {
    if available != [] then available[..Min(DefaultComparedMetrics, |available|)] else []
  }

  /**
   * The default selection over a category's sorted metric names holds its
   * `min(3, n)` smallest names, in order.
   */
  lemma DefaultSelectsSmallest(keys: set<string>)
    ensures var r := DefaultSelection(SortedKeys(keys));
            && |r| == Min(DefaultComparedMetrics, |keys|)
            && Ascending(r)
            && (forall i :: 0 <= i < |r| ==> r[i] in keys)
            && forall i, k :: 0 <= i < |r| && k in keys && k !in r ==> Below(r[i], k)
  {
    var sorted := SortedKeys(keys);
    PrefixIsSmallest(sorted, keys, |DefaultSelection(sorted)|);
  }

  /** A prefix of an ascending listing of `keys` is ascending and precedes every other key. */
  lemma PrefixIsSmallest(sorted: seq<string>, keys: set<string>, n: nat)
    requires Ascending(sorted) && n <= |sorted|
    requires forall k :: k in sorted <==> k in keys
    ensures Ascending(sorted[..n])
    ensures forall i :: 0 <= i < n ==> sorted[..n][i] in keys
    ensures forall i, k :: 0 <= i < n && k in keys && k !in sorted[..n] ==> Below(sorted[..n][i], k)
  {
  }

  /** The metrics compared: the user's own choice, or the default while there is none. */
  function ComparedMetrics(results: LegacyResults, category: string, edited: Option<seq<string>>): seq<string>
    requires category in results
  {
    if edited.Some? then edited.value else DefaultSelection(SortedKeys(results[category].Keys))
  }

  /**
   * `display_multi_metric_comparison`: renders for two to ten selected
   * metrics and otherwise asks for a different selection.
   */
  function ComparisonView(results: LegacyResults, category: Option<string>, edited: Option<seq<string>>): (p: Panel)
    requires Offered(results.Keys, category)
    requires category.Some? && edited.Some? ==>
               forall i :: 0 <= i < |edited.value| ==> edited.value[i] in results[category.value]
    ensures !Chosen(category) ==> p == Blank
    ensures Chosen(category) ==>
              var n := |ComparedMetrics(results, category.value, edited)|;
              && (p == Info(SelectTwoMetrics) <==> n < MinComparedMetrics)
              && (p == Warning(TooManyMetrics) <==> n > MaxComparedMetrics)
              && (p.Comparison? <==> MinComparedMetrics <= n <= MaxComparedMetrics)
    ensures p.Comparison? ==>
              && Chosen(category)
              && p == Comparison(category.value, ComparedMetrics(results, category.value, edited))
    ensures p.Comparison? ==>
              && p.category in results
              && MinComparedMetrics <= |p.metrics| <= MaxComparedMetrics
              && forall i :: 0 <= i < |p.metrics| ==> p.metrics[i] in results[p.category]
  {
    if !Chosen(category) then Blank
    else
      var selected := ComparedMetrics(results, category.value, edited);
      if |selected| < MinComparedMetrics then Info(SelectTwoMetrics)
      else if |selected| > MaxComparedMetrics then Warning(TooManyMetrics)
      else Comparison(category.value, selected)
  }

  /**
   * With the default selection the comparison renders exactly when the
   * category has at least two metrics, and then compares its (up to) three
   * smallest metric names.
   */
  lemma DefaultComparison(results: LegacyResults, category: Option<string>)
    requires Offered(results.Keys, category) && Chosen(category)
    ensures ComparisonView(results, category, None).Comparison? <==> |results[category.value]| >= MinComparedMetrics
    ensures ComparisonView(results, category, None).Comparison? ==>
              ComparisonView(results, category, None).metrics == DefaultSelection(SortedKeys(results[category.value].Keys))
  {
  }

  /**
   * `display_category_chart_selection`: any non-default option picks the
   * enhanced bar chart, whose disclaimer shows for more than one file; the
   * default chart's disclaimer comes from the legacy visualiser.
   */
  function CategoryChartView(files: seq<Json>, category: Option<string>,
                             horizontal: bool, stacked: bool, gradients: bool,
                             legacyDisclaimer: bool): (p: Panel)
    ensures p.CategoryChart? <==> Chosen(category)
    ensures !p.CategoryChart? ==> p == Blank
    ensures p.CategoryChart? ==> p.category == category.value && p.enhanced == (horizontal || stacked || gradients)
    ensures p.CategoryChart? && p.enhanced ==> (p.disclaimer <==> |files| > 1)
    ensures p.CategoryChart? && !p.enhanced ==> p.disclaimer == legacyDisclaimer
  {
    if !Chosen(category) then Blank
    else if horizontal || stacked || gradients then CategoryChart(category.value, true, |files| > 1)
    else CategoryChart(category.value, false, legacyDisclaimer)
  }

  /** The "Filter by Category" options: "All Categories", then the sorted keys. */
  function FilterOptions(results: LegacyResults): (r: seq<string>)
    ensures |r| == |results| + 1 && r[0] == AllCategories
    ensures Ascending(r[1..])
    ensures forall k :: k in r[1..] <==> k in results
  {
    [AllCategories] + SortedKeys(results.Keys)
  }

  /** The filter handed to the table: `None` for "All Categories", else the chosen key. */
  function CategoryFilter(selected: string): (r: Option<string>)
    ensures r.None? <==> selected == AllCategories
    ensures r.Some? ==> r.value == selected
  {
    if selected == AllCategories then None else Some(selected)
  }

  /**
   * Every filter option yields either no filter or one of the stored
   * categories, and every category can be chosen except one literally named
   * "All Categories", which selects all of them instead.
   */
  lemma FilterCoversCategories(results: LegacyResults, k: string)
    ensures forall i :: 0 <= i < |FilterOptions(results)| ==>
              var f := CategoryFilter(FilterOptions(results)[i]);
              f.None? || f.value in results
    ensures (exists i :: 0 <= i < |FilterOptions(results)| && CategoryFilter(FilterOptions(results)[i]) == Some(k)) <==>
              k in results && k != AllCategories
  {
    var opts := FilterOptions(results);
    forall i | 0 <= i < |opts| ensures CategoryFilter(opts[i]).None? || CategoryFilter(opts[i]).value in results {
      if i > 0 { assert opts[i] == opts[1..][i - 1]; }
    }
    if k in results && k != AllCategories {
      assert k in opts[1..];
      var j :| 0 <= j < |opts[1..]| && opts[1..][j] == k;
      assert CategoryFilter(opts[j + 1]) == Some(k);
    }
  }
}
