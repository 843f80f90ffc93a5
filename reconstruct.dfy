/**
 * Rebuilding `AnalysisResults` from the legacy dictionary kept in session
 * state, before it is handed to the interpretation service
 * (ui/components/interpretation.py, `get_interpretation`).
 */
module Reconstruct {
  import opened Wrappers
  import opened Models
  import opened Legacy
  import Ordering

  /** A list of numbers taken over verbatim; `None` if an item is not a number. */
  function DecodeNums(items: seq<Json>): (r: Option<seq<Num>>)
    ensures r.Some? <==> forall i :: 0 <= i < |items| ==> items[i].JNum?
    ensures r.Some? ==> NumList(r.value) == items
  {
    if forall i | 0 <= i < |items| :: items[i].JNum? then
      Some(seq(|items|, i requires 0 <= i < |items| => items[i].num))
    else None
  }

  /** A list of booleans taken over verbatim; `None` if an item is not a boolean. */
  function DecodeBools(items: seq<Json>): (r: Option<seq<bool>>)
    ensures r.Some? <==> forall i :: 0 <= i < |items| ==> items[i].JBool?
    ensures r.Some? ==> BoolList(r.value) == items
  {
    if forall i | 0 <= i < |items| :: items[i].JBool? then
      Some(seq(|items|, i requires 0 <= i < |items| => items[i].truth))
    else None
  }

  /** The five keys `MetricData` is built from. */
  predicate IsStatisticsKey(k: string)
  {
    k == ValuesKey || k == FlagsKey || k == DeltaKey || k == PercentChangeKey || k == StdDevKey
  }

  /**
   * `MetricData(values=data['values'], flags=data['flags'], ...)`: each of the
   * five fields is copied from the entry; `None` where the lookup would raise
   * or the stored field does not have the field's type.
   */
  function DecodeMetricData(entry: Json): (r: Option<MetricData>)
    ensures r.Some? ==> forall k :: IsStatisticsKey(k) ==> Get(entry, k) == Get(FlattenMetricData(r.value), k)
    ensures r.Some? <==> Conforms(entry)
  {
    if Conforms(entry) then
      Some(MetricData(DecodeNums(entry.fields[ValuesKey].items).value,
                      DecodeBools(entry.fields[FlagsKey].items).value,
                      entry.fields[DeltaKey].num,
                      entry.fields[PercentChangeKey].num,
                      entry.fields[StdDevKey].num))
    else None
  }

  /** Every one of the five fields is present with the type `MetricData` gives it. */
  predicate Conforms(entry: Json)
  {
    && Get(entry, ValuesKey).Some? && Get(entry, ValuesKey).value.JList?
    && DecodeNums(Get(entry, ValuesKey).value.items).Some?
    && Get(entry, FlagsKey).Some? && Get(entry, FlagsKey).value.JList?
    && DecodeBools(Get(entry, FlagsKey).value.items).Some?
    && Get(entry, DeltaKey).Some? && Get(entry, DeltaKey).value.JNum?
    && Get(entry, PercentChangeKey).Some? && Get(entry, PercentChangeKey).value.JNum?
    && Get(entry, StdDevKey).Some? && Get(entry, StdDevKey).value.JNum?
  }

  /** `sum(len(m) for m in analysis_results_dict.values())` */
  function TotalMetrics(dict: LegacyResults): (n: nat)
    ensures n == |Pairs(dict)|
    decreases |dict|
  {
    if dict == map[] then 0
    else
      var c := Ordering.Least(dict.Keys);
      PairsWithout(dict, c);
      |dict[c]| + TotalMetrics(dict - {c})
  }

  /** The pairs of a table split into those of one category and those of the rest. */
  lemma PairsWithout<T>(t: map<string, map<string, T>>, c: string)
    requires c in t
    ensures |Pairs(t)| == |t[c]| + |Pairs(t - {c})|
  {
    var row := set m | m in t[c].Keys :: (c, m);
    assert Pairs(t) == row + Pairs(t - {c});
    assert row !! Pairs(t - {c});
    RowSize(c, t[c].Keys);
  }

  lemma {:induction false} RowSize(c: string, ms: set<string>)
    ensures |set m | m in ms :: (c, m)| == |ms|
    decreases |ms|
  {
    if ms != {} {
      var m :| m in ms;
      RowSize(c, ms - {m});
      assert (set x | x in ms :: (c, x)) == (set x | x in ms - {m} :: (c, x)) + {(c, m)};
    }
  }

  /** Every entry of the dictionary converts to a `MetricData`. */
  predicate Decodable(dict: LegacyResults)
  {
    forall c, m | c in dict && m in dict[c] :: DecodeMetricData(dict[c][m]).Some?
  }

  /** The `results` comprehension: one `AnalysisResult` per category key. */
  function RebuildResults(dict: LegacyResults): (results: map<string, AnalysisResult>)
    requires Decodable(dict)
    ensures results.Keys == dict.Keys
    ensures CategoriesMatchKeys(results)
    ensures forall c :: c in dict ==> results[c].metrics.Keys == dict[c].Keys
    ensures forall c, m :: c in dict && m in dict[c] ==>
              Some(results[c].metrics[m]) == DecodeMetricData(dict[c][m])
  {
    map c | c in dict :: RebuildCategory(c, dict[c])
  }

  function RebuildCategory(c: string, metrics: map<string, Json>): (r: AnalysisResult)
    requires forall m | m in metrics :: DecodeMetricData(metrics[m]).Some?
    ensures r.category == c && r.metrics.Keys == metrics.Keys
    ensures forall m :: m in metrics ==> Some(r.metrics[m]) == DecodeMetricData(metrics[m])
  {
    AnalysisResult(c, map m | m in metrics :: DecodeMetricData(metrics[m]).value)
  }

  /**
   * The `AnalysisResults` handed to the interpretation service: the rebuilt
   * results, `file_count` the length of the file list and `total_metrics`
   * the number of (category, metric) entries; `None` where a conversion
   * would raise.
   */
  function Rebuild(dict: LegacyResults, files: seq<Json>): (r: Option<AnalysisResults>)
    ensures r.Some? <==> Decodable(dict)
    ensures r.Some? ==> r.value.results == RebuildResults(dict)
    ensures r.Some? ==> r.value.fileCount == |files| && r.value.totalMetrics == |Pairs(dict)|
  {
    if Decodable(dict) then Some(AnalysisResults(RebuildResults(dict), |files|, TotalMetrics(dict)))
    else None
  }

  /** Decoding a flattened record gives back the statistics it was made from. */
  lemma DecodeFlattened(d: MetricData)
    ensures DecodeMetricData(FlattenMetricData(d)) == Some(d)
  {
    var j := FlattenMetricData(d);
    assert Get(j, ValuesKey) == Some(JList(NumList(d.values)));
    assert Get(j, FlagsKey) == Some(JList(BoolList(d.flags)));
    assert Get(j, DeltaKey) == Some(JNum(d.delta));
    assert Get(j, PercentChangeKey) == Some(JNum(d.percentChange));
    assert Get(j, StdDevKey) == Some(JNum(d.stdDev));
    assert DecodeNums(NumList(d.values)).value == d.values;
    assert DecodeBools(BoolList(d.flags)).value == d.flags;
  }

  /** Rebuilding one flattened category renames it by its key and keeps its statistics. */
  lemma RebuildFlattenedCategory(ar: AnalysisResults, c: string)
    requires c in ar.results
    ensures forall m | m in FlattenResults(ar)[c] :: DecodeMetricData(FlattenResults(ar)[c][m]).Some?
    ensures RebuildCategory(c, FlattenResults(ar)[c]) == AnalysisResult(c, ar.results[c].metrics)
  {
    var metrics := ar.results[c].metrics;
    var flat := FlattenResults(ar)[c];
    forall m | m in flat ensures DecodeMetricData(flat[m]) == Some(metrics[m]) {
      DecodeFlattened(metrics[m]);
    }
    assert RebuildCategory(c, flat).metrics == metrics;
  }

  /** Rebuilding the flattened results names every category by its key. */
  lemma RebuildFlattenedResults(ar: AnalysisResults)
    ensures Decodable(FlattenResults(ar))
    ensures RebuildResults(FlattenResults(ar)) ==
              map c | c in ar.results :: AnalysisResult(c, ar.results[c].metrics)
  {
    var dict := FlattenResults(ar);
    forall c | c in dict
      ensures forall m | m in dict[c] :: DecodeMetricData(dict[c][m]).Some?
      ensures RebuildCategory(c, dict[c]) == AnalysisResult(c, ar.results[c].metrics)
    {
      RebuildFlattenedCategory(ar, c);
    }
  }

  /**
   * Round trip: rebuilding the flattened results gives back exactly the
   * original value if and only if every category is stored under its own
   * name, `file_count` is the length of the file list and `total_metrics`
   * the number of (category, metric) entries.
   */
  lemma RebuildFlattenRoundTrip(ar: AnalysisResults, files: seq<Json>)
    ensures Rebuild(FlattenResults(ar), files) == Some(ar) <==>
              && CategoriesMatchKeys(ar.results)
              && ar.fileCount == |files|
              && ar.totalMetrics == |Pairs(MetricTable(ar.results))|
  {
    var dict := FlattenResults(ar);
    RebuildFlattenedResults(ar);
    var rebuilt := map c | c in ar.results :: AnalysisResult(c, ar.results[c].metrics);
    assert Rebuild(dict, files) == Some(AnalysisResults(rebuilt, |files|, |Pairs(dict)|));
    if CategoriesMatchKeys(ar.results) {
      assert rebuilt == ar.results;
    }
    if rebuilt == ar.results {
      assert forall c | c in ar.results :: ar.results[c].category == rebuilt[c].category;
    }
  }
}
