/**
 * The typed domain objects that the parsing and analysis services exchange
 * with the application: parsed files, per-metric statistics and the batch
 * result. Numbers are only ever copied by the modelled code, so `Num` is
 * a `real` on which nothing is computed.
 */
module Models {

  /**
   * A measurement as the services produce it (a Python float), as a `real`
   * on which nothing is computed: the modelled code only copies it. NaN and
   * the infinities have no `real` value.
   */
  type Num = real

  /** One metric of one file, with the flag embedded in the source file. */
  datatype MetricValue = MetricValue(value: Num, isFlagged: bool)

  /** One uploaded file after parsing: category -> metric -> value. */
  datatype ParsedFile = ParsedFile(name: string, data: map<string, map<string, MetricValue>>)

  /** Cross-file statistics of one metric; `values` and `flags` follow file order. */
  datatype MetricData = MetricData(values: seq<Num>, flags: seq<bool>, delta: Num, percentChange: Num, stdDev: Num)

  /** The metrics of one category. */
  datatype AnalysisResult = AnalysisResult(category: string, metrics: map<string, MetricData>)

  /** The result of analysing a batch of files. */
  datatype AnalysisResults = AnalysisResults(results: map<string, AnalysisResult>, fileCount: nat, totalMetrics: nat)

  /** Every category's `category` field equals the key it is stored under. */
  predicate CategoriesMatchKeys(results: map<string, AnalysisResult>)
  {
    forall c :: c in results ==> results[c].category == c
  }
}
