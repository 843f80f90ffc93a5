/**
 * The "legacy format" the user interface keeps in session state: the typed
 * domain objects flattened into nested dictionaries of primitives
 * (app.py, the two comprehensions after the analysis call).
 */
module Legacy {
  import opened Wrappers
  import opened Models

  /** A Python primitive or container as stored in session state. */
  datatype Json =
    | JNum(num: Num)
    | JBool(truth: bool)
    | JStr(text: string)
    | JList(items: seq<Json>)
    | JObj(fields: map<string, Json>)

  /** `analysis_results_dict`: category -> metric -> record of statistics. */
  type LegacyResults = map<string, map<string, Json>>

  const NameKey := "name"
  const DataKey := "data"
  const ValueKey := "value"
  const IsFlaggedKey := "is_flagged"
  const ValuesKey := "values"
  const FlagsKey := "flags"
  const DeltaKey := "delta"
  const PercentChangeKey := "percent_change"
  const StdDevKey := "std_dev"

  /** `j[key]` on a dictionary; `None` where Python would raise. */
  function Get(j: Json, key: string): (r: Option<Json>)
    ensures r.Some? <==> j.JObj? && key in j.fields
    ensures r.Some? ==> r.value == j.fields[key]
  {
    if j.JObj? && key in j.fields then Some(j.fields[key]) else None
  }

  /** `j[path[0]][path[1]]...`, the way the views read an entry. */
  function At(j: Json, path: seq<string>): Option<Json>
    decreases |path|
  {
    if path == [] then Some(j)
    else
      match Get(j, path[0])
      case None => None
      case Some(child) => At(child, path[1..])
  }

  /** The key set of the dictionary found at `path`. */
  function KeysAt(j: Json, path: seq<string>): Option<set<string>>
  {
    match At(j, path)
    case Some(JObj(fields)) => Some(fields.Keys)
    case _ => None
  }

  /** The (category, metric) pairs of a category -> metric table. */
  function Pairs<T>(t: map<string, map<string, T>>): set<(string, string)>
  {
    set c, m | c in t && m in t[c] :: (c, m)
  }

  function NumList(vs: seq<Num>): seq<Json>
  {
    seq(|vs|, i requires 0 <= i < |vs| => JNum(vs[i]))
  }

  function BoolList(bs: seq<bool>): seq<Json>
  {
    seq(|bs|, i requires 0 <= i < |bs| => JBool(bs[i]))
  }

  /** `{'value': mv.value, 'is_flagged': mv.is_flagged}` */
  function FlattenValue(mv: MetricValue): Json
  {
    JObj(map[ValueKey := JNum(mv.value), IsFlaggedKey := JBool(mv.isFlagged)])
  }

  function FlattenCategory(metrics: map<string, MetricValue>): Json
  {
    JObj(map m | m in metrics :: FlattenValue(metrics[m]))
  }

  function FlattenData(data: map<string, map<string, MetricValue>>): Json
  {
    JObj(map c | c in data :: FlattenCategory(data[c]))
  }

  /** `{'name': pf.name, 'data': {category: {metric: {...}}}}` */
  function FlattenFile(pf: ParsedFile): (r: Json)
    ensures r.JObj? && r.fields.Keys == {NameKey, DataKey}
    ensures r.fields[NameKey] == JStr(pf.name) && r.fields[DataKey].JObj?
  {
    JObj(map[NameKey := JStr(pf.name), DataKey := FlattenData(pf.data)])
  }

  /** `file_data_list`: one entry per parsed file, in the same order. */
  function FlattenFiles(pfs: seq<ParsedFile>): (r: seq<Json>)
    ensures |r| == |pfs|
    ensures forall i :: 0 <= i < |pfs| ==> At(r[i], [NameKey]) == Some(JStr(pfs[i].name))
  {
    seq(|pfs|, i requires 0 <= i < |pfs| => FlattenFile(pfs[i]))
  }

  /** The five-field record of one metric's statistics. */
  function FlattenMetricData(d: MetricData): (r: Json)
    ensures r.JObj? && r.fields.Keys == {ValuesKey, FlagsKey, DeltaKey, PercentChangeKey, StdDevKey}
    ensures r.fields[ValuesKey].JList? && |r.fields[ValuesKey].items| == |d.values|
    ensures r.fields[FlagsKey].JList? && |r.fields[FlagsKey].items| == |d.flags|
  {
    JObj(map[ValuesKey := JList(NumList(d.values)),
             FlagsKey := JList(BoolList(d.flags)),
             DeltaKey := JNum(d.delta),
             PercentChangeKey := JNum(d.percentChange),
             StdDevKey := JNum(d.stdDev)])
  }

  /** `analysis_results_dict`, built from `analysis_results.results`. */
  function FlattenResults(ar: AnalysisResults): (r: LegacyResults)
    ensures r.Keys == ar.results.Keys
    ensures forall c :: c in r ==> r[c].Keys == ar.results[c].metrics.Keys
    ensures Pairs(r) == Pairs(MetricTable(ar.results))
  {
    map c | c in ar.results ::
      map m | m in ar.results[c].metrics :: FlattenMetricData(ar.results[c].metrics[m])
  }

  /** The category -> metric -> statistics table inside a results mapping. */
  function MetricTable(results: map<string, AnalysisResult>): map<string, map<string, MetricData>>
  {
    map c | c in results :: results[c].metrics
  }

  /**
   * Flattening a parsed file keeps its name and its exact category and
   * metric key sets.
   */
  lemma FlattenFileKeys(pf: ParsedFile, c: string)
    ensures At(FlattenFile(pf), [NameKey]) == Some(JStr(pf.name))
    ensures KeysAt(FlattenFile(pf), [DataKey]) == Some(pf.data.Keys)
    ensures At(FlattenFile(pf), [DataKey, c]).Some? <==> c in pf.data
    ensures c in pf.data ==> KeysAt(FlattenFile(pf), [DataKey, c]) == Some(pf.data[c].Keys)
  {
    var j := FlattenFile(pf);
    var data := FlattenData(pf.data);
    assert NameKey != DataKey;
    AtCons(j, NameKey, []);
    assert Get(j, DataKey) == Some(data);
    assert data.fields.Keys == pf.data.Keys;
    assert [DataKey] + [] == [DataKey];
    AtCons(j, DataKey, []);
    AtCons(j, DataKey, [c]);
    AtCons(data, c, []);
    if c in pf.data {
      assert FlattenCategory(pf.data[c]).fields.Keys == pf.data[c].Keys;
    }
  }

  /**
   * Flattening a parsed file keeps exactly its (category, metric) entries,
   * and each entry's value and embedded flag.
   */
  lemma FlattenFileEntries(pf: ParsedFile, c: string, m: string)
    ensures At(FlattenFile(pf), [DataKey, c, m]).Some? <==> c in pf.data && m in pf.data[c]
    ensures c in pf.data && m in pf.data[c] ==>
              && At(FlattenFile(pf), [DataKey, c, m, ValueKey]) == Some(JNum(pf.data[c][m].value))
              && At(FlattenFile(pf), [DataKey, c, m, IsFlaggedKey]) == Some(JBool(pf.data[c][m].isFlagged))
  {
    var j := FlattenFile(pf);
    var data := FlattenData(pf.data);
    assert Get(j, DataKey) == Some(data);
    AtCons(j, DataKey, [c, m]);
    AtCons(data, c, [m]);
    if c in pf.data {
      var cat := FlattenCategory(pf.data[c]);
      assert Get(data, c) == Some(cat);
      AtCons(cat, m, []);
      if m in pf.data[c] {
        EntryFields(j, data, cat, c, m, pf.data[c][m]);
      }
    }
  }

  lemma EntryFields(j: Json, data: Json, cat: Json, c: string, m: string, mv: MetricValue)
    requires Get(j, DataKey) == Some(data) && Get(data, c) == Some(cat)
    requires Get(cat, m) == Some(FlattenValue(mv))
    ensures At(j, [DataKey, c, m, ValueKey]) == Some(JNum(mv.value))
    ensures At(j, [DataKey, c, m, IsFlaggedKey]) == Some(JBool(mv.isFlagged))
  {
    var entry := FlattenValue(mv);
    assert ValueKey != IsFlaggedKey;
    AtCons(j, DataKey, [c, m, ValueKey]);
    AtCons(data, c, [m, ValueKey]);
    AtCons(cat, m, [ValueKey]);
    AtCons(entry, ValueKey, []);
    AtCons(j, DataKey, [c, m, IsFlaggedKey]);
    AtCons(data, c, [m, IsFlaggedKey]);
    AtCons(cat, m, [IsFlaggedKey]);
    AtCons(entry, IsFlaggedKey, []);
  }

  /**
   * Entry i of `file_data_list` holds file i's own data: the same
   * (category, metric) entries, each value and flag copied from file i.
   */
  lemma FlattenFilesEntries(pfs: seq<ParsedFile>, i: nat, c: string, m: string)
    requires i < |pfs|
    ensures At(FlattenFiles(pfs)[i], [DataKey, c, m]).Some? <==> c in pfs[i].data && m in pfs[i].data[c]
    ensures c in pfs[i].data && m in pfs[i].data[c] ==>
              && At(FlattenFiles(pfs)[i], [DataKey, c, m, ValueKey]) == Some(JNum(pfs[i].data[c][m].value))
              && At(FlattenFiles(pfs)[i], [DataKey, c, m, IsFlaggedKey]) == Some(JBool(pfs[i].data[c][m].isFlagged))
  {
    FlattenFileEntries(pfs[i], c, m);
  }

  /** One step of a path lookup. */
  lemma AtCons(j: Json, key: string, rest: seq<string>)
    ensures At(j, [key] + rest) == match Get(j, key)
                                   case None => None
                                   case Some(child) => At(child, rest)
  {
  }
}
