/**
 * The session-state side of app.py `main` and of
 * ui/components/interpretation.py `get_interpretation`: what the "Analyze"
 * action stores, when the result tabs appear, and when an interpretation
 * is stored.
 */
module Session {
  import opened Wrappers
  import opened Models
  import opened Legacy
  import opened Reconstruct
  import opened Batch

  /** The "Analyze" button is disabled while nothing is uploaded. */
  predicate AnalyzeButtonDisabled(uploads: seq<Upload>)
  {
    uploads == []
  }

  /**
   * `analyze_button and uploaded_files`: a click on an enabled button with
   * files uploaded (a disabled button reports no click).
   */
  predicate AnalysisRequested(clicked: bool, uploads: seq<Upload>)
    ensures AnalysisRequested(clicked, uploads) <==> clicked && |uploads| > 0
  {
    clicked && !AnalyzeButtonDisabled(uploads) && uploads != []
  }

  /** How the "Analyze" action ends. */
  datatype RunOutcome =
    | NotRequested
    | FileRejected(failure: FileFailure)
    | AnalysisFailed(error: ServiceError)
    | Completed(parsed: seq<ParsedFile>, results: AnalysisResults)

  /** The outcome of the "Analyze" action for given uploads and services. */
  function PlanRun(clicked: bool, uploads: seq<Upload>, svc: Services): (o: RunOutcome)
    ensures o.NotRequested? <==> !AnalysisRequested(clicked, uploads)
    ensures o.FileRejected? ==>
              && ParseBatch(svc, uploads) == Failure(o.failure)
              && o.failure.index < |uploads|
              && o.failure.name == uploads[o.failure.index].name
              && ProcessFile(svc, uploads[o.failure.index]) == Failure(o.failure.error)
              && forall i :: 0 <= i < o.failure.index ==> ProcessFile(svc, uploads[i]).Success?
    ensures (o.Completed? || o.AnalysisFailed?) <==>
              AnalysisRequested(clicked, uploads) && forall i :: 0 <= i < |uploads| ==> ProcessFile(svc, uploads[i]).Success?
    ensures o.Completed? ==>
              && 0 < |o.parsed| == |uploads|
              && (forall i :: 0 <= i < |uploads| ==> o.parsed[i] == ProcessFile(svc, uploads[i]).value)
              && svc.analyze(o.parsed) == Success(o.results)
    ensures o.AnalysisFailed? ==>
              ParseBatch(svc, uploads).Success? && svc.analyze(ParseBatch(svc, uploads).value) == Failure(o.error)
  {
    ParseBatchSucceeds(svc, uploads);
    ParseBatchFailsAtFirst(svc, uploads);
    if !AnalysisRequested(clicked, uploads) then NotRequested
    else
      match ParseBatch(svc, uploads)
      case Failure(f) => FileRejected(f)
      case Success(parsed) =>
        match svc.analyze(parsed)
        case Failure(e) => AnalysisFailed(e)
        case Success(ar) => Completed(parsed, ar)
  }

  /**
   * Both stored values are present and non-empty: the condition for the
   * result tabs and for asking for an interpretation.
   */
  predicate Populated(results: Option<LegacyResults>, files: Option<seq<Json>>)
    ensures Populated(results, files) <==>
              results.Some? && |results.value| > 0 && files.Some? && |files.value| > 0
  {
    results.Some? && results.value != map[] && files.Some? && files.value != []
  }

  /** How a request for an interpretation ends. */
  datatype InterpretOutcome =
    | NoResults
    | Unconvertible
    | ServiceFailed(error: ServiceError)
    | NoText
    | Interpreted(text: string)

  /** `if interpretation:` on what the interpretation service returned. */
  function Reply(reply: Result<Option<string>, ServiceError>): (o: InterpretOutcome)
    ensures o.Interpreted? <==> reply.Success? && reply.value.Some? && reply.value.value != ""
    ensures o.Interpreted? ==> reply == Success(Some(o.text))
  {
    match reply
    case Failure(e) => ServiceFailed(e)
    case Success(None) => NoText
    case Success(Some(text)) => if text != "" then Interpreted(text) else NoText
  }

  /** The outcome of `get_interpretation` for the stored values and a service. */
  function PlanInterpretation(results: Option<LegacyResults>, files: Option<seq<Json>>,
                              ai: AnalysisResults -> Result<Option<string>, ServiceError>): (o: InterpretOutcome)
    ensures o.NoResults? <==> !Populated(results, files)
    ensures o.Unconvertible? <==> Populated(results, files) && !Decodable(results.value)
    ensures !o.NoResults? && !o.Unconvertible? ==>
              o == Reply(ai(Rebuild(results.value, files.value).value))
  {
    if !Populated(results, files) then NoResults
    else
      match Rebuild(results.value, files.value)
      case None => Unconvertible
      case Some(ar) => Reply(ai(ar))
  }

  /**
   * Whether the result tabs appear on the rerun that ended with `o`, given
   * the values stored at that point: a rejected file returns from `main`
   * before the tabs, every other outcome reaches the `if` that checks both
   * stored values.
   */
  predicate TabsShown(o: RunOutcome, results: Option<LegacyResults>, files: Option<seq<Json>>)
    ensures o.FileRejected? ==> !TabsShown(o, results, files)
    ensures !o.FileRejected? ==> (TabsShown(o, results, files) <==> Populated(results, files))
  {
    !o.FileRejected? && Populated(results, files)
  }

  /** After a completed analysis the tabs appear exactly when some category was shared. */
  lemma PopulatedAfterRun(parsed: seq<ParsedFile>, ar: AnalysisResults)
    requires parsed != []
    ensures Populated(Some(FlattenResults(ar)), Some(FlattenFiles(parsed))) <==> ar.results != map[]
  {
  }

  /**
   * Asking for an interpretation after a completed analysis hands the
   * service exactly the analysed results, provided they are well formed.
   */
  lemma InterpretationSeesAnalysis(parsed: seq<ParsedFile>, ar: AnalysisResults,
                                   ai: AnalysisResults -> Result<Option<string>, ServiceError>)
    requires parsed != [] && ar.results != map[]
    requires CategoriesMatchKeys(ar.results)
    requires ar.fileCount == |parsed|
    requires ar.totalMetrics == |Pairs(MetricTable(ar.results))|
    ensures PlanInterpretation(Some(FlattenResults(ar)), Some(FlattenFiles(parsed)), ai) == Reply(ai(ar))
  {
    PopulatedAfterRun(parsed, ar);
    RebuildFlattenRoundTrip(ar, FlattenFiles(parsed));
  }

  /** The values `SessionRepository` keeps between reruns of the page. */
  class SessionState {
    var fileDataList: Option<seq<Json>>
    var analysisResults: Option<LegacyResults>
    var selectionHeld: bool
    var interpretation: Option<string>

    constructor ()
      ensures fileDataList == None && analysisResults == None
      ensures !selectionHeld && interpretation == None
    {
      fileDataList := None;
      analysisResults := None;
      selectionHeld := false;
      interpretation := None;
    }

    /**
     * The "Analyze" action: parse every upload, analyse them, and only when
     * all of that succeeded store both flattened values and clear the
     * selection and the interpretation.
     */
    method RunAnalysis(clicked: bool, uploads: seq<Upload>, svc: Services) returns (o: RunOutcome)
      modifies this
      ensures o == PlanRun(clicked, uploads, svc)
      ensures o.Completed? ==>
                && fileDataList == Some(FlattenFiles(o.parsed))
                && analysisResults == Some(FlattenResults(o.results))
                && !selectionHeld && interpretation == None
      ensures !o.Completed? ==> unchanged(this)
      ensures TabsShown(o, analysisResults, fileDataList) <==>
                if o.Completed? then o.results.results != map[]
                else !o.FileRejected? && Populated(old(analysisResults), old(fileDataList))
    {
      if !AnalysisRequested(clicked, uploads) {
        return NotRequested;
      }
      var parsed := ParseUploads(svc, uploads);
      match parsed
      case Failure(f) =>
        o := FileRejected(f);
      case Success(files) =>
        match svc.analyze(files)
        case Failure(e) =>
          o := AnalysisFailed(e);
        case Success(ar) =>
          var fileData := FlattenFiles(files);
          var dict := FlattenResults(ar);
          fileDataList := Some(fileData);
          analysisResults := Some(dict);
          selectionHeld := false;
          interpretation := None;
          o := Completed(files, ar);
          PopulatedAfterRun(files, ar);
    }

    /**
     * `get_interpretation`: rebuild the results from the stored values, ask
     * the service, and store its text only when it is non-empty.
     */
    method GetInterpretation(ai: AnalysisResults -> Result<Option<string>, ServiceError>)
      returns (o: InterpretOutcome)
      modifies this`interpretation
      ensures o == PlanInterpretation(analysisResults, fileDataList, ai)
      ensures interpretation == if o.Interpreted? then Some(o.text) else old(interpretation)
    {
      if !Populated(analysisResults, fileDataList) {
        return NoResults;
      }
      var rebuilt := Rebuild(analysisResults.value, fileDataList.value);
      if rebuilt.None? {
        return Unconvertible;
      }
      o := Reply(ai(rebuilt.value));
      if o.Interpreted? {
        interpretation := Some(o.text);
      }
    }
  }
}
