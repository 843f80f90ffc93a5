/**
 * The per-file part of the "Analyze" action in app.py `main`: every uploaded
 * file is validated, read and parsed in upload order, and the first file
 * that fails stops the whole batch.
 */
module Batch {
  import opened Wrappers
  import opened Models

  /** The exceptions the services raise; `Unexpected` is any other exception. */
  datatype ServiceError =
    | ValidationError(message: string)
    | ParsingError(message: string)
    | FileError(message: string)
    | Unexpected(message: string)

  /** An uploaded file: its name and the bytes `getvalue()` returns. */
  datatype Upload = Upload(name: string, bytes: seq<bv8>)

  /**
   * The file, parsing and analysis services, whose code is not part of this
   * model: each one either returns its result or raises.
   */
  datatype Services = Services(
    validate: (string, nat) -> Outcome<ServiceError>,
    read: Upload -> Result<string, ServiceError>,
    parse: (string, string, nat) -> Result<ParsedFile, ServiceError>,
    analyze: seq<ParsedFile> -> Result<AnalysisResults, ServiceError>)

  /** The file that stopped the batch: its position, its name and what was raised. */
  datatype FileFailure = FileFailure(index: nat, name: string, error: ServiceError)

  /** `len(file.getvalue())` */
  function Size(u: Upload): nat
  {
    |u.bytes|
  }

  /** Validate, read and parse one upload, stopping at the first exception. */
  function ProcessFile(svc: Services, u: Upload): (r: Result<ParsedFile, ServiceError>)
    ensures svc.validate(u.name, Size(u)).Fail? ==> r == Failure(svc.validate(u.name, Size(u)).error)
    ensures svc.validate(u.name, Size(u)).Pass? && svc.read(u).Failure? ==> r == Failure(svc.read(u).error)
    ensures r.Success? <==>
              && svc.validate(u.name, Size(u)).Pass?
              && svc.read(u).Success?
              && svc.parse(u.name, svc.read(u).value, Size(u)).Success?
    ensures svc.validate(u.name, Size(u)).Pass? && svc.read(u).Success? ==>
              r == svc.parse(u.name, svc.read(u).value, Size(u))
  {
    match svc.validate(u.name, Size(u))
    case Fail(e) => Failure(e)
    case Pass =>
      match svc.read(u)
      case Failure(e) => Failure(e)
      case Success(content) => svc.parse(u.name, content, Size(u))
  }

  /**
   * What the loop over the uploads ends with: every parsed record in upload
   * order, or the first file that failed.
   */
  function ParseBatch(svc: Services, us: seq<Upload>): (r: Result<seq<ParsedFile>, FileFailure>)
    ensures r.Success? ==> |r.value| == |us|
    ensures r.Failure? ==> r.error.index < |us| && r.error.name == us[r.error.index].name
    decreases |us|
  {
    if us == [] then Success([])
    else
      match ParseBatch(svc, us[..|us| - 1])
      case Failure(f) => Failure(f)
      case Success(done) =>
        match ProcessFile(svc, us[|us| - 1])
        case Failure(e) => Failure(FileFailure(|us| - 1, us[|us| - 1].name, e))
        case Success(pf) => Success(done + [pf])
  }

  /**
   * The batch succeeds exactly when every file does, and then holds one
   * record per upload, in upload order.
   */
  lemma {:induction false} ParseBatchSucceeds(svc: Services, us: seq<Upload>)
    ensures ParseBatch(svc, us).Success? <==> forall i :: 0 <= i < |us| ==> ProcessFile(svc, us[i]).Success?
    ensures ParseBatch(svc, us).Success? ==>
              && |ParseBatch(svc, us).value| == |us|
              && forall i :: 0 <= i < |us| ==> ParseBatch(svc, us).value[i] == ProcessFile(svc, us[i]).value
    decreases |us|
  {
    if us != [] {
      var front := us[..|us| - 1];
      ParseBatchSucceeds(svc, front);
      assert forall i :: 0 <= i < |front| ==> front[i] == us[i];
    }
  }

  /**
   * A failed batch names the first file that failed: every earlier file was
   * processed successfully, and the error is the one that file raised.
   */
  lemma {:induction false} ParseBatchFailsAtFirst(svc: Services, us: seq<Upload>)
    ensures ParseBatch(svc, us).Failure? ==>
              var f := ParseBatch(svc, us).error;
              && f.index < |us|
              && f.name == us[f.index].name
              && ProcessFile(svc, us[f.index]) == Failure(f.error)
              && forall i :: 0 <= i < f.index ==> ProcessFile(svc, us[i]).Success?
    decreases |us|
  {
    if us != [] {
      var front := us[..|us| - 1];
      ParseBatchFailsAtFirst(svc, front);
      ParseBatchSucceeds(svc, front);
      assert forall i :: 0 <= i < |front| ==> front[i] == us[i];
    }
  }

  /** Files after the one that failed are never looked at. */
  lemma {:induction false} ParseBatchIgnoresLaterFiles(svc: Services, us: seq<Upload>, rest: seq<Upload>)
    requires ParseBatch(svc, us).Failure?
    ensures ParseBatch(svc, us + rest) == ParseBatch(svc, us)
    decreases |rest|
  {
    if rest != [] {
      var shorter := rest[..|rest| - 1];
      ParseBatchIgnoresLaterFiles(svc, us, shorter);
      assert (us + rest)[..|us + rest| - 1] == us + shorter;
    } else {
      assert us + rest == us;
    }
  }

  /** The `for file in uploaded_files` loop of `main`. */
  method ParseUploads(svc: Services, us: seq<Upload>) returns (r: Result<seq<ParsedFile>, FileFailure>)
    ensures r == ParseBatch(svc, us)
  {
    var parsed := [];
    for i := 0 to |us|
      invariant ParseBatch(svc, us[..i]) == Success(parsed)
    {
      assert us[..i + 1][..i] == us[..i];
      match ProcessFile(svc, us[i])
      case Failure(e) =>
        r := Failure(FileFailure(i, us[i].name, e));
        ParseBatchIgnoresLaterFiles(svc, us[..i + 1], us[i + 1..]);
        assert us[..i + 1] + us[i + 1..] == us;
        return;
      case Success(pf) =>
        parsed := parsed + [pf];
    }
    assert us[..|us|] == us;
    r := Success(parsed);
  }
}
