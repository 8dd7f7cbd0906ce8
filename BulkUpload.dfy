/**
 * The resume upload endpoints of `app/api/parser.py`: the single upload's
 * error-to-status mapping and the bulk upload's per-file attempt loop and
 * summary. Each call of the parsing pipeline is given as its outcome.
 */
module BulkUpload {
  import opened Wrappers
  import opened Text
  import opened Documents
  import opened ResumeParser

  /** The bulk loop's transient classification; it is only logged and decides nothing. */
  predicate IsTransientBulk(message: string) {
    var msg := Lower(message);
    Contains(msg, "503") || Contains(msg, "model is overloaded") || Contains(msg, "unavailable") || Contains(msg, "timeout")
  }

  /** The status the single upload reports for a pipeline error. */
  function UploadErrorStatus(message: string): (status: int)
    ensures status == 503 <==>
      (Contains(Lower(message), "model is overloaded") || Contains(Lower(message), "503") || Contains(Lower(message), "unavailable"))
    ensures status == 500 || status == 503
  {
    var msg := Lower(message);
    if Contains(msg, "model is overloaded") || Contains(msg, "503") || Contains(msg, "unavailable") then 503 else 500
  }

  /**
   * An error the single upload reports as 503 counts as transient in the
   * bulk loop; the bulk loop's classification adds exactly the timeouts.
   */
  lemma {:induction false} UnavailableIsTransientInBulk(message: string)
    ensures UploadErrorStatus(message) == 503 ==> IsTransientBulk(message)
    ensures IsTransientBulk(message) <==> UploadErrorStatus(message) == 503 || Contains(Lower(message), "timeout")
  {
  }

  /** A timeout is transient for the bulk loop but a plain 500 for the single upload. */
  lemma {:induction false} TimeoutClassifiedDifferently()
    ensures IsTransientBulk("Read timeout") && UploadErrorStatus("Read timeout") == 500
  {
    var msg := Lower("Read timeout");
    assert msg == "read timeout";
    assert OccursAt(msg, "timeout", 5);
    assert !Contains(msg, "503") by {
      forall i | 0 <= i <= |msg| - 3 ensures !OccursAt(msg, "503", i) {
        assert msg[i] != '5';
      }
    }
    assert !Contains(msg, "unavailable") by {
      forall i | 0 <= i <= |msg| - 11 ensures !OccursAt(msg, "unavailable", i) {
        assert msg[i] != 'u';
      }
    }
  }

  /** The `db_doc_id` field: the `_id` value of the stored document when both are truthy. */
  function DocId(doc: Option<Fields>): (id: Option<Value>)
    ensures id.Some? <==> Saved(doc) && Truthy(GetOrNull(doc.value, "_id"))
    ensures id.Some? ==> Get(doc.value, "_id") == id
  {
    if Saved(doc) && Truthy(GetOrNull(doc.value, "_id")) then Get(doc.value, "_id") else None
  }

  /** The dictionary `_process_with_attempts` returns for one file. */
  datatype FileResult =
    | Succeeded(filename: string, attempts: int, candidatePhone: Option<string>, dbDocId: Option<Value>)
    | FailedFile(filename: string, attempts: int, error: string)

  /** The index of the first successful call among the first `n`. */
  function FirstOk(outcomes: seq<Result<PipelineResult, string>>, n: nat): (r: Option<nat>)
    requires n <= |outcomes|
    ensures r.Some? ==> r.value < n && outcomes[r.value].Ok? && forall i :: 0 <= i < r.value ==> outcomes[i].Err?
    ensures r.None? ==> forall i :: 0 <= i < n ==> outcomes[i].Err?
  {
    if n == 0 then None
    else
      var earlier := FirstOk(outcomes, n - 1);
      if earlier.Some? then earlier else if outcomes[n - 1].Ok? then Some(n - 1) else None
  }

  /**
   * The result the attempt loop computes for one file: the first success
   * among the first `retryAttempts` calls, else the last failure; with no
   * attempt at all, the defensive "Unknown error".
   */
  function AttemptsOutcome(filename: string, retryAttempts: int, outcomes: seq<Result<PipelineResult, string>>): FileResult
    requires retryAttempts <= |outcomes|
  {
    if retryAttempts <= 0 then FailedFile(filename, retryAttempts, "Unknown error")
    else
      var first := FirstOk(outcomes, retryAttempts);
      if first.Some? then
        var p := outcomes[first.value].value;
        Succeeded(filename, first.value + 1, p.candidatePhone, DocId(p.dbDoc))
      else FailedFile(filename, retryAttempts, outcomes[retryAttempts - 1].error)
  }

  /**
   * With at least one attempt allowed, the reported attempt count lies in
   * `[1, retryAttempts]`; success means that call succeeded after failures
   * only; failure means every allowed call failed, and the last error is
   * reported, whatever the transient classification of the errors.
   */
  lemma {:induction false} AttemptsOutcomeSpec(filename: string, retryAttempts: int, outcomes: seq<Result<PipelineResult, string>>)
    requires 1 <= retryAttempts <= |outcomes|
    ensures var r := AttemptsOutcome(filename, retryAttempts, outcomes);
      && r.filename == filename
      && 1 <= r.attempts <= retryAttempts
      && (r.Succeeded? ==> outcomes[r.attempts - 1].Ok? && forall i :: 0 <= i < r.attempts - 1 ==> outcomes[i].Err?)
      && (r.Succeeded? <==> exists i :: 0 <= i < retryAttempts && outcomes[i].Ok?)
      && (r.FailedFile? ==> r.attempts == retryAttempts && r.error == outcomes[retryAttempts - 1].error)
  {
  }

  /** The bulk loop's backoff before attempt `attempt + 1`: `min(2^(attempt-1), 8)` seconds. */
  function BulkBackoff(attempt: nat): (b: real)
    requires attempt >= 1
    ensures 1.0 <= b <= 8.0
  {
    if Pow2(attempt - 1) <= 8 then Pow2(attempt - 1) as real else 8.0
  }

  /**
   * `_process_with_attempts` for one file: `outcomes[i]` is what attempt
   * `i + 1` of the pipeline returns or raises, `jitter[i]` the jitter draw
   * after it. Returns the file's result, the number of calls made and the
   * waits between them.
   */
  method ProcessWithAttempts(filename: string, retryAttempts: int, outcomes: seq<Result<PipelineResult, string>>, jitter: seq<real>)
    returns (r: FileResult, calls: nat, sleeps: seq<real>)
    requires retryAttempts <= |outcomes| && retryAttempts <= |jitter|
    requires forall i :: 0 <= i < |jitter| ==> 0.0 <= jitter[i] <= 1.0
    ensures r == AttemptsOutcome(filename, retryAttempts, outcomes)
    ensures retryAttempts <= 0 ==> calls == 0 && sleeps == []
    ensures retryAttempts >= 1 ==> calls == r.attempts && |sleeps| == calls - 1
    ensures forall i :: 0 <= i < |sleeps| ==> BulkBackoff(i + 1) <= sleeps[i] <= (1.0 + 0.25) * BulkBackoff(i + 1)
  {
    calls := 0;
    sleeps := [];
    var attempt := 1;
    while attempt <= retryAttempts
      invariant 1 <= attempt && (retryAttempts >= 1 ==> attempt <= retryAttempts) && (retryAttempts <= 0 ==> attempt == 1)
      invariant calls == attempt - 1 && |sleeps| == calls
      invariant FirstOk(outcomes, attempt - 1).None?
      invariant forall i :: 0 <= i < |sleeps| ==> BulkBackoff(i + 1) <= sleeps[i] <= (1.0 + 0.25) * BulkBackoff(i + 1)
      decreases retryAttempts - attempt
    {
      var outcome := outcomes[attempt - 1];
      calls := calls + 1;
      if outcome.Ok? {
        var p := outcome.value;
        return Succeeded(filename, attempt, p.candidatePhone, DocId(p.dbDoc)), calls, sleeps;
      }
      var isTransient := IsTransientBulk(outcome.error);
      if attempt >= retryAttempts {
        return FailedFile(filename, attempt, outcome.error), calls, sleeps;
      }
      var backoff := BulkBackoff(attempt);
      JitteredBounded(backoff, 0.25, jitter[attempt - 1]);
      sleeps := sleeps + [Jittered(backoff, 0.25, jitter[attempt - 1])];
      attempt := attempt + 1;
    }
    r := FailedFile(filename, retryAttempts, "Unknown error");
  }

  /** Python truthiness of the `success` fields: how many files succeeded. */
  function SuccessCount(results: seq<FileResult>): nat {
    if results == [] then 0 else (if results[0].Succeeded? then 1 else 0) + SuccessCount(results[1..])
  }

  /** The success count lies between 0 and the number of results, with either end meaning all or none succeeded. */
  lemma {:induction false} SuccessCountBounds(results: seq<FileResult>)
    ensures SuccessCount(results) <= |results|
    ensures SuccessCount(results) == |results| <==> forall i :: 0 <= i < |results| ==> results[i].Succeeded?
    ensures SuccessCount(results) == 0 <==> forall i :: 0 <= i < |results| ==> results[i].FailedFile?
  {
    if results != [] {
      SuccessCountBounds(results[1..]);
      assert forall i :: 1 <= i < |results| ==> results[i] == results[1..][i - 1];
    }
  }

  datatype BulkResponse =
    | BulkRejected(status: int, detail: string)
    | BulkSummary(total: int, success: int, failed: int, retryAttemptsPerTask: int, results: seq<FileResult>)

  /**
   * `upload_resumes_bulk`. Query validation answers 422 for `retry_attempts`
   * outside `[1, 10]` or `concurrency` outside `[1, 20]`; `saveFails` says
   * whether saving an upload to the temporary directory raised.
   */
  method UploadResumesBulk(apiKey: Option<string>, filenames: seq<string>, retryAttempts: int, concurrency: int, saveFails: bool,
                           outcomes: seq<seq<Result<PipelineResult, string>>>, jitter: seq<seq<real>>)
    returns (resp: BulkResponse)
    requires |outcomes| == |filenames| && |jitter| == |filenames|
    requires forall f :: 0 <= f < |filenames| ==> retryAttempts <= |outcomes[f]| && retryAttempts <= |jitter[f]|
    requires forall f, i :: 0 <= f < |filenames| && 0 <= i < |jitter[f]| ==> 0.0 <= jitter[f][i] <= 1.0
    ensures !(1 <= retryAttempts <= 10 && 1 <= concurrency <= 20) ==> resp.BulkRejected? && resp.status == 422
    ensures 1 <= retryAttempts <= 10 && 1 <= concurrency <= 20 ==>
      && (!Given(apiKey) ==> resp == BulkRejected(500, "Server misconfiguration: GOOGLE_API_KEY not set"))
      && (Given(apiKey) && filenames == [] ==> resp == BulkRejected(400, "No files uploaded"))
      && (Given(apiKey) && filenames != [] && saveFails ==> resp.BulkRejected? && resp.status == 500)
      && (Given(apiKey) && filenames != [] && !saveFails ==> resp.BulkSummary?)
    ensures resp.BulkSummary? ==>
      && |resp.results| == |filenames| == resp.total
      && (forall f :: 0 <= f < |filenames| ==>
            resp.results[f] == AttemptsOutcome(filenames[f], retryAttempts, outcomes[f]) && resp.results[f].filename == filenames[f])
      && resp.success == SuccessCount(resp.results)
      && resp.success + resp.failed == resp.total
      && resp.retryAttemptsPerTask == retryAttempts
  {
    if !(1 <= retryAttempts <= 10 && 1 <= concurrency <= 20) {
      return BulkRejected(422, "Unprocessable Entity");
    }
    if !Given(apiKey) {
      return BulkRejected(500, "Server misconfiguration: GOOGLE_API_KEY not set");
    }
    if filenames == [] {
      return BulkRejected(400, "No files uploaded");
    }
    if saveFails {
      return BulkRejected(500, "Failed saving uploaded files");
    }
    var results: seq<FileResult> := [];
    var f := 0;
    while f < |filenames|
      invariant 0 <= f <= |filenames| && |results| == f
      invariant forall g :: 0 <= g < f ==>
        results[g] == AttemptsOutcome(filenames[g], retryAttempts, outcomes[g]) && results[g].filename == filenames[g]
    {
      var r, _, _ := ProcessWithAttempts(filenames[f], retryAttempts, outcomes[f], jitter[f]);
      AttemptsOutcomeSpec(filenames[f], retryAttempts, outcomes[f]);
      results := results + [r];
      f := f + 1;
    }
    var success := SuccessCount(results);
    SuccessCountBounds(results);
    resp := BulkSummary(|results|, success, |results| - success, retryAttempts, results);
  }

  datatype UploadResponse =
    | UploadSaved(uploadedFilename: Option<string>, candidatePhone: Option<string>, dbSaved: bool, dbDocId: Option<Value>)
    | UploadRejected(status: int, detail: string)

  /**
   * `upload_resume`: `saveFails` says whether writing the temporary file
   * raised, `outcome` is what the pipeline returns or raises.
   */
  function UploadResume(apiKey: Option<string>, saveFails: bool, outcome: Result<PipelineResult, string>): (r: UploadResponse)
    ensures !Given(apiKey) ==> r == UploadRejected(500, "Server misconfiguration: GOOGLE_API_KEY not set")
    ensures Given(apiKey) && saveFails ==> r == UploadRejected(500, "Failed to save uploaded file")
    ensures Given(apiKey) && !saveFails && outcome.Err? ==> r.UploadRejected? && r.status == UploadErrorStatus(outcome.error)
    ensures Given(apiKey) && !saveFails && outcome.Err? && r.status == 500 ==> r.detail == "Processing failed: " + outcome.error
    ensures r.UploadRejected? && r.status == 503 ==> r.detail == "Upstream model unavailable. Please retry later."
    ensures Given(apiKey) && !saveFails && outcome.Ok? ==>
      r == UploadSaved(outcome.value.uploadedDoc, outcome.value.candidatePhone, outcome.value.dbSaved, DocId(outcome.value.dbDoc))
  {
    if !Given(apiKey) then UploadRejected(500, "Server misconfiguration: GOOGLE_API_KEY not set")
    else if saveFails then UploadRejected(500, "Failed to save uploaded file")
    else if outcome.Err? then
      if UploadErrorStatus(outcome.error) == 503 then UploadRejected(503, "Upstream model unavailable. Please retry later.")
      else UploadRejected(500, "Processing failed: " + outcome.error)
    else
      var p := outcome.value;
      UploadSaved(p.uploadedDoc, p.candidatePhone, p.dbSaved, DocId(p.dbDoc))
  }
}
