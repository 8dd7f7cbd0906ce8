/**
 * `ResumeProcessor` of `app/services/resume_parser.py`: the constructor's
 * key check, the GenAI retry loop and the upload -> generate -> validate ->
 * store pipeline. GenAI and store calls are given as sequences of outcomes.
 */
module ResumeParser {
  import opened Wrappers
  import opened Text
  import opened Documents

  /** The settings a `ResumeProcessor` keeps after construction. */
  datatype ProcessorConfig = ProcessorConfig(modelName: string, maxRetries: int, baseBackoff: real, maxBackoff: real)

  /** The defaults of the constructor. */
  const DefaultModel: string := "gemini-2.5-flash"
  const DefaultMaxRetries: int := 5
  const DefaultBaseBackoff: real := 1.0
  const DefaultMaxBackoff: real := 16.0

  /** `ResumeProcessor(api_key, ...)`: refuses a missing or empty key with `ValueError`. */
  function NewProcessor(apiKey: Option<string>, modelName: string, maxRetries: int, baseBackoff: real, maxBackoff: real)
    : (r: Result<ProcessorConfig, string>)
    ensures r.Err? <==> !Given(apiKey)
    ensures r.Err? ==> r.error == "api_key is required"
    ensures r.Ok? ==> r.value == ProcessorConfig(modelName, maxRetries, baseBackoff, maxBackoff)
  {
    if !Given(apiKey) then Err("api_key is required")
    else Ok(ProcessorConfig(modelName, maxRetries, baseBackoff, maxBackoff))
  }

  /** The message heuristics for a transient GenAI error. */
  predicate IsTransient(message: string) {
    var msg := Lower(message);
    Contains(msg, "503") || Contains(msg, "unavailable") || Contains(msg, "model is overloaded") || Contains(msg, "model overloaded")
  }

  function Pow2(k: nat): (r: nat)
    ensures r >= 1
  {
    if k == 0 then 1 else 2 * Pow2(k - 1)
  }

  function Min(a: real, b: real): real {
    if a <= b then a else b
  }

  /** The wait before the retry that follows the `attempt`-th failure, without jitter. */
  function Backoff(cfg: ProcessorConfig, attempt: nat): real
    requires attempt >= 1
  {
    Min(cfg.baseBackoff * (Pow2(attempt - 1) as real), cfg.maxBackoff)
  }

  /** With non-negative settings, the backoff never exceeds the cap and never shrinks from one retry to the next. */
  lemma {:induction false} BackoffBounded(cfg: ProcessorConfig, attempt: nat)
    requires attempt >= 1 && cfg.baseBackoff >= 0.0 && cfg.maxBackoff >= 0.0
    ensures 0.0 <= Backoff(cfg, attempt) <= cfg.maxBackoff
    ensures Backoff(cfg, attempt) <= Backoff(cfg, attempt + 1)
    ensures Backoff(cfg, attempt) == cfg.maxBackoff || Backoff(cfg, attempt + 1) == 2.0 * Backoff(cfg, attempt) || Backoff(cfg, attempt + 1) == cfg.maxBackoff
  {
    var p := Pow2(attempt - 1) as real;
    assert Pow2(attempt) as real == 2.0 * p;
    assert cfg.baseBackoff * (2.0 * p) == 2.0 * (cfg.baseBackoff * p);
    assert cfg.baseBackoff * p >= 0.0;
  }

  lemma {:induction false} FractionOf(u: real, x: real)
    requires 0.0 <= u <= 1.0 && 0.0 <= x
    ensures 0.0 <= u * x <= x
  {
    assert x - u * x == (1.0 - u) * x;
  }

  /**
   * `backoff + random.uniform(0, backoff * spread)`, the draw `u` given as a
   * fraction of its range.
   */
  function Jittered(backoff: real, spread: real, u: real): real {
    backoff + u * (backoff * spread)
  }

  /** A non-negative backoff is stretched by at most the given spread. */
  lemma {:induction false} JitteredBounded(backoff: real, spread: real, u: real)
    requires 0.0 <= backoff && 0.0 <= spread && 0.0 <= u <= 1.0
    ensures backoff <= Jittered(backoff, spread, u) <= (1.0 + spread) * backoff
  {
    var x := backoff * spread;
    assert 0.0 <= x;
    FractionOf(u, x);
    var y := u * x;
    assert Jittered(backoff, spread, u) == backoff + y;
    assert (1.0 + spread) * backoff == backoff + x;
  }

  /** The number of calls the loop can make at most. */
  function CallBound(maxRetries: int): nat {
    if maxRetries < 0 then 1 else maxRetries + 1
  }

  /** What the loop ends with: the outcome it returns or re-raises, and how many calls it made. */
  datatype Retried<T> = Retried(outcome: Result<T, string>, calls: nat)

  /** `_run_with_retries` from call number `k` (0-based) on. */
  function Retry<T>(maxRetries: int, outcomes: seq<Result<T, string>>, k: nat): Retried<T>
    requires k < CallBound(maxRetries) <= |outcomes|
    decreases CallBound(maxRetries) - k
  {
    if outcomes[k].Ok? then Retried(outcomes[k], k + 1)
    else if !IsTransient(outcomes[k].error) || k + 1 > maxRetries then Retried(outcomes[k], k + 1)
    else Retry(maxRetries, outcomes, k + 1)
  }

  /**
   * The loop makes at least one and at most `maxRetries + 1` calls; it ends
   * with the outcome of its last call, every earlier call raised a transient
   * error, and it re-raises only a non-transient error or the error of the
   * call that used up the retries.
   * (With `maxRetries < 0` the first error is always re-raised.)
   */
  lemma {:induction false} RetrySpec<T>(maxRetries: int, outcomes: seq<Result<T, string>>, k: nat)
    requires k < CallBound(maxRetries) <= |outcomes|
    ensures var r := Retry(maxRetries, outcomes, k);
      && k + 1 <= r.calls <= CallBound(maxRetries)
      && r.outcome == outcomes[r.calls - 1]
      && (forall i :: k <= i < r.calls - 1 ==> outcomes[i].Err? && IsTransient(outcomes[i].error))
      && (r.outcome.Err? ==> !IsTransient(r.outcome.error) || r.calls == CallBound(maxRetries))
    decreases CallBound(maxRetries) - k
  {
    if outcomes[k].Ok? {
    } else if !IsTransient(outcomes[k].error) || k + 1 > maxRetries {
    } else {
      RetrySpec(maxRetries, outcomes, k + 1);
    }
  }

  /** A first call that raises a non-transient error is the only call, and its error is re-raised. */
  lemma {:induction false} NonTransientRaisedAtOnce<T>(maxRetries: int, outcomes: seq<Result<T, string>>)
    requires CallBound(maxRetries) <= |outcomes|
    requires outcomes[0].Err? && !IsTransient(outcomes[0].error)
    ensures Retry(maxRetries, outcomes, 0) == Retried(outcomes[0], 1)
  {
  }

  /**
   * The retry loop. `outcomes[i]` is what call `i` returns or raises and
   * `jitter[i]` the `random.uniform` draw after failure `i + 1`, as a
   * fraction of its range. Returns the outcome, the number of calls and
   * the waits between them.
   */
  method RunWithRetries<T>(cfg: ProcessorConfig, outcomes: seq<Result<T, string>>, jitter: seq<real>)
    returns (r: Result<T, string>, calls: nat, sleeps: seq<real>)
    requires CallBound(cfg.maxRetries) <= |outcomes| && CallBound(cfg.maxRetries) <= |jitter|
    requires forall i :: 0 <= i < |jitter| ==> 0.0 <= jitter[i] <= 1.0
    ensures Retry(cfg.maxRetries, outcomes, 0) == Retried(r, calls)
    ensures |sleeps| == calls - 1
    ensures cfg.baseBackoff >= 0.0 && cfg.maxBackoff >= 0.0 ==> forall i :: 0 <= i < |sleeps| ==>
      Backoff(cfg, i + 1) <= sleeps[i] <= (1.0 + 0.2) * Backoff(cfg, i + 1)
  {
    var attempt := 0;
    sleeps := [];
    while true
      invariant 0 <= attempt < CallBound(cfg.maxRetries)
      invariant Retry(cfg.maxRetries, outcomes, attempt) == Retry(cfg.maxRetries, outcomes, 0)
      invariant |sleeps| == attempt
      invariant cfg.baseBackoff >= 0.0 && cfg.maxBackoff >= 0.0 ==> forall i :: 0 <= i < |sleeps| ==>
        Backoff(cfg, i + 1) <= sleeps[i] <= (1.0 + 0.2) * Backoff(cfg, i + 1)
      decreases CallBound(cfg.maxRetries) - attempt
    {
      var o := outcomes[attempt];
      if o.Ok? {
        return o, attempt + 1, sleeps;
      }
      attempt := attempt + 1;
      if !IsTransient(o.error) || attempt > cfg.maxRetries {
        return o, attempt, sleeps;
      }
      var wait := Jittered(Backoff(cfg, attempt), 0.2, jitter[attempt - 1]);
      if cfg.baseBackoff >= 0.0 && cfg.maxBackoff >= 0.0 {
        BackoffBounded(cfg, attempt);
        JitteredBounded(Backoff(cfg, attempt), 0.2, jitter[attempt - 1]);
      }
      sleeps := sleeps + [wait];
    }
  }

  /** What the GenAI upload returns: the uploaded file's `name` attribute, if any. */
  datatype UploadedDoc = UploadedDoc(name: Option<string>)

  /** The validated resume model: its `phone` attribute, if any. */
  datatype ParsedResume = ParsedResume(phone: Option<string>)

  /** The dictionary `process_resume_file` returns. */
  datatype PipelineResult = PipelineResult(uploadedDoc: Option<string>, candidatePhone: Option<string>, dbSaved: bool, dbDoc: Option<Fields>)

  datatype Stage = Upload | Generate | Validate | Store

  const Stages: seq<Stage> := [Upload, Generate, Validate, Store]

  /** `bool(saved_doc)` for the document the store returns. */
  predicate Saved(doc: Option<Fields>) {
    doc.Some? && doc.value != []
  }

  /**
   * `process_resume_file`: upload and generation go through the retry loop,
   * validation and the store call do not. Returns the result or the error
   * that escapes, and the stages that were started.
   */
  method ProcessResumeFile(cfg: ProcessorConfig,
                           uploads: seq<Result<UploadedDoc, string>>, uploadJitter: seq<real>,
                           generations: seq<Result<string, string>>, generateJitter: seq<real>,
                           validate: string -> Result<ParsedResume, string>,
                           store: Result<Option<Fields>, string>)
    returns (r: Result<PipelineResult, string>, started: seq<Stage>)
    requires CallBound(cfg.maxRetries) <= |uploads| && CallBound(cfg.maxRetries) <= |uploadJitter|
    requires CallBound(cfg.maxRetries) <= |generations| && CallBound(cfg.maxRetries) <= |generateJitter|
    requires forall i :: 0 <= i < |uploadJitter| ==> 0.0 <= uploadJitter[i] <= 1.0
    requires forall i :: 0 <= i < |generateJitter| ==> 0.0 <= generateJitter[i] <= 1.0
    ensures 1 <= |started| <= |Stages| && started == Stages[..|started|]
    ensures |started| >= 2 <==> Retry(cfg.maxRetries, uploads, 0).outcome.Ok?
    ensures |started| >= 3 <==> |started| >= 2 && Retry(cfg.maxRetries, generations, 0).outcome.Ok?
    ensures |started| == 4 <==> |started| >= 3 && validate(Retry(cfg.maxRetries, generations, 0).outcome.value).Ok?
    ensures r.Ok? <==> |started| == 4 && store.Ok?
    ensures r.Ok? ==> r.value.dbSaved == Saved(store.value) && r.value.dbDoc == store.value
    ensures r.Ok? ==> r.value.uploadedDoc == Retry(cfg.maxRetries, uploads, 0).outcome.value.name
    ensures r.Ok? ==> r.value.candidatePhone == validate(Retry(cfg.maxRetries, generations, 0).outcome.value).value.phone
  {
    started := [Upload];
    var uploaded, _, _ := RunWithRetries(cfg, uploads, uploadJitter);
    if uploaded.Err? {
      return Err(uploaded.error), started;
    }
    started := started + [Generate];
    var raw, _, _ := RunWithRetries(cfg, generations, generateJitter);
    if raw.Err? {
      return Err(raw.error), started;
    }
    started := started + [Validate];
    var parsed := validate(raw.value);
    if parsed.Err? {
      return Err(parsed.error), started;
    }
    started := started + [Store];
    if store.Err? {
      return Err(store.error), started;
    }
    r := Ok(PipelineResult(uploaded.value.name, parsed.value.phone, Saved(store.value), store.value));
  }
}
