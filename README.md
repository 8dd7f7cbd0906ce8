# HR interview backend, modelled in Dafny

This project models the core of a Python (FastAPI + asyncio) HR backend and proves properties of the model. The backend parses uploaded resumes with a GenAI model and stores them in MongoDB. It ranks resumes against job descriptions by embedding similarity, aggregates per-candidate job recommendations, and schedules and starts LiveKit interviewer agents.

One Dafny module models each core source file. Shared helpers get modules of their own.

- `AgentService`: the `AgentManager` class (`app/services/agent_service.py`): at most one runner task and its worker. Every `await` is an explicit transition method: the runner building its worker, the runner leaving `worker.run()`, and a stop that does or does not see the runner finish in time.
- `AgentRegistry`: the `AgentRegistry` class (`app/services/agent_registry.py`): the name-to-manager and name-to-scheduler-task maps, the `closed` flag, and the semaphore's held units. Each scheduler task is tracked by its phase (sleeping, waiting for a unit, holding one). The class invariant `Valid()` ties the two maps, the units and the running managers together, and every method preserves it.
- `TemporalRanker`: the periodic job of `app/core/temporal_ranker.py`: the IST active-window predicate as integer clock arithmetic, the window loop, `start` and `stop`, and the skip and cleanup rules of one iteration.
- `BulkUpload`: `app/api/parser.py`: the single upload's error-to-status mapping and the bulk upload's attempt loop, backoff and summary. Each pipeline call is given by its outcome.
- `ResumeParser`: `ResumeProcessor` (`app/services/resume_parser.py`): the key check, the GenAI retry loop over a sequence of call outcomes, and the upload, generate, validate and store pipeline.
- `MultiJob`: `MultiJobRankingService` (`app/services/multi_job.py`): the job text, the per-job ranking with the ranker as a function parameter, the group-by-candidate, the (rank, -score) sort and the counters of the summary.
- `MongoService`: `app/services/mongoDB_service.py`: ObjectId coercion, document serialisation (recursive, and not descending into nested lists), `get_by_id`, `get_all` with its limit rule, and the upsert by `candidate_id` with an insert-only `createdAt`. The database is a map from collection name to its documents.
- `InterviewManager`: `app/services/Interview_manager.py`: interview-time normalisation to UTC, the fully recursive document conversion, the template heuristic, and the guard chain of `start_by_candidate_key`.
- `RankingService`: `app/services/ranking_service.py`: resume serialisation, batch chunking, and the rank permutation. Embeddings and similarities are abstract functions.
- `RankerApi`: the `/rank` endpoint of `app/api/ranker.py`: request validation and the `top_k` cut with Python slicing.
- `Preprocessor`: `preprocess_text` of `app/helpers/preprocessor.py`: each `re.sub` is a left-to-right scanning function with Python's leftmost and lazy matching for these patterns.
- `PromptBuilder`: `create_interview_prompt` of `app/helpers/prompt_builder.py`.
- `Documents`, `Clock`, `Text`, `Sorting` and `Wrappers` are shared helpers:
  - `Documents`: BSON-like values and dict operations;
  - `Clock`: `datetime` as integer microseconds, with an optional UTC offset;
  - `Text`: Python's string helpers;
  - `Sorting`: a stable sort by an `(int, float)` key;
  - `Wrappers`: `Option` and `Result`.

Time is an integer count of microseconds since the epoch. The clock, `uuid4`, random jitter, `str()` of arbitrary values, `float()`/`int()` of text, and the outcome of every database, GenAI, LiveKit and embedding call are parameters of the operations that read them.

## Model

| member | source | states |
|---|---|---|
| `AgentService.AgentManager.constructor` | app/services/agent_service.py:23-32 | a new manager keeps its agent name and has neither runner task nor worker, so it is not running |
| `AgentService.AgentManager.RunNow` | app/services/agent_service.py:49-98 | starts (a fresh, not-done runner task) exactly when it was not already running, returns whether it started, and leaves the manager running either way |
| `AgentService.AgentManager.RunnerCreatesWorker` | app/services/agent_service.py:59-68 | the runner publishes its worker while the manager stays running |
| `AgentService.AgentManager.RunnerExits` | app/services/agent_service.py:69-92 | whichever way `worker.run()` ends the worker is cleared and the task is done (not running); only a cancellation propagates; the done task stays stored |
| `AgentService.AgentManager.Stop` | app/services/agent_service.py:128-173 | True exactly when the manager was not running or its runner finished within the timeout; on True both references are cleared; on a timeout the cancelled runner has still exited, so the worker is cleared and the stored task is the same one, now done; either way the manager is no longer running |
| `AgentService.AgentManager.StopAndForget` | app/services/agent_service.py:175-194 | both references are cleared unconditionally, so the manager is not running |
| `AgentService.AgentManager.ScheduleIn` | app/services/agent_service.py:100-112 | sleeps for the delay clamped at zero; if cancelled before firing nothing changes, otherwise it acts as `run_now` |
| `AgentService.ScheduleAtDelay` | app/services/agent_service.py:114-125 | sleeping for the delay from now wakes exactly at the start, an aware start taken by its instant and a naive one read as local wall time; a start that has passed gives no sleep at all |
| `AgentService.AgentManager.ScheduleAt` | app/services/agent_service.py:114-126 | sleeps for `ScheduleAtDelay` and then behaves as `schedule_in` |
| `AgentService.RunNowTwice` | app/services/agent_service.py:54-57 | a second `run_now` while the first run is active returns False and keeps the manager running |
| `AgentRegistry.StartDelay` | app/services/agent_registry.py:43-48 | the start is normalised to UTC (a naive start is read as UTC) and the delay is clamped at zero |
| `AgentRegistry.NaiveStartDelaysAgreeInUtc` | app/services/agent_registry.py:44-48 | for a naive start, the registry's delay equals `schedule_at`'s delay when the local zone is UTC |
| `AgentRegistry.AgentRegistry.constructor` | app/services/agent_registry.py:22-27 | empty maps, open, no semaphore unit held, the limit as given |
| `AgentRegistry.AgentRegistry.ManagersDistinct` | app/services/agent_registry.py:51-55 | under the invariant, two different names never share a manager |
| `AgentRegistry.AgentRegistry.ActiveCountWithinLimit` | app/services/agent_registry.py:119-122 | `active_count()` never exceeds the units held, which never exceed the concurrency limit |
| `AgentRegistry.AgentRegistry.CreateAndSchedule` | app/services/agent_registry.py:29-88 | a closed registry refuses with RuntimeError; so does a name already registered or scheduled, changing nothing; otherwise a fresh idle manager and its scheduler task are added under that name only, with the UTC-normalised delay |
| `AgentRegistry.AgentRegistry.Register` | app/services/agent_registry.py:50-88 | a free name gets a new, idle manager under that name and a scheduler task that sleeps or waits for a unit; nothing else changes and the invariant is kept |
| `AgentRegistry.AgentRegistry.DelayElapses` | app/services/agent_registry.py:59-61 | after the sleep the task waits for a unit; nothing else changes |
| `AgentRegistry.AgentRegistry.AcquireAndRun` | app/services/agent_registry.py:63-64 | a unit is taken only while one is free, and the manager is then started and running |
| `AgentRegistry.AgentRegistry.RunnerCreatesWorker` | app/services/agent_service.py:59-68 | a registered running manager publishes its worker; the registry invariant is kept |
| `AgentRegistry.AgentRegistry.RunnerExits` | app/services/agent_service.py:69-92 | a registered manager's runner ends; it stops running; the registry invariant is kept |
| `AgentRegistry.AgentRegistry.SchedulerTaskExits` | app/services/agent_registry.py:57-82 | on every exit the unit (if held) is returned and the name is removed from both maps; only a cancellation propagates |
| `AgentRegistry.AgentRegistry.StopAgent` | app/services/agent_registry.py:90-117 | the name is absent from both maps afterwards, nothing else changes; an unknown name gives True; a known manager whose runner outlives the timeout gives False and keeps only its task reference, to the same task now done, with the worker cleared; otherwise its references are cleared and it gives True |
| `AgentRegistry.AgentRegistry.StopAll` | app/services/agent_registry.py:124-138 | every scheduled and every registered name is stopped: both maps are empty and no unit is held; each manager that was idle or whose runner finished in time has both references cleared, and each one whose runner outlived the timeout has its worker cleared and keeps a reference to its task, now done |
| `AgentRegistry.AgentRegistry.StopScheduled` | app/services/agent_registry.py:132-133 | the first loop stops every name that had a scheduler task, emptying both maps, with each manager's outcome as in `StopAgent`: references cleared, or on a timeout the worker cleared and the task reference kept, to a task now done |
| `AgentRegistry.AgentRegistry.StopRegistered` | app/services/agent_registry.py:135-136 | the second loop finds both maps empty and leaves the registry empty, with no unit held |
| `AgentRegistry.AgentRegistry.Shutdown` | app/services/agent_registry.py:140-147 | the first call closes the registry and stops every manager as `stop_all` does, so each has its worker cleared and either no task reference or one to a task now done; a later call changes nothing, the managers included |
| `AgentRegistry.DuplicateThenReuse` | app/services/agent_registry.py:51-52 | a scheduled name is refused a second time and is free again once its scheduler task has finished |
| `Clock.AsUtc` | app/services/agent_registry.py:44-46 | the result is in UTC; a naive datetime keeps its wall reading, an aware one keeps its instant |
| `Clock.NonNegative` | app/services/agent_registry.py:48 | `max(x, 0)`: never below zero nor below `x`, and always one of the two |
| `Clock.HourOf` | app/core/temporal_ranker.py:123 | `datetime.hour` is always in 0..23 |
| `TemporalRanker.EmptyWindowNeverActive` | app/core/temporal_ranker.py:119-123 | a window whose start hour is not before its end hour is never active |
| `TemporalRanker.FullWindowAlwaysActive` | app/core/temporal_ranker.py:119-123 | a window covering 0..24 is always active |
| `TemporalRanker.DefaultWindowInUtc` | app/core/temporal_ranker.py:30-31 | the default 06-18 IST window (UTC + 5h30) is exactly UTC time of day from 00:30 up to 12:30 |
| `TemporalRanker.WindowIsDaily` | app/core/temporal_ranker.py:119-123 | the window check gives the same answer one day later |
| `TemporalRanker.WindowTicksMembers` | app/core/temporal_ranker.py:129-133 | an iteration invokes the ranking exactly when its clock reading is inside the window |
| `TemporalRanker.WindowTicksIncreasing` | app/core/temporal_ranker.py:129-145 | the invoking iterations come in increasing order, each once, all before the stop |
| `TemporalRanker.BodiesRun` | app/core/temporal_ranker.py:133 | with `asyncio.to_thread`, a plain function's body runs on every invocation and a coroutine function's body on none |
| `TemporalRanker.AsWrittenNoIterationRuns` | app/core/temporal_ranker.py:119-133 | as written no ranking body ever runs, although the default window is entered |
| `TemporalRanker.NormalizeIdSpec` | app/core/temporal_ranker.py:78-80 | a template with `_id` afterwards has `id`, copied from `_id` unless it already had one; a template without `_id` is untouched |
| `TemporalRanker.PeriodicResumeRanker.constructor` | app/core/temporal_ranker.py:26-46 | the settings are kept; there is no task and no stop signal |
| `TemporalRanker.PeriodicResumeRanker.Loop` | app/core/temporal_ranker.py:125-147 | the loop ends with the stop signal set, and invokes the ranking in exactly the in-window iterations up to the one that saw the stop (none if the signal was already set) |
| `TemporalRanker.PeriodicResumeRanker.Start` | app/core/temporal_ranker.py:149-156 | creates a task (clearing the stop signal) only when none exists; otherwise nothing changes |
| `TemporalRanker.PeriodicResumeRanker.Stop` | app/core/temporal_ranker.py:158-175 | without a task nothing changes; with one the stop signal is set and the task reference cleared, whether it finished in time or was cancelled |
| `TemporalRanker.RunOnce` | app/core/temporal_ranker.py:48-117 | the stores closed are exactly those opened, and which are opened depends on the first failing step; the resumes and templates kept are the valid ones, the templates after `id` normalisation; the iteration is skipped exactly when it gets that far and either list is empty, and ranks exactly when nothing fails and both are non-empty |
| `TemporalRanker.Normalized` | app/core/temporal_ranker.py:78-80 | one normalised document per fetched document |
| `TemporalRanker.NormalizedAt` | app/core/temporal_ranker.py:78-80 | each normalised document is the normalisation of the document in the same place |
| `TemporalRanker.NormalizeIds` | app/core/temporal_ranker.py:78-80 | the loop leaves every fetched template normalised, in order |
| `BulkUpload.UnavailableIsTransientInBulk` | app/api/parser.py:63-148 | every error the single upload reports as 503 is transient for the bulk loop, and the bulk loop counts as transient exactly those errors and the ones mentioning "timeout" |
| `BulkUpload.TimeoutClassifiedDifferently` | app/api/parser.py:63-148 | a timeout message is transient for the bulk loop but a 500 for the single upload |
| `BulkUpload.FirstOk` | app/api/parser.py:127-143 | the index of the first successful call, with every earlier call failed; none when all of them failed |
| `BulkUpload.AttemptsOutcomeSpec` | app/api/parser.py:121-175 | the file's result keeps its name; the attempt count is in 1..retry_attempts; success exactly when some allowed call succeeds, reported at the first one; failure reports every attempt used and the last error |
| `BulkUpload.BulkBackoff` | app/api/parser.py:163 | `min(2 ** (attempt - 1), 8)` lies in [1, 8] seconds |
| `BulkUpload.ProcessWithAttempts` | app/api/parser.py:121-175 | the loop returns the first-success-else-last-failure result; it makes exactly as many calls as the attempts reported, sleeps between consecutive calls only, each sleep the backoff plus up to a quarter of it |
| `BulkUpload.SuccessCountBounds` | app/api/parser.py:205-206 | the success count is at most the number of results, equal to it exactly when all succeeded, zero exactly when all failed |
| `BulkUpload.UploadResumesBulk` | app/api/parser.py:76-218 | 422 for out-of-range query values, 500 without an API key, 400 without files, 500 when a save fails; otherwise one result per file in upload order, each the attempt loop's result, with success + failed == total |
| `BulkUpload.UploadResume` | app/api/parser.py:19-72 | 500 without an API key or when the save fails; a pipeline error answers with `UploadErrorStatus`, the 503 with "Upstream model unavailable. Please retry later." and the 500 with its message; a success reports the pipeline's filename, phone, saved flag and document id |
| `ResumeParser.NewProcessor` | app/services/resume_parser.py:20-34 | a missing or empty key is refused with "api_key is required"; otherwise the settings are kept as given |
| `ResumeParser.BackoffBounded` | app/services/resume_parser.py:57 | with non-negative settings the backoff stays in [0, max_backoff], never shrinks from one retry to the next, and doubles until it reaches the cap |
| `ResumeParser.JitteredBounded` | app/services/resume_parser.py:58-59 | the jittered wait lies between the backoff and the backoff stretched by the spread |
| `ResumeParser.RetrySpec` | app/services/resume_parser.py:36-67 | at least one and at most max_retries + 1 calls; the result is the last call's outcome; every earlier call raised a transient error; an error escapes only when it is not transient or the retries are used up |
| `ResumeParser.NonTransientRaisedAtOnce` | app/services/resume_parser.py:49-54 | a first call failing with a non-transient error is the only call and its error is re-raised |
| `ResumeParser.RunWithRetries` | app/services/resume_parser.py:36-67 | the loop computes what `RetrySpec` describes, sleeping once between consecutive calls, each wait the backoff plus at most a fifth of it |
| `ResumeParser.ProcessResumeFile` | app/services/resume_parser.py:113-123 | the stages run in order, each only when the one before succeeded; the result is returned exactly when all four succeed, with the uploaded name, the parsed phone, `bool(saved_doc)` and the stored document |
| `RankingService.StrippedParts` | app/services/ranking_service.py:20 | keeps at most the parts given, each kept part the stripped form of a non-empty one |
| `RankingService.EmptyResumeText` | app/services/ranking_service.py:8-29 | a resume with no summary, experience or skills renders as the empty text |
| `RankingService.ResumeTextSections` | app/services/ranking_service.py:10-29 | each section is present exactly when its field is non-empty; the text opens with "Summary: ..." when there is a summary, otherwise with "Experience: ..." when there is experience |
| `RankingService.ExperienceLineTitleOnly` | app/services/ranking_service.py:17-20 | empty parts are dropped and the rest stripped: an entry with only a title renders as its stripped title |
| `RankingService.SerializeResume` | app/services/ranking_service.py:8-29 | the loop-built text equals the resume's text as defined section by section |
| `RankingService.ChunksFlatten` | app/services/ranking_service.py:34-35 | the batches, concatenated, give back the texts in order |
| `RankingService.ChunksCount` | app/services/ranking_service.py:34 | there are ceil(n / batch_size) batches, none for no texts |
| `RankingService.ChunksSizes` | app/services/ranking_service.py:35 | every batch has 1..batch_size texts, every batch but the last exactly batch_size |
| `RankingService.BatchEncode` | app/services/ranking_service.py:31-38 | a zero batch size raises from `range`, a negative one or no texts raises from `torch.cat`; otherwise one embedding per text, in order, computed over exactly the batches above |
| `RankingService.ArgsortDescSpec` | app/services/ranking_service.py:66 | `argsort(-similarities)` is a permutation of the indices with non-increasing scores |
| `RankingService.ArgsortDescOnce` | app/services/ranking_service.py:66 | every index appears in the order exactly once |
| `RankingService.RankedSpec` | app/services/ranking_service.py:66-82 | the ranking holds each resume exactly once with non-increasing scores, each entry with its own resume's candidate id, name and score |
| `RankingService.RankOutcome` | app/services/ranking_service.py:46-82 | the ranking is returned exactly when the batch size is positive and there are resumes, and is then the ranked list of their similarity scores |
| `RankingService.SerializeAll` | app/services/ranking_service.py:56 | one text per resume, in order, each that resume's text |
| `RankingService.AppendRanked` | app/services/ranking_service.py:69-82 | the appending loop builds exactly the ranked list |
| `RankingService.RankResumesBySimilarity` | app/services/ranking_service.py:46-82 | the method returns or raises exactly what `RankOutcome` states |
| `RankerApi.PrefixSlice` | app/api/ranker.py:52 | Python's `s[:k]`: the first k elements, clamped at the length; a negative k drops the last -k elements |
| `RankerApi.RankResumes` | app/api/ranker.py:27-37 | a blank job description is a 400, no resumes a 400, more than MAX_RESUMES a 413 naming the limit |
| `RankerApi.RankResumesAccepted` | app/api/ranker.py:39-58 | an accepted request reports every resume in `total_resumes` and returns the first top_k entries of the ranking, `returned` being their count, with Python's clamping of top_k |
| `RankerApi.TopKCut` | app/api/ranker.py:51-52 | `s[:k]` is a prefix of `s` whose length is k clamped to the length, counted from the end when k is negative |
| `RankerApi.RankResumesDefaultTopK` | app/api/ranker.py:51 | an absent top_k returns the whole ranking |
| `RankerApi.RankResumesServerError` | app/api/ranker.py:39-48 | a valid request the ranking fails on is a 500 carrying the ranking's error |
| `PromptBuilder.PieceLengths` | app/helpers/prompt_builder.py:7-22 | the lengths of the fixed text between and around the three inputs |
| `PromptBuilder.PromptStartsWithTemplate` | app/helpers/prompt_builder.py:7-8 | the prompt opens with a line break followed by the interview template verbatim |
| `PromptBuilder.PromptJobSection` | app/helpers/prompt_builder.py:12-14 | the job description sits verbatim between "--- JOB DESCRIPTION ---" and its closing line |
| `PromptBuilder.PromptResumeSection` | app/helpers/prompt_builder.py:17-18 | the resume sits verbatim after "--- CANDIDATE RESUME ---" |
| `PromptBuilder.PromptClosing` | app/helpers/prompt_builder.py:19-22 | the resume's closing line follows it, and the closing instruction ends the prompt |
| `PromptBuilder.PromptLength` | app/helpers/prompt_builder.py:7-22 | the prompt is as long as its three inputs plus the fixed text |
| `PromptBuilder.PromptDeterminesInputs` | app/helpers/prompt_builder.py:1-23 | two prompts built from inputs of the same lengths are equal only when the inputs are |
| `Preprocessor.FindMarker` | app/helpers/preprocessor.py:20-22 | the first occurrence of the marker at or after the start, with no earlier occurrence and, for the lazy `.*?`, no line break before it; nothing is found only when the marker does not occur at all, or, for the lazy `.*?`, only after a line break |
| `Preprocessor.FindChar` | app/helpers/preprocessor.py:25-31 | the first position at or after the start holding the character |
| `Preprocessor.DropFences` | app/helpers/preprocessor.py:11 | removing backtick runs only shortens the text and keeps only its own characters |
| `Preprocessor.DropDashes` | app/helpers/preprocessor.py:14 | no hyphen is left; a text without hyphens is unchanged |
| `Preprocessor.HeaderEnd` | app/helpers/preprocessor.py:17 | a header marker that matches spans at least one `#` |
| `Preprocessor.NewlineHeaders` | app/helpers/preprocessor.py:17 | the `\n` alternative only shortens the text; a text without `#` is unchanged |
| `Preprocessor.DropHeaders` | app/helpers/preprocessor.py:17 | the header pass only shortens the text; a text without `#` is unchanged |
| `Preprocessor.OpenedBy` | app/helpers/preprocessor.py:20-21 | the marker found is one of the alternatives and is a prefix of the text |
| `Preprocessor.DropPairs` | app/helpers/preprocessor.py:20-22 | a marker pass only shortens the text and keeps only its own characters |
| `Preprocessor.DropInlineCode` | app/helpers/preprocessor.py:25 | the inline-code pass only shortens the text and keeps only its own characters |
| `Preprocessor.DropFencedBlocks` | app/helpers/preprocessor.py:28 | the fenced-block pass only shortens the text and keeps only its own characters |
| `Preprocessor.DropLinks` | app/helpers/preprocessor.py:31-34 | a link pass only shortens the text and keeps only its own characters |
| `Preprocessor.PreprocessText` | app/helpers/preprocessor.py:7-9 | an empty or missing text gives the empty text |
| `Preprocessor.PreprocessShrinks` | app/helpers/preprocessor.py:7-36 | no rewrite inserts anything: the result is no longer than the input, holds only its characters, and holds no hyphen |
| `Preprocessor.PlainUnchanged` | app/helpers/preprocessor.py:7-36 | a text without markup characters is returned unchanged by every stage |
| `Preprocessor.DropFencesKeeps` | app/helpers/preprocessor.py:11 | a text with no two adjacent backticks is unchanged by the fence pass |
| `Preprocessor.DropPairsKeeps` | app/helpers/preprocessor.py:20-22 | a text where no marker opens is unchanged by a marker pass |
| `Preprocessor.UndoubledNeverOpensBold` | app/helpers/preprocessor.py:20 | bold markers cannot open where neither `*` nor `_` is doubled |
| `Preprocessor.StripsBold` | app/helpers/preprocessor.py:20 | `**x**` and `__x__` become `x` |
| `Preprocessor.StripsItalic` | app/helpers/preprocessor.py:21 | `*x*` and `_x_` become `x` |
| `Preprocessor.StripsStrikethrough` | app/helpers/preprocessor.py:22 | `~~x~~` becomes `x` |
| `Preprocessor.StripsInlineCode` | app/helpers/preprocessor.py:25 | `` `x` `` becomes `x` |
| `Preprocessor.StripsLink` | app/helpers/preprocessor.py:31 | `[x](u)` becomes `x` |
| `Preprocessor.StripsHeader` | app/helpers/preprocessor.py:17 | one to six `#`, a space and `x` become `x` |
| `Preprocessor.ImageLinksStage` | app/helpers/preprocessor.py:31-34 | the link pass takes the `[x](u)` inside `![x](u)`, leaving `!x` and nothing for the image pass |
| `Preprocessor.ImageBecomesBangAlt` | app/helpers/preprocessor.py:30-34 | as written, `![x](u)` becomes `!x` |
| `Preprocessor.LinksImagesFirst` | app/helpers/preprocessor.py:30-34 | with images first, the last stage still only shortens the text |
| `Preprocessor.PreprocessTextImagesFirst` | app/helpers/preprocessor.py:7-36 | with images first, an empty or missing text still gives the empty text |
| `Preprocessor.ImagesFirstStripsImage` | app/helpers/preprocessor.py:33-34 | with images first, `![x](u)` becomes `x` |
| `Preprocessor.ImagesFirstStripsLink` | app/helpers/preprocessor.py:30-31 | with images first, `[x](u)` still becomes `x` |
| `Preprocessor.ImagesFirstPlainUnchanged` | app/helpers/preprocessor.py:7-36 | with images first, a text without markup is still unchanged |
| `Preprocessor.Front` | app/helpers/preprocessor.py:11-17 | the fence, hyphen and header passes only shorten the text, keep only its characters and leave no hyphen |
| `Preprocessor.Emphasis` | app/helpers/preprocessor.py:20-22 | the bold, italic and strikethrough passes only shorten the text and keep only its characters |
| `Preprocessor.Code` | app/helpers/preprocessor.py:25-28 | the inline-code and fenced-block passes only shorten the text and keep only its characters |
| `Preprocessor.Links` | app/helpers/preprocessor.py:31-34 | the link and image passes only shorten the text and keep only its characters |
| `Preprocessor.FrontKeeps` | app/helpers/preprocessor.py:11-17 | a text without backticks, hyphens and `#` is unchanged by the first passes |
| `Preprocessor.EmphasisKeeps` | app/helpers/preprocessor.py:20-22 | a text without `*`, `_` and `~` is unchanged by each emphasis pass |
| `Preprocessor.CodeKeeps` | app/helpers/preprocessor.py:25-28 | a text without backticks is unchanged by both code passes |
| `Preprocessor.LinksKeeps` | app/helpers/preprocessor.py:31-34 | a text without `[` is unchanged by both link passes |
| `Preprocessor.DropInlineCodeKeeps` | app/helpers/preprocessor.py:25 | a text without backticks is unchanged by the inline-code pass |
| `Preprocessor.DropFencedBlocksKeeps` | app/helpers/preprocessor.py:28 | a text without backticks is unchanged by the fenced-block pass |
| `Preprocessor.DropLinksKeeps` | app/helpers/preprocessor.py:31-34 | a text without `[` is unchanged by a link pass |
| `Preprocessor.AbsentNeverOpens` | app/helpers/preprocessor.py:20-22 | a marker whose first character does not occur never opens |
| `Preprocessor.HeaderPass` | app/helpers/preprocessor.py:17 | the header pass drops one to six `#` and the space after them at the start of the text |
| `Preprocessor.BoldStage` | app/helpers/preprocessor.py:20 | the emphasis passes turn `**x**` and `__x__` into `x` |
| `Preprocessor.SingleMarkersUndoubled` | app/helpers/preprocessor.py:20-21 | a single marker around plain text doubles no `*`, `_` or backtick |
| `Preprocessor.ItalicStage` | app/helpers/preprocessor.py:21 | the emphasis passes turn `*x*` and `_x_` into `x`, the bold pass finding nothing |
| `Preprocessor.StrikeStage` | app/helpers/preprocessor.py:22 | the emphasis passes turn `~~x~~` into `x` |
| `Preprocessor.CodePass` | app/helpers/preprocessor.py:25 | the inline-code pass turns `` `x` `` into `x` |
| `Preprocessor.CodeUntouchedBefore` | app/helpers/preprocessor.py:11-22 | the passes before the code stage leave `` `x` `` alone, its backtick being single |
| `Preprocessor.CodeStage` | app/helpers/preprocessor.py:25-28 | the code passes turn `` `x` `` into `x`, the fenced-block pass finding nothing |
| `Preprocessor.LinkPass` | app/helpers/preprocessor.py:31 | the link pass turns `[x](u)` into `x` |
| `Preprocessor.ImageLinkPass` | app/helpers/preprocessor.py:31 | the link pass turns `![x](u)` into `!x`: it skips the `!` and takes the link |
| `Preprocessor.ImagePass` | app/helpers/preprocessor.py:34 | the image pattern on its own turns `![x](u)` into `x` |
| `Preprocessor.ImagePassSkipsLink` | app/helpers/preprocessor.py:34 | the image pattern leaves `[x](u)` alone |
| `MultiJob.TextParts` | app/services/multi_job.py:35-45 | at most four parts, none empty, the title first when it is truthy |
| `MultiJob.JobTextFallsBackWhenBlank` | app/services/multi_job.py:46 | the text falls back to the title or summary exactly when every part is blank; otherwise it is the non-empty stripped join |
| `MultiJob.EmptyTemplateText` | app/services/multi_job.py:35-46 | a template without title, description, summary or skills gives the empty text |
| `MultiJob.NameOfSpec` | app/services/multi_job.py:152-154 | the name is a truthy `fullName` as it is; otherwise it raises the TypeError exactly when a truthy `firstName` or `lastName` is not text, and is `first + " " + last` with falsy parts read as "" |
| `MultiJob.JobIdOf` | app/services/multi_job.py:106 | the id is `_id` when that is truthy, else `id` when that is truthy, else empty; it is empty exactly when both are falsy |
| `MultiJob.JobEntriesSpec` | app/services/multi_job.py:123-136 | a job contributes at most one recommendation per ranked entry, each for a non-empty candidate id and carrying this job's id |
| `MultiJob.Contribution` | app/services/multi_job.py:103-141 | a template without an id, or whose ranking raises, contributes nothing |
| `MultiJob.SkippedCountBound` | app/services/multi_job.py:100-141 | no more templates are skipped than there are templates |
| `MultiJob.RecsOfAbsent` | app/services/multi_job.py:133 | a candidate that occurs in no entry has no recommendations |
| `MultiJob.GroupOfSpec` | app/services/multi_job.py:99-145 | `candidate_recs` holds exactly the candidates that occur, each once in first-seen order, each with its non-empty recommendations in encounter order |
| `MultiJob.ProcessedCountsCandidates` | app/services/multi_job.py:170 | `processed_candidates` is the number of distinct candidates |
| `MultiJob.SortedRecsSpec` | app/services/multi_job.py:147 | the recommendations are a permutation of those collected, ordered by rank ascending and then score descending |
| `MultiJob.SortedRecs` | app/services/multi_job.py:147 | sorting keeps every recommendation, as often as it occurred |
| `MultiJob.RecValues` | app/services/multi_job.py:132-160 | one recommendation dict per recommendation, in order |
| `MultiJob.RecValueNormalizes` | app/services/multi_job.py:132 | every recommendation dict the service builds passes the store's per-job normalisation |
| `MultiJob.PayloadAccepted` | app/services/multi_job.py:156-164 | the store accepts every payload the service builds, for that candidate and with one job per recommendation |
| `MultiJob.PayloadsSpec` | app/services/multi_job.py:145-161 | one payload per candidate in first-seen order, each with that candidate's owner, name and sorted recommendations |
| `MultiJob.AcceptedCount` | app/services/multi_job.py:163-168 | no more upserts count than there are candidates |
| `MultiJob.UpsertStep` | app/services/multi_job.py:145-168 | each candidate adds its payload and, when its upsert goes through, one to the count |
| `MultiJob.UpsertReachSpec` | app/services/multi_job.py:145-154 | the upsert loop gets through every candidate before its reach, and the candidate at the reach, if any, is one whose name raises |
| `MultiJob.UpsertRunSpec` | app/services/multi_job.py:143-168 | the upsert loop raises exactly when some candidate's name raises; it upserts only the candidates before the first such one, with their payloads, counting those whose database call goes through |
| `MultiJob.UpsertRunRaisedStays` | app/services/multi_job.py:143-168 | once a name has raised, the later candidates are not visited |
| `MultiJob.SummaryBounds` | app/services/multi_job.py:170 | the upserted count is at most the processed candidates, the skipped count at most the templates |
| `MultiJob.CollectJob` | app/services/multi_job.py:123-136 | the inner loop adds exactly the job's entries, in order, to the candidates' lists |
| `MultiJob.CollectTemplate` | app/services/multi_job.py:103-141 | one template adds exactly its contribution and is counted as skipped exactly when it has no id or its ranking raises |
| `MultiJob.CollectRecommendations` | app/services/multi_job.py:99-141 | the template loop groups exactly the contributions of all templates, in order, and counts the skipped ones |
| `MultiJob.MultiJobRankingService.constructor` | app/services/multi_job.py:20-28 | the store and the default top-k are kept |
| `MultiJob.MultiJobRankingService.LoadAndValidateResumes` | app/services/multi_job.py:48-70 | the candidate documents that validate, in the store's order |
| `MultiJob.MultiJobRankingService.UpsertCandidate` | app/services/multi_job.py:145-168 | a candidate whose truthy `firstName` or `lastName` is not text raises the TypeError and changes nothing; otherwise the payload is built from the candidate's document, the upsert counts exactly when the database does not raise, and then a document for the candidate is in the recommendations; other collections are untouched, and a failure changes nothing |
| `MultiJob.MultiJobRankingService.UpsertAll` | app/services/multi_job.py:143-168 | the loop's outcome, raised flag, count and payloads, is that of `UpsertRunSpec` for the candidates in first-seen order, and only the recommendations collection changes |
| `MultiJob.MultiJobRankingService.RankAllJobsAndUpsert` | app/services/multi_job.py:72-170 | with no valid resume the summary is all zeros and nothing changes; otherwise the candidates before the first whose name raises are upserted with their payloads, a raising name ends the call with the TypeError, and without one it reports the accepted upserts, the skipped templates and the distinct candidates; only the recommendations collection changes |
| `MongoService.ToObjectIdOfText` | app/services/mongoDB_service.py:79-81 | the text of an ObjectId coerces back to that ObjectId |
| `MongoService.SerializeDocument` | app/services/mongoDB_service.py:89-116 | no document gives none; otherwise the same keys in the same order, each value converted |
| `MongoService.SerializeValueSpec` | app/services/mongoDB_service.py:96-116 | after the conversion no ObjectId is left where it converts them, and converting twice is converting once |
| `MongoService.NestedListKeepsObjectId` | app/services/mongoDB_service.py:104-112 | an ObjectId in a list inside a list is left as it is |
| `MongoService.SerializeFields` | app/services/mongoDB_service.py:96-116 | the key-by-key loop computes the conversion |
| `MongoService.Limited` | app/services/mongoDB_service.py:146-147 | the documents kept are a prefix of the matches: the first `limit` of them when the limit is positive and smaller than their number, all of them otherwise |
| `MongoService.Matching` | app/services/mongoDB_service.py:142-143 | exactly the documents that match the filter |
| `MongoService.FindById` | app/services/mongoDB_service.py:126 | a document with that `_id` when there is one; none exactly when no document has it |
| `MongoService.FindCandidate` | app/services/mongoDB_service.py:249-250 | the first document whose `candidate_id` equals the filter value, none exactly when there is no such document |
| `MongoService.Truncate` | app/services/mongoDB_service.py:237 | `int()` of a float rounds toward zero |
| `MongoService.NormalizeJob` | app/services/mongoDB_service.py:233-238 | a normalised entry has exactly the keys `job_id`, `score`, `rank`, its `job_id` coerced, and without `score` or `rank` it holds 0.0 and 0; a non-dict entry raises |
| `MongoService.NormalizeJobs` | app/services/mongoDB_service.py:231-238 | one normalised entry per entry in order, and an error exactly when some entry cannot be normalised |
| `MongoService.NormalizeRecommendedJobs` | app/services/mongoDB_service.py:231-238 | the loop succeeds exactly when every entry normalises, and then returns the normalised list |
| `MongoService.NormalizeJobsFails` | app/services/mongoDB_service.py:232-238 | one entry that cannot be normalised makes the whole upsert raise |
| `MongoService.SetPayloadSpec` | app/services/mongoDB_service.py:240-251 | after `$set` the five payload keys hold the payload and every other key is unchanged |
| `MongoService.ApplyUpsertSpec` | app/services/mongoDB_service.py:249-254 | a stored candidate's first document is rewritten in place, keeping `_id` and `createdAt`, nothing else changes; a new candidate gets one appended document with a fresh `_id` and `createdAt` set to the time of the upsert |
| `MongoService.InsertedDocSpec` | app/services/mongoDB_service.py:249-252 | the inserted document holds the payload, the fresh `_id` and the creation time |
| `MongoService.FindCandidateFirst` | app/services/mongoDB_service.py:250 | the first document with the candidate is the one the filter selects |
| `MongoService.RewrittenIsFound` | app/services/mongoDB_service.py:249-254 | a rewritten document stays the candidate's first |
| `MongoService.AppendedIsFound` | app/services/mongoDB_service.py:249-254 | an inserted document becomes the candidate's first |
| `MongoService.UpsertedIsFound` | app/services/mongoDB_service.py:249-254 | after an upsert, filtering on the candidate finds the document it returned |
| `MongoService.UpsertTwiceKeepsOneDocument` | app/services/mongoDB_service.py:249-254 | a second upsert for the same candidate adds no document and keeps the first one's `createdAt` |
| `MongoService.LookupById` | app/services/mongoDB_service.py:118-130 | an id that is not an ObjectId finds nothing; a stored non-empty document with that `_id` is found and returned converted, and any result is the conversion of such a document |
| `MongoService.MongoService.constructor` | app/services/mongoDB_service.py:32-57 | the service starts over the given store |
| `MongoService.MongoService.GetById` | app/services/mongoDB_service.py:118-130 | the same for one collection of the store: its stored non-empty document with that `_id` is returned converted |
| `MongoService.MongoService.GetAll` | app/services/mongoDB_service.py:132-152 | the converted matching documents in store order, all of them unless the limit is positive, at most `limit` otherwise |
| `MongoService.MongoService.PayloadOf` | app/services/mongoDB_service.py:212-246 | an input that is neither a model nor a dict raises; otherwise candidate and owner coerced to ObjectIds or null, the name as given, the entries normalised, `updatedAt` the time of the call |
| `MongoService.MongoService.UpsertRankedResumeOut` | app/services/mongoDB_service.py:189-256 | fails, changing nothing, exactly when the payload cannot be built or the database raises; otherwise only the recommendations collection changes, by the upsert, and the converted document after the update is returned |
| `Documents.ParseObjectId` | app/services/mongoDB_service.py:79-83 | a string is an ObjectId exactly when it is 24 hexadecimal digits, and then its text is the lower-cased string |
| `Documents.ObjectIdRoundTrip` | app/services/mongoDB_service.py:98-99 | printing an ObjectId and parsing the text gives the same ObjectId back |
| `Documents.Get` | app/services/mongoDB_service.py:226-228 | `dict.get` finds a value exactly when the key is present, and the pair is then in the document |
| `Documents.Put` | app/services/mongoDB_service.py:251 | setting a key replaces it in place when present and appends it otherwise; the key then reads back as the new value |
| `Documents.PutOther` | app/services/mongoDB_service.py:251 | setting one key leaves every other key's value unchanged |
| `Documents.KeepSpec` | app/services/multi_job.py:55-68 | the validated documents are exactly the raw ones that validate, never more of them |
| `Documents.KeepAppend` | app/services/multi_job.py:55-68 | each raw document adds itself to the validated list exactly when it validates |
| `Documents.Or` | app/services/multi_job.py:46 | `a or b` is one of its two operands and is truthy exactly when either operand is; it is `a` when `a` is truthy |
| `InterviewManager.NormalizeValue` | app/services/Interview_manager.py:85-111 | dicts stay dicts with the same keys, lists stay lists of the same length, an ObjectId and a value of an unknown type become text, primitives and datetimes are kept |
| `InterviewManager.NormalizeValueSpec` | app/services/Interview_manager.py:85-111 | after the conversion no ObjectId and no unknown value is left at any depth, and an already converted value is kept as it is |
| `InterviewManager.NormalizeIdempotent` | app/services/Interview_manager.py:76-113 | converting twice is converting once |
| `InterviewManager.NormalizeAfterSerialize` | app/services/Interview_manager.py:78-80 | converting a document the store already serialised gives the same as converting the raw document |
| `InterviewManager.NormalizeReachesNestedLists` | app/services/Interview_manager.py:105-106 | an ObjectId in a list inside a list becomes text here, unlike in the store's conversion |
| `InterviewManager.NormalizeDocToStr` | app/services/Interview_manager.py:76-113 | `None` stays `None`; a document keeps its keys and has each value converted |
| `InterviewManager.ParseInterviewTime` | app/services/Interview_manager.py:40-74 | a result is always in UTC; a datetime keeps its instant and a naive one its wall clock; text gives a time exactly when it parses, at the parsed instant; any other value gives nothing |
| `InterviewManager.PickTemplates` | app/services/Interview_manager.py:115-145 | the senior templates exactly when the experience is truthy, accepted by `float()` and at least 5, or the nested level mentions "senior" in any case; the general ones otherwise |
| `InterviewManager.DefaultTemplates` | app/services/Interview_manager.py:120-121 | with no resume and no job the general templates are chosen |
| `InterviewManager.SeniorFromYears` | app/services/Interview_manager.py:131-135 | five or more years of experience choose the senior templates |
| `InterviewManager.SmallYearsHideTotalExperience` | app/services/Interview_manager.py:125 | a truthy `totalExperienceYears` below 5 hides a large `totalExperience` |
| `InterviewManager.SeniorFromLevel` | app/services/Interview_manager.py:126-141 | a senior `experienceLevel` in the nested `jobDescription` chooses the senior templates |
| `InterviewManager.AsWrittenJdLevelIgnored` | app/services/Interview_manager.py:212-218 | as written, an extracted job description with level "Senior" still gives the general templates, though the same description nested under `jobDescription` would give the senior ones |
| `InterviewManager.StartTemplates` | app/services/Interview_manager.py:212-218 | with an extracted job description the senior templates are chosen exactly when the experience or that description's level says senior; otherwise as written |
| `InterviewManager.StartTemplatesReadJdLevel` | app/services/Interview_manager.py:126-141 | an extracted job description with a senior level leads to the senior templates |
| `InterviewManager.CandidateRef` | app/services/Interview_manager.py:170 | the reference is truthy exactly when one of the three candidate keys is; it is `candidate` when that is truthy, else `candidate_id` when that is truthy, else `candidateId` as stored |
| `InterviewManager.AgentIdOf` | app/services/Interview_manager.py:237-238 | no agent id is passed exactly when `agentId` is absent or null |
| `InterviewManager.FindByCandidateKey` | app/services/Interview_manager.py:31-35 | a stored interview with that `candidateKey` when there is one; none exactly when no document has it |
| `InterviewManager.InterviewManager.constructor` | app/services/Interview_manager.py:28-29 | the manager keeps the store it is given |
| `InterviewManager.InterviewManager.LoadResume` | app/services/Interview_manager.py:174-192 | a resume is the converted validation of a stored non-empty resume; a failure is a 404 or the 500 "Invalid resume format", and a missing resume is the 404 |
| `InterviewManager.InterviewManager.LoadJob` | app/services/Interview_manager.py:195-215 | no job exactly when the interview names none; otherwise the stored job, or the converted job description when one validates and is non-empty; no outcome refuses the request |
| `InterviewManager.InterviewManager.DispatchFor` | app/services/Interview_manager.py:217-248 | the token is asked for an `agent-` and an `interview-` name, the candidate as identity, and the interview's agent id; the prompt is built from the resume, the job and the interview template chosen by `StartTemplates`, the corrected choice listed under Findings |
| `InterviewManager.InterviewManager.RespondStarted` | app/services/Interview_manager.py:250-283 | a response carries the dispatch's names, a non-empty token, the started message exactly when the agent was started, and the time of the response in UTC |
| `InterviewManager.InterviewManager.Proceed` | app/services/Interview_manager.py:168-283 | a 400 from the candidate steps always means a missing candidate reference |
| `InterviewManager.InterviewManager.StartByCandidateKey` | app/services/Interview_manager.py:147-155 | a database error is the 500; no stored or an empty interview for the key is the 404 |
| `InterviewManager.InterviewManager.StartedMeansDue` | app/services/Interview_manager.py:147-283 | a start that goes ahead had a stored interview with that key, due by now, naming a candidate whose resume loaded |
| `InterviewManager.InterviewManager.TimeGate` | app/services/Interview_manager.py:157-166 | an interview time after now refuses with the not-yet-time 400; otherwise, a missing or unreadable time included, the request goes on |
| `InterviewManager.InterviewManager.CandidateGate` | app/services/Interview_manager.py:170-172 | a due interview is refused with the missing-candidate 400 exactly when none of the candidate keys is truthy |
| `InterviewManager.InterviewManager.StartedResponse` | app/services/Interview_manager.py:170-283 | a start that goes ahead answers with the non-empty token created for a dispatch whose identity is the referenced candidate, with the names `agent-<uuid>` and `interview-<uuid>`, the started message exactly when the agent was started, and the time in UTC |
| `InterviewManager.InterviewManager.ProceedStarted` | app/services/Interview_manager.py:170-283 | the same for the steps after the time check |
| `InterviewManager.InterviewManager.MessagesDiffer` | app/services/Interview_manager.py:272-274 | the two success messages differ |
| `InterviewManager.InterviewManager.TokenGate` | app/services/Interview_manager.py:243-252 | with the resume in hand the request is refused exactly when the token comes back empty |
| `Text.LeadingSpace` | app/services/multi_job.py:46 | the length of the whitespace run that opens the text |
| `Text.TrailingSpace` | app/services/multi_job.py:46 | the length of the whitespace run that closes the text |
| `Text.Strip` | app/services/multi_job.py:46 | `strip()` gives the piece of the text that lies between a whitespace prefix and a whitespace suffix and neither starts nor ends with whitespace; it is empty exactly when the text is all whitespace |
| `Text.Lower` | app/api/parser.py:63 | `lower()` keeps the length, leaves no ASCII capital and every other character as it was, and lowering the result again changes nothing |
| `Text.JoinLength` | app/services/multi_job.py:46 | a join is as long as its parts plus one separator between each two |
| `Text.JoinStartsWithFirst` | app/services/multi_job.py:46 | a join starts with its first part |
| `Text.AllSpaceConcat` | app/services/multi_job.py:46 | a concatenation is all whitespace exactly when both halves are |
| `Text.JoinAllSpace` | app/services/multi_job.py:46 | a join with a blank separator is blank exactly when every part is |
| `Sorting.Insert` | app/services/multi_job.py:147 | inserting adds exactly the one element |
| `Sorting.InsertSorted` | app/services/multi_job.py:147 | inserting into a key-ordered sequence keeps it ordered |
| `Sorting.SortBy` | app/services/multi_job.py:147 | `sorted` is a permutation of its input |
| `Sorting.SortBySorted` | app/services/multi_job.py:147 | the result is in key order and a permutation of the input |
| `Sorting.SortBySortedIdentity` | app/services/multi_job.py:147 | sorting a sequence already in key order leaves it unchanged, ties included |
| `Sorting.InsertWithKey` | app/services/multi_job.py:147 | an inserted element comes first among the elements with its key, and the others with that key keep their order |
| `Sorting.SortByStable` | app/services/multi_job.py:147 | `sorted` is stable: the elements with any one key appear in the result in their input order |

## Left out

- Real asyncio scheduling is not modelled: interleaving, locks, `wait_for` timeouts, `gather` and `asyncio.to_thread`. Firing, completion, cancellation and timeouts are explicit transitions instead, or boolean outcomes passed in. A cancellation is taken as delivered, and the exit path it triggers is taken as complete by the time `wait_for` returns or raises, as `wait_for` waits for the cancelled task before raising its timeout.
- The LiveKit SDK is not modelled: the `Worker`/`WorkerOptions` construction, token creation and agent dispatch. A worker is a number, and the token is the result of a function parameter.
- `agent_registry.start_now` is not defined in the code, so a start request only reads the `started` flag it returns. The `TypeError` fallback that retries with the token (app/services/Interview_manager.py:261-269) is left out for the same reason.
- AgentRegistry.AgentRegistry.StopAll: the source visits the names in dict order. The model visits them in an arbitrary order, and its contract does not depend on that order.
- AgentRegistry.AgentRegistry.constructor: `concurrency_limit` is a `nat`. A negative limit, which `asyncio.Semaphore` refuses, cannot be expressed.
- The runner's `finally` (app/services/agent_service.py:85-92) is modelled as written. Inside the task's own `finally`, `self._runner_task.done()` is still false, so the reference to the finished task is never cleared, and the manager keeps a stored task that is done.
- TemporalRanker.PeriodicResumeRanker.Stop: the stop is atomic. The state between setting `_stopping` and clearing `_task` is not observable in the model.
- `random.uniform` jitter is a parameter, checked only against the bounds the source gives it.
- Embeddings, torch, numpy and the cosine similarity (app/services/ranking_service.py:40-44) are abstract functions. RankingService.ArgsortDescSpec does not fix the order of equal scores, because numpy's `argsort` does not promise one.
- The `Resume` record of the ranking follows the resume schema in app/schemas.py. Only the fields the ranking reads are kept. The `app/schemas/` package shadows that module at import time, and its `Resume` has `experiences` and no `RankedResume`; the model follows the module whose field names the ranking code uses.
- The pymongo client is not modelled: connecting, `close`, and the `EnvironmentError` branch (app/services/mongoDB_service.py:42-46). That branch cannot be taken, because `MONGO_DB_URL` has a non-empty default.
- MongoService.MongoService.GetAll: the `createdAt` sort of `get_all_resumes` and `get_all_jobs` (app/services/mongoDB_service.py:144-145, 167, 177) is not modelled. Documents come in store order.
- MongoService.MongoService.GetAll: a database error, which the source turns into `[]`, is not modelled, because the store cannot fail. The same holds for the exception branch of `get_by_id`. An invalid id there is modelled, and gives `None`.
- Documents.ParseObjectId accepts exactly 24 hexadecimal digits. bson decodes a 24-character string with `bytes.fromhex`, which also skips whitespace between digit pairs. Such strings are not modelled.
- Text.Lower lowers ASCII letters only, and `\w` in Preprocessor.IsWordChar is ASCII only. Python applies Unicode case mapping and Unicode word characters to non-ASCII text.
- `str()` of arbitrary values, `float()`/`int()` of text, and `isoparse`/`isoformat` are function parameters.
- Database and GenAI exceptions are boolean flags or outcome sequences. Their exception types and messages are not modelled, beyond the message text the models classify.
- Two 500 paths in `start_by_candidate_key` cannot be reached and are not modelled:
  - "Database error fetching candidate resume" (app/services/Interview_manager.py:176-178), because `get_by_id` catches every exception;
  - "Failed to construct agent prompt" (app/services/Interview_manager.py:231-233), because the f-string of `create_interview_prompt` raises for no input.
- The evaluation template is chosen (app/services/Interview_manager.py:220) but passed to nothing, in the model as in the source.
- InterviewManager.InterviewManager.StartByCandidateKey chooses templates with InterviewManager.StartTemplates, the corrected choice listed under Findings. InterviewManager.AsWrittenJdLevelIgnored keeps the code as written.
- `parse_agent_config` (app/helpers/preprocessor.py:43-79) is not part of this model: it uses classes the code never defines. `safe_str` (app/helpers/preprocessor.py:39-41) is not part of this model either, because no core operation calls it.
- Preprocessor.HeaderPass is stated for text that does not start with whitespace, because the trailing `\s*` of the header pattern also consumes such whitespace.
- Preprocessor.ItalicStage is stated for non-empty inner text only.
- Preprocessor.CodePass and Preprocessor.CodeStage are stated for non-empty inner text, because `` `([^`]+)` `` needs at least one character between the backticks.
- Preprocessor.StripsBold and the other `Strips` lemmas are stated for inner text without markup characters. Text with nested markup is covered only by the length and character bounds of Preprocessor.PreprocessShrinks.
- AgentRegistry.AgentRegistry.ManagersDistinct follows from the invariant that each manager is registered under its own agent name, `agentName == name`. It is not stated as injectivity of the map.
- Floating point is not modelled: scores, experience years and `float()` results are exact reals, with no rounding, NaN or infinity.
- BulkUpload.DocId reports the stored `_id` value itself. The source sends `str()` of it (app/api/parser.py:58 and 142), which the model does not apply.
- MultiJob.MultiJobRankingService.RankAllJobsAndUpsert states the payloads it sends to the store and that no collection other than recommendations changes. It does not state the final recommendations collection either.
- MultiJob.MultiJobRankingService.UpsertAll states the count, the payloads, and that no collection other than recommendations changes. It does not state the final recommendations collection as a whole. MultiJob.MultiJobRankingService.UpsertCandidate states, for each candidate, that its document is present after a successful upsert.
- `ResumeRanker` (app/services/multi_job.py:8) is a function parameter. `get_all_jobdescriptions` (app/core/temporal_ranker.py:76) and `upsert_resume` (app/services/resume_parser.py:106) are outcome parameters. None of the three is defined in the code. Nor is `JobDescriptionTemplate` (imported at app/core/temporal_ranker.py:9 and app/services/multi_job.py:7): MultiJob.JobTemplate holds the fields the ranking code reads from it.
- Pydantic validation (`model_validate`, `model_dump`) is a function parameter.
- The "already running" branch of `_delayed_start` (app/services/agent_registry.py:65-66) is not modelled. AgentRegistry.AgentRegistry.Valid keeps a scheduled manager idle until its task fires, so `run_now` cannot refuse there. Only a `run_now` on the same manager from outside the registry could reach it, and the scheduling endpoint that would share managers with the registry (app/api/scheduler.py:42) is commented out.
- The pydantic constraints of `RankRequest` are not modelled: `job_description` with min_length=3, `resumes` with min_items=1, and `top_k` with ge=1 answer 422 before the handler runs. RankerApi.RankResumes models the handler on any request. RankerApi.RankResponse follows the `results`/`RankedResume` shape of app/schemas.py, which the `app/schemas/` package shadows; that package's `RankResponse` has no `results` field.
- MongoService.MongoService.UpsertRankedResumeOut stores the `updatedAt` instant exactly. BSON keeps datetimes to the millisecond, so in the source the returned document's `updatedAt` is the call's `datetime.utcnow()` (app/services/mongoDB_service.py:213) truncated to milliseconds.

## Findings

| source | as written | input that shows it | evidently intended | confidence | as-written member | corrected member |
|---|---|---|---|---|---|---|
| app/core/temporal_ranker.py:133 | `_run_once` is an `async def` handed to `asyncio.to_thread`. The thread only creates the coroutine, which nobody awaits, so no ranking iteration ever runs. | any loop iteration inside the window, such as 12:00 IST in the default 06-18 window | every in-window iteration runs `_run_once` | not executed | `TemporalRanker.AsWrittenNoIterationRuns` | `TemporalRanker.PeriodicResumeRanker.Loop` |
| app/services/Interview_manager.py:126-129 | After a job description is extracted, `job_doc` holds the description itself (line 213). `_pick_templates` reads the level only from a nested `jobDescription` key, so a job's level never chooses the senior templates. | a job whose `jobDescription.experienceLevel` is "Senior", with a resume that gives no experience | the senior templates | not executed | `InterviewManager.AsWrittenJdLevelIgnored` | `InterviewManager.StartTemplatesReadJdLevel` |
| app/helpers/preprocessor.py:30-34 | The link pattern runs before the image pattern. It takes the `[alt](img)` inside `![alt](img)` and leaves the `!`, so the image pattern does not match a plain `![alt](img)`. | `![alt](img.png)` becomes `!alt` | `alt`, as the comment on line 33 says | not executed | `Preprocessor.ImageBecomesBangAlt` | `Preprocessor.ImagesFirstStripsImage` |
