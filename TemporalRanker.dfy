/**
 * The windowed periodic ranking job of `app/core/temporal_ranker.py`: a
 * background loop that, between two IST hours, runs one ranking iteration
 * per interval, plus its start/stop state machine and the skip and cleanup
 * rules of one iteration.
 */
module TemporalRanker {
  import opened Wrappers
  import opened Clock
  import opened Documents

  /** India Standard Time is UTC + 5h30m. */
  const IstOffset: int := 5 * MicrosPerHour + 30 * MicrosPerMinute
  const MicrosPerDay: int := 24 * MicrosPerHour

  /** `_in_active_window()` at the UTC instant `nowUtc`: the IST hour lies in `[startHour, endHour)`. */
  predicate InActiveWindow(startHour: int, endHour: int, nowUtc: int) {
    startHour <= HourOf(nowUtc + IstOffset) < endHour
  }

  /** A window whose start is not before its end is never active. */
  lemma {:induction false} EmptyWindowNeverActive(startHour: int, endHour: int, nowUtc: int)
    requires startHour >= endHour
    ensures !InActiveWindow(startHour, endHour, nowUtc)
  {
  }

  /** A window covering all 24 hours is always active. */
  lemma {:induction false} FullWindowAlwaysActive(startHour: int, endHour: int, nowUtc: int)
    requires startHour <= 0 && endHour >= 24
    ensures InActiveWindow(startHour, endHour, nowUtc)
  {
  }

  lemma {:induction false} HourDivAddDays(a: int, q: int)
    ensures (q * MicrosPerHour + a) / MicrosPerHour == q + a / MicrosPerHour
  {
    var r := a % MicrosPerHour;
    assert a == (a / MicrosPerHour) * MicrosPerHour + r;
    assert q * MicrosPerHour + a == (q + a / MicrosPerHour) * MicrosPerHour + r;
  }

  /**
   * The default window, 06:00 to 18:00 IST, is exactly the UTC time of day
   * from 00:30 (inclusive) to 12:30 (exclusive).
   */
  lemma {:induction false} DefaultWindowInUtc(nowUtc: int)
    ensures InActiveWindow(6, 18, nowUtc)
        <==> 30 * MicrosPerMinute <= nowUtc % MicrosPerDay < 12 * MicrosPerHour + 30 * MicrosPerMinute
  {
    var d := nowUtc % MicrosPerDay;
    var q := nowUtc / MicrosPerDay;
    assert nowUtc + IstOffset == (24 * q) * MicrosPerHour + (d + IstOffset);
    HourDivAddDays(d + IstOffset, 24 * q);
    var h := (d + IstOffset) / MicrosPerHour;
    assert 0 <= h < 30;
    assert HourOf(nowUtc + IstOffset) == (24 * q + h) % 24;
    assert (24 * q + h) % 24 == h % 24;
  }

  /** The window repeats every day. */
  lemma {:induction false} WindowIsDaily(startHour: int, endHour: int, nowUtc: int)
    ensures InActiveWindow(startHour, endHour, nowUtc + MicrosPerDay) == InActiveWindow(startHour, endHour, nowUtc)
  {
    var w := nowUtc + IstOffset;
    HourDivAddDays(w, 24);
    assert w + MicrosPerDay == 24 * MicrosPerHour + w;
  }

  /** The iterations among the first `n` whose clock reading lies in the window. */
  function WindowTicks(startHour: int, endHour: int, clock: seq<int>, n: nat): seq<nat>
    requires n <= |clock|
  {
    if n == 0 then []
    else
      var last := if InActiveWindow(startHour, endHour, clock[n - 1]) then [n - 1] else [];
      WindowTicks(startHour, endHour, clock, n - 1) + last
  }

  /** An iteration is in `WindowTicks` exactly when its clock reading is in the window. */
  lemma {:induction false} WindowTicksMembers(startHour: int, endHour: int, clock: seq<int>, n: nat, k: int)
    requires n <= |clock|
    ensures k in WindowTicks(startHour, endHour, clock, n) <==> 0 <= k < n && InActiveWindow(startHour, endHour, clock[k])
  {
    if n > 0 {
      WindowTicksMembers(startHour, endHour, clock, n - 1, k);
    }
  }

  /** The iterations are listed in increasing order, each once. */
  lemma {:induction false} WindowTicksIncreasing(startHour: int, endHour: int, clock: seq<int>, n: nat)
    requires n <= |clock|
    ensures forall i, j :: 0 <= i < j < |WindowTicks(startHour, endHour, clock, n)| ==>
      WindowTicks(startHour, endHour, clock, n)[i] < WindowTicks(startHour, endHour, clock, n)[j]
    ensures forall i :: 0 <= i < |WindowTicks(startHour, endHour, clock, n)| ==> WindowTicks(startHour, endHour, clock, n)[i] < n
  {
    if n > 0 {
      WindowTicksIncreasing(startHour, endHour, clock, n - 1);
    }
  }

  /**
   * `asyncio.to_thread(f)` runs `f` in a worker thread. When `f` is an
   * `async def` function, calling it only creates a coroutine object, so the
   * function's body never executes.
   */
  predicate ToThreadRunsBody(coroutineFunction: bool) {
    !coroutineFunction
  }

  /** The iterations, among `invoked`, in which the body of `_run_once` executes. */
  function BodiesRun(invoked: seq<nat>, coroutineFunction: bool): (r: seq<nat>)
    ensures ToThreadRunsBody(coroutineFunction) ==> r == invoked
    ensures !ToThreadRunsBody(coroutineFunction) ==> r == []
  {
    if ToThreadRunsBody(coroutineFunction) then invoked else []
  }

  /**
   * As written, `_run_once` is an `async def` handed to `asyncio.to_thread`,
   * so no ranking iteration ever runs, whatever the clock says.
   */
  lemma {:induction false} AsWrittenNoIterationRuns(clock: seq<int>, n: nat)
    requires n <= |clock|
    ensures BodiesRun(WindowTicks(6, 18, clock, n), true) == []
    ensures 0 < n && InActiveWindow(6, 18, clock[0]) ==> WindowTicks(6, 18, clock, n) != []
  {
    if 0 < n && InActiveWindow(6, 18, clock[0]) {
      WindowTicksMembers(6, 18, clock, n, 0);
    }
  }

  /** The background task of the loop. */
  datatype LoopTask = LoopTask(id: nat)

  /** How one `_run_once` can fail: the first step that raises, if any. */
  datatype FailPoint = NoFailure | RankerFactoryFails | CandidatesStoreFails | JobsStoreFails | FetchTemplatesFails | RankingFails

  /** The two stores `_run_once` may open. */
  datatype Store = CandidatesStore | JobsStore

  datatype Iteration = Ranked | SkippedEmpty | Failed

  /** A template document with an `_id` but no `id` gets `id` copied from `_id`. */
  function NormalizeId(d: Fields): Fields {
    if HasKey(d, "_id") && !HasKey(d, "id") then Put(d, "id", GetOrNull(d, "_id")) else d
  }

  /** After the normalisation a document with `_id` has `id`, equal to `_id` unless `id` was there already; others are untouched. */
  lemma {:induction false} NormalizeIdSpec(d: Fields)
    ensures var r := NormalizeId(d);
      && (HasKey(d, "_id") ==> HasKey(r, "id") && Get(r, "id") == Get(d, (if HasKey(d, "id") then "id" else "_id")))
      && (!HasKey(d, "_id") ==> r == d)
  {
  }

  class PeriodicResumeRanker {
    const intervalSeconds: int
    const startHourIst: int
    const endHourIst: int
    const topKPerJob: int
    var task: Option<LoopTask>
    var stopping: bool
    var nextTaskId: nat

    constructor(intervalSeconds: int, startHourIst: int, endHourIst: int, topKPerJob: int)
      ensures this.intervalSeconds == intervalSeconds && this.startHourIst == startHourIst
      ensures this.endHourIst == endHourIst && this.topKPerJob == topKPerJob
      ensures task == None && !stopping
    {
      this.intervalSeconds := intervalSeconds;
      this.startHourIst := startHourIst;
      this.endHourIst := endHourIst;
      this.topKPerJob := topKPerJob;
      task := None;
      stopping := false;
      nextTaskId := 0;
    }

    /**
     * `_loop`: `clock[k]` is the UTC time read by the window check of
     * iteration `k`, and `raises[k]` whether that iteration's ranking raised.
     * The stop signal arrives during the wait that ends iteration `stopAt`.
     * Returns the iterations that invoked `_run_once`.
     */
    method Loop(clock: seq<int>, raises: seq<bool>, stopAt: nat) returns (invoked: seq<nat>)
      requires stopAt < |clock| && |raises| == |clock|
      modifies this`stopping
      ensures stopping
      ensures old(stopping) ==> invoked == []
      ensures !old(stopping) ==> invoked == WindowTicks(startHourIst, endHourIst, clock, stopAt + 1)
    {
      invoked := [];
      var k := 0;
      while !stopping
        invariant 0 <= k <= stopAt + 1
        invariant !stopping ==> k <= stopAt
        invariant old(stopping) ==> invoked == [] && stopping
        invariant !old(stopping) ==> invoked == WindowTicks(startHourIst, endHourIst, clock, k)
        invariant !old(stopping) && stopping ==> k == stopAt + 1
        decreases stopAt + 1 - k
      {
        if InActiveWindow(startHourIst, endHourIst, clock[k]) {
          // `await asyncio.to_thread(self._run_once)`; an exception (`raises[k]`) is logged and the loop goes on
          invoked := invoked + [k];
        }
        // `wait_for(self._stopping.wait(), timeout=interval)`: times out, or sees the stop signal
        if k == stopAt {
          stopping := true;
        }
        k := k + 1;
      }
    }

    /** `start()`: a no-op while the loop task exists; otherwise clears the stop signal and creates the task. */
    method Start() returns (created: bool)
      modifies this
      ensures created <==> old(task).None?
      ensures !created ==> task == old(task) && stopping == old(stopping) && nextTaskId == old(nextTaskId)
      ensures created ==> task == Some(LoopTask(old(nextTaskId))) && !stopping && nextTaskId == old(nextTaskId) + 1
    {
      if task.Some? {
        created := false;
        return;
      }
      stopping := false;
      task := Some(LoopTask(nextTaskId));
      nextTaskId := nextTaskId + 1;
      created := true;
    }

    /**
     * `stop()`: with no task, returns at once. Otherwise sets the stop signal
     * and waits; when the loop does not finish in time it is cancelled. In
     * both cases the task reference is cleared.
     */
    method Stop(exitsInTime: bool)
      modifies this`stopping, this`task
      ensures old(task).None? ==> task == None && stopping == old(stopping)
      ensures old(task).Some? ==> task == None && stopping
    {
      if task.None? {
        return;
      }
      stopping := true;
      // when `!exitsInTime` the task is cancelled and its `CancelledError` absorbed; either way:
      task := None;
    }
  }

  /**
   * One ranking iteration, `_run_once`. `failAt` is the first step that
   * raises; `validResume`/`validTemplate` stand for the pydantic models.
   * Returns the outcome, the documents kept, the stores opened and the
   * stores closed in the cleanup block.
   */
  method RunOnce(failAt: FailPoint, rawResumes: seq<Fields>, validResume: Fields -> bool,
                 rawTemplates: seq<Fields>, validTemplate: Fields -> bool)
    returns (outcome: Iteration, resumes: seq<Fields>, templates: seq<Fields>, openedStores: set<Store>, closedStores: set<Store>)
    ensures closedStores == openedStores
    ensures CandidatesStore in openedStores <==> failAt !in {RankerFactoryFails, CandidatesStoreFails}
    ensures JobsStore in openedStores <==> failAt !in {RankerFactoryFails, CandidatesStoreFails, JobsStoreFails}
    ensures CandidatesStore in openedStores ==> resumes == Keep(rawResumes, validResume)
    ensures JobsStore in openedStores && failAt != FetchTemplatesFails ==> templates == Keep(Normalized(rawTemplates), validTemplate)
    ensures outcome == SkippedEmpty <==>
      (failAt in {NoFailure, RankingFails} && (Keep(rawResumes, validResume) == [] || Keep(Normalized(rawTemplates), validTemplate) == []))
    ensures outcome == Ranked <==>
      (failAt == NoFailure && Keep(rawResumes, validResume) != [] && Keep(Normalized(rawTemplates), validTemplate) != [])
  {
    resumes, templates, openedStores, closedStores := [], [], {}, {};
    outcome := Failed;
    if failAt == RankerFactoryFails || failAt == CandidatesStoreFails {
      return;
    }
    openedStores := {CandidatesStore};
    var i := 0;
    while i < |rawResumes|
      invariant 0 <= i <= |rawResumes|
      invariant resumes == Keep(rawResumes[..i], validResume)
    {
      KeepAppend(rawResumes, validResume, i);
      if validResume(rawResumes[i]) {
        resumes := resumes + [rawResumes[i]];
      }
      i := i + 1;
    }
    assert rawResumes[..i] == rawResumes;
    if failAt == JobsStoreFails {
      closedStores := openedStores;
      return;
    }
    openedStores := openedStores + {JobsStore};
    if failAt == FetchTemplatesFails {
      closedStores := openedStores;
      return;
    }
    var jds := NormalizeIds(rawTemplates);
    var j := 0;
    while j < |jds|
      invariant 0 <= j <= |jds|
      invariant templates == Keep(jds[..j], validTemplate)
    {
      KeepAppend(jds, validTemplate, j);
      if validTemplate(jds[j]) {
        templates := templates + [jds[j]];
      }
      j := j + 1;
    }
    assert jds[..j] == jds;
    if resumes == [] || templates == [] {
      outcome := SkippedEmpty;
    } else if failAt == RankingFails {
      outcome := Failed;
    } else {
      outcome := Ranked;
    }
    closedStores := openedStores;
  }

  /** Every template document normalised, in order. */
  function Normalized(docs: seq<Fields>): (r: seq<Fields>)
    ensures |r| == |docs|
  {
    if docs == [] then [] else Normalized(docs[..|docs| - 1]) + [NormalizeId(docs[|docs| - 1])]
  }

  /** Each normalised document is the normalisation of the document at the same place. */
  lemma {:induction false} NormalizedAt(docs: seq<Fields>, i: nat)
    requires i < |docs|
    ensures Normalized(docs)[i] == NormalizeId(docs[i])
    decreases |docs|
  {
    if i < |docs| - 1 {
      NormalizedAt(docs[..|docs| - 1], i);
    }
  }

  /** The in-place `id` normalisation loop over the fetched templates. */
  method NormalizeIds(docs: seq<Fields>) returns (r: seq<Fields>)
    ensures r == Normalized(docs)
  {
    r := [];
    var i := 0;
    while i < |docs|
      invariant 0 <= i <= |docs|
      invariant r == Normalized(docs[..i])
    {
      assert docs[..i + 1][..i] == docs[..i];
      r := r + [NormalizeId(docs[i])];
      i := i + 1;
    }
    assert docs[..i] == docs;
  }
}
