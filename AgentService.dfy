/**
 * The agent manager of app/services/agent_service.py: one agent name, at most
 * one runner task, and the worker that runner has built. Every `await` of the
 * source is an explicit step here: the runner building its worker, the runner
 * leaving `worker.run()`, a scheduled start firing, a stop that does or does
 * not see the runner finish within its timeout.
 */
module AgentService {
  import opened Wrappers
  import opened Clock

  /** An asyncio task, known by a number; `done` once its coroutine has returned or raised. */
  datatype Task = Task(id: nat, done: bool)

  /** How the runner coroutine leaves `worker.run()`. */
  datatype RunnerExit =
    | RunFinished    // `worker.run()` returned
    | RunRaised      // an ordinary exception escaped `worker.run()` or the worker construction
    | RunCancelled   // the task was cancelled (`asyncio.CancelledError`)

  /** A LiveKit Worker, known by a number; its options and internals are not modelled. */
  type WorkerId = nat

  class AgentManager {
    const agentName: string
    var runnerTask: Option<Task>
    var worker: Option<WorkerId>
    /** Supply of task numbers, so that each task `run_now` creates is a new one. */
    var nextTaskId: nat

    constructor (agentName: string)
      ensures this.agentName == agentName
      ensures runnerTask == None && worker == None && !IsRunning()
    {
      this.agentName := agentName;
      runnerTask := None;
      worker := None;
      nextTaskId := 0;
    }

    /** `is_running()`: a runner task is stored and is not done. */
    predicate IsRunning()
      reads this
    {
      runnerTask.Some? && !runnerTask.value.done
    }

    /**
     * `run_now()`: refuses, changing nothing, while the stored runner task is
     * alive; otherwise stores a new, not yet done runner task.
     */
    method RunNow() returns (started: bool)
      modifies this
      ensures started == !old(IsRunning())
      ensures IsRunning()
      ensures worker == old(worker)
      ensures !started ==> runnerTask == old(runnerTask) && nextTaskId == old(nextTaskId)
      ensures started ==> runnerTask == Some(Task(old(nextTaskId), false)) && nextTaskId == old(nextTaskId) + 1
    {
      if runnerTask.Some? && !runnerTask.value.done {
        return false;
      }
      runnerTask := Some(Task(nextTaskId, false));
      nextTaskId := nextTaskId + 1;
      return true;
    }

    /**
     * The runner coroutine has built its Worker and exposes it so that `stop`
     * can reach it; the stored task is the runner itself.
     */
    method RunnerCreatesWorker(w: WorkerId)
      requires IsRunning()
      modifies this`worker
      ensures worker == Some(w)
      ensures IsRunning()
    {
      worker := Some(w);
    }

    /**
     * The runner coroutine leaves its body. A cancellation is re-raised after
     * the best-effort `aclose()`; an ordinary exception is logged and
     * swallowed. The `finally` block always drops the worker. It clears the
     * stored task only when that task is done, which the running task itself
     * never is while it executes its own `finally`, so the stored task stays
     * and only becomes done.
     */
    method RunnerExits(how: RunnerExit) returns (propagates: bool)
      requires IsRunning()
      modifies this`worker, this`runnerTask
      ensures propagates <==> how == RunCancelled
      ensures worker == None
      ensures runnerTask == Some(Task(old(runnerTask).value.id, true))
      ensures !IsRunning()
    {
      propagates := how == RunCancelled;
      var current := runnerTask.value;
      worker := None;
      runnerTask := Some(Task(current.id, true));
    }

    /**
     * `stop(timeout)`. With neither a task nor a worker stored it reports
     * success and changes nothing. Otherwise, after the best-effort
     * `aclose()`, a live runner is cancelled; `finishesInTime` says whether it
     * finishes within `timeout`. If it does not, `wait_for` cancels it and
     * waits for it before raising, so its exit path has cleared the worker
     * and the task is done, but the task reference stays and the result is
     * False; otherwise both references are cleared and the result is True.
     */
    method Stop(finishesInTime: bool) returns (ok: bool)
      modifies this`worker, this`runnerTask
      ensures ok <==> !(old(IsRunning()) && !finishesInTime)
      ensures old(runnerTask.None? && worker.None?) ==> runnerTask == old(runnerTask) && worker == old(worker)
      ensures ok ==> runnerTask == None && worker == None
      ensures !ok ==> runnerTask == Some(Task(old(runnerTask).value.id, true)) && worker == None
      ensures !IsRunning()
    {
      if runnerTask.None? && worker.None? {
        return true;
      }
      if runnerTask.Some? && !runnerTask.value.done {
        var _ := RunnerExits(RunCancelled);
        if !finishesInTime {
          return false;
        }
      }
      runnerTask := None;
      worker := None;
      return true;
    }

    /**
     * `stop_and_forget()`: both references are cleared before anything is
     * awaited; the cancelled task is no longer tracked.
     */
    method StopAndForget()
      modifies this`worker, this`runnerTask
      ensures runnerTask == None && worker == None && !IsRunning()
    {
      runnerTask := None;
      worker := None;
    }

    /**
     * `schedule_in(delay)`: a scheduling task sleeps `max(0, delay)` and then
     * calls `run_now`. `fires` says whether it wakes up, or is cancelled before
     * launching, in which case nothing changes.
     */
    method ScheduleIn(delay: int, fires: bool) returns (sleep: nat, started: bool)
      modifies this
      ensures sleep == NonNegative(delay) && sleep >= delay
      ensures !fires ==> !started && runnerTask == old(runnerTask) && nextTaskId == old(nextTaskId)
      ensures fires ==> started == !old(IsRunning()) && IsRunning()
      ensures worker == old(worker)
    {
      sleep := NonNegative(delay);
      started := false;
      if fires {
        started := RunNow();
      }
    }

    /**
     * `schedule_at(start)`: a naive start is compared with the local wall
     * clock, an aware one with the current time in its own zone; the delay is
     * never negative.
     */
    method ScheduleAt(start: DateTime, nowUtc: int, localOffset: int, fires: bool) returns (sleep: nat, started: bool)
      modifies this
      ensures sleep == ScheduleAtDelay(start, nowUtc, localOffset)
      ensures !fires ==> !started && runnerTask == old(runnerTask) && nextTaskId == old(nextTaskId)
      ensures fires ==> started == !old(IsRunning()) && IsRunning()
      ensures worker == old(worker)
    {
      var delay := if start.IsNaive() then start.wall - (nowUtc + localOffset) else UtcInstant(start) - nowUtc;
      sleep, started := ScheduleIn(delay, fires);
    }
  }

  /** The sleep `schedule_at` asks for, given the UTC clock and the local zone's offset. */
  function ScheduleAtDelay(start: DateTime, nowUtc: int, localOffset: int): (d: nat)
    ensures var target := if start.IsNaive() then start.wall - localOffset else UtcInstant(start);
      (target <= nowUtc ==> d == 0) && (target > nowUtc ==> nowUtc + d == target)
  {
    if start.IsNaive() then NonNegative(start.wall - (nowUtc + localOffset))
    else NonNegative(UtcInstant(start) - nowUtc)
  }

  /**
   * Scenario: a second `run_now` while the first runner lives is refused and
   * keeps the first runner task, so one manager never has two runners.
   */
  method RunNowTwice() returns (first: bool, second: bool, kept: bool)
    ensures first && !second && kept
  {
    var m := new AgentManager("agent");
    first := m.RunNow();
    var before := m.runnerTask;
    second := m.RunNow();
    kept := m.runnerTask == before;
  }
}
