/**
 * The agent registry of app/services/agent_registry.py: a map from agent name
 * to manager, a map from agent name to its scheduler task, a `closed` flag and
 * a counting semaphore of `limit` units. The scheduler task of each name is
 * tracked by the step it is at; its steps (the delay elapsing, acquiring a
 * unit and calling `run_now`, leaving its body) are explicit transitions.
 */
module AgentRegistry {
  import opened Wrappers
  import opened Clock
  import opened AgentService

  /** Where a scheduler task (`_delayed_start`) is. */
  datatype Phase =
    | Sleeping        // awaiting the start delay
    | WaitingForSlot  // delay over, waiting for a semaphore unit
    | Holding         // inside `async with self._semaphore`

  datatype SchedulerTask = SchedulerTask(id: nat, phase: Phase)

  /** How a scheduler task leaves its body. */
  datatype SchedulerExit =
    | Finished   // the manager stopped running and the polling loop ended
    | Raised     // an ordinary exception inside the semaphore block
    | Cancelled  // `asyncio.CancelledError`, delivered at any await

  datatype CreateError = RegistryClosed | AlreadyExists

  datatype Created = Created(manager: AgentManager, task: nat, delay: nat)

  /** Names whose scheduler task holds a semaphore unit. */
  function Holders(tasks: map<string, SchedulerTask>): set<string> {
    set n | n in tasks && tasks[n].phase == Holding
  }

  lemma {:induction false} HoldersRemove(tasks: map<string, SchedulerTask>, n: string)
    ensures Holders(tasks - {n}) == Holders(tasks) - {n}
    ensures |Holders(tasks - {n})| == |Holders(tasks)| - (if n in tasks && tasks[n].phase == Holding then 1 else 0)
  {
    assert Holders(tasks - {n}) == Holders(tasks) - {n};
  }

  lemma {:induction false} HoldersUpdate(tasks: map<string, SchedulerTask>, n: string, t: SchedulerTask)
    ensures Holders(tasks[n := t]) == if t.phase == Holding then Holders(tasks) + {n} else Holders(tasks) - {n}
  {
  }

  lemma {:induction false} HoldersEmpty()
    ensures Holders(map[]) == {}
  {
  }

  /** The delay before the scheduled start: the start is normalised to UTC (a naive start read as UTC), never negative. */
  function StartDelay(start: DateTime, nowUtc: int): (d: nat)
    ensures d == NonNegative(UtcInstant(AsUtc(start)) - nowUtc)
    ensures start.IsNaive() ==> d == NonNegative(start.wall - nowUtc)
  {
    NonNegative(UtcInstant(start) - nowUtc)
  }

  /**
   * A naive start time is read as UTC by the registry and as local time by
   * `AgentManager.schedule_at`; the two delays agree when the local zone is UTC.
   */
  lemma {:induction false} NaiveStartDelaysAgreeInUtc(start: DateTime, nowUtc: int)
    requires start.IsNaive()
    ensures StartDelay(start, nowUtc) == ScheduleAtDelay(start, nowUtc, 0)
  {
  }

  class AgentRegistry {
    var registry: map<string, AgentManager>
    var scheduled: map<string, SchedulerTask>
    var closed: bool
    /** `concurrency_limit`, the semaphore's initial value. */
    const limit: nat
    /** Semaphore units currently held. */
    var permits: nat
    var nextTaskId: nat

    /**
     * Every registered name has its scheduler task and vice versa; the units
     * held are those of the holding tasks and never exceed the limit; a
     * registered manager only runs while its scheduler task holds a unit; and
     * each manager is registered under its own agent name.
     */
    ghost predicate Valid()
      reads this, registry.Values
    {
      && registry.Keys == scheduled.Keys
      && permits == |Holders(scheduled)|
      && permits <= limit
      && (forall n :: n in registry && registry[n].IsRunning() ==> scheduled[n].phase == Holding)
      && (forall n :: n in registry ==> registry[n].agentName == n)
    }

    constructor (concurrencyLimit: nat)
      ensures Valid() && limit == concurrencyLimit
      ensures registry == map[] && scheduled == map[] && !closed && permits == 0
    {
      registry := map[];
      scheduled := map[];
      closed := false;
      limit := concurrencyLimit;
      permits := 0;
      nextTaskId := 0;
      HoldersEmpty();
    }

    /** No manager is registered under two names. */
    lemma {:induction false} ManagersDistinct(n: string, n': string)
      requires Valid() && n in registry && n' in registry && n != n'
      ensures registry[n] != registry[n']
    {
      assert registry[n].agentName != registry[n'].agentName;
    }

    /** Names whose manager `is_running()`. */
    function Running(): set<string>
      reads this, registry.Values
    {
      set n | n in registry && registry[n].IsRunning()
    }

    /** `active_count()`: the number of registered managers that are running. */
    function ActiveCount(): nat
      reads this, registry.Values
    {
      |Running()|
    }

    /** No more managers run than the semaphore has units. */
    lemma {:induction false} ActiveCountWithinLimit()
      requires Valid()
      ensures ActiveCount() <= permits <= limit
    {
      assert Running() <= Holders(scheduled);
      SubsetCard(Running(), Holders(scheduled));
    }

    /**
     * `create_and_schedule(name, start)`. A closed registry refuses; so does a
     * name that is registered or scheduled. Otherwise a new, idle manager is
     * registered under `name` and its scheduler task recorded, sleeping when
     * the delay is positive and waiting for a unit otherwise.
     */
    method CreateAndSchedule(name: string, start: DateTime, nowUtc: int) returns (r: Result<Created, CreateError>)
      requires Valid()
      modifies this
      ensures Valid()
      ensures closed == old(closed) && permits == old(permits)
      ensures old(closed) ==> r == Err(RegistryClosed)
      ensures !old(closed) && (name in old(registry) || name in old(scheduled)) ==> r == Err(AlreadyExists)
      ensures r.Err? ==> registry == old(registry) && scheduled == old(scheduled)
      ensures r.Ok? <==> !old(closed) && name !in old(registry) && name !in old(scheduled)
      ensures r.Ok? ==>
        && fresh(r.value.manager) && r.value.manager.agentName == name && !r.value.manager.IsRunning()
        && r.value.delay == StartDelay(start, nowUtc)
        && registry == old(registry)[name := r.value.manager]
        && scheduled == old(scheduled)[name := SchedulerTask(r.value.task, if r.value.delay > 0 then Sleeping else WaitingForSlot)]
    {
      if closed {
        return Err(RegistryClosed);
      }
      var delay := StartDelay(start, nowUtc);
      if name in registry || name in scheduled {
        return Err(AlreadyExists);
      }
      var mgr, taskId := Register(name, delay > 0);
      r := Ok(Created(mgr, taskId, delay));
    }

    /** Registers a new, idle manager under a free `name`, with its scheduler task sleeping or waiting for a unit. */
    method Register(name: string, sleeping: bool) returns (mgr: AgentManager, taskId: nat)
      requires Valid() && name !in registry && name !in scheduled
      modifies this
      ensures Valid()
      ensures closed == old(closed) && permits == old(permits)
      ensures fresh(mgr) && mgr.agentName == name && !mgr.IsRunning()
      ensures registry == old(registry)[name := mgr]
      ensures scheduled == old(scheduled)[name := SchedulerTask(taskId, if sleeping then Sleeping else WaitingForSlot)]
    {
      mgr := new AgentManager(name);
      registry := registry[name := mgr];
      var task := SchedulerTask(nextTaskId, if sleeping then Sleeping else WaitingForSlot);
      taskId := nextTaskId;
      nextTaskId := nextTaskId + 1;
      HoldersUpdate(scheduled, name, task);
      scheduled := scheduled[name := task];
      forall n | n in registry && n != name
        ensures registry[n].agentName == n && (registry[n].IsRunning() ==> scheduled[n].phase == Holding)
      {
        assert registry[n] == old(registry[n]);
      }
    }

    /** The start delay of `name`'s scheduler task has elapsed. */
    method DelayElapses(name: string)
      requires Valid() && name in scheduled && scheduled[name].phase == Sleeping
      modifies this
      ensures Valid()
      ensures scheduled == old(scheduled)[name := SchedulerTask(old(scheduled[name]).id, WaitingForSlot)]
      ensures registry == old(registry) && permits == old(permits) && closed == old(closed)
    {
      HoldersUpdate(scheduled, name, SchedulerTask(scheduled[name].id, WaitingForSlot));
      scheduled := scheduled[name := SchedulerTask(scheduled[name].id, WaitingForSlot)];
    }

    /**
     * `name`'s scheduler task takes a semaphore unit, which it can do only
     * while one is free, and calls `run_now` on its manager.
     */
    method AcquireAndRun(name: string) returns (started: bool)
      requires Valid() && name in scheduled && scheduled[name].phase == WaitingForSlot
      requires permits < limit
      modifies this, registry[name]
      ensures Valid()
      ensures permits == old(permits) + 1 <= limit
      ensures scheduled == old(scheduled)[name := SchedulerTask(old(scheduled[name]).id, Holding)]
      ensures registry == old(registry) && closed == old(closed)
      ensures started && registry[name].IsRunning()
    {
      var mgr := registry[name];
      HoldersUpdate(scheduled, name, SchedulerTask(scheduled[name].id, Holding));
      scheduled := scheduled[name := SchedulerTask(scheduled[name].id, Holding)];
      permits := permits + 1;
      started := mgr.RunNow();
    }

    /** The runner of `name`'s manager builds its worker (AgentManager.RunnerCreatesWorker). */
    method RunnerCreatesWorker(name: string, w: WorkerId)
      requires Valid() && name in registry && registry[name].IsRunning()
      modifies registry[name]
      ensures Valid()
      ensures registry[name].worker == Some(w) && registry[name].IsRunning()
    {
      registry[name].RunnerCreatesWorker(w);
    }

    /** The runner of `name`'s manager leaves `worker.run()` (AgentManager.RunnerExits). */
    method RunnerExits(name: string, how: RunnerExit) returns (propagates: bool)
      requires Valid() && name in registry && registry[name].IsRunning()
      modifies registry[name]
      ensures Valid()
      ensures !registry[name].IsRunning() && registry[name].worker == None
      ensures propagates <==> how == RunCancelled
    {
      propagates := registry[name].RunnerExits(how);
    }

    /**
     * `name`'s scheduler task leaves its body: its manager stopped running,
     * an exception was raised in the semaphore block, or it was cancelled at
     * any await. Leaving the semaphore block returns the unit, and the
     * `finally` block removes the name from both maps on every path. Only a
     * cancellation propagates.
     */
    method SchedulerTaskExits(name: string, how: SchedulerExit) returns (propagates: bool)
      requires Valid() && name in scheduled
      requires how == Finished ==> scheduled[name].phase == Holding && !registry[name].IsRunning()
      requires how == Raised ==> scheduled[name].phase == Holding
      modifies this
      ensures Valid()
      ensures name !in registry && name !in scheduled
      ensures registry == old(registry) - {name} && scheduled == old(scheduled) - {name}
      ensures permits == old(permits) - (if old(scheduled[name]).phase == Holding then 1 else 0)
      ensures closed == old(closed)
      ensures propagates <==> how == Cancelled
    {
      propagates := how == Cancelled;
      HoldersRemove(scheduled, name);
      if scheduled[name].phase == Holding {
        permits := permits - 1;
      }
      scheduled := scheduled - {name};
      registry := registry - {name};
    }

    /**
     * `stop_agent(name)`. The scheduler task is popped and, if there was one,
     * cancelled; its exit path returns any unit it held and removes the name.
     * An unknown name yields True; otherwise the result is the manager's
     * `stop`, with `finishesInTime` its outcome. Either way the name is
     * absent from both maps afterwards and no other name is touched.
     */
    method StopAgent(name: string, finishesInTime: bool) returns (ok: bool)
      requires Valid()
      modifies this, if name in registry then {registry[name]} else {}
      ensures Valid()
      ensures name !in registry && name !in scheduled
      ensures registry == old(registry) - {name} && scheduled == old(scheduled) - {name}
      ensures permits == old(permits) - (if name in old(scheduled) && old(scheduled[name]).phase == Holding then 1 else 0)
      ensures closed == old(closed)
      ensures name !in old(registry) ==> ok
      ensures name in old(registry) ==> (ok <==> !(old(registry[name].IsRunning()) && !finishesInTime))
      ensures name in old(registry) ==>
        StopOutcome(old(registry[name]), old(registry[name].runnerTask), finishesInTime)
    {
      var mgr: Option<AgentManager> := if name in registry then Some(registry[name]) else None;
      if name in scheduled {
        var _ := SchedulerTaskExits(name, Cancelled);
      }
      if mgr.None? {
        return true;
      }
      ok := mgr.value.Stop(finishesInTime);
      registry := registry - {name};
    }

    /**
     * `stop_all()`: `stop_agent` on every scheduled name, then on every
     * registered name, each from a snapshot taken at the call. `inTime`
     * holds the names whose runner finishes within the timeout. Every
     * manager registered at the call ends as its own `stop` leaves it.
     */
    method StopAll(inTime: set<string>)
      requires Valid()
      modifies this, registry.Values
      ensures Valid()
      ensures registry == map[] && scheduled == map[] && permits == 0
      ensures closed == old(closed)
      ensures forall n :: n in old(registry) ==>
        StopOutcome(old(registry[n]), old(registry[n].runnerTask), n in inTime)
    {
      ghost var managers := registry;
      ghost var tasks := map n | n in registry :: registry[n].runnerTask;
      var agents := registry.Keys;
      StopScheduled(inTime, managers, tasks);
      StopRegistered(agents, inTime);
      assert Snapshot(managers, tasks, inTime, {});
    }

    /**
     * `stop_all`'s first loop: `stop_agent` on every name scheduled at the
     * call, which are also the registered ones.
     */
    method StopScheduled(inTime: set<string>, ghost managers: map<string, AgentManager>,
                         ghost tasks: map<string, Option<Task>>)
      requires Valid() && Snapshot(managers, tasks, inTime, registry.Keys)
      modifies this, registry.Values
      ensures Valid() && registry == map[] && scheduled == map[]
      ensures Snapshot(managers, tasks, inTime, {})
      ensures closed == old(closed)
    {
      var pending := scheduled.Keys;
      while pending != {}
        invariant Valid()
        invariant registry.Keys == pending && scheduled.Keys == pending
        invariant Snapshot(managers, tasks, inTime, pending)
        invariant closed == old(closed)
        decreases pending
      {
        var n :| n in pending;
        StopPending(n, inTime, managers, tasks, pending);
        pending := pending - {n};
      }
    }

    /**
     * `stop_all`'s second loop: `stop_agent` on every name registered at the
     * call. The first loop has already removed them all, so each call finds
     * neither a task nor a manager and changes nothing.
     */
    method StopRegistered(agents: set<string>, inTime: set<string>)
      requires Valid() && registry == map[] && scheduled == map[]
      modifies this
      ensures Valid() && registry == map[] && scheduled == map[]
      ensures permits == 0 && closed == old(closed)
    {
      var rest := agents;
      while rest != {}
        invariant Valid()
        invariant registry == map[] && scheduled == map[]
        invariant closed == old(closed)
        decreases rest
      {
        var n :| n in rest;
        var _ := StopAgent(n, n in inTime);
        rest := rest - {n};
      }
      HoldersEmpty();
    }

    /**
     * What `stop_all` knows between the names of `pending`, still registered
     * and untouched, and the rest of the snapshot `managers`, already stopped.
     */
    ghost predicate Snapshot(managers: map<string, AgentManager>, tasks: map<string, Option<Task>>,
                             inTime: set<string>, pending: set<string>)
      reads this, managers.Values
    {
      && pending <= managers.Keys && managers.Keys <= tasks.Keys
      && (forall n :: n in managers ==> managers[n].agentName == n)
      && (forall n :: n in registry ==>
            n in managers && registry[n] == managers[n]
            && managers[n].runnerTask == tasks[n])
      && (forall n :: n in managers && n !in pending ==> StopOutcome(managers[n], tasks[n], n in inTime))
    }

    /** One step of `stop_all`'s first loop: `stop_agent` on the pending name `n`. */
    method StopPending(n: string, inTime: set<string>, ghost managers: map<string, AgentManager>,
                       ghost tasks: map<string, Option<Task>>, ghost pending: set<string>)
      requires Valid() && n in pending && registry.Keys == pending && scheduled.Keys == pending
      requires Snapshot(managers, tasks, inTime, pending)
      modifies this, registry[n]
      ensures Valid() && registry.Keys == pending - {n} && scheduled.Keys == pending - {n}
      ensures Snapshot(managers, tasks, inTime, pending - {n})
      ensures closed == old(closed)
    {
      var mgr := registry[n];
      forall m | m in managers && m != n
        ensures managers[m] != mgr
      {
        assert managers[m].agentName != mgr.agentName;
      }
      label Before:
      var _ := StopAgent(n, n in inTime);
      forall m | m in managers && m != n
        ensures managers[m].runnerTask == old@Before(managers[m].runnerTask)
        ensures managers[m].worker == old@Before(managers[m].worker)
      {
      }
    }

    /**
     * `shutdown()`: one-shot. The first call closes the registry and stops
     * every scheduled and registered name as `stop_all` does; a later call
     * changes nothing, the managers included.
     */
    method Shutdown(inTime: set<string>)
      requires Valid()
      modifies this, registry.Values
      ensures Valid() && closed
      ensures old(closed) ==> registry == old(registry) && scheduled == old(scheduled) && permits == old(permits)
      ensures old(closed) ==> unchanged(old(registry.Values))
      ensures !old(closed) ==> registry == map[] && scheduled == map[] && permits == 0
      ensures !old(closed) ==> forall n :: n in old(registry) ==>
        StopOutcome(old(registry[n]), old(registry[n].runnerTask), n in inTime)
    {
      if closed {
        return;
      }
      closed := true;
      StopAll(inTime);
    }
  }

  /**
   * What `stop` leaves of a manager that held `task` before it: both
   * references cleared when it was idle or its runner finished in time;
   * otherwise the runner has still exited, so the worker is cleared and the
   * task reference points at the same task, now done.
   */
  predicate StopOutcome(m: AgentManager, task: Option<Task>, finishesInTime: bool)
    reads m
  {
    if finishesInTime || !(task.Some? && !task.value.done) then m.runnerTask == None && m.worker == None
    else m.runnerTask == Some(Task(task.value.id, true)) && m.worker == None
  }

  lemma {:induction false} SubsetCard<T>(a: set<T>, b: set<T>)
    requires a <= b
    ensures |a| <= |b|
  {
    assert b == a + (b - a);
  }

  /**
   * Scenario: a name cannot be scheduled twice, and once its scheduler task
   * has finished the name is free again.
   */
  method DuplicateThenReuse() returns (first: bool, second: Result<Created, CreateError>, third: bool)
    ensures first && second == Err(AlreadyExists) && third
  {
    var reg := new AgentRegistry(2);
    var now := 0;
    var r1 := reg.CreateAndSchedule("a", DateTime(now, None), now);
    first := r1.Ok?;
    second := reg.CreateAndSchedule("a", DateTime(now + 5, None), now);
    var started := reg.AcquireAndRun("a");
    var _ := reg.RunnerExits("a", RunFinished);
    var _ := reg.SchedulerTaskExits("a", Finished);
    var r3 := reg.CreateAndSchedule("a", DateTime(now, None), now);
    third := r3.Ok?;
  }
}
