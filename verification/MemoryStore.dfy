/**
  The in-memory store of pkg/state/memory_store.go as an object: maps of tasks, runs, steps and
  idempotency keys that each call updates in place. Every method is proved to act on the stored
  value as the function of the same name in module Store.
 */
module MemoryStoreObject {
  import opened Common
  import opened Store
  import opened Listing

  /** The membership loop of the conditional updates. */
  method Allowed(status: TaskStatus, from: seq<TaskStatus>) returns (allowed: bool)
    ensures allowed <==> status in from
  {
    allowed := false;
    for i := 0 to |from|
      invariant allowed <==> status in from[..i]
    {
      if status == from[i] {
        allowed := true;
        break;
      }
    }
  }

  ghost function Statuses(from: seq<TaskStatus>): set<TaskStatus> { set x | x in from }

  /** The step indexes a listing from index `from` on is made of. */
  ghost function Indexes(steps: map<StepKey, Step>, r: string, from: int): set<int> {
    set k | k in steps && k.0 == r && k.1 >= from :: k.1
  }

  function MatchingTasks(tasks: map<string, Task>, tenant: string): set<string> {
    set t | t in tasks && (tenant == "" || tasks[t].tenant == tenant)
  }

  function MatchingRuns(runs: map<RunKey, Run>, tenant: string, statuses: set<RunStatus>): set<RunKey> {
    set k | k in runs && (tenant == "" || runs[k].tenant == tenant) && (statuses == {} || runs[k].status in statuses)
  }

  /** Distinct elements of a set, all of them unless there are more than a positive limit. */
  ghost predicate ListingOf<T(!new)>(all: set<T>, out: seq<T>, limit: int) {
    && NoDup(out) && (limit > 0 ==> |out| <= limit) && (forall x :: x in out ==> x in all)
    && (limit <= 0 || |all| <= limit ==> forall x :: x in all ==> x in out)
  }

  class MemoryStore {
    var tasks: map<string, Task>
    var runs: map<RunKey, Run>
    var steps: map<StepKey, Step>
    var idempotency: map<(string, string), string>

    ghost function Value(): State
      reads this
    {
      State(tasks, runs, steps, idempotency)
    }

    constructor ()
      ensures Value() == NOTHING
    {
      tasks, runs, steps, idempotency := map[], map[], map[], map[];
    }

    method ApplyCreateTransition(t: string, task: Task, runTask: string, r: string, run: Run) returns (err: Error)
      modifies this
      ensures (Value(), err) ==
        if runTask != t then (old(Value()), Conflict) else CreateTransition(old(Value()), t, task, r, run)
    {
      if t == "" || runTask == "" || r == "" {
        return Conflict;
      }
      if runTask != t {
        return Conflict;
      }
      if t in tasks {
        return AlreadyExists;
      }
      if (runTask, r) in runs {
        return AlreadyExists;
      }
      if task.idempotencyKey != "" {
        var ik := (task.tenant, task.idempotencyKey);
        if ik in idempotency {
          return AlreadyExists;
        }
        idempotency := idempotency[ik := t];
      }
      tasks := tasks[t := task];
      runs := runs[(runTask, r) := run];
      return Ok;
    }

    method ApplyResumeTransition(t: string, runTask: string, r: string, run: Run, from: seq<TaskStatus>, to: TaskStatus)
      returns (err: Error)
      modifies this
      ensures (Value(), err) ==
        if runTask != t then (old(Value()), Conflict) else ResumeTransition(old(Value()), t, r, run, Statuses(from), to)
    {
      if runTask == "" || r == "" || runTask != t {
        return Conflict;
      }
      if t !in tasks {
        return NotFound;
      }
      if (runTask, r) in runs {
        return AlreadyExists;
      }
      var allowed := Allowed(tasks[t].status, from);
      if !allowed {
        return Conflict;
      }
      runs := runs[(runTask, r) := run];
      tasks := tasks[t := tasks[t].(activeRun := r, abortRequested := false, status := to)];
      return Ok;
    }

    method GetTask(t: string) returns (task: Option<Task>)
      ensures task == if t in tasks then Some(tasks[t]) else None
    {
      task := if t in tasks then Some(tasks[t]) else None;
    }

    method GetRun(t: string, r: string) returns (run: Option<Run>)
      ensures run == if (t, r) in runs then Some(runs[(t, r)]) else None
    {
      run := if (t, r) in runs then Some(runs[(t, r)]) else None;
    }

    method GetStep(r: string, idx: int) returns (step: Option<Step>)
      ensures step == if (r, idx) in steps then Some(steps[(r, idx)]) else None
    {
      step := if (r, idx) in steps then Some(steps[(r, idx)]) else None;
    }

    method UpdateTaskStatusForRun(t: string, r: string, from: seq<TaskStatus>, to: TaskStatus) returns (err: Error)
      modifies this`tasks
      ensures (Value(), err) == Store.UpdateTaskStatusForRun(old(Value()), t, r, Statuses(from), to)
    {
      if t !in tasks {
        return NotFound;
      }
      if tasks[t].activeRun != r {
        return Conflict;
      }
      var allowed := Allowed(tasks[t].status, from);
      if !allowed {
        return Conflict;
      }
      tasks := tasks[t := tasks[t].(status := to)];
      return Ok;
    }

    method UpdateTaskStatus(t: string, from: seq<TaskStatus>, to: TaskStatus) returns (err: Error)
      modifies this`tasks
      ensures (Value(), err) == Store.UpdateTaskStatus(old(Value()), t, Statuses(from), to)
    {
      if t !in tasks {
        return NotFound;
      }
      var allowed := Allowed(tasks[t].status, from);
      if !allowed {
        return Conflict;
      }
      tasks := tasks[t := tasks[t].(status := to)];
      return Ok;
    }

    method SetAbortRequested(t: string) returns (err: Error)
      modifies this`tasks
      ensures (Value(), err) == SetAbort(old(Value()), t, true)
      ensures err == Ok <==> t in old(tasks)
      ensures tasks == if t in old(tasks) then old(tasks)[t := old(tasks)[t].(abortRequested := true)] else old(tasks)
    {
      if t !in tasks {
        return NotFound;
      }
      tasks := tasks[t := tasks[t].(abortRequested := true)];
      return Ok;
    }

    method ClaimRun(t: string, r: string) returns (err: Error)
      modifies this`runs
      ensures (Value(), err) == Store.ClaimRun(old(Value()), t, r)
    {
      if (t, r) !in runs {
        return NotFound;
      }
      if runs[(t, r)].status != RunQueued {
        return Conflict;
      }
      runs := runs[(t, r) := runs[(t, r)].(status := RunRunning)];
      return Ok;
    }

    method CompleteRun(t: string, r: string, status: RunStatus) returns (err: Error)
      modifies this`runs
      ensures (Value(), err) == Store.CompleteRun(old(Value()), t, r, status)
    {
      if (t, r) !in runs {
        return NotFound;
      }
      runs := runs[(t, r) := runs[(t, r)].(status := status)];
      return Ok;
    }

    method ResetRunToQueued(t: string, r: string) returns (err: Error)
      modifies this`runs
      ensures (Value(), err) == ResetRun(old(Value()), t, r)
    {
      if (t, r) !in runs {
        return NotFound;
      }
      runs := runs[(t, r) := runs[(t, r)].(status := RunQueued)];
      return Ok;
    }

    method UpdateLastStepIndex(t: string, r: string, idx: int) returns (err: Error)
      modifies this`runs
      ensures (Value(), err) == UpdateLastStep(old(Value()), t, r, idx)
    {
      if (t, r) !in runs {
        return NotFound;
      }
      runs := runs[(t, r) := runs[(t, r)].(lastStep := idx)];
      return Ok;
    }

    method PutStep(r: string, idx: int, step: Step) returns (err: Error)
      modifies this`steps
      ensures (Value(), err) == Store.PutStep(old(Value()), r, idx, step)
    {
      if (r, idx) in steps {
        return Conflict;
      }
      steps := steps[(r, idx) := step];
      return Ok;
    }

    method ListSteps(r: string, from: int, limit: int) returns (out: seq<int>)
      ensures out == Truncated(Ascending(Indexes(steps, r, from)), limit)
    {
      var all := Sort(set k | k in steps && k.0 == r && k.1 >= from :: k.1);
      out := Truncated(all, limit);
    }

    /** Sorted by creation in the source; here in any order. */
    method ListTasks(tenant: string, limit: int) returns (out: seq<string>)
      ensures ListingOf(MatchingTasks(tasks, tenant), out, limit)
    {
      var all := Enumerate(MatchingTasks(tasks, tenant));
      out := Truncated(all, limit);
      assert forall x :: x in out ==> x in all;
    }

    /** Sorted by start in the source; here in any order. */
    method ListRuns(tenant: string, statuses: set<RunStatus>, limit: int) returns (out: seq<RunKey>)
      ensures ListingOf(MatchingRuns(runs, tenant, statuses), out, limit)
    {
      var all := Enumerate(MatchingRuns(runs, tenant, statuses));
      out := Truncated(all, limit);
      assert forall x :: x in out ==> x in all;
    }
  }
}
