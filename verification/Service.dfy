/**
  Create and Resume of pkg/task/service.go over the store object, with the queue's answer as an
  argument. One task per tenant and idempotency key is shown for every run of the lifecycle.
 */
module Service {
  import opened Common
  import opened Store
  import opened Lifecycle
  import opened MemoryStoreObject

  /** The idempotency index holds exactly the keyed tasks. */
  ghost predicate KeysOk(tasks: map<string, Task>, index: map<(string, string), string>) {
    && (forall t :: t in tasks && tasks[t].idempotencyKey != "" ==>
         var ik := (tasks[t].tenant, tasks[t].idempotencyKey); ik in index && index[ik] == t)
    && (forall ik :: ik in index ==>
         index[ik] in tasks && (tasks[index[ik]].tenant, tasks[index[ik]].idempotencyKey) == ik)
  }

  lemma CreateKeepsKeys(st: State, t: string, task: Task, r: string, run: Run)
    requires KeysOk(st.tasks, st.idempotency)
    ensures var st' := CreateTransition(st, t, task, r, run).0; KeysOk(st'.tasks, st'.idempotency)
  {
  }

  lemma UpdateKeepsKeys(tasks: map<string, Task>, index: map<(string, string), string>, t: string, task: Task)
    requires KeysOk(tasks, index) && t in tasks
    requires task.tenant == tasks[t].tenant && task.idempotencyKey == tasks[t].idempotencyKey
    ensures KeysOk(tasks[t := task], index)
  {
  }

  /** Task t is replaced by one of the same tenant and key. */
  ghost predicate Rewritten(a: map<string, Task>, b: map<string, Task>, t: string, task: Task) {
    t in a && b == a[t := task] && task.tenant == a[t].tenant && task.idempotencyKey == a[t].idempotencyKey
  }

  /** Tasks keep their tenant and key, and nothing but Create touches the index. */
  ghost predicate SameKeys(a: State, b: State) {
    b.idempotency == a.idempotency && (b.tasks == a.tasks || exists t, task :: Rewritten(a.tasks, b.tasks, t, task))
  }

  lemma SameKeysKeep(a: State, b: State)
    requires KeysOk(a.tasks, a.idempotency) && SameKeys(a, b)
    ensures KeysOk(b.tasks, b.idempotency)
  {
    if b.tasks != a.tasks {
      var t, task :| Rewritten(a.tasks, b.tasks, t, task);
      UpdateKeepsKeys(a.tasks, a.idempotency, t, task);
    }
  }

  lemma TaskUpdateSameKeys(st: State, t: string, r: string, from: set<TaskStatus>, to: TaskStatus)
    ensures SameKeys(st, UpdateTaskStatusForRun(st, t, r, from, to).0) && SameKeys(st, SetAbort(st, t, true).0)
  {
    if t in st.tasks {
      var b, c := UpdateTaskStatusForRun(st, t, r, from, to).0, SetAbort(st, t, true).0;
      assert b.tasks != st.tasks ==> Rewritten(st.tasks, b.tasks, t, b.tasks[t]);
      assert Rewritten(st.tasks, c.tasks, t, c.tasks[t]);
    }
  }

  lemma ResumeSameKeys(st: State, t: string, r: string, run: Run, from: set<TaskStatus>, to: TaskStatus)
    ensures SameKeys(st, ResumeTransition(st, t, r, run, from, to).0)
  {
    var b := ResumeTransition(st, t, r, run, from, to).0;
    if b.tasks != st.tasks {
      assert Rewritten(st.tasks, b.tasks, t, b.tasks[t]);
    }
  }

  lemma RunUpdateSameKeys(st: State, t: string, r: string, status: RunStatus, idx: int, step: Step)
    ensures SameKeys(st, st) && SameKeys(st, CompleteRun(st, t, r, status).0) && SameKeys(st, ClaimRun(st, t, r).0)
    ensures SameKeys(st, UpdateLastStep(st, t, r, idx).0) && SameKeys(st, PutStep(st, r, idx, step).0)
  {
  }

  lemma WorkerStepsSameKeys(s: Sys, e: Event)
    requires Enabled(s, e)
    requires !(e.Create? || e.Resume? || e.Abort? || e.MarkRunFailed? || e.MarkTaskFailed? || e.ResetStale? || e.RequeueTask?)
    ensures SameKeys(s.store, Apply(s, e).store)
  {
    var pc := At(s.workers, e.worker);
    var t, r := if e.Deliver? then e.task else pc.task, if e.Deliver? then e.run else pc.run;
    var status := if pc.Ending? || pc.Ended? then pc.status else RunAborted;
    var step := if e.WriteStep? then e.step else Step(FinalStep, true, "", None);
    RunUpdateSameKeys(s.store, t, r, status, if e.WriteStep? || e.Progress? then e.idx else 0, step);
    TaskUpdateSameKeys(s.store, t, r, {Queued, Running}, Running);
    TaskUpdateSameKeys(s.store, t, r, {Running}, MapStatus(status));
    hide SameKeys, UpdateTaskStatusForRun, ClaimRun, CompleteRun, UpdateLastStep, PutStep;
  }

  lemma ServiceStepsSameKeys(s: Sys, e: Event)
    requires Enabled(s, e)
    requires (e.Resume? || e.Abort? || e.MarkRunFailed? || e.MarkTaskFailed? || e.ResetStale? || e.RequeueTask?)
    ensures SameKeys(s.store, Apply(s, e).store)
  {
    var t, r := e.task, if e.Abort? then "" else e.run;
    RunUpdateSameKeys(s.store, t, r, if e.MarkRunFailed? then RunFailed else RunQueued, 0, Step(FinalStep, true, "", None));
    TaskUpdateSameKeys(s.store, t, r, {Queued, Running}, Failed);
    TaskUpdateSameKeys(s.store, t, r, ANY_STATUS, Queued);
    if e.Resume? {
      var run := Run(s.store.tasks[t].tenant, RunQueued, Some(Origin(e.fromRun, e.fromStep)), 0);
      ResumeSameKeys(s.store, t, r, run, RESUMABLE, Queued);
    }
    hide SameKeys, UpdateTaskStatusForRun, CompleteRun, SetAbort, ResumeTransition, FreshRun;
  }

  lemma StepKeepsKeys(s: Sys, e: Event)
    requires KeysOk(s.store.tasks, s.store.idempotency) && Enabled(s, e)
    ensures KeysOk(Apply(s, e).store.tasks, Apply(s, e).store.idempotency)
  {
    if e.Create? {
      CreateKeepsKeys(s.store, e.task, Task(e.tenant, Queued, e.run, false, e.key), e.run, Run(e.tenant, RunQueued, None, 0));
      hide KeysOk, CreateTransition;
    } else {
      hide *;
      if e.Resume? || e.Abort? || e.MarkRunFailed? || e.MarkTaskFailed? || e.ResetStale? || e.RequeueTask? {
        ServiceStepsSameKeys(s, e);
      } else {
        WorkerStepsSameKeys(s, e);
      }
      SameKeysKeep(s.store, Apply(s, e).store);
    }
  }

  lemma {:induction false} RunKeepsKeys(s: Sys, events: seq<Event>)
    requires KeysOk(s.store.tasks, s.store.idempotency) && Legal(s, events)
    ensures KeysOk(Final(s, events).store.tasks, Final(s, events).store.idempotency)
    decreases |events|
  {
    hide KeysOk, Apply, Enabled;
    if events != [] {
      StepKeepsKeys(s, events[0]);
      RunKeepsKeys(Apply(s, events[0]), events[1..]);
    }
  }

  /** However creates, resumes, workers and recovery interleave, a tenant's key names one task. */
  lemma OneTaskPerKey(events: seq<Event>, t: string, u: string)
    requires Legal(EMPTY, events)
    requires var tasks := Final(EMPTY, events).store.tasks;
      && t in tasks && u in tasks && tasks[t].idempotencyKey != ""
      && tasks[t].tenant == tasks[u].tenant && tasks[t].idempotencyKey == tasks[u].idempotencyKey
    ensures t == u
  {
    RunKeepsKeys(EMPTY, events);
    hide Legal, Final;
  }

  // ---------------------------------------------------------------- Create

  /**
    A known key changes nothing and is answered with its task and active run, unless that run is
    missing or is still queued and cannot be enqueued now; otherwise the task and its first run are
    stored. The answer is None on any error.
   */
  method Create(store: MemoryStore, tenant: string, key: string, t: string, r: string, enqueued: bool)
    returns (answer: Option<(string, string)>)
    requires KeysOk(store.tasks, store.idempotency)
    modifies store
    ensures KeysOk(store.tasks, store.idempotency)
    ensures key != "" && (tenant, key) in old(store.idempotency) ==>
      var known := old(store.idempotency)[(tenant, key)];
      && store.Value() == old(store.Value()) && known in store.tasks
      && var r0 := store.tasks[known].activeRun;
         && (answer.Some? ==> answer.value == (known, r0))
         && (answer.Some? <==>
              || r0 == ""
              || (&& (known, r0) in store.runs
                  && (store.tasks[known].status == Queued && store.runs[(known, r0)].status == RunQueued ==> enqueued)))
    ensures !(key != "" && (tenant, key) in old(store.idempotency)) ==>
      var (st, err) := CreateTransition(old(store.Value()), t, Task(tenant, Queued, r, false, key), r, Run(tenant, RunQueued, None, 0));
      store.Value() == st && answer == if err == Ok && enqueued then Some((t, r)) else None
  {
    if key != "" && (tenant, key) in store.idempotency {
      var existing := store.idempotency[(tenant, key)];
      var task := store.GetTask(existing);
      if task.value.activeRun != "" {
        var run := store.GetRun(existing, task.value.activeRun);
        if run.None? || (task.value.status == Queued && run.value.status == RunQueued && !enqueued) {
          return None;
        }
      }
      return Some((existing, task.value.activeRun));
    }
    var task, run := Task(tenant, Queued, r, false, key), Run(tenant, RunQueued, None, 0);
    CreateKeepsKeys(store.Value(), t, task, r, run);
    var err := store.ApplyCreateTransition(t, task, t, r, run);
    if err != Ok || !enqueued {
      return None;
    }
    return Some((t, r));
  }

  // ---------------------------------------------------------------- Resume

  /** What Resume asks of its request. */
  predicate Resumable(st: State, t: string, tenant: string, fromRun: string, fromStep: int) {
    && t in st.tasks && st.tasks[t].tenant == tenant && fromRun != "" && fromStep >= 0
    && (t, fromRun) in st.runs && HasCheckpoint(st, fromRun, fromStep)
  }

  /** The store after Resume; a run that could not be enqueued is failed together with its task. */
  function Resumed(
      st: State, t: string, tenant: string, fromRun: string, fromStep: int, r: string, enqueued: bool): (State,
      bool) {
    if !Resumable(st, t, tenant, fromRun, fromStep) then (st, false)
    else
      var run := Run(tenant, RunQueued, Some(Origin(fromRun, fromStep)), 0);
      var (st1, err) := ResumeTransition(st, t, r, run, RESUMABLE, Queued);
      if err != Ok then (st1, false)
      else if enqueued then (st1, true)
      else (UpdateTaskStatusForRun(CompleteRun(st1, t, r, RunFailed).0, t, r, {Queued, Running}, Failed).0, false)
  }

  /** Resume makes the new run active and clears the abort request, or leaves both FAILED, or changes nothing. */
  lemma ResumedOutcome(st: State, t: string, tenant: string, fromRun: string, fromStep: int, r: string, enqueued: bool)
    requires FreshRun(st, r)
    ensures var (st', ok) := Resumed(st, t, tenant, fromRun, fromStep, r, enqueued);
      var taken := Resumable(st, t, tenant, fromRun, fromStep) && t != "" && st.tasks[t].status != Running;
      && (ok <==> taken && enqueued)
      && (!taken ==> st' == st)
      && (taken ==>
           && (t, r) in st'.runs && t in st'.tasks && st'.runs == st.runs[(t, r) := st'.runs[(t, r)]] && st'.steps == st.steps
           && st'.runs[(t, r)] == Run(tenant, if enqueued then RunQueued else RunFailed, Some(Origin(fromRun, fromStep)), 0)
           && st'.tasks[t] == st.tasks[t].(status := if enqueued then Queued else Failed, activeRun := r, abortRequested := false)
           && st'.tasks == st.tasks[t := st'.tasks[t]])
  {
  }

  method Resume(store: MemoryStore, t: string, tenant: string, fromRun: string, fromStep: int, r: string, enqueued: bool)
    returns (ok: bool)
    modifies store
    ensures (store.Value(), ok) == Resumed(old(store.Value()), t, tenant, fromRun, fromStep, r, enqueued)
  {
    var task := store.GetTask(t);
    if task.None? || task.value.tenant != tenant || fromRun == "" || fromStep < 0 {
      return false;
    }
    var from := store.GetRun(t, fromRun);
    var step := store.GetStep(fromRun, fromStep);
    if from.None? || step.None? || step.value.checkpoint.None? {
      return false;
    }
    var run := Run(tenant, RunQueued, Some(Origin(fromRun, fromStep)), 0);
    var err := store.ApplyResumeTransition(t, t, r, run, [Queued, Succeeded, Failed, Aborted], Queued);
    assert Statuses([Queued, Succeeded, Failed, Aborted]) == RESUMABLE;
    if err != Ok {
      return false;
    }
    if !enqueued {
      var _ := store.CompleteRun(t, r, RunFailed);
      var _ := store.UpdateTaskStatusForRun(t, r, [Queued, Running], Failed);
      assert Statuses([Queued, Running]) == {Queued, Running};
      return false;
    }
    return true;
  }

  ghost function ResumeEvents(
      st: State, t: string, tenant: string, fromRun: string, fromStep: int, r: string, enqueued: bool): seq<Event> {
    if !Resumable(st, t, tenant, fromRun, fromStep) then []
    else if enqueued || t == "" || st.tasks[t].status == Running then [Event.Resume(t, fromRun, fromStep, r, enqueued)]
    else [Event.Resume(t, fromRun, fromStep, r, false), MarkRunFailed(t, r), MarkTaskFailed(t, r)]
  }

  lemma MarkFailedIsRun(s: Sys, t: string, r: string)
    requires (t, r) in s.marks && s.marks[(t, r)] == MarkRun
    ensures var events := [MarkRunFailed(t, r), MarkTaskFailed(t, r)];
      && Legal(s, events)
      && Final(s, events).store == UpdateTaskStatusForRun(CompleteRun(s.store, t, r, RunFailed).0, t, r, {Queued, Running}, Failed).0
  {
    hide Legal, Final, CompleteRun, UpdateTaskStatusForRun;
    Begin(s, MarkRunFailed(t, r));
    Extend(s, [MarkRunFailed(t, r)], MarkTaskFailed(t, r));
    assert [MarkRunFailed(t, r)] + [MarkTaskFailed(t, r)] == [MarkRunFailed(t, r), MarkTaskFailed(t, r)];
  }

  lemma TransitionTaken(st: State, t: string, r: string, run: Run)
    requires FreshRun(st, r) && t in st.tasks
    ensures ResumeTransition(st, t, r, run, RESUMABLE, Queued).1 == Ok <==> t != "" && st.tasks[t].status != Running
    ensures ResumeTransition(st, t, r, run, RESUMABLE, Queued).1 != Ok ==> ResumeTransition(st, t, r, run, RESUMABLE, Queued).0 == st
  {
  }

  lemma ResumeEnabled(s: Sys, t: string, tenant: string, fromRun: string, fromStep: int, r: string, enqueued: bool)
    requires FreshRun(s.store, r) && Resumable(s.store, t, tenant, fromRun, fromStep)
    ensures Enabled(s, Event.Resume(t, fromRun, fromStep, r, enqueued))
  {
  }

  /** An uninterrupted Resume is a run of the transition system. */
  lemma ResumedIsRun(s: Sys, t: string, tenant: string, fromRun: string, fromStep: int, r: string, enqueued: bool)
    requires FreshRun(s.store, r)
    ensures var events := ResumeEvents(s.store, t, tenant, fromRun, fromStep, r, enqueued);
      Legal(s, events) && Final(s, events).store == Resumed(s.store, t, tenant, fromRun, fromStep, r, enqueued).0
  {
    hide Legal, Final, FreshRun, CompleteRun, UpdateTaskStatusForRun, ResumeTransition, Enabled;
    EmptyRun(s);
    if Resumable(s.store, t, tenant, fromRun, fromStep) {
      TransitionTaken(s.store, t, r, Run(tenant, RunQueued, Some(Origin(fromRun, fromStep)), 0));
      var e := Event.Resume(t, fromRun, fromStep, r, enqueued);
      ResumeEnabled(s, t, tenant, fromRun, fromStep, r, enqueued);
      Begin(s, e);
      if !enqueued && t != "" && s.store.tasks[t].status != Running {
        MarkFailedIsRun(Apply(s, e), t, r);
        Join(s, [e], [MarkRunFailed(t, r), MarkTaskFailed(t, r)]);
        assert [e] + [MarkRunFailed(t, r), MarkTaskFailed(t, r)] == [e, MarkRunFailed(t, r), MarkTaskFailed(t, r)];
      }
    }
  }
}
