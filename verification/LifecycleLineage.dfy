/**
  What every step of the lifecycle keeps, recovery included: active runs exist, resumed runs
  descend from earlier runs of the same task through permanent checkpoints, and a run is claimed
  at most once more often than it is reset.
 */
module LifecycleLineage {
  import opened Common
  import opened Store
  import opened Lifecycle

  /** A resumed run's parent is an earlier run of the task, with the checkpoint it was resumed from. */
  ghost predicate ParentOk(st: State, born: map<RunKey, nat>, root: map<string, string>, k: RunKey)
    requires k in st.runs
  {
    && k in born && k.0 in root
    && match st.runs[k].parent
       case None => k.1 == root[k.0]
       case Some(o) =>
         k.1 != root[k.0] && (k.0, o.run) in st.runs && (k.0, o.run) in born && born[(k.0, o.run)] < born[k]
         && HasCheckpoint(st, o.run, o.step)
  }

  /** The run's task exists and has the run's tenant. */
  ghost predicate TenantOk(st: State, k: RunKey)
    requires k in st.runs
  {
    k.0 in st.tasks && st.runs[k].tenant == st.tasks[k.0].tenant
  }

  ghost predicate Lineage(st: State, born: map<RunKey, nat>, root: map<string, string>, births: nat) {
    && (forall t :: t in st.tasks ==> (t, st.tasks[t].activeRun) in st.runs && t in root && (t, root[t]) in st.runs)
    && (forall k :: k in st.runs ==> TenantOk(st, k) && ParentOk(st, born, root, k))
    && (forall k :: k in born ==> born[k] < births)
  }

  ghost predicate CountOk(status: RunStatus, claims: nat, resets: nat) {
    claims <= if status == RunQueued then resets else resets + 1
  }

  ghost predicate Counters(st: State, claims: map<RunKey, nat>, resets: map<RunKey, nat>) {
    forall k :: k in st.runs ==> k in claims && k in resets && CountOk(st.runs[k].status, claims[k], resets[k])
  }

  /** A worker that finalizes a run carries a terminal status. */
  ghost predicate EndingOk(workers: map<nat, Pc>) {
    forall w :: w in workers && workers[w].Ending? ==> Terminal(workers[w].status)
  }

  ghost predicate LineageOk(s: Sys) {
    Lineage(s.store, s.born, s.root, s.births) && Counters(s.store, s.claims, s.resets) && EndingOk(s.workers)
  }

  // ---------------------------------------------------------------- frames

  /** Same runs with the same parents, same active runs, and no step lost. */
  ghost predicate SameShape(a: State, b: State) {
    && a.tasks.Keys == b.tasks.Keys && a.runs.Keys == b.runs.Keys
    && (forall t :: t in a.tasks ==> a.tasks[t].activeRun == b.tasks[t].activeRun && a.tasks[t].tenant == b.tasks[t].tenant)
    && (forall k :: k in a.runs ==> a.runs[k].parent == b.runs[k].parent && a.runs[k].tenant == b.runs[k].tenant)
    && (forall j :: j in a.steps ==> j in b.steps && b.steps[j] == a.steps[j])
  }

  lemma ShapeKeepsLineage(a: State, b: State, born: map<RunKey, nat>, root: map<string, string>, births: nat)
    requires Lineage(a, born, root, births) && SameShape(a, b)
    ensures Lineage(b, born, root, births)
  {
    forall k | k in b.runs ensures TenantOk(b, k) && ParentOk(b, born, root, k) {
      assert k in a.runs && TenantOk(a, k) && ParentOk(a, born, root, k);
    }
  }

  /** One run is added, as the active run of its task; the others, and every step record, stay. */
  ghost predicate Grown(a: State, b: State, k: RunKey) {
    && k !in a.runs && b.runs.Keys == a.runs.Keys + {k}
    && (forall j :: j in a.runs ==> b.runs[j] == a.runs[j])
    && b.steps == a.steps
    && b.tasks.Keys == a.tasks.Keys + {k.0} && b.tasks[k.0].activeRun == k.1
    && b.runs[k].tenant == b.tasks[k.0].tenant && (forall t :: t in a.tasks ==> b.tasks[t].tenant == a.tasks[t].tenant)
    && (forall t :: t in a.tasks && t != k.0 ==> b.tasks[t].activeRun == a.tasks[t].activeRun)
  }

  lemma GrowKeepsParent(
      a: State, b: State, born: map<RunKey, nat>, root: map<string, string>, root': map<string, string>,
      births: nat, k: RunKey, j: RunKey)
    requires j in a.runs && TenantOk(a, j) && ParentOk(a, born, root, j) && Grown(a, b, k)
    requires if k.0 in a.tasks then root' == root else root' == root[k.0 := k.1]
    ensures TenantOk(b, j) && ParentOk(b, born[k := births], root', j)
  {
  }

  lemma GrowKeepsTasks(a: State, b: State, root: map<string, string>, root': map<string, string>, k: RunKey)
    requires Grown(a, b, k)
    requires forall t :: t in a.tasks ==> (t, a.tasks[t].activeRun) in a.runs && t in root && (t, root[t]) in a.runs
    requires if k.0 in a.tasks then root' == root else root' == root[k.0 := k.1]
    ensures forall t :: t in b.tasks ==> (t, b.tasks[t].activeRun) in b.runs && t in root' && (t, root'[t]) in b.runs
    ensures forall j :: j in b.runs <==> j in a.runs || j == k
  {
  }

  lemma GrownTenant(a: State, b: State, k: RunKey)
    requires Grown(a, b, k)
    ensures TenantOk(b, k)
  {
  }

  lemma GrowKeepsLineage(
      a: State, b: State, born: map<RunKey, nat>, root: map<string, string>, root': map<string, string>,
      births: nat, k: RunKey)
    requires Lineage(a, born, root, births) && Grown(a, b, k)
    requires if k.0 in a.tasks then root' == root else root' == root[k.0 := k.1]
    requires ParentOk(b, born[k := births], root', k)
    ensures Lineage(b, born[k := births], root', births + 1)
  {
    hide ParentOk, TenantOk;
    GrowKeepsTasks(a, b, root, root', k);
    var born' := born[k := births];
    assert TenantOk(b, k) by { GrownTenant(a, b, k); }
    hide Grown;
    forall j | j in b.runs ensures TenantOk(b, j) && ParentOk(b, born', root', j) {
      if j != k {
        GrowKeepsParent(a, b, born, root, root', births, k, j);
      }
    }
  }

  lemma GrowKeepsCounters(a: State, b: State, claims: map<RunKey, nat>, resets: map<RunKey, nat>, k: RunKey)
    requires Counters(a, claims, resets) && Grown(a, b, k)
    ensures Counters(b, claims[k := 0], resets[k := 0])
  {
  }

  lemma WriteKeepsCounters(
      a: State, b: State, claims: map<RunKey, nat>, resets: map<RunKey, nat>, claims': map<RunKey, nat>,
      resets': map<RunKey, nat>, k: RunKey)
    requires Counters(a, claims, resets) && a.runs.Keys == b.runs.Keys
    requires forall j :: j in a.runs && j != k ==> b.runs[j].status == a.runs[j].status
    requires forall j :: j in a.runs && j != k ==> j in claims' && j in resets' && claims'[j] == claims[j] && resets'[j] == resets[j]
    requires k in b.runs ==> k in claims' && k in resets' && CountOk(b.runs[k].status, claims'[k], resets'[k])
    ensures Counters(b, claims', resets')
  {
  }

  // ---------------------------------------------------------------- the store's operations

  /** Same shape, and the status of no run but k differs. */
  ghost predicate Wrote(a: State, b: State, k: RunKey) {
    SameShape(a, b) && forall j :: j in a.runs && j != k ==> b.runs[j].status == a.runs[j].status
  }

  lemma CreateGrows(st: State, t: string, task: Task, r: string, run: Run)
    requires task.activeRun == r && run.tenant == task.tenant
    ensures var (st', err) := CreateTransition(st, t, task, r, run);
            err == Ok ==> Grown(st, st', (t, r)) && st'.runs[(t, r)] == run && t !in st.tasks
  {
  }

  lemma ResumeGrows(st: State, t: string, r: string, run: Run, from: set<TaskStatus>, to: TaskStatus)
    requires t in st.tasks ==> run.tenant == st.tasks[t].tenant
    ensures var (st', err) := ResumeTransition(st, t, r, run, from, to);
            err == Ok ==> Grown(st, st', (t, r)) && (t, r) in st'.runs && st'.runs[(t, r)] == run && t in st.tasks
  {
  }

  lemma ClaimWrites(st: State, t: string, r: string)
    ensures Wrote(st, ClaimRun(st, t, r).0, (t, r))
    ensures ClaimRun(st, t, r).1 == Ok ==>
      (t, r) in st.runs && st.runs[(t, r)].status == RunQueued && ClaimRun(st, t, r).0.runs[(t, r)].status == RunRunning
  {
  }

  lemma CompleteWrites(st: State, t: string, r: string, status: RunStatus)
    ensures Wrote(st, CompleteRun(st, t, r, status).0, (t, r))
    ensures (t, r) in st.runs ==> CompleteRun(st, t, r, status).0.runs[(t, r)].status == status
  {
  }

  lemma ProgressWrites(st: State, t: string, r: string, idx: int)
    ensures Wrote(st, UpdateLastStep(st, t, r, idx).0, (t, r))
    ensures (t, r) in st.runs ==> UpdateLastStep(st, t, r, idx).0.runs[(t, r)].status == st.runs[(t, r)].status
  {
  }

  lemma TaskUpdate(st: State, t: string, task: Task, k: RunKey)
    requires t in st.tasks && task.activeRun == st.tasks[t].activeRun && task.tenant == st.tasks[t].tenant
    ensures Wrote(st, st.(tasks := st.tasks[t := task]), k)
  {
    assert st.tasks[t := task].Keys == st.tasks.Keys;
  }

  lemma TaskWrites(st: State, t: string, r: string, from: set<TaskStatus>, to: TaskStatus, k: RunKey)
    ensures Wrote(st, UpdateTaskStatusForRun(st, t, r, from, to).0, k)
    ensures UpdateTaskStatusForRun(st, t, r, from, to).0.runs == st.runs
  {
    assert Wrote(st, st, k);
    hide Wrote;
    if t in st.tasks {
      TaskUpdate(st, t, st.tasks[t].(status := to), k);
    }
  }

  lemma AbortWrites(st: State, t: string, b: bool, k: RunKey)
    ensures Wrote(st, SetAbort(st, t, b).0, k) && SetAbort(st, t, b).0.runs == st.runs
  {
    assert Wrote(st, st, k);
    hide Wrote;
    if t in st.tasks {
      TaskUpdate(st, t, st.tasks[t].(abortRequested := b), k);
    }
  }

  lemma StepWrites(st: State, r: string, idx: int, step: Step, k: RunKey)
    ensures Wrote(st, PutStep(st, r, idx, step).0, k) && PutStep(st, r, idx, step).0.runs == st.runs
    ensures Wrote(st, st, k)
  {
  }

  // ---------------------------------------------------------------- steps

  lemma CreateKeeps(s: Sys, t: string, r: string, tenant: string, key: string)
    requires LineageOk(s)
    ensures LineageOk(CreateStep(s, t, r, tenant, key))
  {
    var task, run := Task(tenant, Queued, r, false, key), Run(tenant, RunQueued, None, 0);
    CreateGrows(s.store, t, task, r, run);
    hide CreateTransition, Lineage, Counters, Grown, ParentOk, EndingOk;
    var (st, err) := CreateTransition(s.store, t, task, r, run);
    if err == Ok {
      NewRoot(st, s.born, s.root, s.births, (t, r));
      GrowKeepsLineage(s.store, st, s.born, s.root, s.root[t := r], s.births, (t, r));
      GrowKeepsCounters(s.store, st, s.claims, s.resets, (t, r));
    }
  }

  lemma NewRoot(st: State, born: map<RunKey, nat>, root: map<string, string>, births: nat, k: RunKey)
    requires k in st.runs && st.runs[k].parent == None
    ensures ParentOk(st, born[k := births], root[k.0 := k.1], k)
  {
  }

  lemma NewChild(a: State, b: State, born: map<RunKey, nat>, root: map<string, string>, births: nat, k: RunKey, o: Origin)
    requires Lineage(a, born, root, births) && Grown(a, b, k) && k.0 in a.tasks
    requires b.runs[k].parent == Some(o) && (k.0, o.run) in a.runs && HasCheckpoint(a, o.run, o.step)
    ensures ParentOk(b, born[k := births], root, k)
  {
    assert ParentOk(a, born, root, (k.0, o.run));
    assert (k.0, root[k.0]) in a.runs;
  }

  lemma GrowChild(
      a: State, b: State, born: map<RunKey, nat>, root: map<string, string>, births: nat, claims: map<RunKey, nat>,
      resets: map<RunKey, nat>, k: RunKey, o: Origin)
    requires Lineage(a, born, root, births) && Counters(a, claims, resets) && Grown(a, b, k) && k.0 in a.tasks
    requires b.runs[k].parent == Some(o) && (k.0, o.run) in a.runs && HasCheckpoint(a, o.run, o.step)
    ensures Lineage(b, born[k := births], root, births + 1) && Counters(b, claims[k := 0], resets[k := 0])
  {
    GrownHas(a, b, k);
    NewChild(a, b, born, root, births, k, o);
    hide Lineage, Counters, Grown, ParentOk;
    GrowKeepsLineage(a, b, born, root, root, births, k);
    GrowKeepsCounters(a, b, claims, resets, k);
  }

  /** The parts of the state a resume leaves behind. */
  lemma ResumeParts(s: Sys, t: string, fromRun: string, fromStep: int, r: string, enqueued: bool)
    requires t in s.store.tasks
    ensures var run := Run(s.store.tasks[t].tenant, RunQueued, Some(Origin(fromRun, fromStep)), 0);
      var (st, err) := ResumeTransition(s.store, t, r, run, RESUMABLE, Queued); var k := (t, r);
      var s' := ResumeStep(s, t, fromRun, fromStep, r, enqueued);
      && (err != Ok ==> s' == s)
      && (err == Ok ==>
           && s'.store == st && s'.born == s.born[k := s.births] && s'.births == s.births + 1 && s'.root == s.root
           && s'.claims == s.claims[k := 0] && s'.resets == s.resets[k := 0] && s'.workers == s.workers)
  {
    hide ResumeTransition;
  }

  lemma ResumeKeeps(s: Sys, t: string, fromRun: string, fromStep: int, r: string, enqueued: bool)
    requires LineageOk(s) && t in s.store.tasks && (t, fromRun) in s.store.runs && HasCheckpoint(s.store, fromRun, fromStep)
    ensures LineageOk(ResumeStep(s, t, fromRun, fromStep, r, enqueued))
  {
    hide ResumeTransition, ResumeStep, Lineage, Counters, Grown, EndingOk, HasCheckpoint;
    var run := Run(s.store.tasks[t].tenant, RunQueued, Some(Origin(fromRun, fromStep)), 0);
    ResumeGrows(s.store, t, r, run, RESUMABLE, Queued);
    ResumeParts(s, t, fromRun, fromStep, r, enqueued);
    var (st, err) := ResumeTransition(s.store, t, r, run, RESUMABLE, Queued);
    if err == Ok {
      GrowChild(s.store, st, s.born, s.root, s.births, s.claims, s.resets, (t, r), Origin(fromRun, fromStep));
    }
  }

  lemma GrownHas(a: State, b: State, k: RunKey)
    requires Grown(a, b, k)
    ensures k in b.runs
  {
  }

  /** All other steps write at most one status and keep the shape. */
  lemma WriteKeeps(s: Sys, s': Sys, k: RunKey)
    requires LineageOk(s) && Wrote(s.store, s'.store, k)
    requires s'.born == s.born && s'.root == s.root && s'.births == s.births
    requires s'.claims == s.claims || s'.claims == Bump(s.claims, k)
    requires s'.resets == s.resets || s'.resets == Bump(s.resets, k)
    requires k in s.store.runs ==>
      k in s'.store.runs && k in s'.claims && k in s'.resets && CountOk(s'.store.runs[k].status, s'.claims[k], s'.resets[k])
    requires EndingOk(s'.workers)
    ensures LineageOk(s')
  {
    hide Lineage;
    ShapeKeepsLineage(s.store, s'.store, s.born, s.root, s.births);
    assert s'.store.runs.Keys == s.store.runs.Keys;
    WriteKeepsCounters(s.store, s'.store, s.claims, s.resets, s'.claims, s'.resets, k);
  }

  lemma CountsOf(s: Sys, k: RunKey)
    requires LineageOk(s)
    ensures k in s.store.runs ==> k in s.claims && k in s.resets && CountOk(s.store.runs[k].status, s.claims[k], s.resets[k])
  {
  }

  /** A worker between the engine's result and the store holds a terminal status. */
  lemma WorkerStepEnds(s: Sys, e: Event)
    requires LineageOk(s) && Enabled(s, e)
    requires e.TakeTask? || e.DropStale? || e.Load? || e.WriteStep? || e.Progress? || e.Stop? || e.FinishRun? || e.FinishTask?
    ensures EndingOk(Apply(s, e).workers) && (e.FinishRun? ==> At(s.workers, e.worker).status != RunQueued)
  {
    hide Lineage, Counters, CompleteRun, UpdateLastStep, PutStep, UpdateTaskStatusForRun;
  }

  lemma WorkerStepKeeps(s: Sys, e: Event)
    requires LineageOk(s) && Enabled(s, e)
    requires e.TakeTask? || e.DropStale? || e.Load? || e.WriteStep? || e.Progress? || e.Stop? || e.FinishRun? || e.FinishTask?
    ensures LineageOk(Apply(s, e))
  {
    hide LineageOk, Wrote, PutStep, UpdateTaskStatusForRun, EndingOk;
    var k := At(s.workers, e.worker).Key();
    CountsOf(s, k);
    StepWrites(s.store, k.1, 0, Step(FinalStep, true, "", None), k);
    WorkerStepEnds(s, e);
    match e
    case TakeTask(w) => TaskWrites(s.store, k.0, k.1, {Queued, Running}, Running, k); WriteKeeps(s, TakeStep(s, w), k);
    case DropStale(w) => CompleteWrites(s.store, k.0, k.1, RunAborted); WriteKeeps(s, DropStep(s, w), k);
    case Load(w, outcome) => WriteKeeps(s, LoadStep(s, w, outcome), k);
    case WriteStep(w, idx, step) => StepWrites(s.store, k.1, idx, step, k); WriteKeeps(s, WriteStepStep(s, w, idx, step), k);
    case Progress(w, idx) => ProgressWrites(s.store, k.0, k.1, idx); WriteKeeps(s, ProgressStep(s, w, idx), k);
    case Stop(w, status) => WriteKeeps(s, StopStep(s, w, status), k);
    case FinishRun(w) => CompleteWrites(s.store, k.0, k.1, At(s.workers, w).status); WriteKeeps(s, FinishRunStep(s, w), k);
    case FinishTask(w) =>
      TaskWrites(s.store, k.0, k.1, {Running}, MapStatus(At(s.workers, w).status), k);
      WriteKeeps(s, FinishTaskStep(s, w), k);
  }

  lemma DeliverKeeps(s: Sys, w: nat, t: string, r: string)
    requires LineageOk(s)
    ensures LineageOk(DeliverStep(s, w, t, r))
  {
    CountsOf(s, (t, r));
    ClaimWrites(s.store, t, r);
    assert EndingOk(DeliverStep(s, w, t, r).workers);
    hide LineageOk, Wrote, ClaimRun, EndingOk;
    if ClaimRun(s.store, t, r).1 == Ok {
      WroteHas(s.store, ClaimRun(s.store, t, r).0, (t, r));
      WriteKeeps(s, DeliverStep(s, w, t, r), (t, r));
    }
  }

  lemma WroteHas(a: State, b: State, k: RunKey)
    requires Wrote(a, b, k)
    ensures k in a.runs <==> k in b.runs
  {
  }

  lemma StepKeepsLineage(s: Sys, e: Event)
    requires LineageOk(s) && Enabled(s, e)
    ensures LineageOk(Apply(s, e))
  {
    if e.Create? {
      hide LineageOk, CreateStep;
      CreateKeeps(s, e.task, e.run, e.tenant, e.key);
    } else if e.Resume? {
      hide LineageOk, ResumeStep;
      ResumeKeeps(s, e.task, e.fromRun, e.fromStep, e.run, e.enqueued);
    } else if e.Deliver? {
      hide LineageOk, DeliverStep;
      DeliverKeeps(s, e.worker, e.task, e.run);
    } else if e.ResetStale? || e.RequeueTask? {
      hide LineageOk, ResetStep, RequeueStep;
      RecoveryStepKeeps(s, e.task, e.run);
    } else if e.Abort? || e.MarkRunFailed? || e.MarkTaskFailed? {
      hide *;
      ServiceStepKeeps(s, e);
    } else {
      hide *;
      WorkerStepKeeps(s, e);
    }
  }

  /** The service's aborts and failure marks. */
  lemma ServiceStepKeeps(s: Sys, e: Event)
    requires LineageOk(s) && Enabled(s, e)
    requires e.Abort? || e.MarkRunFailed? || e.MarkTaskFailed?
    ensures LineageOk(Apply(s, e))
  {
    hide Lineage, Counters, Wrote, UpdateTaskStatusForRun, SetAbort, EndingOk;
    var k := (e.task, if e.Abort? then "" else e.run);
    CountsOf(s, k);
    assert EndingOk(s.workers);
    hide LineageOk;
    match e
    case Abort(t) => AbortWrites(s.store, t, true, k); WriteKeeps(s, Apply(s, e), k);
    case MarkRunFailed(t, r) =>
      CompleteWrites(s.store, t, r, RunFailed);
      WroteHas(s.store, Apply(s, e).store, k);
      WriteKeeps(s, Apply(s, e), k);
    case MarkTaskFailed(t, r) => TaskWrites(s.store, t, r, {Queued, Running}, Failed, k); WriteKeeps(s, Apply(s, e), k);
  }

  /** Recovery's resets, with the counter, and its task updates. */
  lemma RecoveryStepKeeps(s: Sys, t: string, r: string)
    requires LineageOk(s)
    ensures (t, r) in s.store.runs ==> LineageOk(ResetStep(s, t, r))
    ensures LineageOk(RequeueStep(s, t, r))
  {
    var k := (t, r);
    CountsOf(s, k);
    assert EndingOk(s.workers);
    hide LineageOk, Wrote, CompleteRun, UpdateTaskStatusForRun, EndingOk;
    TaskWrites(s.store, t, r, ANY_STATUS, Queued, k);
    WriteKeeps(s, RequeueStep(s, t, r), k);
    if k in s.store.runs {
      CompleteWrites(s.store, t, r, RunQueued);
      WroteHas(s.store, ResetStep(s, t, r).store, k);
      WriteKeeps(s, ResetStep(s, t, r), k);
    }
  }

  lemma {:induction false} RunKeepsLineage(s: Sys, events: seq<Event>)
    requires LineageOk(s) && Legal(s, events)
    ensures LineageOk(Final(s, events))
    decreases |events|
  {
    hide LineageOk, Apply, Enabled;
    if events != [] {
      StepKeepsLineage(s, events[0]);
      RunKeepsLineage(Apply(s, events[0]), events[1..]);
    }
  }

  // ---------------------------------------------------------------- theorems

  /** The states that any run reaches from an empty store, recovery included. */
  ghost predicate Reachable(s: Sys) {
    exists events :: Legal(EMPTY, events) && s == Final(EMPTY, events)
  }

  lemma ReachableLineage(s: Sys)
    requires Reachable(s)
    ensures LineageOk(s)
  {
    var events :| Legal(EMPTY, events) && s == Final(EMPTY, events);
    assert LineageOk(EMPTY);
    hide LineageOk, Legal, Final;
    RunKeepsLineage(EMPTY, events);
  }

  lemma ActiveRunExists(s: Sys, t: string)
    requires Reachable(s) && t in s.store.tasks
    ensures (t, s.store.tasks[t].activeRun) in s.store.runs
  {
    hide Reachable;
    ReachableLineage(s);
  }

  /** A run is claimed at most once more often than it is reset. */
  lemma ClaimedOncePerReset(s: Sys, k: RunKey)
    requires Reachable(s) && k in s.store.runs
    ensures k in s.claims && k in s.resets && s.claims[k] <= s.resets[k] + 1
  {
    hide Reachable;
    ReachableLineage(s);
  }

  /** The runs a run descends from, itself first, each obtained by following the parent link. */
  ghost function Ancestry(st: State, born: map<RunKey, nat>, k: RunKey): seq<string>
    requires k in st.runs && k in born
    decreases born[k]
  {
    match st.runs[k].parent
    case None => [k.1]
    case Some(o) =>
      var j := (k.0, o.run);
      if j in st.runs && j in born && born[j] < born[k] then [k.1] + Ancestry(st, born, j) else [k.1]
  }

  /** Run r of task t was resumed from a checkpointed step of run r' of the same task. */
  ghost predicate ChildOf(st: State, t: string, r: string, r': string) {
    && (t, r) in st.runs && st.runs[(t, r)].parent.Some? && st.runs[(t, r)].parent.value.run == r'
    && (t, r') in st.runs && HasCheckpoint(st, r', st.runs[(t, r)].parent.value.step)
  }

  lemma ParentStep(st: State, born: map<RunKey, nat>, root: map<string, string>, births: nat, k: RunKey)
    requires Lineage(st, born, root, births) && k in st.runs
    ensures k in born && k.0 in root
    ensures match st.runs[k].parent
      case None => k.1 == root[k.0]
      case Some(o) => (k.0, o.run) in st.runs && (k.0, o.run) in born && born[(k.0, o.run)] < born[k] && ChildOf(st, k.0, k.1, o.run)
  {
    assert ParentOk(st, born, root, k);
  }

  /** A line of descent from r. */
  ghost predicate LineOf(st: State, t: string, r: string, line: seq<string>) {
    line != [] && line[0] == r && forall i :: 0 <= i < |line| - 1 ==> ChildOf(st, t, line[i], line[i + 1])
  }

  lemma LongerLine(st: State, t: string, r: string, r': string, rest: seq<string>)
    requires LineOf(st, t, r', rest) && ChildOf(st, t, r, r')
    ensures LineOf(st, t, r, [r] + rest)
  {
    hide ChildOf;
    var line := [r] + rest;
    forall i | 0 <= i < |line| - 1 ensures ChildOf(st, t, line[i], line[i + 1]) {
      if i > 0 {
        assert line[i] == rest[i - 1] && line[i + 1] == rest[i];
      }
    }
  }

  lemma {:induction false} AncestryOk(st: State, born: map<RunKey, nat>, root: map<string, string>, births: nat, k: RunKey)
    requires Lineage(st, born, root, births) && k in st.runs && k in born
    ensures var line := Ancestry(st, born, k);
            LineOf(st, k.0, k.1, line) && k.0 in root && line[|line| - 1] == root[k.0]
    decreases born[k]
  {
    hide Lineage, ChildOf;
    ParentStep(st, born, root, births, k);
    if st.runs[k].parent.Some? {
      var j := (k.0, st.runs[k].parent.value.run);
      AncestryOk(st, born, root, births, j);
      assert Ancestry(st, born, k) == [k.1] + Ancestry(st, born, j);
      hide Ancestry;
      LongerLine(st, k.0, k.1, j.1, Ancestry(st, born, j));
    }
  }

  /** Every run descends, through checkpointed steps of runs of the same task, from the task's first run. */
  lemma DescendsFromFirstRun(s: Sys, k: RunKey)
    requires Reachable(s) && k in s.store.runs
    ensures k in s.born && k.0 in s.root
    ensures var line := Ancestry(s.store, s.born, k);
            LineOf(s.store, k.0, k.1, line) && line[|line| - 1] == s.root[k.0]
    ensures (k.0, s.root[k.0]) in s.store.runs && s.store.runs[(k.0, s.root[k.0])].parent.None?
  {
    hide Reachable;
    ReachableLineage(s);
    assert ParentOk(s.store, s.born, s.root, k);
    AncestryOk(s.store, s.born, s.root, s.births, k);
    assert ParentOk(s.store, s.born, s.root, (k.0, s.root[k.0]));
  }

  // ---------------------------------------------------------------- what is never rewritten

  /** Steps stay as first written, and runs keep their parents. */
  ghost predicate Keeps(a: State, b: State) {
    && (forall j :: j in a.steps ==> j in b.steps && b.steps[j] == a.steps[j])
    && (forall k :: k in a.runs ==> k in b.runs && b.runs[k].parent == a.runs[k].parent)
  }

  lemma WritesKeepRecords(a: State, b: State, k: RunKey)
    requires Wrote(a, b, k)
    ensures Keeps(a, b)
  {
  }

  lemma GrowthKeepsRecords(a: State, b: State, k: RunKey)
    requires Grown(a, b, k)
    ensures Keeps(a, b)
  {
  }

  lemma NewRunKeepsRecords(s: Sys, e: Event)
    requires Enabled(s, e) && (e.Create? || e.Resume?)
    ensures Keeps(s.store, Apply(s, e).store)
  {
    assert Keeps(s.store, s.store);
    hide Keeps, Grown, CreateTransition, ResumeTransition, FreshRun;
    if e.Create? {
      var task, run := Task(e.tenant, Queued, e.run, false, e.key), Run(e.tenant, RunQueued, None, 0);
      CreateGrows(s.store, e.task, task, e.run, run);
      if CreateTransition(s.store, e.task, task, e.run, run).1 == Ok {
        GrowthKeepsRecords(s.store, CreateTransition(s.store, e.task, task, e.run, run).0, (e.task, e.run));
      }
    } else {
      var run := Run(s.store.tasks[e.task].tenant, RunQueued, Some(Origin(e.fromRun, e.fromStep)), 0);
      ResumeGrows(s.store, e.task, e.run, run, RESUMABLE, Queued);
      if ResumeTransition(s.store, e.task, e.run, run, RESUMABLE, Queued).1 == Ok {
        GrowthKeepsRecords(s.store, ResumeTransition(s.store, e.task, e.run, run, RESUMABLE, Queued).0, (e.task, e.run));
      }
    }
  }

  lemma WorkerKeepsRecords(s: Sys, e: Event)
    requires Enabled(s, e)
    requires e.Deliver? || e.TakeTask? || e.DropStale? || e.Load? || e.WriteStep? || e.Progress? || e.Stop? || e.FinishRun? || e.FinishTask?
    ensures Keeps(s.store, Apply(s, e).store)
  {
    var k := if e.Deliver? then (e.task, e.run) else At(s.workers, e.worker).Key();
    var idx := if e.WriteStep? || e.Progress? then e.idx else 0;
    var status := if e.FinishRun? || e.FinishTask? then At(s.workers, e.worker).status else RunAborted;
    hide Wrote, ClaimRun, CompleteRun, UpdateLastStep, PutStep, UpdateTaskStatusForRun, Keeps;
    ClaimWrites(s.store, k.0, k.1);
    TaskWrites(s.store, k.0, k.1, {Queued, Running}, Running, k);
    TaskWrites(s.store, k.0, k.1, {Running}, MapStatus(status), k);
    CompleteWrites(s.store, k.0, k.1, status);
    ProgressWrites(s.store, k.0, k.1, idx);
    StepWrites(s.store, k.1, idx, if e.WriteStep? then e.step else Step(FinalStep, true, "", None), k);
    WritesKeepRecords(s.store, Apply(s, e).store, k);
  }

  lemma ServiceKeepsRecords(s: Sys, e: Event)
    requires Enabled(s, e) && (e.Abort? || e.MarkRunFailed? || e.MarkTaskFailed? || e.ResetStale? || e.RequeueTask?)
    ensures Keeps(s.store, Apply(s, e).store)
  {
    var k := (e.task, if e.Abort? then "" else e.run);
    hide Wrote, CompleteRun, UpdateTaskStatusForRun, SetAbort, Keeps;
    AbortWrites(s.store, k.0, true, k);
    CompleteWrites(s.store, k.0, k.1, if e.MarkRunFailed? then RunFailed else RunQueued);
    TaskWrites(s.store, k.0, k.1, {Queued, Running}, Failed, k);
    TaskWrites(s.store, k.0, k.1, ANY_STATUS, Queued, k);
    WritesKeepRecords(s.store, Apply(s, e).store, k);
  }

  lemma StepKeepsRecords(s: Sys, e: Event)
    requires Enabled(s, e)
    ensures Keeps(s.store, Apply(s, e).store)
  {
    hide *;
    if e.Create? || e.Resume? {
      NewRunKeepsRecords(s, e);
    } else if e.Abort? || e.MarkRunFailed? || e.MarkTaskFailed? || e.ResetStale? || e.RequeueTask? {
      ServiceKeepsRecords(s, e);
    } else {
      WorkerKeepsRecords(s, e);
    }
  }

  lemma {:induction false} RecordsArePermanent(s: Sys, events: seq<Event>)
    requires Legal(s, events)
    ensures Keeps(s.store, Final(s, events).store)
    decreases |events|
  {
    if events != [] {
      assert Enabled(s, events[0]);
      var s' := Apply(s, events[0]);
      assert Final(s, events) == Final(s', events[1..]);
      hide Apply, Enabled;
      StepKeepsRecords(s, events[0]);
      RecordsArePermanent(s', events[1..]);
    }
  }
}
