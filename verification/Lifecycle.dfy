/**
  The task and run lifecycle: the service (pkg/task/service.go), any number of workers
  (pkg/engine/worker.go) and the recovery job (internal/ops/recovery.go) as one transition
  system whose steps are single store calls. A message may be delivered any number of times, to
  any worker, at any moment. That includes a run whose enqueue by Resume failed: until the run is
  marked as failed, a repeated Create with the task's idempotency key enqueues it, and so does
  recovery.
 */
module Lifecycle {
  import opened Common
  import opened Store

  /** Where a worker is in handleMessage, named by the store call it makes next. */
  datatype Pc =
    | Idle
    | Claimed(task: string, run: string)                     // run claimed, task not yet set to RUNNING
    | Stale(task: string, run: string)                       // the task refused: abort the run
    | Loaded(task: string, run: string)                      // task is RUNNING
    | Executing(task: string, run: string)                   // inside Execute
    | Ending(task: string, run: string, status: RunStatus)   // finalizeRun, before CompleteRun
    | Ended(task: string, run: string, status: RunStatus)    // finalizeRun, before the task update
  {
    function Key(): RunKey
      requires !Idle?
    {
      (task, run)
    }
  }

  /** Where markRunAndTaskFailed is for a resumed run whose enqueue failed. */
  datatype Mark = MarkRun | MarkTask

  datatype Sys = Sys(
    store: State,
    workers: map<nat, Pc>,
    marks: map<RunKey, Mark>,
    recovering: set<RunKey>,      // runs reset by recovery, task not yet set back
    claims: map<RunKey, nat>,     // successful claims so far
    resets: map<RunKey, nat>,     // resets so far
    born: map<RunKey, nat>,       // order of creation
    births: nat,
    root: map<string, string>)    // first run of each task

  datatype Outcome = Go | Mismatch | NoWorkspace

  datatype Event =
    | Create(task: string, run: string, tenant: string, key: string)
    | Resume(task: string, fromRun: string, fromStep: int, run: string, enqueued: bool)
    | Abort(task: string)
    | Deliver(worker: nat, task: string, run: string)
    | TakeTask(worker: nat)
    | DropStale(worker: nat)
    | Load(worker: nat, outcome: Outcome)
    | WriteStep(worker: nat, idx: int, step: Step)
    | Progress(worker: nat, idx: int)
    | Stop(worker: nat, status: RunStatus)
    | FinishRun(worker: nat)
    | FinishTask(worker: nat)
    | MarkRunFailed(task: string, run: string)
    | MarkTaskFailed(task: string, run: string)
    | ResetStale(task: string, run: string)
    | RequeueTask(task: string, run: string)

  const EMPTY := Sys(NOTHING, map[], map[], {}, map[], map[], map[], 0, map[])

  function At(workers: map<nat, Pc>, w: nat): Pc { if w in workers then workers[w] else Idle }

  /** Steps of the recovery job. */
  predicate Recovery(e: Event) { e.ResetStale? || e.RequeueTask? }

  // ---------------------------------------------------------------- steps

  /** Run ids are random: a new one names no stored run. */
  ghost predicate FreshRun(st: State, r: string) {
    r != "" && (forall k :: k in st.runs ==> k.1 != r) && (forall k :: k in st.steps ==> k.0 != r)
  }

  ghost predicate Enabled(s: Sys, e: Event) {
    match e
    case Create(t, r, _, _) => t != "" && FreshRun(s.store, r)
    case Resume(t, fromRun, fromStep, r, _) =>
      && t in s.store.tasks && (t, fromRun) in s.store.runs && HasCheckpoint(s.store, fromRun, fromStep)
      && fromStep >= 0 && FreshRun(s.store, r)
    case Abort(t) => true
    case Deliver(w, t, r) => At(s.workers, w).Idle?
    case TakeTask(w) => At(s.workers, w).Claimed?
    case DropStale(w) => At(s.workers, w).Stale?
    case Load(w, _) => At(s.workers, w).Loaded?
    case WriteStep(w, _, _) => At(s.workers, w).Executing?
    case Progress(w, _) => At(s.workers, w).Executing?
    case Stop(w, status) => At(s.workers, w).Executing? && Terminal(status)
    case FinishRun(w) => At(s.workers, w).Ending?
    case FinishTask(w) => At(s.workers, w).Ended?
    case MarkRunFailed(t, r) => (t, r) in s.marks && s.marks[(t, r)] == MarkRun
    case MarkTaskFailed(t, r) => (t, r) in s.marks && s.marks[(t, r)] == MarkTask
    case ResetStale(t, r) => (t, r) in s.store.runs
    case RequeueTask(t, r) => (t, r) in s.recovering
  }

  function Bump(m: map<RunKey, nat>, k: RunKey): map<RunKey, nat> {
    m[k := 1 + if k in m then m[k] else 0]
  }

  /** The new run gets its place in the order of creation and its counters. */
  function Born(s: Sys, k: RunKey): Sys {
    s.(born := s.born[k := s.births], births := s.births + 1, claims := s.claims[k := 0], resets := s.resets[k := 0])
  }

  function CreateStep(s: Sys, t: string, r: string, tenant: string, key: string): Sys {
    var (st, err) := CreateTransition(s.store, t, Task(tenant, Queued, r, false, key), r, Run(tenant, RunQueued, None, 0));
    if err == Ok then Born(s.(store := st, root := s.root[t := r]), (t, r)) else s
  }

  const RESUMABLE: set<TaskStatus> := {Queued, Succeeded, Failed, Aborted}

  function ResumeStep(s: Sys, t: string, fromRun: string, fromStep: int, r: string, enqueued: bool): Sys
    requires t in s.store.tasks
  {
    var run := Run(s.store.tasks[t].tenant, RunQueued, Some(Origin(fromRun, fromStep)), 0);
    var (st, err) := ResumeTransition(s.store, t, r, run, RESUMABLE, Queued);
    if err != Ok then s
    else if enqueued then Born(s.(store := st), (t, r))
    else Born(s.(store := st, marks := s.marks[(t, r) := MarkRun]), (t, r))
  }

  function DeliverStep(s: Sys, w: nat, t: string, r: string): Sys {
    var (st, err) := ClaimRun(s.store, t, r);
    if err == Ok then s.(store := st, workers := s.workers[w := Claimed(t, r)], claims := Bump(s.claims, (t, r)))
    else s
  }

  function TakeStep(s: Sys, w: nat): Sys
    requires At(s.workers, w).Claimed?
  {
    var Claimed(t, r) := At(s.workers, w);
    var (st, err) := UpdateTaskStatusForRun(s.store, t, r, {Queued, Running}, Running);
    s.(store := st, workers := s.workers[w := if err == Ok then Loaded(t, r) else Stale(t, r)])
  }

  function DropStep(s: Sys, w: nat): Sys
    requires At(s.workers, w).Stale?
  {
    var Stale(t, r) := At(s.workers, w);
    s.(store := CompleteRun(s.store, t, r, RunAborted).0, workers := s.workers[w := Idle])
  }

  function LoadStep(s: Sys, w: nat, outcome: Outcome): Sys
    requires At(s.workers, w).Loaded?
  {
    var Loaded(t, r) := At(s.workers, w);
    s.(workers := s.workers[w :=
      match outcome
      case Go => Executing(t, r)
      case Mismatch => Ending(t, r, RunFailed)
      case NoWorkspace => Idle])
  }

  function WriteStepStep(s: Sys, w: nat, idx: int, step: Step): Sys
    requires At(s.workers, w).Executing?
  {
    s.(store := PutStep(s.store, At(s.workers, w).run, idx, step).0)
  }

  function ProgressStep(s: Sys, w: nat, idx: int): Sys
    requires At(s.workers, w).Executing?
  {
    s.(store := UpdateLastStep(s.store, At(s.workers, w).task, At(s.workers, w).run, idx).0)
  }

  function StopStep(s: Sys, w: nat, status: RunStatus): Sys
    requires At(s.workers, w).Executing?
  {
    s.(workers := s.workers[w := Ending(At(s.workers, w).task, At(s.workers, w).run, status)])
  }

  function FinishRunStep(s: Sys, w: nat): Sys
    requires At(s.workers, w).Ending?
  {
    var Ending(t, r, status) := At(s.workers, w);
    s.(store := CompleteRun(s.store, t, r, status).0, workers := s.workers[w := Ended(t, r, status)])
  }

  function FinishTaskStep(s: Sys, w: nat): Sys
    requires At(s.workers, w).Ended?
  {
    var Ended(t, r, status) := At(s.workers, w);
    s.(store := UpdateTaskStatusForRun(s.store, t, r, {Running}, MapStatus(status)).0, workers := s.workers[w := Idle])
  }

  function MarkRunStep(s: Sys, t: string, r: string): Sys {
    s.(store := CompleteRun(s.store, t, r, RunFailed).0, marks := s.marks[(t, r) := MarkTask])
  }

  function MarkTaskStep(s: Sys, t: string, r: string): Sys {
    s.(store := UpdateTaskStatusForRun(s.store, t, r, {Queued, Running}, Failed).0, marks := s.marks - {(t, r)})
  }

  function ResetStep(s: Sys, t: string, r: string): Sys {
    s.(store := ResetRun(s.store, t, r).0, recovering := s.recovering + {(t, r)}, resets := Bump(s.resets, (t, r)))
  }

  function RequeueStep(s: Sys, t: string, r: string): Sys {
    s.(store := UpdateTaskStatusForRun(s.store, t, r, ANY_STATUS, Queued).0, recovering := s.recovering - {(t, r)})
  }

  ghost function Apply(s: Sys, e: Event): Sys
    requires Enabled(s, e)
  {
    match e
    case Create(t, r, tenant, key) => CreateStep(s, t, r, tenant, key)
    case Resume(t, fromRun, fromStep, r, enqueued) => ResumeStep(s, t, fromRun, fromStep, r, enqueued)
    case Abort(t) => s.(store := SetAbort(s.store, t, true).0)
    case Deliver(w, t, r) => DeliverStep(s, w, t, r)
    case TakeTask(w) => TakeStep(s, w)
    case DropStale(w) => DropStep(s, w)
    case Load(w, outcome) => LoadStep(s, w, outcome)
    case WriteStep(w, idx, step) => WriteStepStep(s, w, idx, step)
    case Progress(w, idx) => ProgressStep(s, w, idx)
    case Stop(w, status) => StopStep(s, w, status)
    case FinishRun(w) => FinishRunStep(s, w)
    case FinishTask(w) => FinishTaskStep(s, w)
    case MarkRunFailed(t, r) => MarkRunStep(s, t, r)
    case MarkTaskFailed(t, r) => MarkTaskStep(s, t, r)
    case ResetStale(t, r) => ResetStep(s, t, r)
    case RequeueTask(t, r) => RequeueStep(s, t, r)
  }

  ghost predicate Legal(s: Sys, events: seq<Event>)
    decreases |events|
  {
    events == [] || (Enabled(s, events[0]) && Legal(Apply(s, events[0]), events[1..]))
  }

  ghost function Final(s: Sys, events: seq<Event>): Sys
    requires Legal(s, events)
    decreases |events|
  {
    if events == [] then s else Final(Apply(s, events[0]), events[1..])
  }

  // ---------------------------------------------------------------- building runs

  lemma EmptyRun(s: Sys)
    ensures Legal(s, []) && Final(s, []) == s
  {
  }

  lemma {:induction false} Extend(s: Sys, events: seq<Event>, e: Event)
    requires Legal(s, events) && Enabled(Final(s, events), e)
    ensures Legal(s, events + [e]) && Final(s, events + [e]) == Apply(Final(s, events), e)
    decreases |events|
  {
    hide Enabled, Apply;
    if events == [] {
      assert (events + [e])[1..] == [];
    } else {
      Extend(Apply(s, events[0]), events[1..], e);
      assert (events + [e])[1..] == events[1..] + [e];
    }
  }

  lemma Begin(s: Sys, e: Event)
    requires Enabled(s, e)
    ensures Legal(s, [e]) && Final(s, [e]) == Apply(s, e)
  {
    Extend(s, [], e);
    assert [] + [e] == [e];
  }

  lemma {:induction false} Join(s: Sys, before: seq<Event>, after: seq<Event>)
    requires Legal(s, before) && Legal(Final(s, before), after)
    ensures Legal(s, before + after) && Final(s, before + after) == Final(Final(s, before), after)
    decreases |before|
  {
    hide Enabled, Apply;
    if before == [] {
      assert before + after == after;
    } else {
      Join(Apply(s, before[0]), before[1..], after);
      assert (before + after)[1..] == before[1..] + after;
    }
  }

  // ---------------------------------------------------------------- the protocol invariant

  ghost predicate StatusIs(st: State, k: RunKey, status: RunStatus) { k in st.runs && st.runs[k].status == status }

  ghost predicate Active(st: State, t: string, r: string) { t in st.tasks && st.tasks[t].activeRun == r }

  ghost predicate TaskIs(st: State, t: string, status: TaskStatus) { t in st.tasks && st.tasks[t].status == status }

  ghost predicate WorkerOk(st: State, pc: Pc) {
    match pc
    case Idle => true
    case Claimed(t, r) => StatusIs(st, (t, r), RunRunning) && t in st.tasks && (Active(st, t, r) ==> TaskIs(st, t, Queued))
    case Stale(t, r) => StatusIs(st, (t, r), RunRunning) && t in st.tasks && !Active(st, t, r)
    case Loaded(t, r) => StatusIs(st, (t, r), RunRunning) && Active(st, t, r) && TaskIs(st, t, Running)
    case Executing(t, r) => StatusIs(st, (t, r), RunRunning) && Active(st, t, r) && TaskIs(st, t, Running)
    case Ending(t, r, status) =>
      StatusIs(st, (t, r), RunRunning) && Active(st, t, r) && TaskIs(st, t, Running) && Terminal(status)
    case Ended(t, r, status) =>
      StatusIs(st, (t, r), status) && Active(st, t, r) && TaskIs(st, t, Running) && Terminal(status)
  }

  ghost predicate WorkersOk(st: State, workers: map<nat, Pc>) {
    forall w :: w in workers ==> WorkerOk(st, workers[w])
  }

  /** No two workers are busy with the same run. */
  ghost predicate OneHolder(workers: map<nat, Pc>) {
    forall v, w :: v in workers && w in workers && v != w && !workers[v].Idle? && !workers[w].Idle? ==>
      workers[v].Key() != workers[w].Key()
  }

  /** No worker is busy with a run that is still to be marked as failed. */
  ghost predicate Unheld(workers: map<nat, Pc>, marks: map<RunKey, Mark>) {
    forall w :: w in workers && !workers[w].Idle? ==> workers[w].Key() !in marks
  }

  ghost predicate MarksOk(st: State, marks: map<RunKey, Mark>) {
    forall k :: k in marks ==>
      && k.0 in st.tasks
      && StatusIs(st, k, if marks[k] == MarkRun then RunQueued else RunFailed)
      && (Active(st, k.0, k.1) ==> TaskIs(st, k.0, Queued))
  }

  /** Somebody has written one of the run's and the task's status and not yet the other. */
  ghost predicate InTransit(workers: map<nat, Pc>, marks: map<RunKey, Mark>, k: RunKey) {
    || (exists w :: w in workers && (workers[w].Claimed? || workers[w].Ended?) && workers[w].Key() == k)
    || (k in marks && marks[k] == MarkTask)
  }

  ghost predicate Agrees(st: State, t: string)
    requires t in st.tasks
  {
    (t, st.tasks[t].activeRun) in st.runs && st.tasks[t].status == MapStatus(st.runs[(t, st.tasks[t].activeRun)].status)
  }

  ghost predicate Agreement(st: State, workers: map<nat, Pc>, marks: map<RunKey, Mark>) {
    forall t :: t in st.tasks ==> Agrees(st, t) || InTransit(workers, marks, (t, st.tasks[t].activeRun))
  }

  ghost predicate RunsHaveTasks(st: State) { "" !in st.tasks && forall k :: k in st.runs ==> k.0 in st.tasks }

  ghost predicate ProtocolOk(s: Sys) {
    && RunsHaveTasks(s.store)
    && WorkersOk(s.store, s.workers)
    && OneHolder(s.workers)
    && Unheld(s.workers, s.marks)
    && MarksOk(s.store, s.marks)
    && Agreement(s.store, s.workers, s.marks)
  }
}
