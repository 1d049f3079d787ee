/**
  The tasks, runs and steps of pkg/state/memory_store.go as a value, with the store's
  operations as functions. Composite string keys are pairs.
 */
module Store {
  import opened Common

  datatype TaskStatus = Queued | Running | Succeeded | Failed | Aborted

  datatype RunStatus = RunQueued | RunRunning | RunSucceeded | RunFailed | RunAborted

  /** Where an artifact lies: tenant, task, run and step of the checkpoint it belongs to. */
  datatype ArtifactKey =
    | MemoryKey(tenant: string, task: string, run: string, step: int)
    | WorkspaceKey(tenant: string, task: string, run: string, step: int)

  datatype ArtifactRef = ArtifactRef(key: ArtifactKey, sha: string, size: int)

  datatype Checkpoint = Checkpoint(memory: Option<ArtifactRef>, workspace: Option<ArtifactRef>)

  datatype StepKind = LlmStep | ToolStep | FinalStep

  datatype Step = Step(kind: StepKind, ok: bool, errorCode: string, checkpoint: Option<Checkpoint>)

  /** The run and step a resumed run starts from. */
  datatype Origin = Origin(run: string, step: int)

  datatype Task = Task(
    tenant: string,
    status: TaskStatus,
    activeRun: string,
    abortRequested: bool,
    idempotencyKey: string)

  datatype Run = Run(
    tenant: string,
    status: RunStatus,
    parent: Option<Origin>,
    lastStep: int)

  type RunKey = (string, string)   // task id, run id
  type StepKey = (string, int)     // run id, step index

  datatype State = State(
    tasks: map<string, Task>,
    runs: map<RunKey, Run>,
    steps: map<StepKey, Step>,
    idempotency: map<(string, string), string>)

  const NOTHING := State(map[], map[], map[], map[])

  function MapStatus(r: RunStatus): TaskStatus {
    match r
    case RunQueued => Queued
    case RunRunning => Running
    case RunSucceeded => Succeeded
    case RunFailed => Failed
    case RunAborted => Aborted
  }

  predicate Terminal(r: RunStatus) { r.RunSucceeded? || r.RunFailed? || r.RunAborted? }

  const ANY_STATUS: set<TaskStatus> := {Queued, Running, Succeeded, Failed, Aborted}

  lemma AnyStatus(s: TaskStatus)
    ensures s in ANY_STATUS
  {
    match s
    case Queued => case Running => case Succeeded => case Failed => case Aborted =>
  }

  // ---------------------------------------------------------------- operations

  /** ApplyCreateTransition */
  function CreateTransition(st: State, t: string, task: Task, r: string, run: Run): (State, Error) {
    if t == "" || r == "" then (st, Conflict)
    else if t in st.tasks || (t, r) in st.runs then (st, AlreadyExists)
    else
      var ik := (task.tenant, task.idempotencyKey);
      if task.idempotencyKey != "" && ik in st.idempotency then (st, AlreadyExists)
      else
        (st.(tasks := st.tasks[t := task],
             runs := st.runs[(t, r) := run],
             idempotency := if task.idempotencyKey == "" then st.idempotency else st.idempotency[ik := t]), Ok)
  }

  /** ApplyResumeTransition */
  function ResumeTransition(st: State, t: string, r: string, run: Run, from: set<TaskStatus>, to: TaskStatus): (State, Error) {
    if t == "" || r == "" then (st, Conflict)
    else if t !in st.tasks then (st, NotFound)
    else if (t, r) in st.runs then (st, AlreadyExists)
    else if st.tasks[t].status !in from then (st, Conflict)
    else
      (st.(runs := st.runs[(t, r) := run],
           tasks := st.tasks[t := st.tasks[t].(activeRun := r, abortRequested := false, status := to)]), Ok)
  }

  function UpdateTaskStatus(st: State, t: string, from: set<TaskStatus>, to: TaskStatus): (State, Error) {
    if t !in st.tasks then (st, NotFound)
    else if st.tasks[t].status !in from then (st, Conflict)
    else (st.(tasks := st.tasks[t := st.tasks[t].(status := to)]), Ok)
  }

  function UpdateTaskStatusForRun(st: State, t: string, r: string, from: set<TaskStatus>, to: TaskStatus): (State, Error) {
    if t !in st.tasks then (st, NotFound)
    else if st.tasks[t].activeRun != r then (st, Conflict)
    else UpdateTaskStatus(st, t, from, to)
  }

  function SetAbort(st: State, t: string, requested: bool): (State, Error) {
    if t !in st.tasks then (st, NotFound)
    else (st.(tasks := st.tasks[t := st.tasks[t].(abortRequested := requested)]), Ok)
  }

  function ClaimRun(st: State, t: string, r: string): (State, Error) {
    if (t, r) !in st.runs then (st, NotFound)
    else if st.runs[(t, r)].status != RunQueued then (st, Conflict)
    else (st.(runs := st.runs[(t, r) := st.runs[(t, r)].(status := RunRunning)]), Ok)
  }

  /** CompleteRun does not look at the status it replaces. */
  function CompleteRun(st: State, t: string, r: string, status: RunStatus): (State, Error) {
    if (t, r) !in st.runs then (st, NotFound)
    else (st.(runs := st.runs[(t, r) := st.runs[(t, r)].(status := status)]), Ok)
  }

  /** Neither does ResetRunToQueued. */
  function ResetRun(st: State, t: string, r: string): (State, Error) {
    CompleteRun(st, t, r, RunQueued)
  }

  function UpdateLastStep(st: State, t: string, r: string, idx: int): (State, Error) {
    if (t, r) !in st.runs then (st, NotFound)
    else (st.(runs := st.runs[(t, r) := st.runs[(t, r)].(lastStep := idx)]), Ok)
  }

  /** PutStep: the first write of a step wins. */
  function PutStep(st: State, r: string, idx: int, step: Step): (State, Error) {
    if (r, idx) in st.steps then (st, Conflict)
    else (st.(steps := st.steps[(r, idx) := step]), Ok)
  }

  predicate HasCheckpoint(st: State, r: string, idx: int) {
    (r, idx) in st.steps && st.steps[(r, idx)].checkpoint.Some?
  }
}
