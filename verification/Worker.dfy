/**
  handleMessage and finalizeRun of pkg/engine/worker.go as methods over the store object. Each
  uninterrupted call is shown to be a run of the transition system in module Lifecycle, and its
  effect on the store is stated case by case.
 */
module Worker {
  import opened Common
  import opened Store
  import opened Lifecycle
  import opened MemoryStoreObject

  /** A store write made by Execute on behalf of the run. */
  datatype Action = Put(idx: int, step: Step) | Advance(idx: int)

  /** From the old store to the new one, only run k and its task have changed, in nothing but status and last step. */
  ghost predicate OnlyTouches(a: State, b: State, k: RunKey) {
    && a.idempotency == b.idempotency
    && (forall j :: j in a.runs && j != k ==> j in b.runs && b.runs[j] == a.runs[j])
    && (forall t :: t in a.tasks && t != k.0 ==> t in b.tasks && b.tasks[t] == a.tasks[t])
    && (forall j :: j in a.steps ==> j in b.steps && b.steps[j] == a.steps[j])
    && (forall j :: j in b.steps && j.0 != k.1 ==> j in a.steps)
  }

  /** Run k and its task now have these statuses. */
  ghost predicate Left(st: State, k: RunKey, run: RunStatus, task: TaskStatus) {
    StatusIs(st, k, run) && Active(st, k.0, k.1) && TaskIs(st, k.0, task)
  }

  /** The task would accept this run: it is the active one and the task is waiting or running. */
  predicate Accepts(st: State, t: string, r: string) {
    t in st.tasks && st.tasks[t].activeRun == r && st.tasks[t].status in {Queued, Running}
  }

  lemma TouchesTransitive(a: State, b: State, c: State, k: RunKey)
    requires OnlyTouches(a, b, k) && OnlyTouches(b, c, k)
    ensures OnlyTouches(a, c, k)
  {
  }

  lemma RunWriteTouches(st: State, t: string, r: string, status: RunStatus)
    ensures OnlyTouches(st, ClaimRun(st, t, r).0, (t, r)) && OnlyTouches(st, CompleteRun(st, t, r, status).0, (t, r))
  {
  }

  lemma TaskWriteTouches(st: State, t: string, r: string, from: set<TaskStatus>, to: TaskStatus)
    ensures OnlyTouches(st, UpdateTaskStatusForRun(st, t, r, from, to).0, (t, r))
  {
  }

  /** How a delivered message ends when nobody else touches the store meanwhile. */
  datatype End = Duplicate | Superseded | WrongTenant | Stuck | Done(status: RunStatus)

  /** The store after claiming the run and then the task, or giving the run up when the task refuses. */
  function Taken(st: State, t: string, r: string): (State, Option<End>) {
    var (st1, err1) := ClaimRun(st, t, r);
    if err1 != Ok then (st, Some(Duplicate))
    else
      var (st2, err2) := UpdateTaskStatusForRun(st1, t, r, {Queued, Running}, Running);
      if err2 == Ok then (st2, None) else (CompleteRun(st2, t, r, RunAborted).0, Some(Superseded))
  }

  lemma TakenOutcome(st: State, t: string, r: string)
    ensures var (st', end) := Taken(st, t, r);
      && end == (if !StatusIs(st, (t, r), RunQueued) then Some(Duplicate)
                 else if !Accepts(st, t, r) then Some(Superseded) else None)
      && (end == Some(Duplicate) ==> st' == st)
      && (end == Some(Superseded) ==> st'.tasks == st.tasks && StatusIs(st', (t, r), RunAborted))
      && (end == None ==> Left(st', (t, r), RunRunning, Running) && st'.tasks[t].tenant == st.tasks[t].tenant)
      && st'.steps == st.steps
  {
  }

  lemma TouchesNothing(st: State, k: RunKey)
    ensures OnlyTouches(st, st, k)
  {
  }

  lemma TakenTouches(st: State, t: string, r: string)
    ensures OnlyTouches(st, Taken(st, t, r).0, (t, r))
  {
    hide OnlyTouches, ClaimRun, CompleteRun, UpdateTaskStatusForRun;
    var (st1, err1) := ClaimRun(st, t, r);
    var (st2, err2) := UpdateTaskStatusForRun(st1, t, r, {Queued, Running}, Running);
    RunWriteTouches(st, t, r, RunAborted);
    TaskWriteTouches(st1, t, r, {Queued, Running}, Running);
    RunWriteTouches(st2, t, r, RunAborted);
    TouchesNothing(st, (t, r));
    TouchesTransitive(st, st1, st2, (t, r));
    TouchesTransitive(st, st2, CompleteRun(st2, t, r, RunAborted).0, (t, r));
  }

  ghost function TakeEvents(st: State, w: nat, t: string, r: string): seq<Event> {
    match Taken(st, t, r).1
    case None => [Deliver(w, t, r), TakeTask(w)]
    case Some(end) =>
      if end.Duplicate? then [Deliver(w, t, r)] else [Deliver(w, t, r), TakeTask(w), DropStale(w)]
  }

  /** Taking a message is a run of the transition system. */
  lemma TakenIsRun(s: Sys, w: nat, t: string, r: string)
    requires At(s.workers, w).Idle?
    ensures var events := TakeEvents(s.store, w, t, r); var (st', end) := Taken(s.store, t, r);
      && Legal(s, events) && Final(s, events).store == st'
      && At(Final(s, events).workers, w) == (if end == None then Loaded(t, r) else Idle)
  {
    hide Legal, Final, ClaimRun, UpdateTaskStatusForRun, CompleteRun;
    var first := [Deliver(w, t, r)];
    Begin(s, first[0]);
    var s1 := DeliverStep(s, w, t, r);
    var (st1, err1) := ClaimRun(s.store, t, r);
    if err1 == Ok {
      Extend(s, first, TakeTask(w));
      var second := first + [TakeTask(w)];
      assert second == [Deliver(w, t, r), TakeTask(w)];
      var s2 := TakeStep(s1, w);
      if UpdateTaskStatusForRun(st1, t, r, {Queued, Running}, Running).1 != Ok {
        assert At(s2.workers, w) == Stale(t, r);
        Extend(s, second, DropStale(w));
        assert second + [DropStale(w)] == [Deliver(w, t, r), TakeTask(w), DropStale(w)];
      }
    } else {
      assert s1 == s;
    }
  }

  /** Claiming the run and the task: what a message does before Execute is set up. */
  method Take(store: MemoryStore, t: string, r: string) returns (end: Option<End>)
    modifies store
    ensures (store.Value(), end) == Taken(old(store.Value()), t, r)
  {
    var err := store.ClaimRun(t, r);
    if err != Ok {
      return Some(Duplicate);
    }
    var err' := store.UpdateTaskStatusForRun(t, r, [Queued, Running], Running);
    assert Statuses([Queued, Running]) == {Queued, Running};
    if err' == Ok {
      return None;
    }
    var _ := store.CompleteRun(t, r, RunAborted);
    return Some(Superseded);
  }

  // ---------------------------------------------------------------- Execute's writes

  function Write(st: State, t: string, r: string, a: Action): State {
    match a
    case Put(idx, step) => PutStep(st, r, idx, step).0
    case Advance(idx) => UpdateLastStep(st, t, r, idx).0
  }

  function Performed(st: State, t: string, r: string, actions: seq<Action>): State
    decreases |actions|
  {
    if actions == [] then st
    else Write(Performed(st, t, r, actions[..|actions| - 1]), t, r, actions[|actions| - 1])
  }

  ghost function PerformEvents(w: nat, actions: seq<Action>): seq<Event>
    decreases |actions|
  {
    if actions == [] then []
    else PerformEvents(w, actions[..|actions| - 1]) +
         [match actions[|actions| - 1] { case Put(idx, step) => WriteStep(w, idx, step) case Advance(idx) => Progress(w, idx) }]
  }

  lemma WriteTouches(st: State, t: string, r: string, a: Action)
    requires StatusIs(st, (t, r), RunRunning)
    ensures StatusIs(Write(st, t, r, a), (t, r), RunRunning) && Write(st, t, r, a).tasks == st.tasks
    ensures OnlyTouches(st, Write(st, t, r, a), (t, r))
  {
  }

  lemma {:induction false} PerformedTouches(st: State, t: string, r: string, actions: seq<Action>)
    requires StatusIs(st, (t, r), RunRunning)
    ensures StatusIs(Performed(st, t, r, actions), (t, r), RunRunning) && Performed(st, t, r, actions).tasks == st.tasks
    ensures OnlyTouches(st, Performed(st, t, r, actions), (t, r))
    decreases |actions|
  {
    if actions != [] {
      var most := actions[..|actions| - 1];
      PerformedTouches(st, t, r, most);
      hide OnlyTouches, Write;
      WriteTouches(Performed(st, t, r, most), t, r, actions[|actions| - 1]);
      TouchesTransitive(st, Performed(st, t, r, most), Performed(st, t, r, actions), (t, r));
    }
  }

  lemma {:induction false} PerformedIsRun(s: Sys, w: nat, t: string, r: string, actions: seq<Action>)
    requires At(s.workers, w) == Executing(t, r)
    ensures Legal(s, PerformEvents(w, actions))
    ensures Final(s, PerformEvents(w, actions)) == s.(store := Performed(s.store, t, r, actions))
    decreases |actions|
  {
    hide Legal, Final, PutStep, UpdateLastStep;
    if actions == [] {
      EmptyRun(s);
    } else {
      var most := actions[..|actions| - 1];
      PerformedIsRun(s, w, t, r, most);
      var e := match actions[|actions| - 1] { case Put(idx, step) => WriteStep(w, idx, step) case Advance(idx) => Progress(w, idx) };
      Extend(s, PerformEvents(w, most), e);
    }
  }

  method Perform(store: MemoryStore, t: string, r: string, actions: seq<Action>)
    modifies store
    ensures store.Value() == Performed(old(store.Value()), t, r, actions)
  {
    for i := 0 to |actions|
      invariant store.Value() == Performed(old(store.Value()), t, r, actions[..i])
    {
      assert actions[..i + 1][..i] == actions[..i];
      match actions[i] {
        case Put(idx, step) => var _ := store.PutStep(r, idx, step);
        case Advance(idx) => var _ := store.UpdateLastStepIndex(t, r, idx);
      }
    }
    assert actions[..|actions|] == actions;
  }

  // ---------------------------------------------------------------- finalizeRun

  function Finalized(st: State, t: string, r: string, status: RunStatus): State {
    UpdateTaskStatusForRun(CompleteRun(st, t, r, status).0, t, r, {Running}, MapStatus(status)).0
  }

  lemma FinalizedOutcome(st: State, t: string, r: string, status: RunStatus)
    requires Left(st, (t, r), RunRunning, Running)
    ensures Left(Finalized(st, t, r, status), (t, r), status, MapStatus(status))
    ensures Finalized(st, t, r, status).steps == st.steps
    ensures OnlyTouches(st, Finalized(st, t, r, status), (t, r))
  {
    var mid := CompleteRun(st, t, r, status).0;
    RunWriteTouches(st, t, r, status);
    TaskWriteTouches(mid, t, r, {Running}, MapStatus(status));
    hide OnlyTouches;
    TouchesTransitive(st, mid, Finalized(st, t, r, status), (t, r));
  }

  lemma FinalizedIsRun(s: Sys, w: nat, t: string, r: string, status: RunStatus)
    requires At(s.workers, w) == Ending(t, r, status)
    ensures var events := [FinishRun(w), FinishTask(w)];
      Legal(s, events) && Final(s, events).store == Finalized(s.store, t, r, status) && At(Final(s, events).workers, w).Idle?
  {
    hide Legal, Final, CompleteRun, UpdateTaskStatusForRun;
    var first := [FinishRun(w)];
    Begin(s, FinishRun(w));
    Extend(s, first, FinishTask(w));
    assert first + [FinishTask(w)] == [FinishRun(w), FinishTask(w)];
  }

  method FinalizeRun(store: MemoryStore, t: string, r: string, status: RunStatus) returns (err: Error)
    requires Terminal(status)
    modifies store
    ensures err == if (t, r) in old(store.runs) then Ok else NotFound
    ensures store.Value() == if err == Ok then Finalized(old(store.Value()), t, r, status) else old(store.Value())
  {
    err := store.CompleteRun(t, r, status);
    if err != Ok {
      return;
    }
    var taskStatus := match status { case RunFailed => Failed case RunAborted => Aborted case _ => Succeeded };
    var err' := store.UpdateTaskStatusForRun(t, r, [Running], taskStatus);
    assert Statuses([Running]) == {Running};
    err := if err' == Conflict || err' == NotFound then Ok else err';
  }

  // ---------------------------------------------------------------- after the task is loaded

  function ServeEnd(task: Task, tenant: string, workspaceOk: bool, result: Option<RunStatus>): End {
    if task.tenant != tenant then WrongTenant
    else if !workspaceOk then Stuck
    else Done(if result.Some? then result.value else RunFailed)
  }

  function Served(st: State, t: string, r: string, actions: seq<Action>, end: End): State {
    match end
    case WrongTenant => Finalized(st, t, r, RunFailed)
    case Done(status) => Finalized(Performed(st, t, r, actions), t, r, status)
    case _ => st
  }

  lemma ServedOutcome(st: State, t: string, r: string, actions: seq<Action>, end: End)
    requires Left(st, (t, r), RunRunning, Running) && !end.Duplicate? && !end.Superseded?
    ensures var st' := Served(st, t, r, actions, end);
      && (end.WrongTenant? ==> Left(st', (t, r), RunFailed, Failed))
      && (end.Stuck? ==> Left(st', (t, r), RunRunning, Running))
      && (end.Done? ==> Left(st', (t, r), end.status, MapStatus(end.status)))
      && (!end.Done? ==> st'.steps == st.steps)
      && OnlyTouches(st, st', (t, r))
  {
    assert OnlyTouches(st, st, (t, r));
    PerformedTouches(st, t, r, actions);
    var mid := Performed(st, t, r, actions);
    assert Left(mid, (t, r), RunRunning, Running);
    hide OnlyTouches, Left, Performed, Finalized;
    match end
    case WrongTenant => FinalizedOutcome(st, t, r, RunFailed);
    case Done(status) =>
      FinalizedOutcome(mid, t, r, status);
      TouchesTransitive(st, mid, Finalized(mid, t, r, status), (t, r));
    case Stuck =>
  }

  ghost function ServeEvents(w: nat, actions: seq<Action>, end: End): seq<Event> {
    match end
    case WrongTenant => [Load(w, Mismatch)] + [FinishRun(w), FinishTask(w)]
    case Done(status) => [Load(w, Go)] + PerformEvents(w, actions) + [Stop(w, status)] + [FinishRun(w), FinishTask(w)]
    case _ => [Load(w, NoWorkspace)]
  }

  lemma ServedIsRun(s: Sys, w: nat, t: string, r: string, actions: seq<Action>, end: End)
    requires At(s.workers, w) == Loaded(t, r) && (end.Done? ==> Terminal(end.status))
    requires !end.Duplicate? && !end.Superseded?
    ensures var events := ServeEvents(w, actions, end);
      && Legal(s, events) && Final(s, events).store == Served(s.store, t, r, actions, end)
      && At(Final(s, events).workers, w).Idle?
  {
    hide Legal, Final, Finalized, Performed, PerformEvents;
    match end
    case Stuck => Begin(s, Load(w, NoWorkspace));
    case WrongTenant =>
      Begin(s, Load(w, Mismatch));
      var s1 := LoadStep(s, w, Mismatch);
      FinalizedIsRun(s1, w, t, r, RunFailed);
      Join(s, [Load(w, Mismatch)], [FinishRun(w), FinishTask(w)]);
    case Done(status) =>
      Begin(s, Load(w, Go));
      var s1 := LoadStep(s, w, Go);
      PerformedIsRun(s1, w, t, r, actions);
      Join(s, [Load(w, Go)], PerformEvents(w, actions));
      var s2 := s1.(store := Performed(s.store, t, r, actions));
      Extend(s, [Load(w, Go)] + PerformEvents(w, actions), Stop(w, status));
      var s3 := StopStep(s2, w, status);
      FinalizedIsRun(s3, w, t, r, status);
      Join(s, [Load(w, Go)] + PerformEvents(w, actions) + [Stop(w, status)], [FinishRun(w), FinishTask(w)]);
  }

  // ---------------------------------------------------------------- handleMessage

  /** How a message ends, decided by the store it finds. */
  function EndOf(st: State, t: string, r: string, tenant: string, workspaceOk: bool, result: Option<RunStatus>): End {
    if (t, r) !in st.runs || st.runs[(t, r)].status != RunQueued then Duplicate
    else if !Accepts(st, t, r) then Superseded
    else ServeEnd(st.tasks[t], tenant, workspaceOk, result)
  }

  function Handled(st: State, t: string, r: string, actions: seq<Action>, end: End): State {
    var (st1, early) := Taken(st, t, r);
    if early.Some? then st1 else Served(st1, t, r, actions, end)
  }

  /** The store after a message is handled without interruption. */
  function AfterMessage(
      st: State, t: string, r: string, tenant: string, workspaceOk: bool, actions: seq<Action>, result: Option<RunStatus>): State {
    Handled(st, t, r, actions, EndOf(st, t, r, tenant, workspaceOk, result))
  }

  /** The run is queued and its task waits for it: a delivery takes it. */
  predicate Awaited(st: State, t: string, r: string) {
    && (t, r) in st.runs && st.runs[(t, r)].status == RunQueued
    && t in st.tasks && st.tasks[t].activeRun == r && (st.tasks[t].status == Queued || st.tasks[t].status == Running)
  }

  /**
    What handling a message leaves, from what it found: a run that is not queued is left alone; a queued
    run whose task is not waiting for it is aborted and the task left alone; the wrong tenant fails run
    and task; without a workspace both stay RUNNING; an error from Execute fails both; otherwise both end
    with Execute's status. Nothing else in the store changes, but for steps Execute writes.
   */
  ghost predicate HandledAs(
      st: State, st': State, t: string, r: string, tenant: string, workspaceOk: bool, result: Option<RunStatus>) {
    var k := (t, r);
    var mine := Awaited(st, t, r) && st.tasks[t].tenant == tenant;
    && (!StatusIs(st, k, RunQueued) ==> st' == st)
    && (StatusIs(st, k, RunQueued) && !Awaited(st, t, r) ==>
         st'.tasks == st.tasks && StatusIs(st', k, RunAborted) && st'.steps == st.steps)
    && (Awaited(st, t, r) && !mine ==> Left(st', k, RunFailed, Failed) && st'.steps == st.steps)
    && (mine && !workspaceOk ==> Left(st', k, RunRunning, Running) && st'.steps == st.steps)
    && (mine && workspaceOk && result == None ==> Left(st', k, RunFailed, Failed))
    && (mine && workspaceOk && result == Some(RunSucceeded) ==> Left(st', k, RunSucceeded, Succeeded))
    && (mine && workspaceOk && result == Some(RunFailed) ==> Left(st', k, RunFailed, Failed))
    && (mine && workspaceOk && result == Some(RunAborted) ==> Left(st', k, RunAborted, Aborted))
    && OnlyTouches(st, st', k)
  }

  lemma EndIs(st: State, t: string, r: string, tenant: string, workspaceOk: bool, result: Option<RunStatus>)
    ensures var end := EndOf(st, t, r, tenant, workspaceOk, result);
      && (end == Duplicate <==> !StatusIs(st, (t, r), RunQueued))
      && (end == Superseded <==> StatusIs(st, (t, r), RunQueued) && !Awaited(st, t, r))
      && (end == WrongTenant <==> Awaited(st, t, r) && st.tasks[t].tenant != tenant)
      && (end == Stuck <==> Awaited(st, t, r) && st.tasks[t].tenant == tenant && !workspaceOk)
      && (Awaited(st, t, r) && st.tasks[t].tenant == tenant && workspaceOk ==>
           end == match result { case None => Done(RunFailed) case Some(status) => Done(status) })
  {
  }

  lemma HandledOutcome(
      st: State, t: string, r: string, tenant: string, workspaceOk: bool, actions: seq<Action>,
      result: Option<RunStatus>)
    ensures HandledAs(st, AfterMessage(st, t, r, tenant, workspaceOk, actions, result), t, r, tenant, workspaceOk, result)
  {
    hide OnlyTouches, Left, Taken, Served, EndOf, Awaited, Accepts;
    EndIs(st, t, r, tenant, workspaceOk, result);
    AwaitedAccepts(st, t, r);
    TakenOutcome(st, t, r);
    TakenTouches(st, t, r);
    var end := EndOf(st, t, r, tenant, workspaceOk, result);
    var (st1, early) := Taken(st, t, r);
    if early.None? {
      ServedOutcome(st1, t, r, actions, end);
      TouchesTransitive(st, st1, Served(st1, t, r, actions, end), (t, r));
    }
  }

  lemma AwaitedAccepts(st: State, t: string, r: string)
    ensures Awaited(st, t, r) <==> StatusIs(st, (t, r), RunQueued) && Accepts(st, t, r)
  {
  }

  /** Handling a message without interruption is a run of the transition system, after which the worker is idle. */
  lemma HandledIsRun(
      s: Sys, w: nat, t: string, r: string, tenant: string, workspaceOk: bool, actions: seq<Action>,
      result: Option<RunStatus>)
    returns (events: seq<Event>)
    requires At(s.workers, w).Idle? && (result.Some? ==> Terminal(result.value))
    ensures Legal(s, events) && At(Final(s, events).workers, w).Idle?
    ensures Final(s, events).store == AfterMessage(s.store, t, r, tenant, workspaceOk, actions, result)
  {
    hide Legal, Final, Served, Taken, TakeEvents, ServeEvents;
    TakenOutcome(s.store, t, r);
    TakenIsRun(s, w, t, r);
    events := TakeEvents(s.store, w, t, r);
    if Taken(s.store, t, r).1.None? {
      var end := EndOf(s.store, t, r, tenant, workspaceOk, result);
      ServedIsRun(Final(s, events), w, t, r, actions, end);
      Join(s, events, ServeEvents(w, actions, end));
      events := events + ServeEvents(w, actions, end);
    }
  }

  lemma OnlyRunning()
    ensures Statuses([Running]) == {Running}
  {
  }

  /** The message is acknowledged unless no workspace could be made for a run that was taken. */
  method HandleMessage(store: MemoryStore, t: string, r: string, tenant: string, workspaceOk: bool,
                       actions: seq<Action>, result: Option<RunStatus>)
    returns (acked: bool, end: End)
    requires result.Some? ==> Terminal(result.value)
    modifies store
    ensures store.Value() == AfterMessage(old(store.Value()), t, r, tenant, workspaceOk, actions, result)
    ensures HandledAs(old(store.Value()), store.Value(), t, r, tenant, workspaceOk, result)
    ensures acked <==> !(Awaited(old(store.Value()), t, r) && old(store.tasks)[t].tenant == tenant && !workspaceOk)
  {
    HandledOutcome(store.Value(), t, r, tenant, workspaceOk, actions, result);
    EndIs(store.Value(), t, r, tenant, workspaceOk, result);
    hide HandledAs, Awaited;
    hide Taken, Performed, Statuses, UpdateTaskStatusForRun;
    ghost var st := store.Value();
    TakenOutcome(st, t, r);
    var early := Take(store, t, r);
    if early.Some? {
      return true, early.value;
    }
    var task := store.GetTask(t);
    assert task.Some?;
    end := ServeEnd(task.value, tenant, workspaceOk, result);
    if end.WrongTenant? {
      var _ := store.CompleteRun(t, r, RunFailed);
      var _ := store.UpdateTaskStatusForRun(t, r, [Running], Failed);
      OnlyRunning();
      return true, end;
    }
    var run := store.GetRun(t, r);
    assert run.Some?;
    if end.Stuck? {
      return false, end;
    }
    PerformedTouches(store.Value(), t, r, actions);
    Perform(store, t, r, actions);
    var err := FinalizeRun(store, t, r, end.status);
    acked := err == Ok;
  }
}
