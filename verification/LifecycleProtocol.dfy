/**
  Safety of the lifecycle for every interleaving of service calls, duplicate deliveries and
  workers: mutual exclusion and status agreement, and what recovery does to them.
 */
module LifecycleProtocol {
  import opened Common
  import opened Store
  import opened Lifecycle

  // ---------------------------------------------------------------- what a step may change

  /** The two stores have the same tasks and runs as far as the protocol looks at them. */
  ghost predicate SameStatuses(a: State, b: State) {
    && a.tasks.Keys == b.tasks.Keys && a.runs.Keys == b.runs.Keys
    && (forall t :: t in a.tasks ==> a.tasks[t].status == b.tasks[t].status && a.tasks[t].activeRun == b.tasks[t].activeRun)
    && (forall k :: k in a.runs ==> a.runs[k].status == b.runs[k].status)
  }

  lemma ProtocolFrame(s: Sys, st: State)
    requires ProtocolOk(s) && SameStatuses(s.store, st)
    ensures ProtocolOk(s.(store := st))
  {
    forall w | w in s.workers ensures WorkerOk(st, s.workers[w]) { assert WorkerOk(s.store, s.workers[w]); }
    forall t | t in st.tasks ensures Agrees(st, t) || InTransit(s.workers, s.marks, (t, st.tasks[t].activeRun)) {
      assert Agrees(s.store, t) || InTransit(s.workers, s.marks, (t, s.store.tasks[t].activeRun));
    }
  }

  /** One worker moves on without changing the run it is busy with. */
  lemma HolderMoves(workers: map<nat, Pc>, w: nat, pc: Pc, marks: map<RunKey, Mark>)
    requires OneHolder(workers) && Unheld(workers, marks) && w in workers && !workers[w].Idle?
    requires pc.Idle? || pc.Key() == workers[w].Key()
    ensures OneHolder(workers[w := pc]) && Unheld(workers[w := pc], marks)
  {
  }

  lemma TransitStays(workers: map<nat, Pc>, marks: map<RunKey, Mark>, w: nat, pc: Pc, k: RunKey)
    requires InTransit(workers, marks, k) && (w in workers && !workers[w].Idle? ==> workers[w].Key() != k)
    ensures InTransit(workers[w := pc], marks, k)
  {
    if v :| v in workers && (workers[v].Claimed? || workers[v].Ended?) && workers[v].Key() == k {
      assert v in workers[w := pc] && workers[w := pc][v] == workers[v];
    }
  }

  /** `b` is `a` with the status of at most one run changed. */
  ghost predicate RunWritten(a: State, b: State, k: RunKey) {
    && a.tasks == b.tasks && a.runs.Keys == b.runs.Keys
    && (forall j :: j in a.runs && j != k ==> b.runs[j].status == a.runs[j].status)
  }

  lemma RunWriteFrame(a: State, b: State, k: RunKey, pc: Pc)
    requires RunWritten(a, b, k) && WorkerOk(a, pc) && (pc.Idle? || pc.Key() != k)
    ensures WorkerOk(b, pc)
  {
  }

  /** `b` is `a` with the status of at most one task changed. */
  ghost predicate TaskWritten(a: State, b: State, t: string) {
    && a.runs == b.runs && a.tasks.Keys == b.tasks.Keys
    && (forall u :: u in a.tasks ==> b.tasks[u].activeRun == a.tasks[u].activeRun)
    && (forall u :: u in a.tasks && u != t ==> b.tasks[u].status == a.tasks[u].status)
  }

  /** A task's status only matters to workers busy with the task's active run. */
  lemma TaskWriteFrame(a: State, b: State, t: string, pc: Pc)
    requires TaskWritten(a, b, t) && WorkerOk(a, pc)
    requires pc.Idle? || pc.task != t || !Active(a, t, pc.run)
    ensures WorkerOk(b, pc)
  {
  }

  /** No worker is busy with the run. */
  ghost predicate NotHeld(workers: map<nat, Pc>, k: RunKey) {
    forall w :: w in workers && !workers[w].Idle? ==> workers[w].Key() != k
  }

  lemma RunWriteWorkers(a: State, b: State, k: RunKey, workers: map<nat, Pc>)
    requires RunWritten(a, b, k) && WorkersOk(a, workers) && NotHeld(workers, k)
    ensures WorkersOk(b, workers)
  {
    hide WorkerOk, RunWritten;
    forall w | w in workers ensures WorkerOk(b, workers[w]) {
      RunWriteFrame(a, b, k, workers[w]);
    }
  }

  lemma TaskWriteWorkers(a: State, b: State, t: string, r: string, workers: map<nat, Pc>)
    requires TaskWritten(a, b, t) && WorkersOk(a, workers) && NotHeld(workers, (t, r)) && Active(a, t, r)
    ensures WorkersOk(b, workers)
  {
    hide WorkerOk, TaskWritten;
    forall w | w in workers ensures WorkerOk(b, workers[w]) {
      TaskWriteFrame(a, b, t, workers[w]);
    }
  }

  lemma MarkedNotHeld(workers: map<nat, Pc>, marks: map<RunKey, Mark>, k: RunKey)
    requires Unheld(workers, marks) && k in marks
    ensures NotHeld(workers, k)
  {
  }

  lemma FewerMarks(workers: map<nat, Pc>, marks: map<RunKey, Mark>, k: RunKey)
    requires Unheld(workers, marks)
    ensures Unheld(workers, marks - {k}) && (k in marks ==> Unheld(workers, marks[k := MarkTask]))
  {
  }

  lemma CompleteIsWrite(st: State, t: string, r: string, status: RunStatus)
    ensures RunWritten(st, CompleteRun(st, t, r, status).0, (t, r))
    ensures (t, r) in st.runs ==> StatusIs(CompleteRun(st, t, r, status).0, (t, r), status)
  {
  }

  lemma TaskUpdateIsWrite(st: State, t: string, r: string, from: set<TaskStatus>, to: TaskStatus)
    ensures var st' := UpdateTaskStatusForRun(st, t, r, from, to).0;
      && TaskWritten(st, st', t) && (!Active(st, t, r) ==> st' == st)
      && (Active(st, t, r) && st.tasks[t].status in from ==> TaskIs(st', t, to))
  {
  }

  lemma WrittenKeepsTasks(a: State, b: State, k: RunKey)
    requires RunsHaveTasks(a) && (RunWritten(a, b, k) || TaskWritten(a, b, k.0))
    ensures RunsHaveTasks(b)
  {
  }

  /** A worker step that writes one run, keeps the task, and ends in a legal place. */
  lemma RunStepKeeps(s: Sys, s': Sys, w: nat, k: RunKey, pc: Pc)
    requires ProtocolOk(s) && RunWritten(s.store, s'.store, k)
    requires w in s.workers && !s.workers[w].Idle? && s.workers[w].Key() == k
    requires s'.workers == s.workers[w := pc] && (pc.Idle? || pc.Key() == k) && WorkerOk(s'.store, pc)
    requires s'.marks == s.marks
    requires Active(s.store, k.0, k.1) ==> InTransit(s'.workers, s'.marks, k)
    ensures ProtocolOk(s')
  {
    HolderMoves(s.workers, w, pc, s.marks);
    forall v | v in s'.workers ensures WorkerOk(s'.store, s'.workers[v]) {
      if v != w { RunWriteFrame(s.store, s'.store, k, s.workers[v]); }
    }
    forall t | t in s'.store.tasks ensures Agrees(s'.store, t) || InTransit(s'.workers, s'.marks, (t, s'.store.tasks[t].activeRun)) {
      var j := (t, s.store.tasks[t].activeRun);
      if j != k {
        assert Agrees(s.store, t) || InTransit(s.workers, s.marks, j);
        if InTransit(s.workers, s.marks, j) { TransitStays(s.workers, s.marks, w, pc, j); }
      }
    }
  }

  /** A worker step that writes the task its run is active in, and ends in a legal place. */
  lemma TaskStepKeeps(s: Sys, s': Sys, w: nat, k: RunKey, pc: Pc)
    requires ProtocolOk(s) && TaskWritten(s.store, s'.store, k.0)
    requires w in s.workers && !s.workers[w].Idle? && s.workers[w].Key() == k && Active(s.store, k.0, k.1)
    requires s'.workers == s.workers[w := pc] && (pc.Idle? || pc.Key() == k) && WorkerOk(s'.store, pc)
    requires s'.marks == s.marks
    requires Agrees(s'.store, k.0)
    ensures ProtocolOk(s')
  {
    HolderMoves(s.workers, w, pc, s.marks);
    forall v | v in s'.workers ensures WorkerOk(s'.store, s'.workers[v]) {
      if v != w { TaskWriteFrame(s.store, s'.store, k.0, s.workers[v]); }
    }
    forall t | t in s'.store.tasks ensures Agrees(s'.store, t) || InTransit(s'.workers, s'.marks, (t, s'.store.tasks[t].activeRun)) {
      if t != k.0 {
        var j := (t, s.store.tasks[t].activeRun);
        assert Agrees(s.store, t) || InTransit(s.workers, s.marks, j);
        if InTransit(s.workers, s.marks, j) { TransitStays(s.workers, s.marks, w, pc, j); }
      }
    }
  }

  // ---------------------------------------------------------------- the steps

  /** `b` is `a` with a new queued run that becomes the active run of a queued task. */
  ghost predicate RunAdded(a: State, b: State, k: RunKey) {
    && k.0 != "" && k !in a.runs && (forall j :: j in a.runs ==> j.1 != k.1)
    && k in b.runs && b.runs.Keys == a.runs.Keys + {k} && b.runs[k].status == RunQueued
    && (forall j :: j in a.runs ==> b.runs[j].status == a.runs[j].status)
    && b.tasks.Keys == a.tasks.Keys + {k.0}
    && (forall u :: u in a.tasks && u != k.0 ==> b.tasks[u].status == a.tasks[u].status && b.tasks[u].activeRun == a.tasks[u].activeRun)
    && Active(b, k.0, k.1) && TaskIs(b, k.0, Queued)
    && (k.0 in a.tasks ==> a.tasks[k.0].status != Running)
  }

  lemma AddFrame(a: State, b: State, k: RunKey, pc: Pc)
    requires RunAdded(a, b, k) && WorkerOk(a, pc)
    ensures WorkerOk(b, pc) && (pc.Idle? || pc.Key() != k)
  {
  }

  lemma AddKeepsMarks(a: State, b: State, k: RunKey, marks: map<RunKey, Mark>)
    requires RunAdded(a, b, k) && MarksOk(a, marks)
    ensures MarksOk(b, marks) && MarksOk(b, marks[k := MarkRun])
  {
    var more := marks[k := MarkRun];
    forall j | j in more
      ensures j.0 in b.tasks && StatusIs(b, j, if more[j] == MarkRun then RunQueued else RunFailed)
      ensures Active(b, j.0, j.1) ==> TaskIs(b, j.0, Queued)
    {
      if j != k { assert j in marks && more[j] == marks[j]; }
    }
  }

  lemma AddKeepsAgreement(
      a: State, b: State, k: RunKey, workers: map<nat, Pc>, marks: map<RunKey, Mark>, marks': map<RunKey, Mark>)
    requires RunAdded(a, b, k) && Agreement(a, workers, marks) && RunsHaveTasks(a)
    requires marks' == marks || marks' == marks[k := MarkRun]
    ensures Agreement(b, workers, marks')
  {
    forall u | u in b.tasks ensures Agrees(b, u) || InTransit(workers, marks', (u, b.tasks[u].activeRun)) {
      if u != k.0 {
        var j := (u, a.tasks[u].activeRun);
        assert j != k;
        assert Agrees(a, u) || InTransit(workers, marks, j);
      }
    }
  }

  lemma AddKeeps(s: Sys, s': Sys, k: RunKey)
    requires ProtocolOk(s) && RunAdded(s.store, s'.store, k) && s'.workers == s.workers
    requires s'.marks == s.marks || s'.marks == s.marks[k := MarkRun]
    ensures ProtocolOk(s')
  {
    hide RunAdded, WorkerOk, MarksOk, Agreement;
    AddKeepsMarks(s.store, s'.store, k, s.marks);
    AddKeepsAgreement(s.store, s'.store, k, s.workers, s.marks, s'.marks);
    forall w | w in s.workers ensures WorkerOk(s'.store, s.workers[w]) && (s.workers[w].Idle? || s.workers[w].Key() != k) {
      AddFrame(s.store, s'.store, k, s.workers[w]);
    }
    AddKeepsTasks(s.store, s'.store, k);
  }

  lemma AddKeepsTasks(a: State, b: State, k: RunKey)
    requires RunAdded(a, b, k) && RunsHaveTasks(a)
    ensures RunsHaveTasks(b)
  {
  }

  lemma CreateKeeps(s: Sys, t: string, r: string, tenant: string, key: string)
    requires ProtocolOk(s) && FreshRun(s.store, r)
    ensures ProtocolOk(CreateStep(s, t, r, tenant, key))
  {
    hide ProtocolOk;
    var s' := CreateStep(s, t, r, tenant, key);
    if s' != s { AddKeeps(s, s', (t, r)); }
  }

  lemma ResumeAdds(st: State, t: string, r: string, run: Run)
    requires t in st.tasks && FreshRun(st, r) && run.status == RunQueued
    ensures var (st', err) := ResumeTransition(st, t, r, run, RESUMABLE, Queued); err == Ok ==> RunAdded(st, st', (t, r))
  {
  }

  lemma ResumeKeeps(s: Sys, t: string, fromRun: string, fromStep: int, r: string, enqueued: bool)
    requires ProtocolOk(s) && t in s.store.tasks && FreshRun(s.store, r)
    ensures ProtocolOk(ResumeStep(s, t, fromRun, fromStep, r, enqueued))
  {
    hide ProtocolOk, ResumeTransition, RunAdded, FreshRun;
    var run := Run(s.store.tasks[t].tenant, RunQueued, Some(Origin(fromRun, fromStep)), 0);
    ResumeAdds(s.store, t, r, run);
    if ResumeTransition(s.store, t, r, run, RESUMABLE, Queued).1 == Ok {
      AddKeeps(s, ResumeStep(s, t, fromRun, fromStep, r, enqueued), (t, r));
    }
  }

  /** The run's enqueue failed and it has not been marked yet. */
  predicate Unmarked(marks: map<RunKey, Mark>, k: RunKey) { k in marks && marks[k] == MarkRun }

  lemma QueuedNotMarked(st: State, marks: map<RunKey, Mark>, k: RunKey)
    requires MarksOk(st, marks) && StatusIs(st, k, RunQueued) && !Unmarked(marks, k)
    ensures k !in marks
  {
  }

  /** A queued run is held by nobody. */
  lemma QueuedNotHeld(st: State, workers: map<nat, Pc>, k: RunKey)
    requires WorkersOk(st, workers) && StatusIs(st, k, RunQueued)
    ensures NotHeld(workers, k)
  {
    forall v | v in workers && !workers[v].Idle? ensures workers[v].Key() != k {
      assert WorkerOk(st, workers[v]);
    }
  }

  lemma ClaimWorkers(a: State, b: State, workers: map<nat, Pc>, w: nat, k: RunKey, marks: map<RunKey, Mark>)
    requires WorkersOk(a, workers) && OneHolder(workers) && Unheld(workers, marks) && NotHeld(workers, k) && k !in marks
    requires RunWritten(a, b, k) && WorkerOk(b, Claimed(k.0, k.1))
    ensures var workers' := workers[w := Claimed(k.0, k.1)];
      WorkersOk(b, workers') && OneHolder(workers') && Unheld(workers', marks)
  {
    RunWriteWorkers(a, b, k, workers);
    hide WorkerOk, RunWritten;
  }

  lemma UnmarkedWrite(a: State, b: State, k: RunKey, marks: map<RunKey, Mark>)
    requires MarksOk(a, marks) && RunWritten(a, b, k) && k !in marks
    ensures MarksOk(b, marks)
  {
  }

  lemma DeliverKeeps(s: Sys, w: nat, t: string, r: string)
    requires ProtocolOk(s) && At(s.workers, w).Idle? && !Unmarked(s.marks, (t, r))
    ensures ProtocolOk(DeliverStep(s, w, t, r))
  {
    hide ClaimRun, WorkersOk, OneHolder, Unheld, MarksOk, Agreement, RunsHaveTasks, RunWritten, NotHeld;
    ClaimIsWrite(s.store, t, r);
    var s', k := DeliverStep(s, w, t, r), (t, r);
    if ClaimRun(s.store, t, r).1 == Ok {
      QueuedNotMarked(s.store, s.marks, k);
      QueuedNotHeld(s.store, s.workers, k);
      ClaimedOk(s, s'.store, t, r);
      ClaimWorkers(s.store, s'.store, s.workers, w, k, s.marks);
      UnmarkedWrite(s.store, s'.store, k, s.marks);
      WrittenKeepsTasks(s.store, s'.store, k);
      ClaimKeepsAgreement(s, s', w, k);
    }
  }

  lemma ClaimedOk(s: Sys, st: State, t: string, r: string)
    requires ProtocolOk(s) && StatusIs(s.store, (t, r), RunQueued) && RunWritten(s.store, st, (t, r))
    requires StatusIs(st, (t, r), RunRunning)
    ensures WorkerOk(st, Claimed(t, r))
  {
    if Active(s.store, t, r) { QueuedAgrees(s, t, r); }
    hide WorkersOk, OneHolder, Unheld, MarksOk, Agreement;
  }

  lemma ClaimIsWrite(st: State, t: string, r: string)
    ensures var (st', err) := ClaimRun(st, t, r);
            err == Ok ==> RunWritten(st, st', (t, r)) && StatusIs(st, (t, r), RunQueued) && StatusIs(st', (t, r), RunRunning)
  {
  }

  /** Nobody is busy with a queued run, so its task agrees with it when it is active. */
  lemma QueuedAgrees(s: Sys, t: string, r: string)
    requires ProtocolOk(s) && StatusIs(s.store, (t, r), RunQueued) && Active(s.store, t, r)
    ensures TaskIs(s.store, t, Queued)
  {
    assert Agrees(s.store, t) || InTransit(s.workers, s.marks, (t, r));
    forall w | w in s.workers && (s.workers[w].Claimed? || s.workers[w].Ended?) ensures s.workers[w].Key() != (t, r) {
      assert WorkerOk(s.store, s.workers[w]);
    }
  }

  lemma ClaimKeepsAgreement(s: Sys, s': Sys, w: nat, k: RunKey)
    requires ProtocolOk(s) && RunWritten(s.store, s'.store, k) && At(s.workers, w).Idle?
    requires s'.workers == s.workers[w := Claimed(k.0, k.1)] && s'.marks == s.marks
    ensures Agreement(s'.store, s'.workers, s'.marks)
  {
    forall t | t in s'.store.tasks ensures Agrees(s'.store, t) || InTransit(s'.workers, s'.marks, (t, s'.store.tasks[t].activeRun)) {
      var j := (t, s.store.tasks[t].activeRun);
      if j == k {
        assert w in s'.workers && s'.workers[w].Key() == k;
      } else {
        assert Agrees(s.store, t) || InTransit(s.workers, s.marks, j);
        if InTransit(s.workers, s.marks, j) { TransitStays(s.workers, s.marks, w, Claimed(k.0, k.1), j); }
      }
    }
  }

  lemma TakeKeeps(s: Sys, w: nat)
    requires ProtocolOk(s) && At(s.workers, w).Claimed?
    ensures ProtocolOk(TakeStep(s, w))
  {
    var Claimed(t, r) := s.workers[w];
    assert WorkerOk(s.store, s.workers[w]);
    var s' := TakeStep(s, w);
    if Active(s.store, t, r) {
      TaskStepKeeps(s, s', w, (t, r), Loaded(t, r));
    } else {
      RunStepKeeps(s, s', w, (t, r), Stale(t, r));
    }
  }

  lemma DropKeeps(s: Sys, w: nat)
    requires ProtocolOk(s) && At(s.workers, w).Stale?
    ensures ProtocolOk(DropStep(s, w))
  {
    assert WorkerOk(s.store, s.workers[w]);
    RunStepKeeps(s, DropStep(s, w), w, s.workers[w].Key(), Idle);
  }

  /** A worker moves on without a store call, from and to a place where run and task agree. */
  lemma MoveKeeps(s: Sys, w: nat, pc: Pc)
    requires ProtocolOk(s) && w in s.workers && (s.workers[w].Loaded? || s.workers[w].Executing?)
    requires pc.Idle? || (pc.Key() == s.workers[w].Key() && WorkerOk(s.store, pc))
    ensures ProtocolOk(s.(workers := s.workers[w := pc]))
  {
    assert WorkerOk(s.store, s.workers[w]);
    TaskStepKeeps(s, s.(workers := s.workers[w := pc]), w, s.workers[w].Key(), pc);
  }

  lemma FinishRunKeeps(s: Sys, w: nat)
    requires ProtocolOk(s) && At(s.workers, w).Ending?
    ensures ProtocolOk(FinishRunStep(s, w))
  {
    var Ending(t, r, status) := s.workers[w];
    assert WorkerOk(s.store, s.workers[w]);
    var s' := FinishRunStep(s, w);
    assert w in s'.workers && s'.workers[w] == Ended(t, r, status) && s'.workers[w].Key() == (t, r);
    RunStepKeeps(s, s', w, (t, r), Ended(t, r, status));
  }

  lemma FinishTaskKeeps(s: Sys, w: nat)
    requires ProtocolOk(s) && At(s.workers, w).Ended?
    ensures ProtocolOk(FinishTaskStep(s, w))
  {
    assert WorkerOk(s.store, s.workers[w]);
    TaskStepKeeps(s, FinishTaskStep(s, w), w, s.workers[w].Key(), Idle);
  }

  lemma MarkRunMarks(a: State, b: State, k: RunKey, marks: map<RunKey, Mark>)
    requires MarksOk(a, marks) && k in marks && RunWritten(a, b, k) && StatusIs(b, k, RunFailed)
    ensures MarksOk(b, marks[k := MarkTask])
  {
  }

  lemma MarkRunAgreement(a: State, b: State, k: RunKey, workers: map<nat, Pc>, marks: map<RunKey, Mark>)
    requires Agreement(a, workers, marks) && RunWritten(a, b, k)
    ensures Agreement(b, workers, marks[k := MarkTask])
  {
    forall u | u in b.tasks ensures Agrees(b, u) || InTransit(workers, marks[k := MarkTask], (u, b.tasks[u].activeRun)) {
      assert Agrees(a, u) || InTransit(workers, marks, (u, a.tasks[u].activeRun));
    }
  }

  lemma MarkedFacts(st: State, marks: map<RunKey, Mark>, k: RunKey)
    requires MarksOk(st, marks) && k in marks
    ensures k in st.runs && k.0 in st.tasks && StatusIs(st, k, if marks[k] == MarkRun then RunQueued else RunFailed)
    ensures Active(st, k.0, k.1) ==> TaskIs(st, k.0, Queued)
  {
  }

  lemma MarkRunKeeps(s: Sys, t: string, r: string)
    requires ProtocolOk(s) && (t, r) in s.marks
    ensures ProtocolOk(MarkRunStep(s, t, r))
  {
    hide CompleteRun, WorkersOk, OneHolder, Unheld, MarksOk, Agreement, RunsHaveTasks, RunWritten, NotHeld;
    var k, s' := (t, r), MarkRunStep(s, t, r);
    MarkedFacts(s.store, s.marks, k);
    CompleteIsWrite(s.store, t, r, RunFailed);
    MarkedNotHeld(s.workers, s.marks, k);
    FewerMarks(s.workers, s.marks, k);
    RunWriteWorkers(s.store, s'.store, k, s.workers);
    MarkRunMarks(s.store, s'.store, k, s.marks);
    MarkRunAgreement(s.store, s'.store, k, s.workers, s.marks);
    WrittenKeepsTasks(s.store, s'.store, k);
  }

  lemma MarkTaskMarks(a: State, b: State, k: RunKey, marks: map<RunKey, Mark>)
    requires MarksOk(a, marks) && TaskWritten(a, b, k.0) && (Active(a, k.0, k.1) || a == b)
    ensures MarksOk(b, marks - {k})
  {
  }

  lemma MarkTaskAgreement(a: State, b: State, k: RunKey, workers: map<nat, Pc>, marks: map<RunKey, Mark>)
    requires Agreement(a, workers, marks) && TaskWritten(a, b, k.0)
    requires if Active(a, k.0, k.1) then Agrees(b, k.0) else a == b
    ensures Agreement(b, workers, marks - {k})
  {
    forall u | u in b.tasks ensures Agrees(b, u) || InTransit(workers, marks - {k}, (u, b.tasks[u].activeRun)) {
      assert Agrees(a, u) || InTransit(workers, marks, (u, a.tasks[u].activeRun));
    }
  }

  lemma MarkTaskAgrees(st: State, t: string, r: string)
    requires StatusIs(st, (t, r), RunFailed) && Active(st, t, r) && TaskIs(st, t, Queued)
    ensures Agrees(UpdateTaskStatusForRun(st, t, r, {Queued, Running}, Failed).0, t)
  {
  }

  lemma MarkTaskKeeps(s: Sys, t: string, r: string)
    requires ProtocolOk(s) && (t, r) in s.marks && s.marks[(t, r)] == MarkTask
    ensures ProtocolOk(MarkTaskStep(s, t, r))
  {
    hide UpdateTaskStatusForRun, WorkersOk, OneHolder, Unheld, MarksOk, Agreement, RunsHaveTasks, TaskWritten, NotHeld, Agrees;
    var k, s' := (t, r), MarkTaskStep(s, t, r);
    MarkedFacts(s.store, s.marks, k);
    TaskUpdateIsWrite(s.store, t, r, {Queued, Running}, Failed);
    MarkedNotHeld(s.workers, s.marks, k);
    FewerMarks(s.workers, s.marks, k);
    if Active(s.store, t, r) {
      MarkTaskAgrees(s.store, t, r);
      TaskWriteWorkers(s.store, s'.store, t, r, s.workers);
    }
    MarkTaskMarks(s.store, s'.store, k, s.marks);
    MarkTaskAgreement(s.store, s'.store, k, s.workers, s.marks);
    WrittenKeepsTasks(s.store, s'.store, k);
  }

  lemma LoadKeeps(s: Sys, w: nat, outcome: Outcome)
    requires ProtocolOk(s) && At(s.workers, w).Loaded?
    ensures ProtocolOk(LoadStep(s, w, outcome))
  {
    assert WorkerOk(s.store, s.workers[w]);
    hide ProtocolOk;
    MoveKeeps(s, w, LoadStep(s, w, outcome).workers[w]);
  }

  lemma StopKeeps(s: Sys, w: nat, status: RunStatus)
    requires ProtocolOk(s) && At(s.workers, w).Executing? && Terminal(status)
    ensures ProtocolOk(StopStep(s, w, status))
  {
    assert WorkerOk(s.store, s.workers[w]);
    hide ProtocolOk;
    MoveKeeps(s, w, StopStep(s, w, status).workers[w]);
  }

  /** Abort requests, step records and progress do not touch a status. */
  lemma QuietKeeps(s: Sys, e: Event)
    requires ProtocolOk(s) && Enabled(s, e) && (e.Abort? || e.WriteStep? || e.Progress?)
    ensures ProtocolOk(Apply(s, e))
  {
    hide ProtocolOk;
    ProtocolFrame(s, Apply(s, e).store);
  }

  /** Not a step of recovery, and not the delivery of a run that Resume failed to enqueue and has not marked yet. */
  predicate Orderly(s: Sys, e: Event) {
    !Recovery(e) && (e.Deliver? ==> !Unmarked(s.marks, (e.task, e.run)))
  }

  /** Every orderly step keeps the protocol. */
  lemma StepKeepsProtocol(s: Sys, e: Event)
    requires ProtocolOk(s) && Enabled(s, e) && Orderly(s, e)
    ensures ProtocolOk(Apply(s, e))
  {
    if e.Abort? || e.WriteStep? || e.Progress? { hide *; QuietKeeps(s, e); return; }
    hide ProtocolOk, CreateStep, ResumeStep, DeliverStep, TakeStep, DropStep, LoadStep, StopStep, FinishRunStep,
         FinishTaskStep, MarkRunStep, MarkTaskStep, FreshRun, HasCheckpoint;
    match e
    case Create(t, r, tenant, key) => CreateKeeps(s, t, r, tenant, key);
    case Resume(t, fromRun, fromStep, r, enqueued) => ResumeKeeps(s, t, fromRun, fromStep, r, enqueued);
    case Deliver(w, t, r) => DeliverKeeps(s, w, t, r);
    case TakeTask(w) => TakeKeeps(s, w);
    case DropStale(w) => DropKeeps(s, w);
    case Load(w, outcome) => LoadKeeps(s, w, outcome);
    case Stop(w, status) => StopKeeps(s, w, status);
    case FinishRun(w) => FinishRunKeeps(s, w);
    case FinishTask(w) => FinishTaskKeeps(s, w);
    case MarkRunFailed(t, r) => MarkRunKeeps(s, t, r);
    case MarkTaskFailed(t, r) => MarkTaskKeeps(s, t, r);
  }

  /** A legal run of orderly steps. */
  ghost predicate OrderlyRun(s: Sys, events: seq<Event>)
    decreases |events|
  {
    events == [] || (Enabled(s, events[0]) && Orderly(s, events[0]) && OrderlyRun(Apply(s, events[0]), events[1..]))
  }

  lemma {:induction false} OrderlyIsLegal(s: Sys, events: seq<Event>)
    requires OrderlyRun(s, events)
    ensures Legal(s, events)
    decreases |events|
  {
    hide Apply, Enabled, Orderly;
    if events != [] {
      OrderlyIsLegal(Apply(s, events[0]), events[1..]);
    }
  }

  /** The state after an orderly run. */
  ghost function After(s: Sys, events: seq<Event>): Sys
    requires OrderlyRun(s, events)
  {
    OrderlyIsLegal(s, events);
    Final(s, events)
  }

  lemma {:induction false} RunKeepsProtocol(s: Sys, events: seq<Event>)
    requires ProtocolOk(s) && OrderlyRun(s, events)
    ensures ProtocolOk(After(s, events))
    decreases |events|
  {
    OrderlyIsLegal(s, events);
    hide ProtocolOk, Apply, Enabled, Orderly;
    if events != [] {
      StepKeepsProtocol(s, events[0]);
      RunKeepsProtocol(Apply(s, events[0]), events[1..]);
    }
  }

  // ---------------------------------------------------------------- theorems

  /** The states that orderly runs reach from an empty store. */
  ghost predicate Reachable(s: Sys) {
    exists events :: OrderlyRun(EMPTY, events) && s == After(EMPTY, events)
  }

  lemma ReachableProtocol(s: Sys)
    requires Reachable(s)
    ensures ProtocolOk(s)
  {
    var events :| OrderlyRun(EMPTY, events) && s == After(EMPTY, events);
    assert ProtocolOk(EMPTY);
    hide ProtocolOk, OrderlyRun, After;
    RunKeepsProtocol(EMPTY, events);
  }

  /** At most one worker per task is inside Execute, and it executes the task's active run. */
  lemma MutualExclusion(s: Sys, v: nat, w: nat)
    requires Reachable(s) && At(s.workers, v).Executing? && At(s.workers, w).Executing?
    requires At(s.workers, v).task == At(s.workers, w).task
    ensures v == w && Active(s.store, At(s.workers, v).task, At(s.workers, v).run)
    ensures TaskIs(s.store, At(s.workers, v).task, Running) && StatusIs(s.store, At(s.workers, v).Key(), RunRunning)
  {
    hide Reachable;
    ReachableProtocol(s);
    assert WorkerOk(s.store, s.workers[v]) && WorkerOk(s.store, s.workers[w]);
  }

  /** Task and active run differ only while somebody is between the two writes. */
  lemma DisagreementIsInTransit(s: Sys, t: string)
    requires Reachable(s) && t in s.store.tasks && !Agrees(s.store, t)
    ensures InTransit(s.workers, s.marks, (t, s.store.tasks[t].activeRun))
  {
    hide Reachable;
    ReachableProtocol(s);
  }

  /** A worker aborts a claimed run only if another run of the task has become active. */
  lemma AbortsOnlySuperseded(s: Sys, w: nat)
    requires Reachable(s) && At(s.workers, w).Stale?
    ensures var Stale(t, r) := At(s.workers, w); t in s.store.tasks && s.store.tasks[t].activeRun != r
  {
    hide Reachable;
    ReachableProtocol(s);
    assert WorkerOk(s.store, s.workers[w]);
  }

  // ---------------------------------------------------------------- recovery

  /** A reset of the active run followed by the task update, with nothing in between. */
  function Recovered(s: Sys, t: string, r: string): Sys {
    RequeueStep(ResetStep(s, t, r), t, r)
  }

  /**
    Even without interleaving, recovery keeps the protocol if and only if no worker is busy with
    the run and no failed resume is half marked.
   */
  lemma RecoveryKeepsProtocolIff(s: Sys, t: string, r: string)
    requires ProtocolOk(s) && (t, r) in s.store.runs && Active(s.store, t, r)
    ensures ProtocolOk(Recovered(s, t, r)) <==>
      && (forall w :: w in s.workers && !s.workers[w].Idle? ==> s.workers[w].Key() != (t, r))
      && !((t, r) in s.marks && s.marks[(t, r)] == MarkTask)
  {
    hide ProtocolOk, Recovered, StatusIs, TaskIs, Active;
    if w :| w in s.workers && !s.workers[w].Idle? && s.workers[w].Key() == (t, r) {
      HolderLosesRun(s, t, r, w);
    } else if (t, r) in s.marks && s.marks[(t, r)] == MarkTask {
      MarkLosesRun(s, t, r);
    } else {
      RecoveredOk(s, t, r);
    }
  }

  /** A worker that is busy with the run no longer finds it running. */
  lemma HolderLosesRun(s: Sys, t: string, r: string, w: nat)
    requires (t, r) in s.store.runs && Active(s.store, t, r) && w in s.workers && !s.workers[w].Idle?
    requires s.workers[w].Key() == (t, r)
    ensures !ProtocolOk(Recovered(s, t, r))
  {
    hide OneHolder, Unheld, MarksOk, Agreement, RunsHaveTasks, Recovered;
    RecoveredState(s, t, r);
    var s' := Recovered(s, t, r);
    assert !WorkerOk(s'.store, s'.workers[w]);
  }

  lemma MarkLosesRun(s: Sys, t: string, r: string)
    requires (t, r) in s.store.runs && Active(s.store, t, r) && (t, r) in s.marks && s.marks[(t, r)] == MarkTask
    ensures !ProtocolOk(Recovered(s, t, r))
  {
    hide OneHolder, Unheld, WorkersOk, Agreement, RunsHaveTasks, Recovered;
    RecoveredState(s, t, r);
    assert !MarksOk(Recovered(s, t, r).store, s.marks);
  }

  lemma RecoveredMarks(a: State, b: State, k: RunKey, marks: map<RunKey, Mark>)
    requires MarksOk(a, marks) && !(k in marks && marks[k] == MarkTask) && k in b.runs && b.runs.Keys == a.runs.Keys
    requires forall j :: j in a.runs && j != k ==> b.runs[j].status == a.runs[j].status
    requires b.tasks.Keys == a.tasks.Keys && forall u :: u in a.tasks ==> b.tasks[u].activeRun == a.tasks[u].activeRun
    requires forall u :: u in a.tasks && u != k.0 ==> b.tasks[u].status == a.tasks[u].status
    requires StatusIs(b, k, RunQueued) && TaskIs(b, k.0, Queued)
    ensures MarksOk(b, marks)
  {
  }

  lemma RecoveredAgreement(a: State, b: State, k: RunKey, workers: map<nat, Pc>, marks: map<RunKey, Mark>)
    requires Agreement(a, workers, marks) && k in b.runs && b.runs.Keys == a.runs.Keys
    requires forall j :: j in a.runs && j != k ==> b.runs[j].status == a.runs[j].status
    requires b.tasks.Keys == a.tasks.Keys && forall u :: u in a.tasks ==> b.tasks[u].activeRun == a.tasks[u].activeRun
    requires forall u :: u in a.tasks && u != k.0 ==> b.tasks[u].status == a.tasks[u].status
    requires StatusIs(b, k, RunQueued) && TaskIs(b, k.0, Queued) && Active(b, k.0, k.1)
    ensures Agreement(b, workers, marks)
  {
    forall u | u in b.tasks ensures Agrees(b, u) || InTransit(workers, marks, (u, b.tasks[u].activeRun)) {
      assert Agrees(a, u) || InTransit(workers, marks, (u, a.tasks[u].activeRun));
    }
  }

  /** What the two writes of recovery leave of the store. */
  lemma RecoveredStore(s: Sys, t: string, r: string)
    requires (t, r) in s.store.runs && Active(s.store, t, r)
    ensures var a, b, mid := s.store, Recovered(s, t, r).store, ResetStep(s, t, r).store; var k := (t, r);
      && RunWritten(a, mid, k) && TaskWritten(mid, b, t) && Active(mid, t, r)
      && k in b.runs && b.runs.Keys == a.runs.Keys && (forall j :: j in a.runs && j != k ==> b.runs[j].status == a.runs[j].status)
      && b.tasks.Keys == a.tasks.Keys && (forall u :: u in a.tasks ==> b.tasks[u].activeRun == a.tasks[u].activeRun)
      && (forall u :: u in a.tasks && u != t ==> b.tasks[u].status == a.tasks[u].status)
  {
  }

  lemma RecoveredOk(s: Sys, t: string, r: string)
    requires ProtocolOk(s) && (t, r) in s.store.runs && Active(s.store, t, r)
    requires forall w :: w in s.workers && !s.workers[w].Idle? ==> s.workers[w].Key() != (t, r)
    requires !((t, r) in s.marks && s.marks[(t, r)] == MarkTask)
    ensures ProtocolOk(Recovered(s, t, r))
  {
    hide WorkersOk, OneHolder, Unheld, MarksOk, Agreement, RunsHaveTasks, RunWritten, TaskWritten, ResetRun,
         CompleteRun, UpdateTaskStatusForRun;
    var k, s1, s' := (t, r), ResetStep(s, t, r), Recovered(s, t, r);
    RecoveredStore(s, t, r);
    RecoveredState(s, t, r);
    RunWriteWorkers(s.store, s1.store, k, s.workers);
    TaskWriteWorkers(s1.store, s'.store, t, r, s.workers);
    RecoveredMarks(s.store, s'.store, k, s.marks);
    RecoveredAgreement(s.store, s'.store, k, s.workers, s.marks);
    WrittenKeepsTasks(s.store, s1.store, k);
    WrittenKeepsTasks(s1.store, s'.store, k);
  }

  /** The events that put a second worker into Execute for a run that recovery considers stale. */
  function SecondExecution(v: nat, t: string, r: string): seq<Event> {
    [ResetStale(t, r), RequeueTask(t, r), Deliver(v, t, r), TakeTask(v), Load(v, Go)]
  }

  /** Recovery breaks mutual exclusion whenever the worker it gave up on is still executing. */
  lemma WorkerIn(s: Sys, w: nat)
    requires ProtocolOk(s) && w in s.workers
    ensures WorkerOk(s.store, s.workers[w])
  {
    hide WorkerOk, OneHolder, Unheld, MarksOk, Agreement, RunsHaveTasks;
  }

  lemma RecoveryBreaksExclusion(s: Sys, w: nat, v: nat)
    requires ProtocolOk(s) && At(s.workers, w).Executing? && At(s.workers, v).Idle?
    ensures var Executing(t, r) := At(s.workers, w);
            && Legal(s, SecondExecution(v, t, r))
            && At(Final(s, SecondExecution(v, t, r)).workers, w) == Executing(t, r)
            && At(Final(s, SecondExecution(v, t, r)).workers, v) == Executing(t, r)
  {
    hide ProtocolOk, Legal, Final, Apply, ResetStep, RequeueStep;
    var Executing(t, r) := At(s.workers, w);
    WorkerIn(s, w);
    hide WorkerOk;
    var s2 := Recovered(s, t, r);
    var tail := [Deliver(v, t, r), TakeTask(v), Load(v, Go)];
    RecoveredState(s, t, r);
    ClaimAndLoad(s2, v, t, r);
    ResetAndRequeue(s, t, r, tail);
    assert [ResetStale(t, r), RequeueTask(t, r)] + tail == SecondExecution(v, t, r);
  }

  lemma RecoveredState(s: Sys, t: string, r: string)
    requires (t, r) in s.store.runs && Active(s.store, t, r)
    ensures var s' := Recovered(s, t, r);
            && StatusIs(s'.store, (t, r), RunQueued) && Active(s'.store, t, r) && TaskIs(s'.store, t, Queued)
            && s'.workers == s.workers && s'.marks == s.marks
  {
  }

  lemma ResetAndRequeue(s: Sys, t: string, r: string, rest: seq<Event>)
    requires (t, r) in s.store.runs && Legal(Recovered(s, t, r), rest)
    ensures var es := [ResetStale(t, r), RequeueTask(t, r)] + rest;
            Legal(s, es) && Final(s, es) == Final(Recovered(s, t, r), rest)
  {
    hide Legal, Final;
    var s1 := ResetStep(s, t, r);
    Prepend(s1, RequeueTask(t, r), rest);
    Prepend(s, ResetStale(t, r), [RequeueTask(t, r)] + rest);
    assert [ResetStale(t, r)] + ([RequeueTask(t, r)] + rest) == [ResetStale(t, r), RequeueTask(t, r)] + rest;
  }

  lemma Prepend(s: Sys, e: Event, rest: seq<Event>)
    requires Enabled(s, e) && Legal(Apply(s, e), rest)
    ensures Legal(s, [e] + rest) && Final(s, [e] + rest) == Final(Apply(s, e), rest)
  {
    hide Apply, Enabled;
    assert ([e] + rest)[1..] == rest;
  }

  /** A delivery of a queued, active run puts an idle worker into Execute and leaves the others where they are. */
  lemma ClaimAndLoad(s: Sys, v: nat, t: string, r: string)
    requires At(s.workers, v).Idle?
    requires StatusIs(s.store, (t, r), RunQueued) && Active(s.store, t, r) && TaskIs(s.store, t, Queued)
    ensures var es := [Deliver(v, t, r), TakeTask(v), Load(v, Go)];
            Legal(s, es) && Final(s, es).workers == s.workers[v := Executing(t, r)]
  {
    var s1 := DeliverStep(s, v, t, r);
    var s2 := TakeStep(s1, v);
    assert At(s2.workers, v) == Loaded(t, r);
    var s3 := LoadStep(s2, v, Go);
    assert s3.workers == s.workers[v := Executing(t, r)];
    assert Legal(s3, []);
    Prepend(s2, Load(v, Go), []);
    Prepend(s1, TakeTask(v), [Load(v, Go)] + []);
    Prepend(s, Deliver(v, t, r), [TakeTask(v)] + ([Load(v, Go)] + []));
    assert [Deliver(v, t, r)] + ([TakeTask(v)] + ([Load(v, Go)] + [])) == [Deliver(v, t, r), TakeTask(v), Load(v, Go)];
  }
}
