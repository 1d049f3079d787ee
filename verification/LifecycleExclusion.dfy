/**
  Exactly when a step outside the orderly ones endangers mutual exclusion: the delivery of a run
  that Resume failed to enqueue and has not marked yet, and a recovery of the active run.
 */
module LifecycleExclusion {
  import opened Common
  import opened Store
  import opened Lifecycle
  import opened LifecycleProtocol

  /** An orderly run leads from s to s'. */
  ghost predicate Leads(s: Sys, s': Sys) {
    exists events :: OrderlyRun(s, events) && After(s, events) == s'
  }

  /** At most one worker per task is inside Execute. */
  ghost predicate Exclusive(workers: map<nat, Pc>) {
    forall v, w :: At(workers, v).Executing? && At(workers, w).Executing? && At(workers, v).task == At(workers, w).task ==> v == w
  }

  /** Whatever orderly steps follow, mutual exclusion holds. */
  ghost predicate Safe(s: Sys) {
    forall s' :: Leads(s, s') ==> Exclusive(s'.workers)
  }

  lemma ProtocolIsSafe(s: Sys)
    requires ProtocolOk(s)
    ensures Safe(s)
  {
    forall s' | Leads(s, s') ensures Exclusive(s'.workers) {
      var events :| OrderlyRun(s, events) && After(s, events) == s';
      RunKeepsProtocol(s, events);
      hide OrderlyRun, After;
      forall v, w | At(s'.workers, v).Executing? && At(s'.workers, w).Executing? && At(s'.workers, v).task == At(s'.workers, w).task
        ensures v == w
      {
        assert WorkerOk(s'.store, s'.workers[v]) && WorkerOk(s'.store, s'.workers[w]);
      }
    }
  }

  // ---------------------------------------------------------------- building orderly runs

  lemma Stays(s: Sys)
    ensures Leads(s, s)
  {
    assert OrderlyRun(s, []) && After(s, []) == s;
  }

  lemma {:induction false} OneMore(s: Sys, events: seq<Event>, e: Event)
    requires OrderlyRun(s, events) && Enabled(After(s, events), e) && Orderly(After(s, events), e)
    ensures OrderlyRun(s, events + [e]) && After(s, events + [e]) == Apply(After(s, events), e)
    decreases |events|
  {
    hide Enabled, Apply, Orderly;
    OrderlyIsLegal(s, events);
    Extend(s, events, e);
    if events == [] {
      assert (events + [e])[1..] == [];
    } else {
      OneMore(Apply(s, events[0]), events[1..], e);
      assert (events + [e])[1..] == events[1..] + [e];
    }
  }

  lemma LeadsOn(s: Sys, s': Sys, e: Event)
    requires Leads(s, s') && Enabled(s', e) && Orderly(s', e)
    ensures Leads(s, Apply(s', e))
  {
    var events :| OrderlyRun(s, events) && After(s, events) == s';
    hide OrderlyRun, After, Enabled, Apply, Orderly;
    OneMore(s, events, e);
  }

  lemma FreshRunExists(st: State, marks: map<RunKey, Mark>) returns (r: string)
    ensures FreshRun(st, r) && forall k :: k in marks ==> k.1 != r
  {
    r := FreshString((set k | k in st.runs :: k.1) + (set k | k in st.steps :: k.0) + (set k | k in marks :: k.1));
    assert forall k :: k in marks ==> k.1 in (set j | j in marks :: j.1);
    assert forall k :: k in st.runs ==> k.1 in (set j | j in st.runs :: j.1);
    assert forall k :: k in st.steps ==> k.0 in (set j | j in st.steps :: j.0);
  }

  lemma IdleExists(workers: map<nat, Pc>) returns (w: nat)
    ensures w !in workers
  {
    w := FreshNat(workers.Keys);
  }

  /** The run is queued and active, and so is its task: a delivery takes it. */
  ghost predicate Ready(s: Sys, t: string, r: string) {
    StatusIs(s.store, (t, r), RunQueued) && Active(s.store, t, r) && TaskIs(s.store, t, Queued)
  }

  /** The worker executes the run, which is active in a running task. */
  ghost predicate Executes(s: Sys, w: nat, t: string, r: string) {
    At(s.workers, w) == Executing(t, r) && (t, r) in s.store.runs && Active(s.store, t, r) && TaskIs(s.store, t, Running)
  }

  lemma TakesOver(s0: Sys, s: Sys, v: nat, t: string, r: string) returns (s': Sys)
    requires Leads(s0, s) && Ready(s, t, r) && At(s.workers, v).Idle? && !Unmarked(s.marks, (t, r))
    ensures Leads(s0, s') && Executes(s', v, t, r) && s'.workers == s.workers[v := Executing(t, r)] && s'.marks == s.marks
  {
    hide Leads;
    LeadsOn(s0, s, Deliver(v, t, r));
    s' := GoesOn(s0, DeliverStep(s, v, t, r), v, t, r);
  }

  /** From the claim on. */
  lemma GoesOn(s0: Sys, s: Sys, v: nat, t: string, r: string) returns (s': Sys)
    requires Leads(s0, s) && At(s.workers, v) == Claimed(t, r) && (t, r) in s.store.runs && Active(s.store, t, r)
    requires TaskIs(s.store, t, Queued) || TaskIs(s.store, t, Running)
    ensures Leads(s0, s') && Executes(s', v, t, r) && s'.workers == s.workers[v := Executing(t, r)] && s'.marks == s.marks
  {
    hide Leads;
    LeadsOn(s0, s, TakeTask(v));
    var s1 := TakeStep(s, v);
    assert At(s1.workers, v) == Loaded(t, r);
    LeadsOn(s0, s1, Load(v, Go));
    s' := LoadStep(s1, v, Go);
    assert s'.workers == s.workers[v := Executing(t, r)];
  }

  const CHECKPOINTED := Step(LlmStep, true, "", Some(Checkpoint(None, None)))

  /** The task was ended under an executing worker: a resume puts a second worker next to it. */
  lemma SecondRun(s0: Sys, s: Sys, v: nat, t: string, r: string) returns (s': Sys)
    requires Leads(s0, s) && At(s.workers, v) == Executing(t, r) && (t, r) in s.store.runs && Active(s.store, t, r)
    requires t != "" && (TaskIs(s.store, t, Succeeded) || TaskIs(s.store, t, Failed) || TaskIs(s.store, t, Aborted))
    ensures Leads(s0, s') && !Exclusive(s'.workers)
  {
    hide Leads, FreshRun;
    var s1, idx := WritesCheckpoint(s0, s, v, t, r);
    var r' := FreshRunExists(s1.store, s1.marks);
    LeadsOn(s0, s1, Resume(t, r, idx, r', true));
    ResumeReady(s1, t, r, idx, r');
    hide ResumeStep;
    var s2 := ResumeStep(s1, t, r, idx, r', true);
    var u := IdleExists(s2.workers);
    s' := TakesOver(s0, s2, u, t, r');
    assert At(s'.workers, v).Executing? && At(s'.workers, u).Executing? && v != u;
  }

  /** An executing worker writes a checkpointed step. */
  lemma WritesCheckpoint(s0: Sys, s: Sys, v: nat, t: string, r: string) returns (s': Sys, idx: nat)
    requires Leads(s0, s) && At(s.workers, v) == Executing(t, r)
    ensures Leads(s0, s') && HasCheckpoint(s'.store, r, idx)
    ensures s'.workers == s.workers && s'.marks == s.marks && s'.store.tasks == s.store.tasks
    ensures s'.store.runs == s.store.runs
  {
    hide Leads;
    var used: set<nat> := set k | k in s.store.steps && k.0 == r && k.1 >= 0 :: k.1 as nat;
    idx := FreshNat(used);
    assert (r, idx) in s.store.steps ==> idx in used;
    LeadsOn(s0, s, WriteStep(v, idx, CHECKPOINTED));
    s' := WriteStepStep(s, v, idx, CHECKPOINTED);
  }

  lemma ResumeReady(s: Sys, t: string, r: string, idx: int, r': string)
    requires t in s.store.tasks && t != "" && s.store.tasks[t].status != Running && FreshRun(s.store, r')
    ensures var s' := ResumeStep(s, t, r, idx, r', true); Ready(s', t, r') && s'.workers == s.workers && s'.marks == s.marks
  {
  }

  // ---------------------------------------------------------------- deliveries

  /** A delivery keeps the protocol if and only if the run is not one that Resume still has to mark. */
  lemma DeliveryKeepsProtocolIff(s: Sys, w: nat, t: string, r: string)
    requires ProtocolOk(s) && At(s.workers, w).Idle?
    ensures ProtocolOk(DeliverStep(s, w, t, r)) <==> !Unmarked(s.marks, (t, r))
  {
    if Unmarked(s.marks, (t, r)) {
      assert StatusIs(s.store, (t, r), RunQueued);
      assert !MarksOk(DeliverStep(s, w, t, r).store, s.marks);
    } else {
      hide ProtocolOk;
      DeliverKeeps(s, w, t, r);
    }
  }

  /** If such a run is active, its delivery is followed by some orderly run with two workers inside Execute for one task. */
  lemma DeliveryBreaksExclusion(s: Sys, v: nat, t: string, r: string)
    requires ProtocolOk(s) && At(s.workers, v).Idle? && Unmarked(s.marks, (t, r)) && Active(s.store, t, r)
    ensures !Safe(DeliverStep(s, v, t, r))
  {
    hide WorkersOk, OneHolder, Unheld, MarksOk, Agreement, Leads;
    MarkedFacts(s.store, s.marks, (t, r));
    assert t != "";
    hide ProtocolOk;
    var s1 := DeliverStep(s, v, t, r);
    Stays(s1);
    var s2 := GoesOn(s1, s1, v, t, r);
    var s3 := MarkedUnderWorker(s1, s2, v, t, r);
    var s4 := SecondRun(s1, s3, v, t, r);
  }

  /** The two failure marks end the task of a run that is executing. */
  lemma MarkedUnderWorker(s0: Sys, s: Sys, v: nat, t: string, r: string) returns (s': Sys)
    requires Leads(s0, s) && Executes(s, v, t, r) && Unmarked(s.marks, (t, r))
    ensures Leads(s0, s') && At(s'.workers, v) == Executing(t, r) && (t, r) in s'.store.runs
    ensures Active(s'.store, t, r) && TaskIs(s'.store, t, Failed)
  {
    hide Leads;
    LeadsOn(s0, s, MarkRunFailed(t, r));
    var s1 := MarkRunStep(s, t, r);
    LeadsOn(s0, s1, MarkTaskFailed(t, r));
    s' := MarkTaskStep(s1, t, r);
  }

  // ---------------------------------------------------------------- recovery

  /** A worker is busy with the run, or its failed resume is half marked. */
  ghost predicate Entangled(s: Sys, k: RunKey) {
    !NotHeld(s.workers, k) || (k in s.marks && s.marks[k] == MarkTask)
  }

  /** Recovering the active run leaves mutual exclusion safe if and only if the run is not entangled. */
  lemma RecoverySafeIff(s: Sys, t: string, r: string)
    requires ProtocolOk(s) && (t, r) in s.store.runs && Active(s.store, t, r)
    ensures Safe(Recovered(s, t, r)) <==> !Entangled(s, (t, r))
  {
    if !Entangled(s, (t, r)) {
      RecoveredOk(s, t, r);
      hide ProtocolOk;
      ProtocolIsSafe(Recovered(s, t, r));
    } else if w :| w in s.workers && !s.workers[w].Idle? && s.workers[w].Key() == (t, r) {
      assert (t, r) !in s.marks && WorkerOk(s.store, s.workers[w]) && t != "";
      hide ProtocolOk, Safe;
      HeldRecovery(s, w, t, r);
    } else {
      assert t != "";
      hide ProtocolOk, Safe;
      HalfMarkedRecovery(s, t, r);
    }
  }

  lemma HalfMarkedRecovery(s: Sys, t: string, r: string)
    requires t != "" && (t, r) in s.store.runs && Active(s.store, t, r) && (t, r) in s.marks && s.marks[(t, r)] == MarkTask
    ensures !Safe(Recovered(s, t, r))
  {
    hide Leads;
    RecoveredState(s, t, r);
    var s1 := Recovered(s, t, r);
    Stays(s1);
    var v := IdleExists(s1.workers);
    var s2 := TakesOver(s1, s1, v, t, r);
    LeadsOn(s1, s2, MarkTaskFailed(t, r));
    var s3 := MarkTaskStep(s2, t, r);
    var s4 := SecondRun(s1, s3, v, t, r);
  }

  /** The worker that was given up on goes on next to the one that takes the run over. */
  lemma HeldRecovery(s: Sys, w: nat, t: string, r: string)
    requires t != "" && (t, r) in s.store.runs && Active(s.store, t, r) && (t, r) !in s.marks
    requires w in s.workers && !s.workers[w].Idle? && s.workers[w].Key() == (t, r) && WorkerOk(s.store, s.workers[w])
    ensures !Safe(Recovered(s, t, r))
  {
    hide Leads;
    RecoveredState(s, t, r);
    var s1 := Recovered(s, t, r);
    Stays(s1);
    var v := IdleExists(s1.workers);
    var s2 := TakesOver(s1, s1, v, t, r);
    assert At(s2.workers, w) == s.workers[w] && v != w;
    if s.workers[w].Ending? || s.workers[w].Ended? {
      var s3 := Finishes(s1, s2, w, t, r);
      var s4 := SecondRun(s1, s3, v, t, r);
    } else {
      var s3 := Enters(s1, s2, w, t, r);
      assert At(s3.workers, v).Executing? && At(s3.workers, w).Executing?;
    }
  }

  lemma Enters(s0: Sys, s: Sys, w: nat, t: string, r: string) returns (s': Sys)
    requires Leads(s0, s) && (t, r) in s.store.runs && Active(s.store, t, r) && TaskIs(s.store, t, Running)
    requires At(s.workers, w) in {Claimed(t, r), Loaded(t, r), Executing(t, r)}
    ensures Leads(s0, s') && At(s'.workers, w) == Executing(t, r) && forall v :: v != w ==> At(s'.workers, v) == At(s.workers, v)
  {
    hide Leads;
    if At(s.workers, w).Claimed? {
      s' := GoesOn(s0, s, w, t, r);
    } else if At(s.workers, w).Loaded? {
      LeadsOn(s0, s, Load(w, Go));
      s' := LoadStep(s, w, Go);
    } else {
      s' := s;
    }
  }

  lemma Finishes(s0: Sys, s: Sys, w: nat, t: string, r: string) returns (s': Sys)
    requires Leads(s0, s) && (t, r) in s.store.runs && Active(s.store, t, r) && TaskIs(s.store, t, Running)
    requires (At(s.workers, w).Ending? || At(s.workers, w).Ended?) && At(s.workers, w).Key() == (t, r)
    requires Terminal(At(s.workers, w).status)
    ensures Leads(s0, s') && (t, r) in s'.store.runs && Active(s'.store, t, r)
    ensures TaskIs(s'.store, t, Succeeded) || TaskIs(s'.store, t, Failed) || TaskIs(s'.store, t, Aborted)
    ensures forall v :: v != w ==> At(s'.workers, v) == At(s.workers, v)
  {
    hide Leads;
    var s1 := s;
    if At(s.workers, w).Ending? {
      LeadsOn(s0, s, FinishRun(w));
      s1 := FinishRunStep(s, w);
    }
    LeadsOn(s0, s1, FinishTask(w));
    s' := FinishTaskStep(s1, w);
  }
}
