/**
  What Execute leaves in the stores, and resuming from it: the step records of a run that had
  none, and the memory and workspace behind every checkpointed step, however the calls of many
  runs follow each other.
 */
module Checkpoints {
  import opened Common
  import opened Store
  import opened Artifacts
  import opened Worker
  import opened EngineLog
  import opened Engine
  import Workspace
  import WorkspaceTree

  // ---------------------------------------------------------------- step records

  /** The steps of the run are exactly the ones put. */
  ghost predicate StepsAre(steps: map<StepKey, Step>, run: string, actions: seq<Action>) {
    && (forall i: int :: (run, i) in steps <==> i in Indexes(actions))
    && (forall i: int :: (run, i) in steps ==> Put(i, steps[(run, i)]) in actions)
  }

  /** The steps of other runs are as before. */
  ghost predicate OtherSteps(before: map<StepKey, Step>, after: map<StepKey, Step>, run: string) {
    forall k: StepKey :: k.0 != run ==> (k in after <==> k in before) && (k in before ==> after[k] == before[k])
  }

  lemma PutKeepsSteps(st: State, t: string, r: string, most: seq<Action>, a: Action)
    requires StepsAre(st.steps, r, most) && (a.Put? ==> a.idx !in Indexes(most))
    ensures var steps := Write(st, t, r, a).steps; StepsAre(steps, r, most + [a]) && OtherSteps(st.steps, steps, r)
  {
    IndexesStep(most, a);
    hide Indexes;
    var after := Write(st, t, r, a).steps;
    assert forall i: int :: i in Indexes(most + [a]) <==> i in Indexes(most) || (a.Put? && i == a.idx);
    if a.Put? {
      assert (r, a.idx) !in st.steps;
      assert after == st.steps[(r, a.idx) := a.step];
    }
    forall i: int | (r, i) in after ensures Put(i, after[(r, i)]) in most + [a] {
      if a.Put? && i == a.idx {
        assert (most + [a])[|most|] == Put(i, after[(r, i)]);
      } else {
        assert Put(i, after[(r, i)]) in most;
      }
    }
  }

  lemma {:induction false} StepsWritten(st: State, t: string, r: string, actions: seq<Action>)
    requires (forall i: int :: (r, i) !in st.steps) && NoDup(Indexes(actions))
    ensures var steps := Performed(st, t, r, actions).steps; StepsAre(steps, r, actions) && OtherSteps(st.steps, steps, r)
    decreases |actions|
  {
    if actions != [] {
      var most, a := actions[..|actions| - 1], actions[|actions| - 1];
      assert actions == most + [a];
      IndexesStep(most, a);
      var was, all := Indexes(most), Indexes(actions);
      assert NoDup(was) by {
        forall i, j | 0 <= i < j < |was| ensures was[i] != was[j] {
          assert all[i] == was[i] && all[j] == was[j];
        }
      }
      if a.Put? {
        forall i | 0 <= i < |was| ensures was[i] != a.idx {
          assert all[i] == was[i] && all[|was|] == a.idx;
        }
      }
      StepsWritten(st, t, r, most);
      hide StepsAre, Indexes, Write;
      PutKeepsSteps(Performed(st, t, r, most), t, r, most, a);
    }
  }

  lemma {:induction false} LastStepReached(st: State, t: string, r: string, actions: seq<Action>)
    requires (t, r) in st.runs
    ensures var st' := Performed(st, t, r, actions);
      && (t, r) in st'.runs
      && st'.runs[(t, r)] == match Reached(actions) case Some(i) => st.runs[(t, r)].(lastStep := i) case None => st.runs[(t, r)]
    decreases |actions|
  {
    if actions != [] {
      LastStepReached(st, t, r, actions[..|actions| - 1]);
    }
  }

  /**
    A run without prior steps ends with the contiguous block start..lastStep of step records (up to
    lastStep - 1 if the last one could not be saved), and its last step points at the end of that
    block, or one before it after an error step.
   */
  lemma ExecutedSteps(st: State, job: Job, head: Message, start: int, log: Log, res: Result)
    requires forall i: int :: (job.run, i) !in st.steps
    requires (job.task, job.run) in st.runs && Ended(job, head, start, log.chat, log.events, log.disk, res)
    ensures var st' := Performed(st, job.task, job.run, log.disk.actions);
      var last := if Lost(res.why) then res.lastStep - 1 else res.lastStep;
      && (forall i: int :: (job.run, i) in st'.steps <==> start <= i <= last)
      && (job.task, job.run) in st'.runs
      && var at := (if ErrorStep(res.why) then last - 1 else last);
         st'.runs[(job.task, job.run)].lastStep == if at >= start then at else st.runs[(job.task, job.run)].lastStep
  {
    var actions := log.disk.actions;
    var next := if Lost(res.why) then res.lastStep else res.lastStep + 1;
    RangeHas(start, next - start);
    StepsWritten(st, job.task, job.run, actions);
    LastStepReached(st, job.task, job.run, actions);
    hide Performed, Indexes, Range, Reached, LogOk, ChatOk, RepliesEnd, EventsEnd, ResultOk;
  }

  /**
    A message handled to the end with Execute's writes and status: run and task agree on it, and the
    run's steps are the block.
   */
  lemma HandledRun(st: State, job: Job, head: Message, start: int, log: Log, res: Result)
    requires forall i: int :: (job.run, i) !in st.steps
    requires Ended(job, head, start, log.chat, log.events, log.disk, res)
    requires Awaited(st, job.task, job.run) && st.tasks[job.task].tenant == job.tenant
    ensures var st' := AfterMessage(st, job.task, job.run, job.tenant, true, log.disk.actions, Some(res.status));
      var last := if Lost(res.why) then res.lastStep - 1 else res.lastStep;
      && Left(st', (job.task, job.run), res.status, MapStatus(res.status))
      && forall i: int :: (job.run, i) in st'.steps <==> start <= i <= last
  {
    HandledOutcome(st, job.task, job.run, job.tenant, true, log.disk.actions, Some(res.status));
    EndIs(st, job.task, job.run, job.tenant, true, Some(res.status));
    TakenOutcome(st, job.task, job.run);
    var st1 := Taken(st, job.task, job.run).0;
    ExecutedSteps(st1, job, head, start, log, res);
    FinalizedSteps(Performed(st1, job.task, job.run, log.disk.actions), job.task, job.run, res.status);
    assert Terminal(res.status);
    hide Performed, Finalized, Taken, Ended, EndOf;
  }

  lemma FinalizedSteps(st: State, t: string, r: string, status: RunStatus)
    ensures Finalized(st, t, r, status).steps == st.steps
  {
  }

  // ---------------------------------------------------------------- many runs side by side

  /** One run's Execute, what it was given, every call it makes, and how many of them have been carried out. */
  datatype View = View(job: Job, env: Env, opening: seq<Message>, start: int, log: Log, res: Result, done: nat)

  /** The store and the artifacts shared by all runs. */
  datatype Sys = Sys(st: State, blobs: Blobs, views: map<string, View>)

  /**
    A worker begins to execute a run that was not executed before; the next call of one of the runs
    reaches the store; or the store changes somewhere else than in its step records.
   */
  datatype Event = Start(view: View) | Next(run: string) | Elsewhere(st: State)

  ghost predicate Executed(v: View) {
    && v.opening != [] && Ended(v.job, v.opening[0], v.start, v.log.chat, v.log.events, v.log.disk, v.res)
    && Follows(v.job, v.env, v.opening, v.start, v.log.chat, v.log.disk.saved)
  }

  ghost predicate Enabled(codec: Codec, s: Sys, e: Event) {
    match e
    case Start(v) => v.job.run !in s.views && v.job.codec == codec && v.done == 0 && Executed(v)
    case Next(r) => r in s.views && s.views[r].done < |s.views[r].log.disk.log|
    case Elsewhere(st) => st.steps == s.st.steps
  }

  function CarryStore(st: State, job: Job, e: Effect): State {
    if e.Call? then Write(st, job.task, job.run, e.action) else st
  }

  function CarryBlobs(blobs: Blobs, e: Effect): Blobs { if e.SaveBlob? then blobs[e.key := e.blob] else blobs }

  ghost function Apply(codec: Codec, s: Sys, e: Event): Sys
    requires Enabled(codec, s, e)
  {
    match e
    case Start(v) => s.(views := s.views[v.job.run := v])
    case Next(r) =>
      var v := s.views[r];
      var call := v.log.disk.log[v.done];
      Sys(CarryStore(s.st, v.job, call), CarryBlobs(s.blobs, call), s.views[r := v.(done := v.done + 1)])
    case Elsewhere(st) => s.(st := st)
  }

  ghost predicate Legal(codec: Codec, s: Sys, events: seq<Event>)
    decreases |events|
  {
    events == [] || (Enabled(codec, s, events[0]) && Legal(codec, Apply(codec, s, events[0]), events[1..]))
  }

  ghost function After(codec: Codec, s: Sys, events: seq<Event>): Sys
    requires Legal(codec, s, events)
    decreases |events|
  {
    if events == [] then s else After(codec, Apply(codec, s, events[0]), events[1..])
  }

  /** Some run of the system leads here from a store without step records and without artifacts. */
  ghost predicate Reachable(codec: Codec, s: Sys) {
    exists st: State, events: seq<Event> :: Leads(codec, st, events, s)
  }

  ghost predicate Leads(codec: Codec, st: State, events: seq<Event>, s: Sys) {
    st.steps == map[] && Legal(codec, Sys(st, map[], map[]), events) && After(codec, Sys(st, map[], map[]), events) == s
  }

  // ---------------------------------------------------------------- what every interleaving keeps

  /** The artifacts under the run's keys are exactly the ones it saved. */
  ghost predicate BlobsAre(blobs: Blobs, run: string, log: seq<Effect>) {
    && (forall k: ArtifactKey :: k.run == run ==> (k in blobs <==> SavedIn(log, k)))
    && (forall e :: e in log && e.SaveBlob? ==> e.key in blobs && blobs[e.key] == e.blob)
  }

  function Past(v: View): seq<Effect>
    requires v.done <= |v.log.disk.log|
  {
    v.log.disk.log[..v.done]
  }

  /** Seen alone, the run's step records and artifacts are those of the calls carried out so far. */
  ghost predicate Carried(codec: Codec, run: string, v: View, steps: map<StepKey, Step>, blobs: Blobs) {
    && v.job.run == run && v.job.codec == codec && Executed(v) && v.done <= |v.log.disk.log|
    && StepsAre(steps, run, Calls(Past(v))) && BlobsAre(blobs, run, Past(v))
  }

  ghost predicate Together(codec: Codec, s: Sys) {
    && (forall r :: r in s.views ==> Carried(codec, r, s.views[r], s.st.steps, s.blobs))
    && (forall k :: k in s.st.steps ==> k.0 in s.views)
    && (forall k :: k in s.blobs ==> k.run in s.views)
  }

  lemma {:induction false} CallsPrefix(log: seq<Effect>, n: nat)
    requires n <= |log|
    ensures Calls(log[..n]) <= Calls(log)
    decreases |log|
  {
    if n < |log| {
      CallsPrefix(log[..|log| - 1], n);
      assert log[..|log| - 1][..n] == log[..n];
    } else {
      assert log[..n] == log;
    }
  }

  lemma {:induction false} IndexesPrefix(actions: seq<Action>, n: nat)
    requires n <= |actions|
    ensures Indexes(actions[..n]) <= Indexes(actions)
    decreases |actions|
  {
    if n < |actions| {
      IndexesPrefix(actions[..|actions| - 1], n);
      assert actions[..|actions| - 1][..n] == actions[..n];
    } else {
      assert actions[..n] == actions;
    }
  }

  /** The log's step indexes are a block, no artifact key is saved twice, and checkpoints follow what they refer to. */
  lemma LogOf(v: View) returns (n: nat)
    requires Executed(v)
    ensures var disk := v.log.disk;
      && Indexes(Calls(disk.log)) == Range(v.start, n)
      && Once(disk.log) && Own(disk.log, v.job.run) && Backed(v.job.codec, disk.log, disk.saved)
  {
    hide Follows, ChatOk, EventsEnd, ResultOk, RepliesEnd, ReachedEnd, Indexes, Range, Calls, Once, Own, Backed;
    n := (if Lost(v.res.why) then v.res.lastStep else v.res.lastStep + 1) - v.start;
  }

  /** No step is put twice. */
  lemma PutOnce(log: seq<Effect>, start: int, n: nat, i: nat)
    requires Indexes(Calls(log)) == Range(start, n) && i < |log| && log[i].Call? && log[i].action.Put?
    ensures log[i].action.idx !in Indexes(Calls(log[..i]))
  {
    hide Range, Indexes, Calls;
    var a, past := log[i].action, Calls(log[..i]);
    assert log[..i + 1] == log[..i] + [log[i]];
    CallsStep(log[..i], log[i]);
    CallsPrefix(log, i + 1);
    assert Calls(log)[..|past| + 1] == past + [a];
    IndexesPrefix(Calls(log), |past| + 1);
    IndexesStep(past, a);
    RangeHas(start, n);
    var all, some := Indexes(Calls(log)), Indexes(past);
    assert some + [a.idx] <= all;
    assert all[|some|] == (some + [a.idx])[|some|];
    forall k | 0 <= k < |some| ensures some[k] != a.idx {
      assert all[k] == (some + [a.idx])[k];
    }
  }

  lemma CarriedNext(codec: Codec, r: string, v: View, st: State, blobs: Blobs)
    requires Carried(codec, r, v, st.steps, blobs) && v.done < |v.log.disk.log|
    ensures var e := v.log.disk.log[v.done];
      Carried(codec, r, v.(done := v.done + 1), CarryStore(st, v.job, e).steps, CarryBlobs(blobs, e))
  {
    hide Ended, Follows, Calls, Indexes, Range, StepsAre, BlobsAre, Once, Own, Backed, Write;
    var log := v.log.disk.log;
    var past, e, v' := Past(v), log[v.done], v.(done := v.done + 1);
    assert Past(v') == past + [e];
    CallsStep(past, e);
    var n := LogOf(v);
    assert Executed(v');
    if e.Call? {
      if e.action.Put? {
        PutOnce(log, v.start, n, v.done);
      }
      PutKeepsSteps(st, v.job.task, r, Calls(past), e.action);
      NoSave(blobs, r, past, e);
    } else {
      NewSave(blobs, r, log, v.done);
    }
  }

  lemma NoSave(blobs: Blobs, run: string, past: seq<Effect>, e: Effect)
    requires e.Call? && BlobsAre(blobs, run, past)
    ensures BlobsAre(blobs, run, past + [e])
  {
    forall k: ArtifactKey ensures SavedIn(past + [e], k) <==> SavedIn(past, k) {
      SavedSame(past, e, k);
    }
    hide SavedIn;
  }

  lemma SavedSame(log: seq<Effect>, e: Effect, k: ArtifactKey)
    requires e.Call?
    ensures SavedIn(log + [e], k) <==> SavedIn(log, k)
  {
    var more := log + [e];
    if SavedIn(log, k) {
      var i :| 0 <= i < |log| && log[i].SaveBlob? && log[i].key == k;
      assert more[i].SaveBlob? && more[i].key == k;
    }
  }

  lemma NewSave(blobs: Blobs, run: string, log: seq<Effect>, n: nat)
    requires n < |log| && log[n].SaveBlob? && Once(log) && Own(log, run) && BlobsAre(blobs, run, log[..n])
    ensures BlobsAre(CarryBlobs(blobs, log[n]), run, log[..n] + [log[n]])
  {
    var past, e := log[..n], log[n];
    forall k: ArtifactKey ensures SavedIn(past + [e], k) <==> SavedIn(past, k) || k == e.key {
      SavedMore(past, e, k);
    }
    hide SavedIn;
    forall x | x in past && x.SaveBlob? ensures x.key != e.key {
      var i :| 0 <= i < n && past[i] == x;
      assert log[i] == x;
    }
  }

  lemma SavedMore(log: seq<Effect>, e: Effect, k: ArtifactKey)
    requires e.SaveBlob?
    ensures SavedIn(log + [e], k) <==> SavedIn(log, k) || k == e.key
  {
    var more := log + [e];
    assert more[|log|] == e;
    if SavedIn(log, k) {
      var i :| 0 <= i < |log| && log[i].SaveBlob? && log[i].key == k;
      assert more[i].SaveBlob? && more[i].key == k;
    }
  }

  /** A call of one run leaves what the others wrote. */
  lemma CarriedBeside(
      codec: Codec, r: string, v: View, steps: map<StepKey, Step>, blobs: Blobs, steps': map<StepKey, Step>,
      blobs': Blobs, other: string)
    requires Carried(codec, r, v, steps, blobs) && r != other && OtherSteps(steps, steps', other)
    requires forall k: ArtifactKey :: k.run != other ==> (k in blobs' <==> k in blobs) && (k in blobs ==> blobs'[k] == blobs[k])
    ensures Carried(codec, r, v, steps', blobs')
  {
    hide Ended, Follows, Calls, Indexes, Range, SavedIn, Once, Backed;
    var n := LogOf(v);
    forall i: int ensures (r, i) in steps' <==> (r, i) in steps {
      assert (r, i).0 != other;
    }
    forall i: int | (r, i) in steps' ensures steps'[(r, i)] == steps[(r, i)] {
      assert (r, i).0 != other;
    }
    forall e | e in Past(v) && e.SaveBlob? ensures e.key in blobs' && blobs'[e.key] == e.blob {
      assert e in v.log.disk.log;
    }
  }

  lemma WriteKeepsOthers(st: State, job: Job, e: Effect)
    ensures OtherSteps(st.steps, CarryStore(st, job, e).steps, job.run)
    ensures forall k :: k in CarryStore(st, job, e).steps && k !in st.steps ==> k.0 == job.run
  {
  }

  lemma NextKeeps(codec: Codec, s: Sys, r: string)
    requires Together(codec, s) && Enabled(codec, s, Next(r))
    ensures Together(codec, Apply(codec, s, Next(r)))
  {
    hide Ended, Follows, StepsAre, BlobsAre, Once, Backed, CarryStore, OtherSteps, Indexes, Range, Calls;
    var v, s' := s.views[r], Apply(codec, s, Next(r));
    var e := v.log.disk.log[v.done];
    CarriedNext(codec, r, v, s.st, s.blobs);
    var n := LogOf(v);
    WriteKeepsOthers(s.st, v.job, e);
    assert e in v.log.disk.log;
    hide Executed, Carried;
    forall x | x in s'.views ensures Carried(codec, x, s'.views[x], s'.st.steps, s'.blobs) {
      if x != r {
        CarriedBeside(codec, x, s.views[x], s.st.steps, s.blobs, s'.st.steps, s'.blobs, r);
      }
    }
  }

  lemma StartKeeps(codec: Codec, s: Sys, v: View)
    requires Together(codec, s) && Enabled(codec, s, Start(v))
    ensures Together(codec, Apply(codec, s, Start(v)))
  {
    hide Executed;
    var r := v.job.run;
    assert Past(v) == [];
    forall i: int ensures (r, i) !in s.st.steps {
      assert (r, i) in s.st.steps ==> (r, i).0 in s.views;
    }
    assert Carried(codec, r, v, s.st.steps, s.blobs);
    hide Carried;
  }

  lemma StepKeeps(codec: Codec, s: Sys, e: Event)
    requires Together(codec, s) && Enabled(codec, s, e)
    ensures Together(codec, Apply(codec, s, e))
  {
    hide Together;
    match e
    case Start(v) => StartKeeps(codec, s, v);
    case Next(r) => NextKeeps(codec, s, r);
    case Elsewhere(st) => ElsewhereKeeps(codec, s, st);
  }

  lemma ElsewhereKeeps(codec: Codec, s: Sys, st: State)
    requires Together(codec, s) && st.steps == s.st.steps
    ensures Together(codec, s.(st := st))
  {
    hide Carried;
  }

  lemma {:induction false} RunKeeps(codec: Codec, s: Sys, events: seq<Event>)
    requires Together(codec, s) && Legal(codec, s, events)
    ensures Together(codec, After(codec, s, events))
    decreases |events|
  {
    hide Together, Apply;
    if events != [] {
      StepKeeps(codec, s, events[0]);
      RunKeeps(codec, Apply(codec, s, events[0]), events[1..]);
    }
  }

  /** However the runs' calls follow each other, every run's step records and artifacts are the ones it wrote so far. */
  lemma AlwaysTogether(codec: Codec, s: Sys)
    requires Reachable(codec, s)
    ensures Together(codec, s)
  {
    var st, events :| Leads(codec, st, events, s);
    assert Together(codec, Sys(st, map[], map[]));
    hide Together;
    RunKeeps(codec, Sys(st, map[], map[]), events);
  }

  // ---------------------------------------------------------------- resuming

  lemma {:induction false} CallMade(log: seq<Effect>, a: Action) returns (i: nat)
    requires a in Calls(log)
    ensures i < |log| && log[i] == Call(a)
  {
    var most, e := log[..|log| - 1], log[|log| - 1];
    if e == Call(a) {
      i := |log| - 1;
    } else {
      i := CallMade(most, a);
    }
  }

  /** The saves a checkpoint refers to were carried out before it. */
  lemma BackedUp(v: View, idx: int, step: Step)
    requires Executed(v) && v.done <= |v.log.disk.log| && Put(idx, step) in Calls(Past(v)) && step.checkpoint.Some?
    ensures idx in v.log.disk.saved && v.log.disk.saved[idx].memory.messages != []
    ensures Backs(v.job.codec, Past(v), step.checkpoint.value, v.log.disk.saved[idx])
  {
    hide Executed, Calls, Backs, Indexes, Range, Once, Own;
    var n := LogOf(v);
    var log := v.log.disk.log;
    var i := CallMade(Past(v), Put(idx, step));
    assert log[i] == Call(Put(idx, step)) && BackedAt(v.job.codec, log, v.log.disk.saved, i);
    assert Past(v) == log[..i] + log[i..v.done];
    BacksLater(v.job.codec, log[..i], log[i..v.done], step.checkpoint.value, v.log.disk.saved[idx]);
  }

  /** Every checkpointed step record leads back, through the size and digest checks, to what was saved with it. */
  lemma CheckpointsHold(codec: Codec, s: Sys, k: StepKey)
    requires Reachable(codec, s) && k in s.st.steps && s.st.steps[k].checkpoint.Some?
    ensures k.0 in s.views && k.1 in s.views[k.0].log.disk.saved
    ensures var what, cp := s.views[k.0].log.disk.saved[k.1], s.st.steps[k].checkpoint.value;
      && what.memory.messages != []
      && cp.memory.Some? && Fetch(codec, s.blobs, cp.memory.value) == Some(MemoryBlob(what.memory))
      && cp.workspace.Some? && Fetch(codec, s.blobs, cp.workspace.value) == Some(TreeBlob(what.entries))
  {
    hide Reachable, Executed, Indexes, SavedIn, Calls;
    AlwaysTogether(codec, s);
    var v, step := s.views[k.0], s.st.steps[k];
    assert Carried(codec, k.0, v, s.st.steps, s.blobs) && k == (k.0, k.1);
    hide Together;
    BackedUp(v, k.1, step);
    var what, cp := v.log.disk.saved[k.1], step.checkpoint.value;
    FetchStored(codec, s.blobs, cp.memory.value.key, MemoryBlob(what.memory));
    FetchStored(codec, s.blobs, cp.workspace.value.key, TreeBlob(what.entries));
  }

  /**
    Resuming from a checkpointed step starts with exactly the messages saved there and, under
    limits the tree fits, restores exactly the workspace tree saved there.
   */
  lemma ResumeRestores(job: Job, s: Sys, o: Origin, lim: Workspace.Limits, t: WorkspaceTree.Tree)
    requires Reachable(job.codec, s) && (o.run, o.step) in s.st.steps && s.st.steps[(o.run, o.step)].checkpoint.Some?
    ensures o.run in s.views && o.step in s.views[o.run].log.disk.saved
    ensures var what := s.views[o.run].log.disk.saved[o.step];
      && WorkspaceTree.WellFormed(t) && Workspace.SnapshotOf(t, what.entries) && Workspace.Fits(t, lim)
      && job.codec.size(TreeBlob(what.entries)) <= lim.maxArchive
      ==> Begin(job, s.st.steps, s.blobs, Some(o), lim) == Begun(what.memory.messages, Some(t), o.step + 1)
  {
    hide Reachable, Fetch, Workspace.Extract, Workspace.SnapshotOf, WorkspaceTree.WellFormed, Workspace.Fits;
    CheckpointsHold(job.codec, s, (o.run, o.step));
    var what := s.views[o.run].log.disk.saved[o.step];
    if WorkspaceTree.WellFormed(t) && Workspace.SnapshotOf(t, what.entries) && Workspace.Fits(t, lim) {
      Workspace.SnapshotRoundTrip(t, what.entries, lim);
    }
  }

  /** The messages resumed from the n-th step are those the origin had said and been told by the end of that step. */
  lemma ResumeConversation(codec: Codec, s: Sys, o: Origin, n: nat)
    requires Reachable(codec, s) && (o.run, o.step) in s.st.steps && s.st.steps[(o.run, o.step)].checkpoint.Some?
    ensures o.run in s.views
    ensures var v := s.views[o.run];
      o.step == v.start + n && n < |v.log.chat.replies| ==>
        && s.st.steps[(o.run, o.step)].checkpoint.value.memory.Some?
        && MemoryAt(codec, s.blobs, s.st.steps[(o.run, o.step)].checkpoint.value.memory.value) ==
           Some(Checkpointed(v.job, v.env, v.opening, v.start, n).memory)
  {
    hide Reachable, Fetch, StepsAre, BlobsAre, Ended, Checkpointed, Asked, Answer;
    CheckpointsHold(codec, s, (o.run, o.step));
    AlwaysTogether(codec, s);
    var v := s.views[o.run];
    assert Carried(codec, o.run, v, s.st.steps, s.blobs);
    if o.step == v.start + n && n < |v.log.chat.replies| {
      assert SavedAt(v.log.disk.saved, v.start + n, Checkpointed(v.job, v.env, v.opening, v.start, n));
    }
  }

  // ---------------------------------------------------------------- executing a run again

  function CarryAll(st: State, blobs: Blobs, job: Job, calls: seq<Effect>): (State, Blobs)
    decreases |calls|
  {
    if calls == [] then (st, blobs)
    else
      var (st', blobs') := (CarryStore(st, job, calls[0]), CarryBlobs(blobs, calls[0]));
      CarryAll(st', blobs', job, calls[1..])
  }

  /** The blob has the size and the digest that the reference records. */
  predicate Passes(codec: Codec, ref: ArtifactRef, blob: Blob) {
    (ref.size > 0 ==> codec.size(blob) == ref.size) && (ref.sha != "" ==> codec.digest(blob) == ref.sha)
  }

  /**
    A second execution of a run saves its own memory and workspace under the keys of the first,
    while the step record stays the first one. Resuming from that step then works exactly when both
    new blobs have the recorded size and digest and the new snapshot can be extracted, and it
    restores the recorded memory exactly when the second execution had said the same.
   */
  lemma RunAgain(
      st: State, blobs: Blobs, job: Job, env: Env, idx: int, was: seq<Message>, entries: seq<Workspace.Entry>,
      messages: seq<Message>, reply: Reply, lim: Workspace.Limits)
    requires (job.run, idx) in st.steps && st.steps[(job.run, idx)].checkpoint == Some(CheckpointOf(job, idx, was, entries))
    requires messages != [] && was != []
    ensures var (st', blobs') := CarryAll(st, blobs, job, TurnWrites(job, env, idx, messages, reply, None));
      var mem := RefTo(job.codec, MemKey(job, idx), MemoryBlob(Memory(job.run, idx, was)));
      var tree := RefTo(job.codec, TreeKey(job, idx), TreeBlob(entries));
      var snap := TreeBlob(env.entries(idx));
      var begun := Begin(job, st'.steps, blobs', Some(Origin(job.run, idx)), lim);
      && st'.steps == st.steps
      && (begun.Begun? <==>
           && Passes(job.codec, mem, MemoryBlob(Memory(job.run, idx, messages))) && Passes(job.codec, tree, snap)
           && job.codec.size(snap) <= lim.maxArchive && Workspace.Extract(lim, env.entries(idx)).ok)
      && (begun.Begun? ==> (begun.messages == was <==> messages == was))
  {
    hide Workspace.Extract;
    var calls := TurnWrites(job, env, idx, messages, reply, None);
    var mem, snap := MemoryBlob(Memory(job.run, idx, messages)), TreeBlob(env.entries(idx));
    assert calls[0] == SaveBlob(MemKey(job, idx), mem) && calls[1] == SaveBlob(TreeKey(job, idx), snap);
    assert calls[2].Call? && calls[2].action.Put? && calls[2].action.idx == idx && calls[3] == Call(Advance(idx)) && |calls| == 4;
    FourCalls(st, blobs, job, calls);
  }

  /** A run whose second execution says one message more: its step could be resumed from, and no longer can. */
  lemma RunAgainLoses(st: State, job: Job, env: Env, m: Message, reply: Reply, lim: Workspace.Limits)
    requires job.codec == Codec((b: Blob) => if b.MemoryBlob? && |b.memory.messages| == 1 then "one" else "other", (b: Blob) => 1)
    requires lim.maxArchive >= 1 && Workspace.Extract(lim, env.entries(0)).ok
    requires (job.run, 0) in st.steps && st.steps[(job.run, 0)].checkpoint == Some(CheckpointOf(job, 0, [m], env.entries(0)))
    ensures var (was, blobs) := CarryAll(st, map[], job, TurnWrites(job, env, 0, [m], reply, None));
      var (now, blobs') := CarryAll(was, blobs, job, TurnWrites(job, env, 0, [m, m], reply, None));
      && Begin(job, was.steps, blobs, Some(Origin(job.run, 0)), lim).Begun?
      && Begin(job, now.steps, blobs', Some(Origin(job.run, 0)), lim).LoadFailed?
  {
    hide Begin, TurnWrites, CarryAll;
    RunAgain(st, map[], job, env, 0, [m], env.entries(0), [m], reply, lim);
    var (was, blobs) := CarryAll(st, map[], job, TurnWrites(job, env, 0, [m], reply, None));
    RunAgain(was, blobs, job, env, 0, [m], env.entries(0), [m, m], reply, lim);
    var mem := RefTo(job.codec, MemKey(job, 0), MemoryBlob(Memory(job.run, 0, [m])));
    assert mem.sha == "one" && job.codec.digest(MemoryBlob(Memory(job.run, 0, [m, m]))) == "other" && "one"[1] != "other"[1];
  }

  lemma FourCalls(st: State, blobs: Blobs, job: Job, calls: seq<Effect>)
    requires |calls| == 4 && calls[0].SaveBlob? && calls[1].SaveBlob? && calls[2].Call? && calls[3].Call?
    requires calls[3].action.Advance? && calls[2].action.Put? && (job.run, calls[2].action.idx) in st.steps
    ensures var (st', blobs') := CarryAll(st, blobs, job, calls);
      st'.steps == st.steps && blobs' == blobs[calls[0].key := calls[0].blob][calls[1].key := calls[1].blob]
  {
    assert calls[1..][1..] == calls[2..] && calls[2..][1..] == calls[3..] && calls[3..][1..] == [];
    var b1 := blobs[calls[0].key := calls[0].blob];
    var b2, st1 := b1[calls[1].key := calls[1].blob], CarryStore(st, job, calls[2]);
    var st2 := CarryStore(st1, job, calls[3]);
    assert CarryAll(st, blobs, job, calls) == CarryAll(st, b1, job, calls[1..]);
    assert CarryAll(st, b1, job, calls[1..]) == CarryAll(st, b2, job, calls[2..]);
    assert CarryAll(st, b2, job, calls[2..]) == CarryAll(st1, b2, job, calls[3..]);
    assert CarryAll(st1, b2, job, calls[3..]) == CarryAll(st2, b2, job, []);
  }
}
