/**
  What Execute (pkg/engine/engine.go) writes, call by call: artifact saves, step records and the
  run's last step, in the order in which they are made.
 */
module EngineLog {
  import opened Common
  import opened Store
  import opened Artifacts
  import opened Worker
  import Workspace

  datatype Caps = Caps(maxTokens: int, costCap: real)

  datatype Job = Job(
    tenant: string, task: string, run: string, prompt: string, maxSteps: int, caps: Option<Caps>, pusher: bool, codec: Codec)

  /** What a checkpointed step was saved with. */
  datatype Saved = Saved(memory: Memory, entries: seq<Workspace.Entry>)

  /** One call: an artifact is saved, or the store is written. */
  datatype Effect = SaveBlob(key: ArtifactKey, blob: Blob) | Call(action: Action)

  /** All calls so far, the store calls among them, and what each checkpointed step was saved with. */
  datatype Disk = Disk(log: seq<Effect>, actions: seq<Action>, saved: map<int, Saved>)

  const BLANK := Disk([], [], map[])

  function MemKey(job: Job, idx: int): ArtifactKey { MemoryKey(job.tenant, job.task, job.run, idx) }

  function TreeKey(job: Job, idx: int): ArtifactKey { WorkspaceKey(job.tenant, job.task, job.run, idx) }

  function CheckpointOf(job: Job, idx: int, messages: seq<Message>, entries: seq<Workspace.Entry>): Checkpoint {
    Checkpoint(
      Some(RefTo(job.codec, MemKey(job, idx), MemoryBlob(Memory(job.run, idx, messages)))),
      Some(RefTo(job.codec, TreeKey(job, idx), TreeBlob(entries))))
  }

  function SaveAt(disk: Disk, key: ArtifactKey, blob: Blob): Disk { disk.(log := disk.log + [SaveBlob(key, blob)]) }

  function Do(disk: Disk, a: Action): Disk { disk.(log := disk.log + [Call(a)], actions := disk.actions + [a]) }

  /** PutStep of a step without a checkpoint. */
  function Note(disk: Disk, idx: int, kind: StepKind, ok: bool, code: string): Disk {
    Do(disk, Put(idx, Step(kind, ok, code, None)))
  }

  function Reach(disk: Disk, idx: int): Disk { Do(disk, Advance(idx)) }

  /** PutStep of a step with a checkpoint. */
  function Record(disk: Disk, idx: int, kind: StepKind, cp: Checkpoint, what: Saved): Disk {
    Do(disk, Put(idx, Step(kind, true, "", Some(cp)))).(saved := disk.saved[idx := what])
  }

  function Indexes(actions: seq<Action>): seq<int> {
    if actions == [] then []
    else
      var most, a := actions[..|actions| - 1], actions[|actions| - 1];
      if a.Put? then Indexes(most) + [a.idx] else Indexes(most)
  }

  function Range(start: int, n: nat): seq<int> { if n == 0 then [] else Range(start, n - 1) + [start + n - 1] }

  /** The index of the last UpdateLastStepIndex. */
  function Reached(actions: seq<Action>): Option<int> {
    if actions == [] then None
    else if actions[|actions| - 1].Advance? then Some(actions[|actions| - 1].idx)
    else Reached(actions[..|actions| - 1])
  }

  function Calls(log: seq<Effect>): seq<Action> {
    if log == [] then []
    else
      var most, e := log[..|log| - 1], log[|log| - 1];
      if e.Call? then Calls(most) + [e.action] else Calls(most)
  }

  // ---------------------------------------------------------------- what the log keeps

  ghost predicate SavedIn(log: seq<Effect>, key: ArtifactKey) {
    exists i :: 0 <= i < |log| && log[i].SaveBlob? && log[i].key == key
  }

  /** No key is saved twice. */
  ghost predicate Once(log: seq<Effect>) {
    forall i, j :: 0 <= i < j < |log| && log[i].SaveBlob? && log[j].SaveBlob? ==> log[i].key != log[j].key
  }

  /** Every key belongs to the run. */
  ghost predicate Own(log: seq<Effect>, run: string) {
    forall i :: 0 <= i < |log| && log[i].SaveBlob? ==> log[i].key.run == run
  }

  /** Every key belongs to an earlier step. */
  ghost predicate Below(log: seq<Effect>, next: int) {
    forall i :: 0 <= i < |log| && log[i].SaveBlob? ==> log[i].key.step < next
  }

  /** The call writes a step record with a checkpoint. */
  predicate Checkpoints(e: Effect) { e.Call? && e.action.Put? && e.action.step.checkpoint.Some? }

  /** The checkpoint refers to the saved memory and workspace, and both saves are in the log. */
  ghost predicate Backs(codec: Codec, log: seq<Effect>, cp: Checkpoint, what: Saved) {
    && cp.memory.Some? && cp.workspace.Some?
    && cp.memory.value == RefTo(codec, cp.memory.value.key, MemoryBlob(what.memory))
    && cp.workspace.value == RefTo(codec, cp.workspace.value.key, TreeBlob(what.entries))
    && SaveBlob(cp.memory.value.key, MemoryBlob(what.memory)) in log
    && SaveBlob(cp.workspace.value.key, TreeBlob(what.entries)) in log
  }

  ghost predicate BackedAt(codec: Codec, log: seq<Effect>, saved: map<int, Saved>, i: nat)
    requires i < |log|
  {
    Checkpoints(log[i]) ==>
      && log[i].action.idx in saved && saved[log[i].action.idx].memory.messages != []
      && Backs(codec, log[..i], log[i].action.step.checkpoint.value, saved[log[i].action.idx])
  }

  /** Memory and workspace are saved before the step that refers to them. */
  ghost predicate Backed(codec: Codec, log: seq<Effect>, saved: map<int, Saved>) {
    forall i :: 0 <= i < |log| ==> BackedAt(codec, log, saved, i)
  }

  ghost predicate LogOk(job: Job, disk: Disk) {
    disk.actions == Calls(disk.log) && Once(disk.log) && Own(disk.log, job.run) && Backed(job.codec, disk.log, disk.saved)
  }

  /** Steps start..next-1 are written, in order and once each, every checkpoint after what it refers to. */
  ghost predicate DiskOk(job: Job, start: int, next: int, disk: Disk) {
    && start <= next && Indexes(disk.actions) == Range(start, next - start)
    && (forall i :: i in disk.saved ==> i < next)
    && LogOk(job, disk)
  }

  lemma IndexesStep(actions: seq<Action>, a: Action)
    ensures Indexes(actions + [a]) == if a.Put? then Indexes(actions) + [a.idx] else Indexes(actions)
    ensures Reached(actions + [a]) == if a.Advance? then Some(a.idx) else Reached(actions)
  {
    assert (actions + [a])[..|actions|] == actions;
  }

  lemma CallsStep(log: seq<Effect>, e: Effect)
    ensures Calls(log + [e]) == if e.Call? then Calls(log) + [e.action] else Calls(log)
  {
    assert (log + [e])[..|log|] == log;
  }

  lemma BackedStep(codec: Codec, log: seq<Effect>, saved: map<int, Saved>, saved': map<int, Saved>, e: Effect)
    requires Backed(codec, log, saved)
    requires forall i :: 0 <= i < |log| && Checkpoints(log[i]) && log[i].action.idx in saved ==>
      log[i].action.idx in saved' && saved'[log[i].action.idx] == saved[log[i].action.idx]
    requires Checkpoints(e) ==>
      && e.action.idx in saved' && saved'[e.action.idx].memory.messages != []
      && Backs(codec, log, e.action.step.checkpoint.value, saved'[e.action.idx])
    ensures Backed(codec, log + [e], saved')
  {
    hide Backs;
    var all := log + [e];
    forall i | 0 <= i < |all| ensures BackedAt(codec, all, saved', i) {
      if i < |log| {
        assert BackedAt(codec, log, saved, i);
        assert all[..i] == log[..i] && all[i] == log[i];
      } else {
        assert all[..i] == log;
      }
    }
  }

  lemma SaveKeeps(job: Job, start: int, next: int, disk: Disk, key: ArtifactKey, blob: Blob)
    requires DiskOk(job, start, next, disk) && key.run == job.run && !SavedIn(disk.log, key)
    ensures DiskOk(job, start, next, SaveAt(disk, key, blob))
  {
    CallsStep(disk.log, SaveBlob(key, blob));
    BackedStep(job.codec, disk.log, disk.saved, disk.saved, SaveBlob(key, blob));
    hide Indexes, Range, Backed, Calls;
  }

  lemma DoKeepsLog(job: Job, disk: Disk, a: Action, saved: map<int, Saved>)
    requires LogOk(job, disk) && Backed(job.codec, disk.log + [Call(a)], saved)
    ensures LogOk(job, Do(disk, a).(saved := saved))
  {
    CallsStep(disk.log, Call(a));
    hide Calls, Backed;
  }

  lemma NoteKeeps(job: Job, start: int, next: int, disk: Disk, kind: StepKind, ok: bool, code: string)
    requires DiskOk(job, start, next, disk)
    ensures DiskOk(job, start, next + 1, Note(disk, next, kind, ok, code))
    ensures Reached(Note(disk, next, kind, ok, code).actions) == Reached(disk.actions)
  {
    var a := Put(next, Step(kind, ok, code, None));
    IndexesStep(disk.actions, a);
    BackedStep(job.codec, disk.log, disk.saved, disk.saved, Call(a));
    DoKeepsLog(job, disk, a, disk.saved);
    hide Indexes, LogOk, Reached;
  }

  lemma ReachKeeps(job: Job, start: int, next: int, disk: Disk, idx: int)
    requires DiskOk(job, start, next, disk)
    ensures DiskOk(job, start, next, Reach(disk, idx)) && Reached(Reach(disk, idx).actions) == Some(idx)
  {
    IndexesStep(disk.actions, Advance(idx));
    BackedStep(job.codec, disk.log, disk.saved, disk.saved, Call(Advance(idx)));
    DoKeepsLog(job, disk, Advance(idx), disk.saved);
    hide Indexes, Range, LogOk, Reached;
  }

  lemma RecordKeeps(job: Job, start: int, next: int, disk: Disk, kind: StepKind, cp: Checkpoint, what: Saved)
    requires DiskOk(job, start, next, disk) && Backs(job.codec, disk.log, cp, what) && what.memory.messages != []
    ensures DiskOk(job, start, next + 1, Record(disk, next, kind, cp, what))
    ensures Reached(Record(disk, next, kind, cp, what).actions) == Reached(disk.actions)
  {
    hide LogOk, Reached, Backs, Backed, Indexes;
    var a := Put(next, Step(kind, true, "", Some(cp)));
    IndexesStep(disk.actions, a);
    RecordKeepsLog(job, start, next, disk, kind, cp, what);
  }

  lemma RecordKeepsLog(job: Job, start: int, next: int, disk: Disk, kind: StepKind, cp: Checkpoint, what: Saved)
    requires DiskOk(job, start, next, disk) && Backs(job.codec, disk.log, cp, what) && what.memory.messages != []
    ensures LogOk(job, Record(disk, next, kind, cp, what))
  {
    hide Backs, Backed, Calls, Indexes, Range, Reached, Once, Own;
    var a, saved := Put(next, Step(kind, true, "", Some(cp))), disk.saved[next := what];
    PutBelow(disk.actions, start, next - start);
    forall i | 0 <= i < |disk.log| && Checkpoints(disk.log[i]) ensures disk.log[i].action.idx < next {
      CallIn(disk.log, i);
    }
    BackedStep(job.codec, disk.log, disk.saved, saved, Call(a));
    DoKeepsLog(job, disk, a, saved);
  }

  lemma {:induction false} CallIn(log: seq<Effect>, i: nat)
    requires i < |log| && log[i].Call?
    ensures log[i].action in Calls(log)
  {
    if i < |log| - 1 {
      CallIn(log[..|log| - 1], i);
    }
  }

  lemma BacksLater(codec: Codec, log: seq<Effect>, more: seq<Effect>, cp: Checkpoint, what: Saved)
    requires Backs(codec, log, cp, what)
    ensures Backs(codec, log + more, cp, what)
  {
  }

  lemma SavedBacks(job: Job, idx: int, log: seq<Effect>, messages: seq<Message>, entries: seq<Workspace.Entry>)
    requires SaveBlob(MemKey(job, idx), MemoryBlob(Memory(job.run, idx, messages))) in log
    requires SaveBlob(TreeKey(job, idx), TreeBlob(entries)) in log
    ensures Backs(job.codec, log, CheckpointOf(job, idx, messages, entries), Saved(Memory(job.run, idx, messages), entries))
  {
  }

  /** The indexes written so far are below the next one. */
  lemma {:induction false} PutBelow(actions: seq<Action>, start: int, n: nat)
    requires Indexes(actions) == Range(start, n)
    ensures forall a :: a in actions && a.Put? ==> start <= a.idx < start + n
  {
    RangeHas(start, n);
    forall a | a in actions && a.Put? ensures a.idx in Indexes(actions) {
      IndexOf(actions, a);
    }
  }

  lemma {:induction false} RangeHas(start: int, n: nat)
    ensures |Range(start, n)| == n && forall i :: 0 <= i < n ==> Range(start, n)[i] == start + i
    ensures forall x :: x in Range(start, n) <==> start <= x < start + n
  {
    if n > 0 {
      RangeHas(start, n - 1);
    }
  }

  lemma {:induction false} IndexOf(actions: seq<Action>, a: Action)
    requires a in actions && a.Put?
    ensures a.idx in Indexes(actions)
  {
    var most := actions[..|actions| - 1];
    assert actions == most + [actions[|actions| - 1]];
    if a in most {
      IndexOf(most, a);
    }
  }
}
