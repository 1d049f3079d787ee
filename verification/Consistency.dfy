/**
  The consistency checker of internal/ops/consistency.go: a scan that reports drift between tasks,
  runs and steps, and a repair that works from the report alone, the expected step index being
  parsed back out of its printed detail.
 */
module Consistency {
  import opened Common
  import opened Store
  import opened Listing
  import opened Decimal
  import opened MemoryStoreObject
  import Lifecycle
  import LifecycleLineage

  datatype IssueType = MissingActiveRun | TaskRunStatusMismatch | RunLastStepDrift

  datatype Issue = Issue(kind: IssueType, tenant: string, task: string, run: string, detail: string)

  // ---------------------------------------------------------------- details

  const EXPECTED := "expected="

  function DriftDetail(last: int, want: int): string {
    "run.last_step_index=" + Itoa(last) + " " + EXPECTED + Itoa(want)
  }

  function ParseExpected(detail: string): Option<int> {
    var parts := Split(detail, EXPECTED);
    if |parts| != 2 then None else Atoi(TrimSpace(parts[1]))
  }

  lemma ItoaHasNo(n: int, c: char)
    requires c != '-' && !('0' <= c <= '9')
    ensures c !in Itoa(n)
  {
    DigitsParse(if n < 0 then -n else n);
  }

  /** The printed detail gives back the printed index. */
  lemma DetailRoundTrip(last: int, want: nat)
    ensures ParseExpected(DriftDetail(last, want)) == Some(want)
  {
    var a := "run.last_step_index=" + Itoa(last) + " ";
    ItoaHasNo(last, 'c');
    ItoaHasNo(want, 'c');
    assert DriftDetail(last, want) == a + EXPECTED + Itoa(want);
    SplitOnce(a, EXPECTED, Itoa(want), 4);
    TrimDigits(want);
    AtoiItoa(want);
  }

  // ---------------------------------------------------------------- Check

  function TaskName(s: TaskStatus): string {
    match s
    case Queued => "QUEUED" case Running => "RUNNING" case Succeeded => "SUCCEEDED"
    case Failed => "FAILED" case Aborted => "ABORTED"
  }

  function RunName(s: RunStatus): string {
    match s
    case RunQueued => "RUN_QUEUED" case RunRunning => "RUNNING" case RunSucceeded => "SUCCEEDED"
    case RunFailed => "FAILED" case RunAborted => "ABORTED"
  }

  /** taskRunStatusMismatch: empty when the two agree. */
  function Mismatch(task: TaskStatus, run: RunStatus): (s: string)
    ensures s == "" <==> task == MapStatus(run)
  {
    var text := "task=" + TaskName(task) + " run=" + RunName(run);
    match run
    case RunQueued => if task != Queued then text else ""
    case RunRunning => if task != Running then text else ""
    case RunSucceeded => if task != Succeeded then text else ""
    case RunFailed => if task != Failed then text else ""
    case RunAborted => if task != Aborted then text else ""
  }

  /** The issues Check reports for one task, given the runs it listed. */
  function TaskIssue(tasks: map<string, Task>, runs: map<RunKey, Run>, listed: set<RunKey>, t: string): seq<Issue>
    requires t in tasks && listed <= runs.Keys
  {
    var task := tasks[t];
    var k := (t, task.activeRun);
    if k !in listed then [Issue(MissingActiveRun, task.tenant, t, task.activeRun, "task.active_run_id does not exist")]
    else
      var mismatch := Mismatch(task.status, runs[k].status);
      if mismatch != "" then [Issue(TaskRunStatusMismatch, task.tenant, t, task.activeRun, mismatch)] else []
  }

  const STEP_LIMIT := 100000

  /** The largest index among the steps listed for a run, -1 if there are none. */
  function Largest(idxs: seq<int>): int
    decreases |idxs|
  {
    if idxs == [] then -1
    else
      var m, x := Largest(idxs[..|idxs| - 1]), idxs[|idxs| - 1];
      if x > m then x else m
  }

  ghost function MaxStep(steps: map<StepKey, Step>, r: string): int {
    Largest(Truncated(Ascending(Indexes(steps, r, 0)), STEP_LIMIT))
  }

  lemma {:induction false} LargestBounds(idxs: seq<int>)
    requires forall x :: x in idxs ==> x >= 0
    ensures forall x :: x in idxs ==> x <= Largest(idxs)
    ensures if idxs == [] then Largest(idxs) == -1 else Largest(idxs) in idxs
    decreases |idxs|
  {
    if idxs != [] {
      var most := idxs[..|idxs| - 1];
      var last := idxs[|idxs| - 1];
      assert idxs == most + [last] && last in idxs;
      assert forall x :: x in most ==> x in idxs;
      LargestBounds(most);
    }
  }

  /** Up to a hundred thousand steps, the scan finds the largest non-negative step index of the run. */
  lemma MaxStepIsMax(steps: map<StepKey, Step>, r: string)
    requires |Indexes(steps, r, 0)| <= STEP_LIMIT
    ensures forall i: int :: i >= 0 && (r, i) in steps ==> i <= MaxStep(steps, r)
    ensures MaxStep(steps, r) == -1 || (r, MaxStep(steps, r)) in steps
  {
    var all := Indexes(steps, r, 0);
    AscendingIsSorted(all);
    LargestBounds(Ascending(all));
    forall i: int | i >= 0 && (r, i) in steps ensures i <= MaxStep(steps, r) {
      assert i in all;
    }
    if all != {} {
      assert Ascending(all) != [];
      assert MaxStep(steps, r) in all;
    }
  }

  function DriftIssue(run: Run, k: RunKey, max: int): seq<Issue> {
    if max >= 0 && run.lastStep != max then [Issue(RunLastStepDrift, run.tenant, k.0, k.1, DriftDetail(run.lastStep, max))] else []
  }

  function TaskIssues(st: State, listed: set<RunKey>, tasks: seq<string>): seq<Issue>
    requires listed <= st.runs.Keys && forall t :: t in tasks ==> t in st.tasks
    decreases |tasks|
  {
    if tasks == [] then []
    else TaskIssues(st, listed, tasks[..|tasks| - 1]) + TaskIssue(st.tasks, st.runs, listed, tasks[|tasks| - 1])
  }

  ghost function RunIssues(st: State, runs: seq<RunKey>): seq<Issue>
    requires forall k :: k in runs ==> k in st.runs
    decreases |runs|
  {
    if runs == [] then []
    else
      var k := runs[|runs| - 1];
      RunIssues(st, runs[..|runs| - 1]) + DriftIssue(st.runs[k], k, MaxStep(st.steps, k.1))
  }

  ghost predicate Listed(st: State, tasks: seq<string>, runs: seq<RunKey>) {
    (forall t :: t in tasks ==> t in st.tasks) && (forall k :: k in runs ==> k in st.runs)
  }

  ghost function Report(st: State, tasks: seq<string>, runs: seq<RunKey>): seq<Issue>
    requires Listed(st, tasks, runs)
  {
    TaskIssues(st, (set k | k in runs), tasks) + RunIssues(st, runs)
  }

  /** The task's status is the one its active run calls for. */
  predicate Agree(task: TaskStatus, run: RunStatus) {
    match run
    case RunQueued => task == Queued
    case RunRunning => task == Running
    case RunSucceeded => task == Succeeded
    case RunFailed => task == Failed
    case RunAborted => task == Aborted
  }

  /**
    What Check has to say, issue by issue: a listed task whose active run is not listed, a listed task that
    does not agree with its listed active run, a listed run whose last step is not its largest stored one.
   */
  ghost predicate IssueOf(st: State, tasks: seq<string>, runs: seq<RunKey>, issue: Issue)
    requires Listed(st, tasks, runs)
  {
    var t, k := issue.task, (issue.task, issue.run);
    match issue.kind
    case MissingActiveRun =>
      && t in tasks && issue.tenant == st.tasks[t].tenant && issue.run == st.tasks[t].activeRun && k !in runs
      && issue.detail == "task.active_run_id does not exist"
    case TaskRunStatusMismatch =>
      && t in tasks && issue.tenant == st.tasks[t].tenant && issue.run == st.tasks[t].activeRun && k in runs
      && !Agree(st.tasks[t].status, st.runs[k].status)
      && issue.detail == "task=" + TaskName(st.tasks[t].status) + " run=" + RunName(st.runs[k].status)
    case RunLastStepDrift =>
      && k in runs && issue.tenant == st.runs[k].tenant
      && MaxStep(st.steps, issue.run) >= 0 && st.runs[k].lastStep != MaxStep(st.steps, issue.run)
      && issue.detail == DriftDetail(st.runs[k].lastStep, MaxStep(st.steps, issue.run))
  }

  lemma TaskIssueIs(st: State, tasks: seq<string>, runs: seq<RunKey>, t: string, issue: Issue)
    requires Listed(st, tasks, runs) && t in tasks
    ensures issue in TaskIssue(st.tasks, st.runs, (set k | k in runs), t) <==>
      issue.task == t && !issue.kind.RunLastStepDrift? && IssueOf(st, tasks, runs, issue)
  {
    hide MaxStep, DriftDetail, TaskName, RunName;
  }

  lemma DriftIssueIs(st: State, tasks: seq<string>, runs: seq<RunKey>, k: RunKey, issue: Issue)
    requires Listed(st, tasks, runs) && k in runs
    ensures issue in DriftIssue(st.runs[k], k, MaxStep(st.steps, k.1)) <==>
      (issue.task, issue.run) == k && issue.kind.RunLastStepDrift? && IssueOf(st, tasks, runs, issue)
  {
    hide MaxStep, DriftDetail, TaskName, RunName;
  }

  lemma IssueAbout(st: State, tasks: seq<string>, runs: seq<RunKey>, issue: Issue)
    requires Listed(st, tasks, runs) && IssueOf(st, tasks, runs, issue)
    ensures if issue.kind.RunLastStepDrift? then (issue.task, issue.run) in runs else issue.task in tasks
  {
    hide MaxStep, DriftDetail, TaskName, RunName;
  }

  lemma ReportIs(st: State, tasks: seq<string>, runs: seq<RunKey>, issue: Issue)
    requires Listed(st, tasks, runs)
    ensures issue in Report(st, tasks, runs) <==> IssueOf(st, tasks, runs, issue)
  {
    hide MaxStep, TaskIssues, RunIssues, TaskIssue, DriftIssue, IssueOf;
    TaskIssueFrom(st, (set k | k in runs), tasks, issue);
    RunIssueFrom(st, runs, issue);
    forall t | t in tasks {
      TaskIssueIs(st, tasks, runs, t, issue);
    }
    forall k | k in runs {
      DriftIssueIs(st, tasks, runs, k, issue);
    }
    if IssueOf(st, tasks, runs, issue) {
      IssueAbout(st, tasks, runs, issue);
    }
  }

  method CheckTasks(store: MemoryStore, tasks: seq<string>, runs: seq<RunKey>) returns (issues: seq<Issue>)
    requires Listed(store.Value(), tasks, runs)
    ensures issues == TaskIssues(store.Value(), (set k | k in runs), tasks)
  {
    issues := [];
    var listed := set k | k in runs;
    ghost var st := store.Value();
    for i := 0 to |tasks|
      invariant forall t :: t in tasks[..i] ==> t in tasks
      invariant issues == TaskIssues(st, listed, tasks[..i])
    {
      assert tasks[..i + 1][..i] == tasks[..i];
      issues := issues + TaskIssue(store.tasks, store.runs, listed, tasks[i]);
    }
    assert tasks[..|tasks|] == tasks;
  }

  method CheckRuns(store: MemoryStore, runs: seq<RunKey>) returns (issues: seq<Issue>)
    requires Listed(store.Value(), [], runs)
    ensures issues == RunIssues(store.Value(), runs)
  {
    issues := [];
    for i := 0 to |runs|
      invariant forall k :: k in runs[..i] ==> k in runs
      invariant issues == RunIssues(store.Value(), runs[..i])
    {
      assert runs[..i + 1][..i] == runs[..i];
      var k := runs[i];
      var steps := store.ListSteps(k.1, 0, STEP_LIMIT);
      var maxStep := LargestOf(steps);
      issues := issues + DriftIssue(store.runs[k], k, maxStep);
    }
    assert runs[..|runs|] == runs;
  }

  method Check(store: MemoryStore, tenant: string, limit: int)
    returns (tasks: seq<string>, runs: seq<RunKey>, issues: seq<Issue>)
    ensures var cap := if limit <= 0 then 500 else limit;
      ListingOf(MatchingTasks(store.tasks, tenant), tasks, cap) && ListingOf(MatchingRuns(store.runs, tenant, {}), runs, cap * 4)
    ensures Listed(store.Value(), tasks, runs) && issues == Report(store.Value(), tasks, runs)
    ensures forall issue :: issue in issues <==> IssueOf(store.Value(), tasks, runs, issue)
  {
    hide IssueOf;
    var cap := if limit <= 0 then 500 else limit;
    tasks := store.ListTasks(tenant, cap);
    runs := store.ListRuns(tenant, {}, cap * 4);
    assert forall t :: t in tasks ==> t in MatchingTasks(store.tasks, tenant);
    assert forall k :: k in runs ==> k in MatchingRuns(store.runs, tenant, {});
    var first := CheckTasks(store, tasks, runs);
    var second := CheckRuns(store, runs);
    issues := first + second;
    forall issue ensures issue in issues <==> IssueOf(store.Value(), tasks, runs, issue) {
      ReportIs(store.Value(), tasks, runs, issue);
    }
  }

  method LargestOf(idxs: seq<int>) returns (max: int)
    ensures max == Largest(idxs)
  {
    max := -1;
    for i := 0 to |idxs|
      invariant max == Largest(idxs[..i])
    {
      assert idxs[..i + 1][..i] == idxs[..i];
      if idxs[i] > max {
        max := idxs[i];
      }
    }
    assert idxs[..|idxs|] == idxs;
  }

  // ---------------------------------------------------------------- Repair

  function Fix(st: State, issue: Issue): (State, bool) {
    match issue.kind
    case TaskRunStatusMismatch =>
      if (issue.task, issue.run) !in st.runs then (st, false)
      else
        var (st', err) := UpdateTaskStatusForRun(st, issue.task, issue.run, ANY_STATUS, MapStatus(st.runs[(issue.task, issue.run)].status));
        (st', err == Ok)
    case RunLastStepDrift =>
      (match ParseExpected(issue.detail)
       case None => (st, false)
       case Some(want) => var (st', err) := UpdateLastStep(st, issue.task, issue.run, want); (st', err == Ok))
    case MissingActiveRun =>
      var (st', err) := UpdateTaskStatus(st, issue.task, ANY_STATUS, Failed);
      (st', err == Ok)
  }

  /**
    A repair sets a mismatched task to what its active run calls for, a drifting run's last step to the index
    printed in the issue, and a task without its active run to FAILED; if it cannot, nothing changes.
   */
  ghost predicate FixedRight(st: State, st': State, issue: Issue, ok: bool) {
    var t, k := issue.task, (issue.task, issue.run);
    && (ok <==>
         match issue.kind
         case MissingActiveRun => t in st.tasks
         case TaskRunStatusMismatch => k in st.runs && t in st.tasks && st.tasks[t].activeRun == issue.run
         case RunLastStepDrift => k in st.runs && ParseExpected(issue.detail).Some?)
    && (!ok ==> st' == st)
    && (ok ==>
         match issue.kind
         case MissingActiveRun => st' == st.(tasks := st.tasks[t := st.tasks[t].(status := Failed)])
         case TaskRunStatusMismatch =>
           && t in st'.tasks && st' == st.(tasks := st.tasks[t := st.tasks[t].(status := st'.tasks[t].status)])
           && Agree(st'.tasks[t].status, st.runs[k].status)
         case RunLastStepDrift =>
           st' == st.(runs := st.runs[k := st.runs[k].(lastStep := ParseExpected(issue.detail).value)]))
  }

  lemma FixIs(st: State, issue: Issue)
    ensures FixedRight(st, Fix(st, issue).0, issue, Fix(st, issue).1)
  {
    hide ParseExpected;
    if issue.task in st.tasks {
      AnyStatus(st.tasks[issue.task].status);
    }
  }

  function Repaired(st: State, issues: seq<Issue>): State
    decreases |issues|
  {
    if issues == [] then st else Fix(Repaired(st, issues[..|issues| - 1]), issues[|issues| - 1]).0
  }

  /** How many of the repairs succeed, each on what the ones before it left. */
  function Applied(st: State, issues: seq<Issue>): (n: nat)
    ensures n <= |issues|
    decreases |issues|
  {
    if issues == [] then 0
    else
      var most, last := issues[..|issues| - 1], issues[|issues| - 1];
      Applied(st, most) + if Fix(Repaired(st, most), last).1 then 1 else 0
  }

  method Repair(store: MemoryStore, issues: seq<Issue>) returns (applied: nat, failed: nat)
    modifies store
    ensures store.Value() == Repaired(old(store.Value()), issues)
    ensures applied == Applied(old(store.Value()), issues) && failed == |issues| - applied
  {
    hide Fix;
    applied, failed := 0, 0;
    ghost var st := store.Value();
    for i := 0 to |issues|
      invariant store.Value() == Repaired(st, issues[..i]) && applied == Applied(st, issues[..i]) && applied + failed == i
    {
      assert issues[..i + 1][..i] == issues[..i];
      var ok := RepairOne(store, issues[i]);
      if ok { applied := applied + 1; } else { failed := failed + 1; }
    }
    assert issues[..|issues|] == issues;
  }

  method RepairOne(store: MemoryStore, issue: Issue) returns (ok: bool)
    modifies store
    ensures (store.Value(), ok) == Fix(old(store.Value()), issue)
    ensures FixedRight(old(store.Value()), store.Value(), issue, ok)
  {
    hide FixedRight;
    FixIs(store.Value(), issue);
    var any := [Queued, Running, Succeeded, Failed, Aborted];
    assert Statuses(any) == ANY_STATUS;
    var err;
    match issue.kind {
      case TaskRunStatusMismatch =>
        var run := store.GetRun(issue.task, issue.run);
        if run.None? {
          return false;
        }
        err := store.UpdateTaskStatusForRun(issue.task, issue.run, any, MapStatus(run.value.status));
      case RunLastStepDrift =>
        var want := ParseExpected(issue.detail);
        if want.None? {
          return false;
        }
        err := store.UpdateLastStepIndex(issue.task, issue.run, want.value);
      case MissingActiveRun =>
        err := store.UpdateTaskStatus(issue.task, any, Failed);
    }
    ok := err == Ok;
  }

  // ---------------------------------------------------------------- what is reported

  /** Check stays silent exactly when the listed tasks agree with listed active runs and no listed run drifts. */
  ghost predicate Clean(st: State, tasks: seq<string>, runs: seq<RunKey>)
    requires Listed(st, tasks, runs)
  {
    && (forall t :: t in tasks ==> (t, st.tasks[t].activeRun) in runs)
    && (forall t :: t in tasks ==> st.tasks[t].status == MapStatus(st.runs[(t, st.tasks[t].activeRun)].status))
    && (forall k :: k in runs ==> MaxStep(st.steps, k.1) < 0 || st.runs[k].lastStep == MaxStep(st.steps, k.1))
  }

  lemma {:induction false} TaskIssueFrom(st: State, listed: set<RunKey>, tasks: seq<string>, issue: Issue)
    requires listed <= st.runs.Keys && forall t :: t in tasks ==> t in st.tasks
    ensures issue in TaskIssues(st, listed, tasks) <==>
      exists t :: t in tasks && issue in TaskIssue(st.tasks, st.runs, listed, t)
    decreases |tasks|
  {
    hide TaskIssue;
    if tasks != [] {
      var most, last := tasks[..|tasks| - 1], tasks[|tasks| - 1];
      TaskIssueFrom(st, listed, most, issue);
      assert tasks == most + [last];
    }
  }

  lemma {:induction false} RunIssueFrom(st: State, runs: seq<RunKey>, issue: Issue)
    requires forall k :: k in runs ==> k in st.runs
    ensures issue in RunIssues(st, runs) <==>
      exists k :: k in runs && issue in DriftIssue(st.runs[k], k, MaxStep(st.steps, k.1))
    decreases |runs|
  {
    hide DriftIssue, MaxStep;
    if runs != [] {
      var most, last := runs[..|runs| - 1], runs[|runs| - 1];
      RunIssueFrom(st, most, issue);
      assert runs == most + [last];
    }
  }

  lemma SilentIffClean(st: State, tasks: seq<string>, runs: seq<RunKey>)
    requires Listed(st, tasks, runs)
    ensures Report(st, tasks, runs) == [] <==> Clean(st, tasks, runs)
  {
    var listed := set k | k in runs;
    hide MaxStep, DriftDetail, TaskIssues, RunIssues;
    if Clean(st, tasks, runs) {
      if TaskIssues(st, listed, tasks) != [] {
        TaskIssueFrom(st, listed, tasks, TaskIssues(st, listed, tasks)[0]);
      }
      if RunIssues(st, runs) != [] {
        RunIssueFrom(st, runs, RunIssues(st, runs)[0]);
      }
    } else if t :| t in tasks && TaskIssue(st.tasks, st.runs, listed, t) != [] {
      TaskIssueFrom(st, listed, tasks, TaskIssue(st.tasks, st.runs, listed, t)[0]);
    } else {
      forall t | t in tasks
        ensures (t, st.tasks[t].activeRun) in runs
        ensures st.tasks[t].status == MapStatus(st.runs[(t, st.tasks[t].activeRun)].status)
      {
        assert TaskIssue(st.tasks, st.runs, listed, t) == [];
      }
      var k :| k in runs && DriftIssue(st.runs[k], k, MaxStep(st.steps, k.1)) != [];
      RunIssueFrom(st, runs, DriftIssue(st.runs[k], k, MaxStep(st.steps, k.1))[0]);
    }
  }

  // ---------------------------------------------------------------- repair, issue by issue

  /** The issue is one Check could have reported in this state. */
  ghost predicate Genuine(st: State, listed: set<RunKey>, issue: Issue) {
    match issue.kind
    case MissingActiveRun => issue.task in st.tasks && (issue.task, st.tasks[issue.task].activeRun) !in listed
    case TaskRunStatusMismatch =>
      issue.task in st.tasks && issue.run == st.tasks[issue.task].activeRun && (issue.task, issue.run) in listed
    case RunLastStepDrift =>
      (issue.task, issue.run) in st.runs && ParseExpected(issue.detail) == Some(MaxStep(st.steps, issue.run))
  }

  ghost predicate Reported(issues: seq<Issue>, kind: IssueType, k: RunKey) {
    exists i :: 0 <= i < |issues| && issues[i].kind == kind && (issues[i].task, issues[i].run) == k
  }

  /** The run table after these repairs: only last steps differ, and only of runs reported to drift. */
  ghost predicate RunsAfter(runs: map<RunKey, Run>, steps: map<StepKey, Step>, issues: seq<Issue>, now: map<RunKey, Run>) {
    && now.Keys == runs.Keys
    && forall k :: k in runs ==>
         now[k] == if Reported(issues, RunLastStepDrift, k) then runs[k].(lastStep := MaxStep(steps, k.1)) else runs[k]
  }

  /** A task after these repairs: only its status may differ, and with a listed active run only where a mismatch was reported. */
  ghost predicate TaskAfter(t: string, task: Task, runs: map<RunKey, Run>, listed: set<RunKey>, issues: seq<Issue>, now: Task)
    requires listed <= runs.Keys
  {
    var k := (t, task.activeRun);
    && now == task.(status := now.status)
    && (k in listed ==>
         now.status == if Reported(issues, TaskRunStatusMismatch, k) then MapStatus(runs[k].status) else task.status)
  }

  ghost predicate TasksAfter(
      tasks: map<string, Task>, runs: map<RunKey, Run>, listed: set<RunKey>, issues: seq<Issue>,
      now: map<string, Task>)
    requires listed <= runs.Keys
  {
    now.Keys == tasks.Keys && forall t :: t in tasks ==> TaskAfter(t, tasks[t], runs, listed, issues, now[t])
  }

  lemma ReportedStep(issues: seq<Issue>, issue: Issue, kind: IssueType, k: RunKey)
    ensures Reported(issues + [issue], kind, k) <==>
      Reported(issues, kind, k) || (issue.kind == kind && (issue.task, issue.run) == k)
  {
    var all := issues + [issue];
    if Reported(issues, kind, k) {
      var i :| 0 <= i < |issues| && issues[i].kind == kind && (issues[i].task, issues[i].run) == k;
      assert all[i] == issues[i];
    }
    assert all[|issues|] == issue;
  }

  lemma FixRuns(st: State, listed: set<RunKey>, issues: seq<Issue>, issue: Issue, now: State)
    requires Genuine(st, listed, issue) && RunsAfter(st.runs, st.steps, issues, now.runs)
    ensures RunsAfter(st.runs, st.steps, issues + [issue], Fix(now, issue).0.runs)
  {
    hide MaxStep, ParseExpected, Reported, Fix;
    FixRunTable(now, issue);
    var runs' := Fix(now, issue).0.runs;
    forall k | k in st.runs
      ensures runs'[k] == if Reported(issues + [issue], RunLastStepDrift, k) then st.runs[k].(lastStep := MaxStep(st.steps, k.1)) else st.runs[k]
    {
      ReportedStep(issues, issue, RunLastStepDrift, k);
    }
  }

  /** What one repair does to the run table. */
  lemma FixRunTable(now: State, issue: Issue)
    ensures var runs' := Fix(now, issue).0.runs; var k, want := (issue.task, issue.run), ParseExpected(issue.detail);
      && (!issue.kind.RunLastStepDrift? ==> runs' == now.runs)
      && (issue.kind.RunLastStepDrift? && k in now.runs && want.Some? ==> runs' == now.runs[k := now.runs[k].(lastStep := want.value)])
      && runs'.Keys == now.runs.Keys
  {
    hide ParseExpected;
  }

  /** What one repair does to the task table. */
  lemma FixTaskTable(now: State, issue: Issue)
    ensures var tasks' := Fix(now, issue).0.tasks; var t := issue.task; var k := (t, issue.run);
      && (t !in now.tasks || issue.kind.RunLastStepDrift? ==> tasks' == now.tasks)
      && (t in now.tasks && issue.kind.MissingActiveRun? ==> tasks' == now.tasks[t := now.tasks[t].(status := Failed)])
      && (t in now.tasks && issue.kind.TaskRunStatusMismatch? && k in now.runs && now.tasks[t].activeRun == issue.run ==>
            tasks' == now.tasks[t := now.tasks[t].(status := MapStatus(now.runs[k].status))])
  {
    hide ParseExpected;
    if issue.task in now.tasks { AnyStatus(now.tasks[issue.task].status); }
  }

  lemma FixTask(st: State, listed: set<RunKey>, issues: seq<Issue>, issue: Issue, now: State, t: string)
    requires listed <= st.runs.Keys && Genuine(st, listed, issue)
    requires TasksAfter(st.tasks, st.runs, listed, issues, now.tasks) && t in st.tasks && t in Fix(now, issue).0.tasks
    requires now.runs.Keys == st.runs.Keys && forall k :: k in st.runs ==> now.runs[k].status == st.runs[k].status
    ensures TaskAfter(t, st.tasks[t], st.runs, listed, issues + [issue], Fix(now, issue).0.tasks[t])
  {
    hide ParseExpected, MaxStep, Reported, Fix;
    FixTaskTable(now, issue);
    assert TaskAfter(t, st.tasks[t], st.runs, listed, issues, now.tasks[t]);
    ReportedStep(issues, issue, TaskRunStatusMismatch, (t, st.tasks[t].activeRun));
    if issue.kind.TaskRunStatusMismatch? {
      assert TaskAfter(issue.task, st.tasks[issue.task], st.runs, listed, issues, now.tasks[issue.task]);
    }
  }

  lemma FixTasks(st: State, listed: set<RunKey>, issues: seq<Issue>, issue: Issue, now: State)
    requires listed <= st.runs.Keys && Genuine(st, listed, issue)
    requires TasksAfter(st.tasks, st.runs, listed, issues, now.tasks)
    requires now.runs.Keys == st.runs.Keys && forall k :: k in st.runs ==> now.runs[k].status == st.runs[k].status
    ensures TasksAfter(st.tasks, st.runs, listed, issues + [issue], Fix(now, issue).0.tasks)
  {
    hide TaskAfter, Genuine, ParseExpected;
    var tasks' := Fix(now, issue).0.tasks;
    assert tasks'.Keys == now.tasks.Keys;
    forall t | t in st.tasks ensures TaskAfter(t, st.tasks[t], st.runs, listed, issues + [issue], tasks'[t]) {
      FixTask(st, listed, issues, issue, now, t);
    }
  }

  lemma FixSteps(now: State, issue: Issue)
    ensures Fix(now, issue).0.steps == now.steps
  {
    hide ParseExpected;
  }

  lemma NoRepairs(st: State, listed: set<RunKey>)
    requires listed <= st.runs.Keys
    ensures RunsAfter(st.runs, st.steps, [], st.runs) && TasksAfter(st.tasks, st.runs, listed, [], st.tasks)
  {
    hide MaxStep;
  }

  lemma {:induction false} RepairedIs(st: State, listed: set<RunKey>, issues: seq<Issue>)
    requires listed <= st.runs.Keys && forall i :: i in issues ==> Genuine(st, listed, i)
    ensures Repaired(st, issues).steps == st.steps
    ensures RunsAfter(st.runs, st.steps, issues, Repaired(st, issues).runs)
    ensures TasksAfter(st.tasks, st.runs, listed, issues, Repaired(st, issues).tasks)
    decreases |issues|
  {
    hide Genuine, MaxStep, Fix, TaskAfter, Reported;
    if issues == [] {
      NoRepairs(st, listed);
    } else {
      var most, last := issues[..|issues| - 1], issues[|issues| - 1];
      assert issues == most + [last];
      RepairedIs(st, listed, most);
      FixSteps(Repaired(st, most), last);
      var now := Repaired(st, most);
      FixRuns(st, listed, most, last, now);
      FixTasks(st, listed, most, last, now);
    }
  }

  lemma GenuineFix(st: State, listed: set<RunKey>, issues: seq<Issue>, issue: Issue, now: State)
    requires listed <= st.runs.Keys && Genuine(st, listed, issue)
    requires RunsAfter(st.runs, st.steps, issues, now.runs) && TasksAfter(st.tasks, st.runs, listed, issues, now.tasks)
    ensures Fix(now, issue).1
  {
    hide MaxStep, ParseExpected, Reported;
    if issue.task in now.tasks { AnyStatus(now.tasks[issue.task].status); }
  }

  /** Every repair of a report that was just made succeeds. */
  lemma {:induction false} AllApplied(st: State, listed: set<RunKey>, issues: seq<Issue>)
    requires listed <= st.runs.Keys && forall i :: i in issues ==> Genuine(st, listed, i)
    ensures Applied(st, issues) == |issues|
    decreases |issues|
  {
    hide Genuine, RunsAfter, TasksAfter, Fix;
    if issues != [] {
      var most, last := issues[..|issues| - 1], issues[|issues| - 1];
      assert issues == most + [last];
      AllApplied(st, listed, most);
      RepairedIs(st, listed, most);
      GenuineFix(st, listed, most, last, Repaired(st, most));
    }
  }

  // ---------------------------------------------------------------- check, repair, check

  lemma ReportIsGenuine(st: State, tasks: seq<string>, runs: seq<RunKey>, issue: Issue)
    requires Listed(st, tasks, runs) && issue in Report(st, tasks, runs)
    ensures Genuine(st, (set k | k in runs), issue)
  {
    var listed := set k | k in runs;
    if issue in TaskIssues(st, listed, tasks) {
      TaskIssueFrom(st, listed, tasks, issue);
    } else {
      RunIssueFrom(st, runs, issue);
      hide MaxStep, DriftDetail, ParseExpected;
      var k :| k in runs && issue in DriftIssue(st.runs[k], k, MaxStep(st.steps, k.1));
      DetailRoundTrip(st.runs[k].lastStep, MaxStep(st.steps, k.1));
    }
  }

  lemma MismatchReported(st: State, tasks: seq<string>, runs: seq<RunKey>, t: string)
    requires Listed(st, tasks, runs) && t in tasks && (t, st.tasks[t].activeRun) in runs
    requires st.tasks[t].status != MapStatus(st.runs[(t, st.tasks[t].activeRun)].status)
    ensures Reported(Report(st, tasks, runs), TaskRunStatusMismatch, (t, st.tasks[t].activeRun))
  {
    var listed := set k | k in runs;
    var found := TaskIssue(st.tasks, st.runs, listed, t);
    assert found[0] in found;
    TaskIssueFrom(st, listed, tasks, found[0]);
    hide TaskIssues, RunIssues;
    assert found[0] in Report(st, tasks, runs);
  }

  lemma DriftReported(st: State, tasks: seq<string>, runs: seq<RunKey>, k: RunKey)
    requires Listed(st, tasks, runs) && k in runs
    requires MaxStep(st.steps, k.1) >= 0 && st.runs[k].lastStep != MaxStep(st.steps, k.1)
    ensures Reported(Report(st, tasks, runs), RunLastStepDrift, k)
  {
    hide TaskIssues, MaxStep, DriftDetail;
    var found := DriftIssue(st.runs[k], k, MaxStep(st.steps, k.1));
    assert found[0] in found;
    RunIssueFrom(st, runs, found[0]);
    assert found[0] in Report(st, tasks, runs);
  }

  /** The state in which a repair of Check's report leaves the store. */
  ghost function AfterRepair(st: State, tasks: seq<string>, runs: seq<RunKey>): State
    requires Listed(st, tasks, runs)
  {
    Repaired(st, Report(st, tasks, runs))
  }

  lemma AfterRepairIs(st: State, tasks: seq<string>, runs: seq<RunKey>)
    requires Listed(st, tasks, runs)
    ensures var st', issues := AfterRepair(st, tasks, runs), Report(st, tasks, runs);
      && st'.steps == st.steps && RunsAfter(st.runs, st.steps, issues, st'.runs)
      && TasksAfter(st.tasks, st.runs, (set k | k in runs), issues, st'.tasks)
  {
    hide Report, RunsAfter, TasksAfter, Genuine, Repaired;
    var issues := Report(st, tasks, runs);
    forall i | i in issues ensures Genuine(st, (set k | k in runs), i) {
      ReportIsGenuine(st, tasks, runs, i);
    }
    RepairedIs(st, (set k | k in runs), issues);
  }

  /** After the repair, a checked task whose active run was listed agrees with it. */
  lemma TaskAgreesAfterRepair(st: State, tasks: seq<string>, runs: seq<RunKey>, t: string)
    requires Listed(st, tasks, runs) && t in tasks && (t, st.tasks[t].activeRun) in runs
    ensures var st' := AfterRepair(st, tasks, runs); var k := (t, st.tasks[t].activeRun);
      t in st'.tasks && k in st'.runs && st'.tasks[t].activeRun == k.1 && st'.tasks[t].status == MapStatus(st'.runs[k].status)
  {
    AfterRepairIs(st, tasks, runs);
    hide AfterRepair, Report, Reported, MaxStep;
    var st', k := AfterRepair(st, tasks, runs), (t, st.tasks[t].activeRun);
    assert TaskAfter(t, st.tasks[t], st.runs, (set j | j in runs), Report(st, tasks, runs), st'.tasks[t]);
    if st.tasks[t].status != MapStatus(st.runs[k].status) {
      MismatchReported(st, tasks, runs, t);
    }
  }

  /** After the repair, a checked run's last step is the largest listed one, if there is any. */
  lemma RunSettledAfterRepair(st: State, tasks: seq<string>, runs: seq<RunKey>, k: RunKey)
    requires Listed(st, tasks, runs) && k in runs
    ensures var st' := AfterRepair(st, tasks, runs); var max := MaxStep(st.steps, k.1);
      k in st'.runs && st'.steps == st.steps && (max >= 0 ==> st'.runs[k].lastStep == max)
  {
    AfterRepairIs(st, tasks, runs);
    hide AfterRepair, Report, Reported, MaxStep, TasksAfter;
    if MaxStep(st.steps, k.1) >= 0 && st.runs[k].lastStep != MaxStep(st.steps, k.1) {
      DriftReported(st, tasks, runs, k);
    }
  }

  lemma ListedAfterRepair(st: State, tasks: seq<string>, runs: seq<RunKey>, tasks': seq<string>, runs': seq<RunKey>)
    requires Listed(st, tasks, runs)
    requires (forall t :: t in tasks' ==> t in tasks) && (forall k :: k in runs' ==> k in runs)
    ensures Listed(AfterRepair(st, tasks, runs), tasks', runs')
  {
    AfterRepairIs(st, tasks, runs);
    hide AfterRepair, Report, Reported, MaxStep, TaskAfter;
  }

  /**
    Check, Repair, Check: whatever the first report listed, a second check over no more than that
    finds nothing but tasks whose active run is not among the listed runs.
   */
  lemma OnlyMissingRunsRemain(
      st: State, tasks: seq<string>, runs: seq<RunKey>, tasks': seq<string>, runs': seq<RunKey>, issue: Issue)
    requires Listed(st, tasks, runs)
    requires (forall t :: t in tasks' ==> t in tasks) && (forall k :: k in runs' ==> k in runs)
    ensures Listed(AfterRepair(st, tasks, runs), tasks', runs')
    ensures issue in Report(AfterRepair(st, tasks, runs), tasks', runs') ==>
      && issue.kind.MissingActiveRun? && issue.task in tasks'
      && issue.run == st.tasks[issue.task].activeRun && (issue.task, issue.run) !in runs'
  {
    ListedAfterRepair(st, tasks, runs, tasks', runs');
    var st' := AfterRepair(st, tasks, runs);
    hide AfterRepair, MaxStep, TaskIssues, RunIssues;
    if issue in Report(st', tasks', runs') {
      TaskIssueFrom(st', (set k | k in runs'), tasks', issue);
      RunIssueFrom(st', runs', issue);
      if issue in TaskIssues(st', (set k | k in runs'), tasks') {
        var t :| t in tasks' && issue in TaskIssue(st'.tasks, st'.runs, (set k | k in runs'), t);
        ActiveRunStays(st, tasks, runs, t);
        if (t, st'.tasks[t].activeRun) in runs' {
          TaskAgreesAfterRepair(st, tasks, runs, t);
        }
      } else {
        var k :| k in runs' && issue in DriftIssue(st'.runs[k], k, MaxStep(st'.steps, k.1));
        RunSettledAfterRepair(st, tasks, runs, k);
      }
    }
  }

  lemma ActiveRunStays(st: State, tasks: seq<string>, runs: seq<RunKey>, t: string)
    requires Listed(st, tasks, runs) && t in st.tasks
    ensures var st' := AfterRepair(st, tasks, runs); t in st'.tasks && st'.tasks[t].activeRun == st.tasks[t].activeRun
  {
    AfterRepairIs(st, tasks, runs);
    hide AfterRepair, Report, Reported, MaxStep;
  }

  lemma ActiveRunListed(s: Lifecycle.Sys, tenant: string, runs: seq<RunKey>, t: string)
    requires LifecycleLineage.Reachable(s) && t in MatchingTasks(s.store.tasks, tenant)
    requires forall k :: k in MatchingRuns(s.store.runs, tenant, {}) ==> k in runs
    ensures (t, s.store.tasks[t].activeRun) in runs
  {
    hide LifecycleLineage.Reachable, LifecycleLineage.ParentOk;
    LifecycleLineage.ReachableLineage(s);
    var k := (t, s.store.tasks[t].activeRun);
    assert LifecycleLineage.TenantOk(s.store, k);
    assert k in MatchingRuns(s.store.runs, tenant, {});
  }

  /** A repair changes neither the tenants' tasks nor their runs. */
  lemma MatchingAfterRepair(st: State, tenant: string, tasks: seq<string>, runs: seq<RunKey>)
    requires Listed(st, tasks, runs)
    ensures var st' := AfterRepair(st, tasks, runs);
      && MatchingTasks(st'.tasks, tenant) == MatchingTasks(st.tasks, tenant)
      && MatchingRuns(st'.runs, tenant, {}) == MatchingRuns(st.runs, tenant, {})
  {
    hide AfterRepair, Report, Reported, MaxStep;
    AfterRepairIs(st, tasks, runs);
    var st' := AfterRepair(st, tasks, runs);
    assert forall t :: t in st.tasks ==> st'.tasks[t].tenant == st.tasks[t].tenant by {
      forall t | t in st.tasks ensures st'.tasks[t].tenant == st.tasks[t].tenant {
        assert TaskAfter(t, st.tasks[t], st.runs, (set j | j in runs), Report(st, tasks, runs), st'.tasks[t]);
      }
    }
  }

  lemma Untruncated<T(!new)>(all: set<T>, out: seq<T>, limit: nat)
    requires ListingOf(all, out, limit) && |all| <= limit
    ensures forall x :: x in out <==> x in all
  {
  }

  /**
    In a state reached by service, worker and recovery steps, whatever order untruncated listings
    come in, a check after one repair reports nothing.
   */
  lemma NothingRemains(
      s: Lifecycle.Sys, tenant: string, tasks: seq<string>, runs: seq<RunKey>, tasks': seq<string>, runs': seq<RunKey>, limit: nat)
    requires LifecycleLineage.Reachable(s)
    requires |MatchingTasks(s.store.tasks, tenant)| <= limit && |MatchingRuns(s.store.runs, tenant, {})| <= 4 * limit
    requires ListingOf(MatchingTasks(s.store.tasks, tenant), tasks, limit)
    requires ListingOf(MatchingRuns(s.store.runs, tenant, {}), runs, 4 * limit)
    requires Listed(s.store, tasks, runs)
    requires var st' := AfterRepair(s.store, tasks, runs);
      ListingOf(MatchingTasks(st'.tasks, tenant), tasks', limit) && ListingOf(MatchingRuns(st'.runs, tenant, {}), runs', 4 * limit)
    ensures Listed(AfterRepair(s.store, tasks, runs), tasks', runs')
    ensures Report(AfterRepair(s.store, tasks, runs), tasks', runs') == []
  {
    hide LifecycleLineage.Reachable, AfterRepair, Report, ListingOf, MatchingTasks, MatchingRuns;
    MatchingAfterRepair(s.store, tenant, tasks, runs);
    Untruncated(MatchingTasks(s.store.tasks, tenant), tasks, limit);
    Untruncated(MatchingTasks(s.store.tasks, tenant), tasks', limit);
    Untruncated(MatchingRuns(s.store.runs, tenant, {}), runs, 4 * limit);
    Untruncated(MatchingRuns(s.store.runs, tenant, {}), runs', 4 * limit);
    ListedAfterRepair(s.store, tasks, runs, tasks', runs');
    var issues := Report(AfterRepair(s.store, tasks, runs), tasks', runs');
    if issues != [] {
      var issue := issues[0];
      assert issue in issues;
      OnlyMissingRunsRemain(s.store, tasks, runs, tasks', runs', issue);
      ActiveRunListed(s, tenant, runs', issue.task);
    }
  }

  /** Check, Repair, Check: every repair succeeds, and in a reachable store within the limits the second check is silent. */
  method CheckRepairCheck(store: MemoryStore, tenant: string, limit: int, ghost s: Lifecycle.Sys)
    returns (found: seq<Issue>, applied: nat, left: seq<Issue>)
    requires LifecycleLineage.Reachable(s) && store.Value() == s.store
    modifies store
    ensures applied == |found|
    ensures var cap := if limit <= 0 then 500 else limit;
      |MatchingTasks(s.store.tasks, tenant)| <= cap && |MatchingRuns(s.store.runs, tenant, {})| <= 4 * cap ==> left == []
  {
    hide LifecycleLineage.Reachable, Report, Repaired, Applied, ListingOf, MatchingTasks, MatchingRuns, Listed, Genuine;
    var cap := if limit <= 0 then 500 else limit;
    var tasks, runs, failed;
    tasks, runs, found := Check(store, tenant, limit);
    applied, failed := Repair(store, found);
    forall i | i in found ensures Genuine(s.store, (set k | k in runs), i) {
      ReportIsGenuine(s.store, tasks, runs, i);
    }
    assert (set k | k in runs) <= s.store.runs.Keys by { ListedRuns(s.store, tasks, runs); }
    AllApplied(s.store, (set k | k in runs), found);
    var tasks', runs';
    tasks', runs', left := Check(store, tenant, limit);
    if |MatchingTasks(s.store.tasks, tenant)| <= cap && |MatchingRuns(s.store.runs, tenant, {})| <= 4 * cap {
      NothingRemains(s, tenant, tasks, runs, tasks', runs', cap);
    }
  }

  lemma ListedRuns(st: State, tasks: seq<string>, runs: seq<RunKey>)
    requires Listed(st, tasks, runs)
    ensures (set k | k in runs) <= st.runs.Keys
  {
  }
}
