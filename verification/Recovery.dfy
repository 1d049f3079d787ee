/**
  RecoverStaleRuns of internal/ops/recovery.go over the store object, with the staleness test and
  the queue's answers as arguments, and its place among the steps of module Lifecycle.
 */
module Recovery {
  import opened Common
  import opened Store
  import opened Lifecycle
  import opened MemoryStoreObject

  datatype Report = Report(scanned: nat, recovered: nat, skipped: nat, errors: nat)

  /** Recovery touches a stale run that is still the active run of its task. */
  predicate Recoverable(st: State, k: RunKey, stale: RunKey -> bool) {
    k in st.runs && k.0 in st.tasks && st.tasks[k.0].activeRun == k.1 && stale(k)
  }

  function RecoverOne(st: State, k: RunKey, stale: RunKey -> bool): State {
    if Recoverable(st, k, stale)
    then UpdateTaskStatusForRun(ResetRun(st, k.0, k.1).0, k.0, k.1, ANY_STATUS, Queued).0
    else st
  }

  function RecoverAll(st: State, keys: seq<RunKey>, stale: RunKey -> bool): State
    decreases |keys|
  {
    if keys == [] then st else RecoverOne(RecoverAll(st, keys[..|keys| - 1], stale), keys[|keys| - 1], stale)
  }

  /**
    What the pass counts: a run without a task, or one that cannot be enqueued, is an error; a run
    that is not its task's active run, or not stale, is skipped; every other one is recovered.
   */
  function Counted(st: State, keys: seq<RunKey>, stale: RunKey -> bool, enqueued: RunKey -> bool): Report
    decreases |keys|
  {
    if keys == [] then Report(0, 0, 0, 0)
    else
      var before, k := Counted(st, keys[..|keys| - 1], stale, enqueued), keys[|keys| - 1];
      var seen := before.(scanned := before.scanned + 1);
      if k.0 !in st.tasks then seen.(errors := seen.errors + 1)
      else if st.tasks[k.0].activeRun != k.1 || !stale(k) then seen.(skipped := seen.skipped + 1)
      else if enqueued(k) then seen.(recovered := seen.recovered + 1)
      else seen.(errors := seen.errors + 1)
  }

  /** Same runs, same tasks with the same active runs. */
  ghost predicate SameActive(a: State, b: State) {
    b.runs.Keys == a.runs.Keys && b.tasks.Keys == a.tasks.Keys && forall t :: t in a.tasks ==> b.tasks[t].activeRun == a.tasks[t].activeRun
  }

  lemma RecoverOneActive(a: State, st: State, k: RunKey, stale: RunKey -> bool)
    requires SameActive(a, st)
    ensures SameActive(a, RecoverOne(st, k, stale))
  {
  }

  lemma CountedStep(st: State, keys: seq<RunKey>, i: nat, stale: RunKey -> bool, enqueued: RunKey -> bool)
    requires i < |keys|
    ensures RecoverAll(st, keys[..i + 1], stale) == RecoverOne(RecoverAll(st, keys[..i], stale), keys[i], stale)
    ensures var seen := Counted(st, keys[..i], stale, enqueued);
      Counted(st, keys[..i + 1], stale, enqueued) ==
        if keys[i].0 !in st.tasks then seen.(scanned := seen.scanned + 1, errors := seen.errors + 1)
        else if st.tasks[keys[i].0].activeRun != keys[i].1 || !stale(keys[i]) then seen.(scanned := seen.scanned + 1, skipped := seen.skipped + 1)
        else if enqueued(keys[i]) then seen.(scanned := seen.scanned + 1, recovered := seen.recovered + 1)
        else seen.(scanned := seen.scanned + 1, errors := seen.errors + 1)
  {
    hide RecoverOne;
    assert keys[..i + 1][..i] == keys[..i];
  }

  /** The counts add up. */
  lemma {:induction false} CountsAddUp(st: State, keys: seq<RunKey>, stale: RunKey -> bool, enqueued: RunKey -> bool)
    ensures var report := Counted(st, keys, stale, enqueued);
      report.scanned == |keys| == report.recovered + report.skipped + report.errors
    decreases |keys|
  {
    if keys != [] { CountsAddUp(st, keys[..|keys| - 1], stale, enqueued); }
  }

  // ---------------------------------------------------------------- exactly what a pass changes and counts

  /** The run is the active run of its task, and stale. */
  predicate Due(st: State, k: RunKey, stale: RunKey -> bool) {
    k.0 in st.tasks && st.tasks[k.0].activeRun == k.1 && stale(k)
  }

  ghost predicate RunRecovered(st: State, st': State, keys: seq<RunKey>, stale: RunKey -> bool, k: RunKey)
    requires k in st.runs && k in st'.runs
  {
    st'.runs[k] == if k in keys && Due(st, k, stale) then st.runs[k].(status := RunQueued) else st.runs[k]
  }

  ghost predicate TaskRecovered(st: State, st': State, keys: seq<RunKey>, stale: RunKey -> bool, t: string)
    requires t in st.tasks && t in st'.tasks
  {
    var k := (t, st.tasks[t].activeRun);
    st'.tasks[t] == if k in keys && k in st.runs && stale(k) then st.tasks[t].(status := Queued) else st.tasks[t]
  }

  /** Exactly the listed, stale, active runs end QUEUED with a QUEUED task; every other run and task is as it was. */
  ghost predicate RecoveredExactly(st: State, st': State, keys: seq<RunKey>, stale: RunKey -> bool) {
    && st'.steps == st.steps && st'.idempotency == st.idempotency && SameActive(st, st')
    && (forall k :: k in st.runs ==> RunRecovered(st, st', keys, stale, k))
    && (forall t :: t in st.tasks ==> TaskRecovered(st, st', keys, stale, t))
  }

  lemma RecoverOneIs(st: State, k: RunKey, stale: RunKey -> bool)
    ensures var end := RecoverOne(st, k, stale); var due := k in st.runs && Due(st, k, stale);
      && end.steps == st.steps && end.idempotency == st.idempotency
      && end.runs == (if due then st.runs[k := st.runs[k].(status := RunQueued)] else st.runs)
      && end.tasks == (if due then st.tasks[k.0 := st.tasks[k.0].(status := Queued)] else st.tasks)
  {
    if k.0 in st.tasks {
      AnyStatus(st.tasks[k.0].status);
    }
  }

  lemma RecoverOneMore(st: State, mid: State, most: seq<RunKey>, k: RunKey, stale: RunKey -> bool)
    requires RecoveredExactly(st, mid, most, stale)
    ensures RecoveredExactly(st, RecoverOne(mid, k, stale), most + [k], stale)
  {
    hide RecoverOne;
    RecoverOneIs(mid, k, stale);
    var end, all := RecoverOne(mid, k, stale), most + [k];
    forall j | j in st.runs ensures RunRecovered(st, end, all, stale, j) {
      assert RunRecovered(st, mid, most, stale, j);
      assert j in all <==> j in most || j == k;
    }
    forall t | t in st.tasks ensures TaskRecovered(st, end, all, stale, t) {
      assert TaskRecovered(st, mid, most, stale, t);
      var j := (t, st.tasks[t].activeRun);
      assert j in all <==> j in most || j == k;
    }
  }

  lemma {:induction false} RecoverExactly(st: State, keys: seq<RunKey>, stale: RunKey -> bool)
    ensures RecoveredExactly(st, RecoverAll(st, keys, stale), keys, stale)
    decreases |keys|
  {
    if keys != [] {
      hide RecoveredExactly, RecoverOne;
      var most, k := keys[..|keys| - 1], keys[|keys| - 1];
      RecoverExactly(st, most, stale);
      RecoverOneMore(st, RecoverAll(st, most, stale), most, k, stale);
      assert most + [k] == keys;
    }
  }

  datatype Fate = Recovered | Skipped | Erred

  /** A run is recovered if it was due and could be enqueued, and skipped if it was not due; one without a task is an error. */
  function FateOf(st: State, k: RunKey, stale: RunKey -> bool, enqueued: RunKey -> bool): Fate {
    if Due(st, k, stale) && enqueued(k) then Recovered
    else if k.0 in st.tasks && !Due(st, k, stale) then Skipped else Erred
  }

  ghost function Places(
      st: State, keys: seq<RunKey>, stale: RunKey -> bool, enqueued: RunKey -> bool, fate: Fate): set<nat> {
    set i | 0 <= i < |keys| && FateOf(st, keys[i], stale, enqueued) == fate
  }

  lemma PlacesStep(st: State, keys: seq<RunKey>, stale: RunKey -> bool, enqueued: RunKey -> bool, fate: Fate)
    requires keys != []
    ensures |Places(st, keys, stale, enqueued, fate)| == |Places(st, keys[..|keys| - 1], stale, enqueued, fate)|
      + if FateOf(st, keys[|keys| - 1], stale, enqueued) == fate then 1 else 0
  {
    hide FateOf;
    var n := |keys| - 1;
    assert Places(st, keys, stale, enqueued, fate) == Places(st, keys[..n], stale, enqueued, fate) +
      if FateOf(st, keys[n], stale, enqueued) == fate then {n} else {};
  }

  /** Every listed run is counted once, under its fate. */
  ghost predicate CountedRight(st: State, keys: seq<RunKey>, stale: RunKey -> bool, enqueued: RunKey -> bool, report: Report) {
    && report.scanned == |keys|
    && report.recovered == |Places(st, keys, stale, enqueued, Recovered)|
    && report.skipped == |Places(st, keys, stale, enqueued, Skipped)|
    && report.errors == |Places(st, keys, stale, enqueued, Erred)|
  }

  lemma {:induction false} CountsRight(st: State, keys: seq<RunKey>, stale: RunKey -> bool, enqueued: RunKey -> bool)
    ensures CountedRight(st, keys, stale, enqueued, Counted(st, keys, stale, enqueued))
    decreases |keys|
  {
    if keys != [] {
      hide Places;
      CountsRight(st, keys[..|keys| - 1], stale, enqueued);
      PlacesStep(st, keys, stale, enqueued, Recovered);
      PlacesStep(st, keys, stale, enqueued, Skipped);
      PlacesStep(st, keys, stale, enqueued, Erred);
    }
  }

  method RecoverStaleRuns(store: MemoryStore, tenant: string, limit: int, stale: RunKey -> bool, enqueued: RunKey -> bool)
    returns (keys: seq<RunKey>, report: Report)
    modifies store
    ensures ListingOf(MatchingRuns(old(store.runs), tenant, {RunRunning, RunQueued}), keys, if limit <= 0 then 200 else limit)
    ensures store.Value() == RecoverAll(old(store.Value()), keys, stale)
    ensures report == Counted(old(store.Value()), keys, stale, enqueued)
    ensures report.scanned == |keys| == report.recovered + report.skipped + report.errors
    ensures RecoveredExactly(old(store.Value()), store.Value(), keys, stale)
    ensures CountedRight(old(store.Value()), keys, stale, enqueued, report)
  {
    hide RecoverAll, Counted, ListingOf, MatchingRuns, UpdateTaskStatusForRun, ResetRun, Statuses, SameActive,
         RecoveredExactly, CountedRight;
    keys := store.ListRuns(tenant, {RunRunning, RunQueued}, if limit <= 0 then 200 else limit);
    report := Report(0, 0, 0, 0);
    var any := [Running, Queued, Failed, Aborted, Succeeded];
    ListsAny();
    ghost var st := store.Value();
    RecoverNone(st, stale, enqueued);
    for i := 0 to |keys|
      invariant store.Value() == RecoverAll(st, keys[..i], stale) && SameActive(st, store.Value())
      invariant report == Counted(st, keys[..i], stale, enqueued)
    {
      CountedStep(st, keys, i, stale, enqueued);
      RecoverOneActive(st, store.Value(), keys[i], stale);
      var k := keys[i];
      ListedActive(st, store.Value(), tenant, keys, if limit <= 0 then 200 else limit, i);
      report := report.(scanned := report.scanned + 1);
      var task := store.GetTask(k.0);
      if task.None? {
        report := report.(errors := report.errors + 1);
        continue;
      }
      if task.value.activeRun != k.1 || !stale(k) {
        report := report.(skipped := report.skipped + 1);
        continue;
      }
      ResetSucceeds(store.Value(), k.0, k.1);
      var err := store.ResetRunToQueued(k.0, k.1);
      assert err == Ok;
      var _ := store.UpdateTaskStatusForRun(k.0, k.1, any, Queued);
      if enqueued(k) {
        report := report.(recovered := report.recovered + 1);
      } else {
        report := report.(errors := report.errors + 1);
      }
    }
    assert keys[..|keys|] == keys;
    CountsAddUp(st, keys, stale, enqueued);
    RecoverExactly(st, keys, stale);
    CountsRight(st, keys, stale, enqueued);
  }

  lemma RecoverNone(st: State, stale: RunKey -> bool, enqueued: RunKey -> bool)
    ensures RecoverAll(st, [], stale) == st && Counted(st, [], stale, enqueued) == Report(0, 0, 0, 0) && SameActive(st, st)
  {
  }

  lemma ListsAny()
    ensures Statuses([Running, Queued, Failed, Aborted, Succeeded]) == ANY_STATUS
  {
  }

  /** A listed run is stored, and its task is stored with the active run it had at the start. */
  lemma ListedActive(a: State, st: State, tenant: string, keys: seq<RunKey>, limit: int, i: nat)
    requires SameActive(a, st) && ListingOf(MatchingRuns(a.runs, tenant, {RunRunning, RunQueued}), keys, limit) && i < |keys|
    ensures keys[i] in st.runs && (keys[i].0 in st.tasks <==> keys[i].0 in a.tasks)
    ensures keys[i].0 in a.tasks ==> st.tasks[keys[i].0].activeRun == a.tasks[keys[i].0].activeRun
  {
    assert keys[i] in keys;
  }

  lemma ResetSucceeds(st: State, t: string, r: string)
    requires (t, r) in st.runs
    ensures ResetRun(st, t, r).1 == Ok
  {
  }

  ghost function RecoverEvents(st: State, keys: seq<RunKey>, stale: RunKey -> bool): seq<Event>
    decreases |keys|
  {
    if keys == [] then []
    else
      var most, k := keys[..|keys| - 1], keys[|keys| - 1];
      RecoverEvents(st, most, stale) +
      if Recoverable(RecoverAll(st, most, stale), k, stale) then [ResetStale(k.0, k.1), RequeueTask(k.0, k.1)] else []
  }

  lemma RecoverOneIsRun(s: Sys, k: RunKey, stale: RunKey -> bool)
    requires Recoverable(s.store, k, stale)
    ensures var events := [ResetStale(k.0, k.1), RequeueTask(k.0, k.1)];
      Legal(s, events) && Final(s, events).store == RecoverOne(s.store, k, stale)
  {
    hide Legal, Final, ResetRun, UpdateTaskStatusForRun;
    Begin(s, ResetStale(k.0, k.1));
    Extend(s, [ResetStale(k.0, k.1)], RequeueTask(k.0, k.1));
    assert [ResetStale(k.0, k.1)] + [RequeueTask(k.0, k.1)] == [ResetStale(k.0, k.1), RequeueTask(k.0, k.1)];
  }

  /** A recovery pass is a run of the transition system, so whatever every step keeps survives it. */
  lemma {:induction false} RecoverAllIsRun(s: Sys, keys: seq<RunKey>, stale: RunKey -> bool)
    ensures var events := RecoverEvents(s.store, keys, stale);
      Legal(s, events) && Final(s, events).store == RecoverAll(s.store, keys, stale)
    decreases |keys|
  {
    hide Legal, Final, RecoverOne;
    if keys == [] {
      EmptyRun(s);
    } else {
      var most, k := keys[..|keys| - 1], keys[|keys| - 1];
      RecoverAllIsRun(s, most, stale);
      var before := RecoverEvents(s.store, most, stale);
      var s1 := Final(s, before);
      if Recoverable(s1.store, k, stale) {
        RecoverOneIsRun(s1, k, stale);
        Join(s, before, [ResetStale(k.0, k.1), RequeueTask(k.0, k.1)]);
      } else {
        UntouchedWhenNotRecoverable(s1.store, k, stale);
        assert before + [] == before;
      }
    }
  }

  lemma UntouchedWhenNotRecoverable(st: State, k: RunKey, stale: RunKey -> bool)
    requires !Recoverable(st, k, stale)
    ensures RecoverOne(st, k, stale) == st
  {
  }
}
