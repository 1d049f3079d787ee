/**
  The theorems about whole runs of the dispatch system: any interleaving of callers, ingress
  loops, workers and retry timers, started from an empty queue and a fresh manager.
 */
module DispatchRuns {
  import opened TenantPolicy
  import opened QueueCore
  import opened Dispatch
  import opened DispatchPlaces
  import opened DispatchAccounts
  import opened DispatchHistory

  /** A sequence of steps each of which is possible where it is taken. */
  ghost predicate Legal(s: Sys, steps: seq<Step>)
    decreases |steps|
  {
    steps == [] || (RingOk(s.core) && Enabled(s, steps[0]) && Legal(Apply(s, steps[0]), steps[1..]))
  }

  ghost function Final(s: Sys, steps: seq<Step>): Sys
    requires Legal(s, steps)
    decreases |steps|
  {
    if steps == [] then s else Final(Apply(s, steps[0]), steps[1..])
  }

  /** Every step of the run is gentle, or orderly, or both, as asked. */
  ghost predicate Kept(s: Sys, steps: seq<Step>, gentle: bool, orderly: bool)
    requires Legal(s, steps)
    decreases |steps|
  {
    steps == [] ||
    ((gentle ==> Gentle(s, steps[0])) && (orderly ==> Orderly(s, steps[0])) && Kept(Apply(s, steps[0]), steps[1..], gentle, orderly))
  }

  ghost predicate SysOk(s: Sys, gentle: bool, orderly: bool) {
    BooksOk(s, gentle) && DedupOk(s) && AttemptsOk(s) && LedgerOk(s) && (orderly ==> OrderOk(s))
  }

  lemma InitOk(cfg: Config, defaultPolicy: Policy, policies: map<string, Policy>, start: int)
    ensures SysOk(Init(cfg, defaultPolicy, policies, start), true, true)
  {
    hide BooksOk;
    InitBooks(cfg, defaultPolicy, policies, start);
  }

  /** Less is asked of the books of a run that promises less. */
  lemma SysWeaker(s: Sys, gentle: bool, orderly: bool)
    requires SysOk(s, true, true)
    ensures SysOk(s, gentle, orderly)
  {
    hide PlacesOk, DedupOk, AttemptsOk, LedgerOk, OrderOk, Covered, WithinBudget, Sound, Tally, NoStray;
    if !gentle {
      forall t ensures Account(StateOf(s.mgr, t), PolicyOf(s.mgr, t), s.live, s.rolled, t, s.cancels[t], false) {
        assert Account(StateOf(s.mgr, t), PolicyOf(s.mgr, t), s.live, s.rolled, t, s.cancels[t], true);
      }
    }
  }

  lemma StepOk(s: Sys, step: Step, gentle: bool, orderly: bool)
    requires SysOk(s, gentle, orderly) && Enabled(s, step) && (gentle ==> Gentle(s, step)) && (orderly ==> Orderly(s, step))
    ensures RingOk(s.core) && SysOk(Apply(s, step), gentle, orderly)
  {
    hide Apply, PlacesOk, BooksOf, DedupOk, OrderOk, AttemptsOk, LedgerOk, Enabled, RingOk, Gentle, Orderly;
    StepKeepsBooks(s, step, gentle);
    StepKeepsDedup(s, step);
    StepKeepsAttempts(s, step);
    StepKeepsLedger(s, step);
    if orderly { StepKeepsOrder(s, step); }
  }

  lemma {:induction false} RunOk(s: Sys, steps: seq<Step>, gentle: bool, orderly: bool)
    requires SysOk(s, gentle, orderly) && Legal(s, steps) && Kept(s, steps, gentle, orderly)
    ensures SysOk(Final(s, steps), gentle, orderly)
    decreases |steps|
  {
    hide SysOk, Apply, Enabled, RingOk, Gentle, Orderly;
    if steps != [] {
      StepOk(s, steps[0], gentle, orderly);
      RunOk(Apply(s, steps[0]), steps[1..], gentle, orderly);
    }
  }

  lemma {:induction false} NothingAsked(s: Sys, steps: seq<Step>)
    requires Legal(s, steps)
    ensures Kept(s, steps, false, false)
    decreases |steps|
  {
    hide Apply, Enabled, RingOk, Gentle, Orderly;
    if steps != [] { NothingAsked(Apply(s, steps[0]), steps[1..]); }
  }

  ghost predicate Starts(s: Sys) { exists cfg, pol, policies, start :: s == Init(cfg, pol, policies, start) }

  lemma StartsOk(s: Sys, gentle: bool, orderly: bool)
    requires Starts(s)
    ensures SysOk(s, gentle, orderly) && s.hands == []
  {
    hide SysOk;
    var cfg, pol, policies, start :| s == Init(cfg, pol, policies, start);
    InitOk(cfg, pol, policies, start);
    SysWeaker(s, gentle, orderly);
  }

  /** Every state that some run reaches. */
  ghost predicate Reachable(s: Sys) { exists s0, steps :: Starts(s0) && Legal(s0, steps) && s == Final(s0, steps) }

  /** Every state that a run reaches in which all steps are gentle, or orderly, or both. */
  ghost predicate ReachableBy(s: Sys, gentle: bool, orderly: bool) {
    exists s0, steps :: Starts(s0) && Legal(s0, steps) && Kept(s0, steps, gentle, orderly) && s == Final(s0, steps)
  }

  lemma ReachableByOk(s: Sys, gentle: bool, orderly: bool)
    requires ReachableBy(s, gentle, orderly)
    ensures SysOk(s, gentle, orderly)
  {
    hide SysOk, Starts, Legal, Final, Kept;
    var s0, steps :| Starts(s0) && Legal(s0, steps) && Kept(s0, steps, gentle, orderly) && s == Final(s0, steps);
    StartsOk(s0, gentle, orderly);
    RunOk(s0, steps, gentle, orderly);
  }

  lemma ReachableOk(s: Sys)
    requires Reachable(s)
    ensures SysOk(s, false, false)
  {
    hide SysOk, Starts, Legal, Final, Kept;
    var s0, steps :| Starts(s0) && Legal(s0, steps) && s == Final(s0, steps);
    NothingAsked(s0, steps);
    assert ReachableBy(s, false, false);
    ReachableByOk(s, false, false);
  }

  // ---------------------------------------------------------------- runs in pieces

  lemma {:induction false} LegalConcat(s: Sys, a: seq<Step>, b: seq<Step>)
    requires Legal(s, a) && Legal(Final(s, a), b)
    ensures Legal(s, a + b) && Final(s, a + b) == Final(Final(s, a), b)
    decreases |a|
  {
    hide Apply, Enabled, RingOk;
    if a == [] {
      assert a + b == b;
    } else {
      assert (a + b)[0] == a[0] && (a + b)[1..] == a[1..] + b;
      LegalConcat(Apply(s, a[0]), a[1..], b);
    }
  }

  lemma ReachableOn(s: Sys, steps: seq<Step>)
    requires Reachable(s) && Legal(s, steps)
    ensures Reachable(Final(s, steps))
  {
    hide Starts, Legal, Final;
    var s0, before :| Starts(s0) && Legal(s0, before) && s == Final(s0, before);
    LegalConcat(s0, before, steps);
  }

  lemma LegalOne(s: Sys, step: Step)
    requires RingOk(s.core) && Enabled(s, step)
    ensures Legal(s, [step]) && Final(s, [step]) == Apply(s, step)
  {
    hide Apply, Enabled, RingOk;
    assert [step][1..] == [];
    assert Legal(Apply(s, step), []) && Final(Apply(s, step), []) == Apply(s, step);
  }

  // ---------------------------------------------------------------- theorems

  /** In every state that any run reaches, the manager's counters are the numbers of messages in the queue. */
  lemma CountersAgree(s: Sys, t: string)
    requires Reachable(s)
    ensures var st := StateOf(s.mgr, t);
            && st.queued == |QueuedOf(s.live, t)| + |RolledOf(s.rolled, t)|
            && st.running == |RunningOf(s.live, t)|
            && st.enqueued == st.queued + st.dequeued + s.cancels[t]
            && st.dequeued == st.running + st.completed + st.failed
            && st.reservedTokens == TokenSum(st.reservations) && st.reservedCost == CostSum(st.reservations)
            && NoStray(st.reservations, s.live, s.rolled, t)
  {
    hide Reachable, QueuedOf, RunningOf, RolledOf, StateOf, PolicyOf, PlacesOk, DedupOk, AttemptsOk, LedgerOk, NoStray;
    ReachableOk(s);
    assert Account(StateOf(s.mgr, t), PolicyOf(s.mgr, t), s.live, s.rolled, t, s.cancels[t], false);
  }

  /**
    As long as no cancelled admission was taken back from under a message with the same key, every
    queued or running message has its clamped estimate reserved, the budget is never exceeded, and
    without half-cancelled messages the reservations are exactly those estimates with their sums.
   */
  lemma BooksAgree(s: Sys, t: string)
    requires ReachableBy(s, true, false)
    ensures OneCopy(s.live)
    ensures var st := StateOf(s.mgr, t);
            && Covered(st.reservations, s.live, t) && WithinBudget(st, PolicyOf(s.mgr, t))
            && (RolledOf(s.rolled, t) == {} ==>
                 && st.reservations == Held(s.live, t)
                 && st.reservedTokens == TokenSum(Held(s.live, t)) && st.reservedCost == CostSum(Held(s.live, t)))
  {
    hide ReachableBy, Held, QueuedOf, RunningOf, RolledOf, StateOf, PolicyOf, PlacesOk, DedupOk, AttemptsOk, LedgerOk,
         NoStray, Covered, OneCopy;
    ReachableByOk(s, true, false);
    OneCopyOf(s);
    var st := StateOf(s.mgr, t);
    assert Account(st, PolicyOf(s.mgr, t), s.live, s.rolled, t, s.cancels[t], true);
    if RolledOf(s.rolled, t) == {} { CoveredIsHeld(st.reservations, s.live, s.rolled, t); }
  }

  /**
    The next cancelled admission that is taken back keeps those books if and only if no queued or
    running message of the tenant holds its key.
   */
  lemma CancelKeepsBooksIff(s: Sys, id: nat)
    requires ReachableBy(s, true, false) && Enabled(s, CancelBooks(id))
    ensures BooksOf(CancelStep(s, id), true) <==> !HeldLive(MessageKey(s.rolled[id]), s.live, s.rolled[id].tenant)
  {
    hide ReachableBy, MessageKey, HeldLive, PlacesOk, DedupOk, AttemptsOk, LedgerOk, Books, Covered, StateOf, Cancel, With;
    ReachableByOk(s, true, false);
    CancelCoveredIff(s, id);
    var s' := CancelStep(s, id);
    if HeldLive(MessageKey(s.rolled[id]), s.live, s.rolled[id].tenant) {
      if BooksOf(s', true) {
        forall t ensures Covered(StateOf(s'.mgr, t).reservations, s.live, t) {
          CoveredBooks(s'.mgr, s'.live, s'.rolled, s'.cancels, t);
        }
        assert false;
      }
    } else {
      CancelKeepsBooks(s.mgr, s.live, s.rolled, id, s.cancels, true);
    }
  }

  /** A key names at most one submission inside the queue, and the two key sets never overlap. */
  lemma AtMostOneCopy(s: Sys, i: nat, j: nat)
    requires Reachable(s) && i in s.live && j in s.live && MessageKey(s.live[i].msg) == MessageKey(s.live[j].msg)
    ensures i == j
    ensures s.core.inQueue !! s.core.inFlight
  {
    hide Reachable, MessageKey;
    ReachableOk(s);
    assert OneCopy(s.live);
    assert Key(s.live, i) == Key(s.live, j);
    forall k | k in s.core.inQueue ensures k !in s.core.inFlight {
      var a :| a in s.live && Queueing(s.live[a].phase) && Key(s.live, a) == k;
    }
  }

  /** A message is only dispatched when its key's last completion lies more than the window back. */
  lemma NotHandledAgainWithinWindow(s: Sys, now: int)
    requires Reachable(s) && s.clock <= now && RingOk(s.core)
    ensures var out := Pop(s.core, s.mgr, now).2;
            out.Some? && MessageKey(out.value) in s.finished ==>
              now - s.finished[MessageKey(out.value)] > s.cfg.dedupeWindow
  {
    hide Reachable, MessageKey, Scan, Take;
    ReachableOk(s);
    RingOf(s);
    if s.core.ring != [] {
      var found := Scan(s.core.ring, s.core.cursor, |s.core.ring|, s.mgr, now).1;
      if found.Some? {
        HeadIsWaiting(s.core, s.live, s.hands, found.value);
        var m := Take(s.core, found.value).1;
        assert Key(s.live, m.ticket) == MessageKey(m);
      }
    }
  }

  /** The lookup in the pruned map gives the answer the full completion history would give. */
  lemma DuplicateByHistory(s: Sys, key: string, now: int)
    requires Reachable(s) && s.clock <= now
    ensures Duplicate(s.core, key, now, s.cfg.dedupeWindow) <==>
      || (exists i :: i in s.live && Key(s.live, i) == key)
      || (key in s.finished && now - s.finished[key] <= s.cfg.dedupeWindow)
  {
    hide Reachable, MessageKey;
    ReachableOk(s);
    PrunedDecidesLikeHistory(s.core.recent, s.finished, s.clock, s.cfg.dedupeWindow, key, now);
    if key in s.core.inQueue + s.core.inFlight {
      assert key in QueueKeys(s.live) + FlightKeys(s.live);
      var i :| i in s.live && Key(s.live, i) == key;
    }
    if i :| i in s.live && Key(s.live, i) == key {
      assert key in QueueKeys(s.live) + FlightKeys(s.live);
    }
  }

  /** Filed in the order of receipt, each tenant's messages are dispatched in the order in which they entered the channel. */
  lemma DispatchIsFifo(s: Sys, t: string)
    requires ReachableBy(s, false, true)
    ensures Of(s.popped, t) <= Of(s.sent, t)
  {
    hide ReachableBy, Of, BooksOk, DedupOk, AttemptsOk, LedgerOk, FifoOf;
    ReachableByOk(s, false, true);
    assert FifoAt(s.core, s.hands, s.sent, s.popped, t);
  }

  /** A message is only received when no ingress loop holds another one. */
  ghost predicate OneLoop(s: Sys, steps: seq<Step>)
    requires Legal(s, steps)
    decreases |steps|
  {
    steps == [] || ((steps[0].Receive? ==> s.hands == []) && OneLoop(Apply(s, steps[0]), steps[1..]))
  }

  lemma HandsAfter(s: Sys, step: Step)
    requires RingOk(s.core) && Enabled(s, step)
    ensures |Apply(s, step).hands| <= |s.hands| + One(step.Receive?)
    ensures |s.hands| <= 1 ==> Orderly(s, step)
  {
    hide MessageKey, Pop, Claim, Unclaim, Push, Retire, Admit, Cancel, Reported, Marked, AddPending, Move, Exit,
         Enter, Duplicate, FateAfter;
  }

  /** One ingress loop files in the order of receipt. */
  lemma {:induction false} OneLoopIsOrderly(s: Sys, steps: seq<Step>)
    requires Legal(s, steps) && OneLoop(s, steps) && |s.hands| <= 1
    ensures Kept(s, steps, false, true)
    decreases |steps|
  {
    hide Apply, Enabled, RingOk, Gentle, Orderly;
    if steps != [] {
      HandsAfter(s, steps[0]);
      OneLoopIsOrderly(Apply(s, steps[0]), steps[1..]);
    }
  }

  /** With one ingress loop, each tenant's messages are dispatched in the order in which they entered the channel. */
  lemma OneLoopIsFifo(s0: Sys, steps: seq<Step>, t: string)
    requires Starts(s0) && Legal(s0, steps) && OneLoop(s0, steps)
    ensures Of(Final(s0, steps).popped, t) <= Of(Final(s0, steps).sent, t)
  {
    hide Starts, Legal, Final, Kept, Of;
    StartsOk(s0, false, false);
    OneLoopIsOrderly(s0, steps);
    DispatchIsFifo(Final(s0, steps), t);
  }

  /** A submission that came in as attempt 1 is handled at most MaxAttempts times. */
  lemma HandledAtMost(s: Sys, i: nat)
    requires Reachable(s) && i < s.issued
    ensures i in s.first && i in s.handled && s.handled[i] <= Limit(s.first[i], s.cfg.maxAttempts)
    ensures s.first[i] == 1 && s.cfg.maxAttempts >= 1 ==> s.handled[i] <= s.cfg.maxAttempts
  {
    hide Reachable;
    ReachableOk(s);
  }

  /**
    A submission ends in the dead letters only after its last attempt: its attempt number has reached
    the limit, and if it came in as attempt 1 it was handled exactly that often. A submission that
    waits for its retry has failed as often as it was handled, and is not past the limit.
   */
  lemma DeadOnlyAfterLastAttempt(s: Sys, i: nat)
    requires Reachable(s) && i in s.fates
    ensures i in s.first && i in s.handled
    ensures s.fates[i].DeadLettered? ==>
      && s.fates[i].msg.attempt >= s.cfg.maxAttempts && s.handled[i] == s.fates[i].msg.attempt - s.first[i] + 1
      && (s.first[i] == 1 && s.cfg.maxAttempts >= 1 ==> s.handled[i] == s.cfg.maxAttempts)
    ensures s.fates[i].AwaitingRetry? ==>
      && s.fates[i].msg.attempt == s.first[i] + s.handled[i]
      && (s.first[i] == 1 && s.cfg.maxAttempts >= 1 ==> s.handled[i] < s.cfg.maxAttempts)
  {
    hide Reachable, Places, Books, DedupOk, LedgerOk;
    ReachableOk(s);
    assert i < s.issued;
  }

  /** A handled message that fails waits for a retry with the next attempt number until the limit is reached. */
  lemma FailureIsRetried(s: Sys, id: nat, now: int)
    requires Enabled(s, Finish(id, now))
    ensures var m, failed, s' := s.live[id].msg, s.live[id].phase.failed, FinishStep(s, id, now);
      var last := m.attempt >= s.cfg.maxAttempts;
      && id in s'.fates
      && (!failed <==> s'.fates[id] == Succeeded)
      && (failed && last <==> s'.fates[id] == DeadLettered(m))
      && (failed && !last <==> s'.fates[id] == AwaitingRetry(m.(attempt := m.attempt + 1)))
      && s'.core.dlq == (if failed && last then s.core.dlq + [m] else s.core.dlq)
      && s'.finished == (if failed && !last then s.finished else s.finished[MessageKey(m) := now])
      && s'.core.inFlight == s.core.inFlight - {MessageKey(m)} && s'.core.inQueue == s.core.inQueue
  {
    hide PruneRecent, MessageKey;
  }

  function Bit(b: bool): nat { if b then 1 else 0 }

  ghost predicate InChannel(s: Sys, i: nat) { exists j :: 0 <= j < |s.core.channel| && s.core.channel[j].ticket == i }

  ghost predicate InFifo(s: Sys, i: nat) {
    exists t, j :: t in s.core.pending && 0 <= j < |s.core.pending[t]| && s.core.pending[t][j].ticket == i
  }

  ghost predicate InDlq(s: Sys, i: nat) { exists j :: 0 <= j < |s.core.dlq| && s.core.dlq[j].ticket == i }

  /** Received by an ingress loop and not yet filed. */
  ghost predicate InLoop(s: Sys, i: nat) { exists j :: 0 <= j < |s.hands| && s.hands[j].ticket == i }

  /** Held by a goroutine of Enqueue or of a worker. */
  ghost predicate InHand(s: Sys, i: nat) {
    i in s.live && !s.live[i].phase.Buffered? && !s.live[i].phase.Carried? && !s.live[i].phase.Waiting?
  }

  ghost predicate Retrying(s: Sys, i: nat) { i in s.fates && s.fates[i].AwaitingRetry? }

  /** Succeeded, rejected, cancelled, deduplicated or given up while waiting to retry. */
  ghost predicate Over(s: Sys, i: nat) { i in s.fates && !s.fates[i].AwaitingRetry? && !s.fates[i].DeadLettered? }

  /** Every submission is in exactly one place. */
  lemma ExactlyOnePlace(s: Sys, i: nat)
    requires Reachable(s) && i < s.issued
    ensures Bit(InHand(s, i)) + Bit(InChannel(s, i)) + Bit(InLoop(s, i)) + Bit(InFifo(s, i))
            + Bit(Retrying(s, i)) + Bit(InDlq(s, i)) + Bit(Over(s, i)) == 1
  {
    hide Reachable, InChannel, InLoop, InFifo, InDlq, Books, DedupOk, AttemptsOk, Places, RolledOk;
    ReachableOk(s);
    PlacesLists(s);
    hide ListOk;
    ListIsPhase(s.core.channel, s.live, i, Buffered);
    ListIsPhase(s.hands, s.live, i, Carried);
    InLists(s, i);
    FifoIsPhase(s, i);
    DlqIsFate(s, i);
    assert i in s.live || i in s.fates;
    assert !(i in s.live && i in s.fates);
  }

  ghost predicate InList(ms: seq<Msg>, i: nat) { exists j :: 0 <= j < |ms| && ms[j].ticket == i }

  lemma InLists(s: Sys, i: nat)
    ensures InChannel(s, i) <==> InList(s.core.channel, i)
    ensures InLoop(s, i) <==> InList(s.hands, i)
  {
  }

  lemma PlacesLists(s: Sys)
    requires PlacesOk(s)
    ensures Named(s.live) && ListOk(s.core.channel, s.live, Buffered) && ListOk(s.hands, s.live, Carried)
  {
  }

  lemma ListIsPhase(ms: seq<Msg>, live: map<nat, Live>, i: nat, p: Phase)
    requires Named(live) && ListOk(ms, live, p)
    ensures InList(ms, i) <==> InPhase(live, i, p)
  {
  }

  lemma FifoIsPhase(s: Sys, i: nat)
    requires PlacesOk(s)
    ensures InFifo(s, i) <==> InPhase(s.live, i, Waiting)
  {
    hide KeysOk, RingOk, ListOk, RolledOk;
    if InPhase(s.live, i, Waiting) {
      var t := s.live[i].msg.tenant;
      assert s.live[i].msg in s.core.pending[t];
    }
    if InFifo(s, i) {
      var t, j :| t in s.core.pending && 0 <= j < |s.core.pending[t]| && s.core.pending[t][j].ticket == i;
      assert SeqHolds(s.core.pending[t], s.live, Waiting);
    }
  }

  lemma DlqIsFate(s: Sys, i: nat)
    requires LedgerOk(s)
    ensures InDlq(s, i) <==> i in s.fates && s.fates[i].DeadLettered?
  {
    if i in s.fates && s.fates[i].DeadLettered? {
      assert s.fates[i].msg in s.core.dlq;
    }
  }
}
