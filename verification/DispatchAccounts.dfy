/**
  The manager's books: in every reachable state of the dispatch system each tenant's counters
  are those of its submissions inside the queue, so no guard against negative counters ever hides
  a discrepancy. As long as no cancelled admission is taken back from under a message with the
  same key, the reservations are those messages' estimates too, and used plus reserved budget
  never exceeds the policy.
 */
module DispatchAccounts {
  import opened Common
  import opened TenantPolicy
  import opened QueueCore
  import opened Dispatch
  import opened DispatchPlaces

  predicate Counted(p: Phase) { p.Sending? || p.Buffered? || p.Carried? || p.Waiting? }

  function QueuedOf(live: map<nat, Live>, t: string): set<nat> {
    set id | id in live && live[id].msg.tenant == t && Counted(live[id].phase)
  }

  function RunningOf(live: map<nat, Live>, t: string): set<nat> {
    set id | id in live && live[id].msg.tenant == t && live[id].phase == Handling
  }

  function RolledOf(rolled: map<nat, Msg>, t: string): set<nat> {
    set id | id in rolled && rolled[id].tenant == t
  }

  predicate Holds(e: Live, t: string) { e.msg.tenant == t && (Counted(e.phase) || e.phase == Handling) }

  /** The clamped estimates of the tenant's queued and running messages, by key. */
  ghost function Held(live: map<nat, Live>, t: string): map<string, Estimate>
    requires OneCopy(live)
  {
    map id | id in live && Holds(live[id], t) :: Key(live, id) := Clamp(live[id].msg.tokens, live[id].msg.cost)
  }

  /** The message's clamped estimate is reserved under its key. */
  predicate Reserved(r: map<string, Estimate>, m: Msg) {
    MessageKey(m) in r && r[MessageKey(m)] == Clamp(m.tokens, m.cost)
  }

  /** Every queued or running message of the tenant has its reservation. */
  ghost predicate Covered(r: map<string, Estimate>, live: map<nat, Live>, t: string) {
    forall id :: id in live && Holds(live[id], t) ==> Reserved(r, live[id].msg)
  }

  ghost predicate HeldLive(k: string, live: map<nat, Live>, t: string) {
    exists id :: id in live && Holds(live[id], t) && Key(live, id) == k
  }

  ghost predicate HeldRolled(k: string, rolled: map<nat, Msg>, t: string) {
    exists id :: id in rolled && rolled[id].tenant == t && MessageKey(rolled[id]) == k
  }

  /** Every reservation is non-negative and belongs to a queued, running or half-cancelled message. */
  ghost predicate NoStray(r: map<string, Estimate>, live: map<nat, Live>, rolled: map<nat, Msg>, t: string) {
    forall k :: k in r ==>
      r[k].tokens >= 0 && r[k].cost >= 0.0 && (HeldLive(k, live, t) || HeldRolled(k, rolled, t))
  }

  ghost predicate Tally(st: TenantState, live: map<nat, Live>, rolled: map<nat, Msg>, t: string, cancelled: nat) {
    && st.queued == |QueuedOf(live, t)| + |RolledOf(rolled, t)|
    && st.running == |RunningOf(live, t)|
    && st.enqueued == st.queued + st.dequeued + cancelled
    && st.dequeued == st.running + st.completed + st.failed
  }

  ghost predicate WithinBudget(st: TenantState, pol: Policy) {
    && (pol.tokenBudget > 0 ==> st.tokensUsed + st.reservedTokens <= pol.tokenBudget)
    && (pol.costBudget > 0.0 ==> st.costUsed + st.reservedCost <= pol.costBudget)
  }

  /** One tenant's books; `funded` also asks for the reservations and the budget. */
  ghost predicate Account(
      st: TenantState, pol: Policy, live: map<nat, Live>, rolled: map<nat, Msg>, t: string, cancelled: nat,
      funded: bool) {
    && Sound(st) && Tally(st, live, rolled, t, cancelled) && NoStray(st.reservations, live, rolled, t)
    && (funded ==> Covered(st.reservations, live, t) && WithinBudget(st, pol))
  }

  ghost predicate Books(mgr: Mgr, live: map<nat, Live>, rolled: map<nat, Msg>, cancels: multiset<string>, funded: bool) {
    forall t :: Account(StateOf(mgr, t), PolicyOf(mgr, t), live, rolled, t, cancels[t], funded)
  }

  // ---------------------------------------------------------------- one entry changes

  predicate CountsAs(live: map<nat, Live>, id: nat, t: string) {
    id in live && live[id].msg.tenant == t && Counted(live[id].phase)
  }

  predicate RunsAs(live: map<nat, Live>, id: nat, t: string) {
    id in live && live[id].msg.tenant == t && live[id].phase == Handling
  }

  lemma SetsAfter(live: map<nat, Live>, live': map<nat, Live>, id: nat, t: string)
    requires AgreeOff(live, live', id)
    ensures QueuedOf(live', t) == QueuedOf(live, t) - {id} + if CountsAs(live', id, t) then {id} else {}
    ensures RunningOf(live', t) == RunningOf(live, t) - {id} + if RunsAs(live', id, t) then {id} else {}
    ensures id in QueuedOf(live, t) <==> CountsAs(live, id, t)
    ensures id in RunningOf(live, t) <==> RunsAs(live, id, t)
  {
  }

  function One(b: bool): int { if b then 1 else 0 }

  /** How the two numbers change with the entry. */
  lemma SizesAfter(live: map<nat, Live>, live': map<nat, Live>, id: nat, t: string)
    requires AgreeOff(live, live', id)
    ensures |QueuedOf(live', t)| == |QueuedOf(live, t)| - One(CountsAs(live, id, t)) + One(CountsAs(live', id, t))
    ensures |RunningOf(live', t)| == |RunningOf(live, t)| - One(RunsAs(live, id, t)) + One(RunsAs(live', id, t))
  {
    hide AgreeOff, QueuedOf, RunningOf, CountsAs, RunsAs;
    SetsAfter(live, live', id, t);
  }

  /** The message of an entry stays while it is inside the queue. */
  ghost predicate SameMsg(live: map<nat, Live>, live': map<nat, Live>, id: nat) {
    id in live && id in live' ==> live[id].msg == live'[id].msg
  }

  /** What is held stays held, except by the entry that changes. */
  lemma HeldAfter(k: string, live: map<nat, Live>, live': map<nat, Live>, id: nat, t: string)
    requires AgreeOff(live, live', id) && HeldLive(k, live, t)
    requires id in live && Holds(live[id], t) && Key(live, id) == k ==> id in live' && Holds(live'[id], t) && Key(live', id) == k
    ensures HeldLive(k, live', t)
  {
    hide MessageKey;
    var j :| j in live && Holds(live[j], t) && Key(live, j) == k;
    assert j in live' && Holds(live'[j], t) && Key(live', j) == k;
  }

  lemma RolledAfter(k: string, rolled: map<nat, Msg>, rolled': map<nat, Msg>, t: string)
    requires HeldRolled(k, rolled, t)
    requires forall id :: id in rolled && MessageKey(rolled[id]) == k ==> id in rolled' && rolled'[id] == rolled[id]
    ensures HeldRolled(k, rolled', t)
  {
    hide MessageKey;
    var j :| j in rolled && rolled[j].tenant == t && MessageKey(rolled[j]) == k;
    assert j in rolled' && rolled'[j].tenant == t && MessageKey(rolled'[j]) == k;
  }

  /** Reservations under other keys than the changing entry's keep their owners. */
  lemma StrayAfter(
      r: map<string, Estimate>, live: map<nat, Live>, live': map<nat, Live>, rolled: map<nat, Msg>, id: nat,
      t: string)
    requires AgreeOff(live, live', id) && NoStray(r, live, rolled, t)
    requires id in live && Holds(live[id], t) && Key(live, id) in r ==> id in live' && Holds(live'[id], t) && SameMsg(live, live', id)
    ensures NoStray(r, live', rolled, t)
  {
    hide MessageKey, HeldLive, HeldRolled, AgreeOff;
    forall k | k in r ensures HeldLive(k, live', t) || HeldRolled(k, rolled, t) {
      if HeldLive(k, live, t) { HeldAfter(k, live, live', id, t); }
    }
  }

  lemma CoveredAfter(r: map<string, Estimate>, live: map<nat, Live>, live': map<nat, Live>, id: nat, t: string)
    requires AgreeOff(live, live', id) && Covered(r, live, t)
    requires id in live' && Holds(live'[id], t) ==> Reserved(r, live'[id].msg)
    ensures Covered(r, live', t)
  {
    hide Reserved;
  }

  /** A reservation that no queued or running message needs can be dropped. */
  lemma CoveredWithout(r: map<string, Estimate>, live: map<nat, Live>, t: string, key: string)
    requires Covered(r, live, t) && !HeldLive(key, live, t)
    ensures Covered(r - {key}, live, t)
  {
    hide MessageKey, Clamp;
    forall id | id in live && Holds(live[id], t) ensures Reserved(r - {key}, live[id].msg) {
      assert Reserved(r, live[id].msg) && Key(live, id) != key;
    }
  }

  /** Another message's reservation can be added: it has another key. */
  lemma CoveredWith(r: map<string, Estimate>, live: map<nat, Live>, live': map<nat, Live>, id: nat, t: string)
    requires OneCopy(live') && AgreeOff(live, live', id) && id in live' && live'[id].msg.tenant == t && Covered(r, live, t)
    ensures var m := live'[id].msg; Covered(r[MessageKey(m) := Clamp(m.tokens, m.cost)], live', t)
  {
    hide MessageKey, Clamp;
    var m := live'[id].msg;
    var r' := r[MessageKey(m) := Clamp(m.tokens, m.cost)];
    forall j | j in live' && Holds(live'[j], t) ensures Reserved(r', live'[j].msg) {
      if j != id {
        assert j in live && Reserved(r, live[j].msg);
        assert Key(live', j) != Key(live', id);
      }
    }
  }

  /** In a queue without two copies, nothing else holds the key of an entry that does not. */
  lemma NoneHolds(live: map<nat, Live>, id: nat, t: string)
    requires OneCopy(live) && id in live && !Holds(live[id], t)
    ensures !HeldLive(Key(live, id), live, t)
  {
    hide MessageKey;
  }

  // ---------------------------------------------------------------- what the manager's operations do to the books

  /** The fields that the books speak about. */
  ghost predicate SameBooks(a: TenantState, b: TenantState) {
    && a.queued == b.queued && a.running == b.running
    && a.enqueued == b.enqueued && a.dequeued == b.dequeued && a.completed == b.completed && a.failed == b.failed
    && a.reservations == b.reservations && a.reservedTokens == b.reservedTokens && a.reservedCost == b.reservedCost
    && a.tokensUsed == b.tokensUsed && a.costUsed == b.costUsed
  }

  ghost predicate NonNegative(r: map<string, Estimate>) { forall k :: k in r ==> r[k].tokens >= 0 && r[k].cost >= 0.0 }

  lemma AdmitEffect(st: TenantState, pol: Policy, now: int, key: string, tokens: int, cost: real)
    requires key != "" && NonNegative(st.reservations)
    ensures var (a, verdict) := Admit(st, pol, now, key, tokens, cost);
            && (WithinBudget(st, pol) ==> WithinBudget(a, pol))
            && (verdict != Admitted ==> SameBooks(a, st))
            && (verdict == Admitted ==>
                 && a.queued == st.queued + 1 && a.enqueued == st.enqueued + 1
                 && a.running == st.running && a.dequeued == st.dequeued
                 && a.completed == st.completed && a.failed == st.failed
                 && a.reservations == st.reservations[key := Clamp(tokens, cost)])
  {
    hide Prune;
  }

  lemma StartEffect(st: TenantState, pol: Policy, now: int)
    requires st.queued >= 0
    ensures var (a, verdict) := Start(st, pol, now);
            && (verdict != Admitted ==> SameBooks(a, st))
            && (verdict == Admitted && st.queued > 0 ==>
                 SameBooks(a, st.(queued := st.queued - 1, running := st.running + 1, dequeued := st.dequeued + 1)))
  {
  }

  ghost predicate SameUsage(a: TenantState, b: TenantState) {
    && a.queued == b.queued && a.running == b.running && a.enqueued == b.enqueued && a.dequeued == b.dequeued
    && a.reservations == b.reservations && a.reservedTokens == b.reservedTokens && a.reservedCost == b.reservedCost
    && a.tokensUsed == b.tokensUsed && a.costUsed == b.costUsed
  }

  lemma CompleteEffect(st: TenantState, pol: Policy, now: int, key: string, tokens: int, cost: real, failed: bool, accepted: bool)
    requires key != "" && st.running > 0
    ensures var a := Complete(st, pol, now, key, tokens, cost, failed, accepted);
            && (key in st.reservations && st.reservations[key] == Clamp(tokens, cost) && WithinBudget(st, pol) ==> WithinBudget(a, pol))
            && a.queued == st.queued && a.running == st.running - 1
            && a.enqueued == st.enqueued && a.dequeued == st.dequeued
            && a.completed + a.failed == st.completed + st.failed + 1
            && a.reservations == st.reservations - {key}
  {
    hide Judge, Settle;
    SettleEffect(st, key, tokens, cost, accepted, pol);
    JudgeEffect(Settle(st, key, tokens, cost, accepted), pol, now, failed);
  }

  lemma SettleEffect(st: TenantState, key: string, tokens: int, cost: real, accepted: bool, pol: Policy)
    requires key != "" && st.running > 0
    ensures var a := Settle(st, key, tokens, cost, accepted);
            && (key in st.reservations && st.reservations[key] == Clamp(tokens, cost) && WithinBudget(st, pol) ==> WithinBudget(a, pol))
            && a.queued == st.queued && a.running == st.running - 1 && a.enqueued == st.enqueued && a.dequeued == st.dequeued
            && a.completed == st.completed && a.failed == st.failed && a.reservations == st.reservations - {key}
  {
  }

  lemma JudgeEffect(st: TenantState, pol: Policy, now: int, failed: bool)
    ensures var a := Judge(st, pol, now, failed); SameUsage(st, a) && a.completed + a.failed == st.completed + st.failed + 1
  {
  }

  lemma MarkDeadEffect(st: TenantState, key: string, pol: Policy)
    requires key != "" && NonNegative(st.reservations)
    ensures var a := MarkDead(st, key);
            && (WithinBudget(st, pol) ==> WithinBudget(a, pol))
            && a.queued == st.queued && a.running == st.running && a.enqueued == st.enqueued && a.dequeued == st.dequeued
            && a.completed == st.completed && a.failed == st.failed
            && a.reservations == st.reservations - {key}
  {
  }

  lemma CancelEffect(st: TenantState, key: string, pol: Policy)
    requires key != "" && st.queued > 0 && NonNegative(st.reservations)
    ensures var a := Cancel(st, key);
            && (WithinBudget(st, pol) ==> WithinBudget(a, pol))
            && a.queued == st.queued - 1 && a.running == st.running
            && a.enqueued == st.enqueued && a.dequeued == st.dequeued
            && a.completed == st.completed && a.failed == st.failed
            && a.reservations == st.reservations - {key}
  {
  }

  lemma KeyNotEmpty(m: Msg)
    ensures MessageKey(m) != ""
  {
    assert |MessageKey(m)| > 0;
  }

  lemma ClampNotNegative(tokens: int, cost: real)
    ensures Clamp(tokens, cost).tokens >= 0 && Clamp(tokens, cost).cost >= 0.0
  {
  }

  // ---------------------------------------------------------------- one tenant's account

  /** Whether the entry counts for the tenant, and as what, is the same in both maps. */
  ghost predicate SameWeight(live: map<nat, Live>, live': map<nat, Live>, id: nat, t: string) {
    (CountsAs(live, id, t) <==> CountsAs(live', id, t)) && (RunsAs(live, id, t) <==> RunsAs(live', id, t)) && SameMsg(live, live', id)
  }

  lemma AccountFrame(
      st: TenantState, pol: Policy, live: map<nat, Live>, live': map<nat, Live>, rolled: map<nat, Msg>, id: nat,
      t: string, c: nat, funded: bool)
    requires AgreeOff(live, live', id) && SameWeight(live, live', id, t) && Account(st, pol, live, rolled, t, c, funded)
    ensures Account(st, pol, live', rolled, t, c, funded)
  {
    hide AgreeOff, QueuedOf, RunningOf, RolledOf, Sound, NoStray, Covered, WithinBudget;
    SizesAfter(live, live', id, t);
    StrayAfter(st.reservations, live, live', rolled, id, t);
    if funded { HolderCovered(st.reservations, live, t, id); CoveredAfter(st.reservations, live, live', id, t); }
  }

  lemma HolderCovered(r: map<string, Estimate>, live: map<nat, Live>, t: string, id: nat)
    requires Covered(r, live, t)
    ensures id in live && Holds(live[id], t) ==> Reserved(r, live[id].msg)
  {
  }

  lemma AccountSameBooks(
      a: TenantState, st: TenantState, pol: Policy, live: map<nat, Live>, rolled: map<nat, Msg>, t: string, c: nat,
      funded: bool)
    requires Account(st, pol, live, rolled, t, c, funded) && SameBooks(a, st) && Sound(a)
    ensures Account(a, pol, live, rolled, t, c, funded)
  {
    hide Sound, QueuedOf, RunningOf, RolledOf, NoStray, Covered;
  }

  lemma StrayIsNotNegative(r: map<string, Estimate>, live: map<nat, Live>, rolled: map<nat, Msg>, t: string)
    requires NoStray(r, live, rolled, t)
    ensures NonNegative(r)
  {
  }

  lemma AskKeepsAccount(
      st: TenantState, pol: Policy, now: int, live: map<nat, Live>, rolled: map<nat, Msg>, id: nat, c: nat,
      funded: bool)
    requires OneCopy(Move(live, id, Sending)) && InPhase(live, id, Admitting)
    requires Account(st, pol, live, rolled, live[id].msg.tenant, c, funded)
    ensures var m := live[id].msg;
            var (a, verdict) := Admit(st, pol, now, MessageKey(m), m.tokens, m.cost);
            Account(a, pol, Move(live, id, if verdict == Admitted then Sending else Refusing), rolled, m.tenant, c, funded)
  {
    hide OneCopy, Sound, QueuedOf, RunningOf, RolledOf, MessageKey, Admit, WithinBudget, NoStray, Covered, Clamp;
    var m := live[id].msg;
    var t, key := m.tenant, MessageKey(m);
    var (a, verdict) := Admit(st, pol, now, key, m.tokens, m.cost);
    KeyNotEmpty(m);
    StrayIsNotNegative(st.reservations, live, rolled, t);
    AdmitSound(st, pol, now, key, m.tokens, m.cost);
    AdmitEffect(st, pol, now, key, m.tokens, m.cost);
    if verdict == Admitted {
      var live' := Move(live, id, Sending);
      SizesAfter(live, live', id, t);
      StrayAfter(st.reservations, live, live', rolled, id, t);
      StrayWith(st.reservations, live', rolled, id, t);
      if funded { CoveredWith(st.reservations, live, live', id, t); }
    } else {
      AccountSameBooks(a, st, pol, live, rolled, t, c, funded);
      AccountFrame(a, pol, live, Move(live, id, Refusing), rolled, id, t, c, funded);
    }
  }

  lemma StrayWith(r: map<string, Estimate>, live: map<nat, Live>, rolled: map<nat, Msg>, id: nat, t: string)
    requires NoStray(r, live, rolled, t) && id in live && Holds(live[id], t)
    ensures var m := live[id].msg; NoStray(r[MessageKey(m) := Clamp(m.tokens, m.cost)], live, rolled, t)
  {
    hide MessageKey, HeldLive, HeldRolled, Clamp;
    var m := live[id].msg;
    ClampNotNegative(m.tokens, m.cost);
    HoldsKey(live, id, t);
  }

  lemma HoldsKey(live: map<nat, Live>, id: nat, t: string)
    requires id in live && Holds(live[id], t)
    ensures HeldLive(Key(live, id), live, t)
  {
    hide MessageKey;
  }

  lemma StrayWithout(r: map<string, Estimate>, live: map<nat, Live>, rolled: map<nat, Msg>, t: string, key: string)
    requires NoStray(r, live, rolled, t)
    ensures NoStray(r - {key}, live, rolled, t)
  {
    hide MessageKey, HeldLive, HeldRolled;
  }

  /** The key is given back, the admission stays: the message is now a half-cancelled one. */
  lemma LeaveKeepsAccount(
      st: TenantState, pol: Policy, live: map<nat, Live>, rolled: map<nat, Msg>, id: nat, t: string, c: nat,
      funded: bool)
    requires InPhase(live, id, Sending) && id !in rolled && Account(st, pol, live, rolled, t, c, funded)
    ensures Account(st, pol, Exit(live, id), rolled[id := live[id].msg], t, c, funded)
  {
    hide Sound, QueuedOf, RunningOf, RolledOf, WithinBudget, NoStray, Covered, MessageKey;
    var live', rolled' := Exit(live, id), rolled[id := live[id].msg];
    SizesAfter(live, live', id, t);
    RolledMore(rolled, id, live[id].msg, t);
    StrayRolled(st.reservations, live, rolled, id, t);
    if funded { CoveredAfter(st.reservations, live, live', id, t); }
  }

  lemma RolledMore(rolled: map<nat, Msg>, id: nat, m: Msg, t: string)
    requires id !in rolled
    ensures |RolledOf(rolled[id := m], t)| == |RolledOf(rolled, t)| + One(m.tenant == t)
  {
    assert RolledOf(rolled[id := m], t) == RolledOf(rolled, t) + if m.tenant == t then {id} else {};
  }

  lemma RolledLess(rolled: map<nat, Msg>, id: nat, t: string)
    requires id in rolled
    ensures |RolledOf(rolled, t)| == |RolledOf(rolled - {id}, t)| + One(rolled[id].tenant == t)
  {
    assert (rolled - {id})[id := rolled[id]] == rolled;
    RolledMore(rolled - {id}, id, rolled[id], t);
  }

  lemma StrayRolled(r: map<string, Estimate>, live: map<nat, Live>, rolled: map<nat, Msg>, id: nat, t: string)
    requires id in live && id !in rolled && NoStray(r, live, rolled, t)
    ensures NoStray(r, Exit(live, id), rolled[id := live[id].msg], t)
  {
    hide MessageKey;
    var live', rolled' := Exit(live, id), rolled[id := live[id].msg];
    forall k | k in r ensures HeldLive(k, live', t) || HeldRolled(k, rolled', t) {
      if HeldRolled(k, rolled, t) {
        RolledAfter(k, rolled, rolled', t);
      } else {
        var j :| j in live && Holds(live[j], t) && Key(live, j) == k;
        if j == id {
          assert id in rolled' && rolled'[id].tenant == t && MessageKey(rolled'[id]) == k;
        } else {
          assert j in live' && Holds(live'[j], t) && Key(live', j) == k;
        }
      }
    }
  }

  /** CancelEnqueue keeps the books as long as nothing else holds the key. */
  lemma CancelKeepsAccount(
      st: TenantState, pol: Policy, live: map<nat, Live>, rolled: map<nat, Msg>, id: nat, c: nat, funded: bool)
    requires id in rolled && Account(st, pol, live, rolled, rolled[id].tenant, c, funded)
    requires funded ==> !HeldLive(MessageKey(rolled[id]), live, rolled[id].tenant)
    ensures var m := rolled[id];
            Account(Cancel(st, MessageKey(m)), pol, live, rolled - {id}, m.tenant, c + 1, funded)
  {
    hide Sound, QueuedOf, RunningOf, RolledOf, WithinBudget, NoStray, Covered, MessageKey, Cancel, HeldLive;
    var m := rolled[id];
    var t, key := m.tenant, MessageKey(m);
    KeyNotEmpty(m);
    StrayIsNotNegative(st.reservations, live, rolled, t);
    RolledLess(rolled, id, t);
    CancelSound(st, key);
    CancelEffect(st, key, pol);
    StrayCancelled(st.reservations, live, rolled, id, t);
    if funded { CoveredWithout(st.reservations, live, t, key); }
  }

  lemma StrayCancelled(r: map<string, Estimate>, live: map<nat, Live>, rolled: map<nat, Msg>, id: nat, t: string)
    requires id in rolled && NoStray(r, live, rolled, t)
    ensures NoStray(r - {MessageKey(rolled[id])}, live, rolled - {id}, t)
  {
    hide MessageKey, HeldLive, HeldRolled;
    var key := MessageKey(rolled[id]);
    forall k | k in r && k != key ensures HeldLive(k, live, t) || HeldRolled(k, rolled - {id}, t) {
      if HeldRolled(k, rolled, t) { RolledAfter(k, rolled, rolled - {id}, t); }
    }
  }

  lemma ReportKeepsAccount(
      st: TenantState, pol: Policy, now: int, live: map<nat, Live>, rolled: map<nat, Msg>, id: nat, failed: bool,
      final: bool, p: Phase, c: nat, funded: bool)
    requires OneCopy(live) && OneCopy(Move(live, id, p)) && InPhase(live, id, Handling) && (p == Marking || p.Settling?)
    requires Account(st, pol, live, rolled, live[id].msg.tenant, c, funded)
    ensures var m := live[id].msg;
            var done := Complete(st, pol, now, MessageKey(m), m.tokens, m.cost, failed, !failed || final);
            Account(done, pol, Move(live, id, p), rolled, m.tenant, c, funded)
  {
    hide OneCopy, Sound, QueuedOf, RunningOf, RolledOf, MessageKey, Complete, WithinBudget, NoStray, Covered, Clamp;
    var m, live' := live[id].msg, Move(live, id, p);
    var t, key := m.tenant, MessageKey(m);
    KeyNotEmpty(m);
    SizesAfter(live, live', id, t);
    CompleteSound(st, pol, now, key, m.tokens, m.cost, failed, !failed || final);
    CompleteEffect(st, pol, now, key, m.tokens, m.cost, failed, !failed || final);
    StrayWithout(st.reservations, live, rolled, t, key);
    StrayAfter(st.reservations - {key}, live, live', rolled, id, t);
    if funded {
      HolderCovered(st.reservations, live, t, id);
      CoveredAfter(st.reservations, live, live', id, t);
      NoneHolds(live', id, t);
      CoveredWithout(st.reservations, live', t, key);
    }
  }

  lemma MarkKeepsAccount(st: TenantState, pol: Policy, live: map<nat, Live>, rolled: map<nat, Msg>, id: nat, c: nat, funded: bool)
    requires OneCopy(live) && InPhase(live, id, Marking) && Account(st, pol, live, rolled, live[id].msg.tenant, c, funded)
    ensures var m := live[id].msg;
            Account(MarkDead(st, MessageKey(m)), pol, Move(live, id, Settling(true)), rolled, m.tenant, c, funded)
  {
    hide OneCopy, Sound, QueuedOf, RunningOf, RolledOf, MessageKey, MarkDead, WithinBudget, NoStray, Covered;
    var m := live[id].msg;
    var t, key := m.tenant, MessageKey(m);
    var dead := MarkDead(st, key);
    KeyNotEmpty(m);
    StrayIsNotNegative(st.reservations, live, rolled, t);
    MarkDeadSound(st, key);
    MarkDeadEffect(st, key, pol);
    StrayWithout(st.reservations, live, rolled, t, key);
    if funded {
      NoneHolds(live, id, t);
      CoveredWithout(st.reservations, live, t, key);
    }
    AccountFrame(dead, pol, live, Move(live, id, Settling(true)), rolled, id, t, c, funded);
  }

  lemma MoveAgrees(live: map<nat, Live>, id: nat, p: Phase)
    ensures AgreeOff(live, Move(live, id, p), id)
  {
  }

  lemma StartKeepsAccount(
      st: TenantState, pol: Policy, now: int, live: map<nat, Live>, rolled: map<nat, Msg>, id: nat, c: nat,
      funded: bool)
    requires InPhase(live, id, Waiting) && Start(st, pol, now).1 == Admitted
    requires Account(st, pol, live, rolled, live[id].msg.tenant, c, funded)
    ensures Account(Start(st, pol, now).0, pol, Move(live, id, Handling), rolled, live[id].msg.tenant, c, funded)
  {
    hide Sound, QueuedOf, RunningOf, RolledOf, MessageKey, Start, NoStray, Covered, AgreeOff, WithinBudget;
    var live', t := Move(live, id, Handling), live[id].msg.tenant;
    MoveAgrees(live, id, Handling);
    StartSizes(live, id);
    StartSound(st, pol, now);
    StartEffect(st, pol, now);
    StrayAfter(st.reservations, live, live', rolled, id, t);
    if funded {
      HolderCovered(st.reservations, live, t, id);
      CoveredAfter(st.reservations, live, live', id, t);
      SameBudget(st, Start(st, pol, now).0, pol);
    }
  }

  lemma StartSizes(live: map<nat, Live>, id: nat)
    requires InPhase(live, id, Waiting)
    ensures var live', t := Move(live, id, Handling), live[id].msg.tenant;
      && |QueuedOf(live, t)| == |QueuedOf(live', t)| + 1
      && |RunningOf(live', t)| == |RunningOf(live, t)| + 1
  {
    hide QueuedOf, RunningOf, AgreeOff;
    MoveAgrees(live, id, Handling);
    SizesAfter(live, Move(live, id, Handling), id, live[id].msg.tenant);
  }

  lemma SameBudget(st: TenantState, a: TenantState, pol: Policy)
    requires a.tokensUsed == st.tokensUsed && a.costUsed == st.costUsed
    requires a.reservedTokens == st.reservedTokens && a.reservedCost == st.reservedCost && WithinBudget(st, pol)
    ensures WithinBudget(a, pol)
  {
  }

  // ---------------------------------------------------------------- all tenants

  /** Steps that move an entry between phases the manager does not tell apart. */
  lemma QuietKeepsBooks(
      mgr: Mgr, live: map<nat, Live>, live': map<nat, Live>, rolled: map<nat, Msg>, id: nat,
      cancels: multiset<string>, funded: bool)
    requires AgreeOff(live, live', id) && (forall t :: SameWeight(live, live', id, t))
    requires Books(mgr, live, rolled, cancels, funded)
    ensures Books(mgr, live', rolled, cancels, funded)
  {
    hide Account, AgreeOff, StateOf, PolicyOf, SameWeight;
    forall t ensures Account(StateOf(mgr, t), PolicyOf(mgr, t), live', rolled, t, cancels[t], funded) {
      AccountFrame(StateOf(mgr, t), PolicyOf(mgr, t), live, live', rolled, id, t, cancels[t], funded);
    }
  }

  /** Steps with which the manager changes one tenant's record, because of one entry. */
  lemma OneTenant(
      mgr: Mgr, st: TenantState, live: map<nat, Live>, live': map<nat, Live>, rolled: map<nat, Msg>, id: nat,
      u: string, cancels: multiset<string>, funded: bool)
    requires AgreeOff(live, live', id) && (forall t :: t != u ==> SameWeight(live, live', id, t))
    requires Books(mgr, live, rolled, cancels, funded)
    requires Account(st, PolicyOf(mgr, u), live', rolled, u, cancels[u], funded)
    ensures Books(With(mgr, u, st), live', rolled, cancels, funded)
  {
    hide Account, AgreeOff, StateOf, PolicyOf, SameWeight;
    var mgr' := With(mgr, u, st);
    forall t ensures Account(StateOf(mgr', t), PolicyOf(mgr', t), live', rolled, t, cancels[t], funded) {
      if t != u {
        AccountFrame(StateOf(mgr, t), PolicyOf(mgr, t), live, live', rolled, id, t, cancels[t], funded);
      }
    }
  }

  lemma CancelKeepsBooks(mgr: Mgr, live: map<nat, Live>, rolled: map<nat, Msg>, id: nat, cancels: multiset<string>, funded: bool)
    requires id in rolled && Books(mgr, live, rolled, cancels, funded)
    requires funded ==> !HeldLive(MessageKey(rolled[id]), live, rolled[id].tenant)
    ensures var m := rolled[id];
            Books(With(mgr, m.tenant, Cancel(StateOf(mgr, m.tenant), MessageKey(m))), live, rolled - {id}, cancels + multiset{m.tenant}, funded)
  {
    hide Account, StateOf, PolicyOf, MessageKey, Cancel, HeldLive;
    var m := rolled[id];
    var mgr', cancels' := With(mgr, m.tenant, Cancel(StateOf(mgr, m.tenant), MessageKey(m))), cancels + multiset{m.tenant};
    forall t ensures Account(StateOf(mgr', t), PolicyOf(mgr', t), live, rolled - {id}, t, cancels'[t], funded) {
      assert Account(StateOf(mgr, t), PolicyOf(mgr, t), live, rolled, t, cancels[t], funded);
      if t == m.tenant {
        CancelKeepsAccount(StateOf(mgr, t), PolicyOf(mgr, t), live, rolled, id, cancels[t], funded);
      } else {
        OtherRolled(StateOf(mgr, t), PolicyOf(mgr, t), live, rolled, id, t, cancels[t], funded);
      }
    }
  }

  lemma OtherRolled(
      st: TenantState, pol: Policy, live: map<nat, Live>, rolled: map<nat, Msg>, id: nat, t: string, c: nat,
      funded: bool)
    requires id in rolled && rolled[id].tenant != t && Account(st, pol, live, rolled, t, c, funded)
    ensures Account(st, pol, live, rolled - {id}, t, c, funded)
  {
    hide Sound, QueuedOf, RunningOf, RolledOf, Covered, WithinBudget, MessageKey, HeldLive;
    RolledLess(rolled, id, t);
    forall k | k in st.reservations ensures HeldLive(k, live, t) || HeldRolled(k, rolled - {id}, t) {
      if HeldRolled(k, rolled, t) {
        var j :| j in rolled && rolled[j].tenant == t && MessageKey(rolled[j]) == k;
        assert j in rolled - {id} && (rolled - {id})[j] == rolled[j];
      }
    }
  }

  lemma LeaveKeepsBooks(mgr: Mgr, live: map<nat, Live>, rolled: map<nat, Msg>, id: nat, cancels: multiset<string>, funded: bool)
    requires InPhase(live, id, Sending) && id !in rolled && Books(mgr, live, rolled, cancels, funded)
    ensures Books(mgr, Exit(live, id), rolled[id := live[id].msg], cancels, funded)
  {
    hide Account, StateOf, PolicyOf;
    var live', rolled' := Exit(live, id), rolled[id := live[id].msg];
    forall t ensures Account(StateOf(mgr, t), PolicyOf(mgr, t), live', rolled', t, cancels[t], funded) {
      LeaveKeepsAccount(StateOf(mgr, t), PolicyOf(mgr, t), live, rolled, id, t, cancels[t], funded);
    }
  }

  /** A pop changes the books of the dispatched tenant only; a refused tenant at most changes its breaker. */
  lemma PopKeepsBooks(
      q: Core, live: map<nat, Live>, hands: seq<Msg>, rolled: map<nat, Msg>, mgr: Mgr, now: int,
      cancels: multiset<string>, funded: bool)
    requires Places(q, live, hands) && Books(mgr, live, rolled, cancels, funded)
    ensures var (_, mgr', out) := Pop(q, mgr, now);
            Books(mgr', if out.None? then live else Move(live, out.value.ticket, Handling), rolled, cancels, funded)
  {
    hide MessageKey, KeysOk, ListOk, FifosOk, Scan, Take, Books, Asked, Eligible, Rotated, Named;
    if q.ring == [] { return; }
    ScanFindsFirst(q, mgr, now);
    var (mgr', found) := Scan(q.ring, q.cursor, |q.ring|, mgr, now);
    var turn := Rotated(q.ring, q.cursor);
    if found.None? {
      RefusedKeepBooks(turn, |turn|, mgr, mgr', now, live, rolled, cancels, funded);
    } else {
      var d: nat :| d < |q.ring| && FoundAt(q.ring, q.cursor, d, mgr, now, mgr', found.value);
      HeadIsWaiting(q, live, hands, found.value);
      RotatedAt(q.ring, q.cursor, d);
      DispatchKeepsBooks(turn, d, mgr, mgr', now, live, rolled, Take(q, found.value).1.ticket, cancels, funded);
    }
  }

  lemma RefusedAccount(
      m0: Mgr, t: string, now: int, live: map<nat, Live>, rolled: map<nat, Msg>, cancels: multiset<string>,
      funded: bool)
    requires Books(m0, live, rolled, cancels, funded) && !Eligible(m0, t, now)
    ensures Account(Start(StateOf(m0, t), PolicyOf(m0, t), now).0, PolicyOf(m0, t), live, rolled, t, cancels[t], funded)
  {
    hide Start, QueuedOf, RunningOf, RolledOf, StateOf, PolicyOf, Sound, NoStray, Covered;
    var st := StateOf(m0, t);
    assert Account(st, PolicyOf(m0, t), live, rolled, t, cancels[t], funded);
    StartEffect(st, PolicyOf(m0, t), now);
    StartSound(st, PolicyOf(m0, t), now);
    AccountSameBooks(Start(st, PolicyOf(m0, t), now).0, st, PolicyOf(m0, t), live, rolled, t, cancels[t], funded);
  }

  lemma RefusedKeepBooks(
      turn: seq<string>, k: nat, m0: Mgr, m: Mgr, now: int, live: map<nat, Live>, rolled: map<nat, Msg>,
      cancels: multiset<string>, funded: bool)
    requires k <= |turn| && Books(m0, live, rolled, cancels, funded) && Asked(turn, k, m0, m, now)
    requires forall e :: 0 <= e < k ==> !Eligible(m0, turn[e], now)
    ensures Books(m, live, rolled, cancels, funded)
  {
    hide Start, Account, StateOf, PolicyOf, Eligible;
    forall t ensures Account(StateOf(m, t), PolicyOf(m, t), live, rolled, t, cancels[t], funded) {
      if t in turn[..k] {
        var e :| 0 <= e < k && turn[e] == t;
        RefusedAccount(m0, t, now, live, rolled, cancels, funded);
      } else {
        assert Account(StateOf(m0, t), PolicyOf(m0, t), live, rolled, t, cancels[t], funded);
      }
    }
  }

  lemma DispatchKeepsBooks(
      turn: seq<string>, d: nat, m0: Mgr, m: Mgr, now: int, live: map<nat, Live>, rolled: map<nat, Msg>, id: nat,
      cancels: multiset<string>, funded: bool)
    requires d < |turn| && NoDup(turn) && Books(m0, live, rolled, cancels, funded)
    requires Asked(turn, d + 1, m0, m, now) && Eligible(m0, turn[d], now)
    requires forall e :: 0 <= e < d ==> !Eligible(m0, turn[e], now)
    requires InPhase(live, id, Waiting) && live[id].msg.tenant == turn[d]
    ensures Books(m, Move(live, id, Handling), rolled, cancels, funded)
  {
    hide Start, Account, StateOf, PolicyOf;
    var live', t0 := Move(live, id, Handling), turn[d];
    assert turn[..d + 1] == turn[..d] + [t0];
    forall t ensures Account(StateOf(m, t), PolicyOf(m, t), live', rolled, t, cancels[t], funded) {
      assert Account(StateOf(m0, t), PolicyOf(m0, t), live, rolled, t, cancels[t], funded);
      if t == t0 {
        StartKeepsAccount(StateOf(m0, t), PolicyOf(m0, t), now, live, rolled, id, cancels[t], funded);
      } else {
        if t in turn[..d] {
          var e :| 0 <= e < d && turn[e] == t;
          RefusedAccount(m0, t, now, live, rolled, cancels, funded);
        }
        AccountFrame(StateOf(m, t), PolicyOf(m, t), live, live', rolled, id, t, cancels[t], funded);
      }
    }
  }

  // ---------------------------------------------------------------- every step keeps the books

  ghost predicate BooksOf(s: Sys, funded: bool) { Books(s.mgr, s.live, s.rolled, s.cancels, funded) }

  ghost predicate BooksOk(s: Sys, funded: bool) { PlacesOk(s) && BooksOf(s, funded) }

  /** No cancelled admission is taken back while a message of the same tenant holds its key. */
  ghost predicate Gentle(s: Sys, step: Step) {
    step.CancelBooks? && step.id in s.rolled ==> !HeldLive(MessageKey(s.rolled[step.id]), s.live, s.rolled[step.id].tenant)
  }

  lemma InitBooks(cfg: Config, defaultPolicy: Policy, policies: map<string, Policy>, start: int)
    ensures BooksOk(Init(cfg, defaultPolicy, policies, start), true)
  {
    InitPlaces(cfg, defaultPolicy, policies, start);
    forall t, pol ensures Account(FRESH, pol, map[], map[], t, 0, true) { FreshAccount(t, pol); }
    hide Account, PlacesOk;
    assert Books(Mgr(defaultPolicy, policies, map[]), map[], map[], multiset{}, true);
  }

  lemma FreshAccount(t: string, pol: Policy)
    ensures Account(FRESH, pol, map[], map[], t, 0, true)
  {
    FreshIsSound();
    hide Sound;
    assert QueuedOf(map[], t) == {} && RunningOf(map[], t) == {} && RolledOf(map[], t) == {};
  }

  lemma OfferBooks(s: Sys, m: Msg, now: int, funded: bool)
    requires BooksOf(s, funded) && m.ticket !in s.live
    ensures BooksOf(Offer(s, m, now), funded)
  {
    hide Books, Claim, Duplicate, MessageKey, Enter;
    EnterKeepsBooks(s.mgr, s.live, s.rolled, m, now, s.cancels, funded);
  }

  lemma ReceiveBooks(s: Sys, funded: bool)
    requires BooksOk(s, funded) && Enabled(s, Receive)
    ensures BooksOf(ReceiveStep(s), funded)
  {
    hide Books, Places, FatesOk, RolledOk, Move;
    ReceiveKeepsPlaces(s.core, s.live, s.hands);
    MoveKeepsBooks(s.mgr, s.live, s.rolled, s.core.channel[0].ticket, Carried, s.cancels, funded);
  }

  lemma FileBooks(s: Sys, k: nat, funded: bool)
    requires BooksOk(s, funded) && Enabled(s, File(k))
    ensures BooksOf(FileStep(s, k), funded)
  {
    hide Books, Places, FatesOk, RolledOk, Move, AddPending, Without;
    FileKeepsPlaces(s.core, s.live, s.hands, k);
    MoveKeepsBooks(s.mgr, s.live, s.rolled, s.hands[k].ticket, Waiting, s.cancels, funded);
  }

  lemma PopBooks(s: Sys, now: int, funded: bool)
    requires BooksOk(s, funded)
    ensures RingOk(s.core) && BooksOf(PopStep(s, now), funded)
  {
    hide Books, Places, FatesOk, RolledOk, Move, Pop;
    LiveFacts(s);
    PopKeepsBooks(s.core, s.live, s.hands, s.rolled, s.mgr, now, s.cancels, funded);
  }

  /** The steps that move a submission without the manager's books noticing. */
  lemma QuietBooks(s: Sys, step: Step, funded: bool)
    requires BooksOk(s, funded) && Enabled(s, step)
    requires step.RetryAbandoned? || step.GiveBack? || step.Send? || step.Finish?
    ensures RingOk(s.core) && BooksOf(Apply(s, step), funded)
  {
    hide Books, Places, FatesOk, RolledOk, Move, Exit, Push, Unclaim, Retire, MessageKey, FateAfter;
    LiveFacts(s);
    match step
    case RetryAbandoned(_) =>
    case GiveBack(id) => ExitKeepsBooks(s.mgr, s.live, s.rolled, id, s.cancels, funded);
    case Send(id) => MoveKeepsBooks(s.mgr, s.live, s.rolled, id, Buffered, s.cancels, funded);
    case Finish(id, _) => ExitKeepsBooks(s.mgr, s.live, s.rolled, id, s.cancels, funded);
  }

  lemma CancelBooksOf(s: Sys, step: Step, funded: bool)
    requires BooksOk(s, funded) && Enabled(s, step) && (step.CancelKey? || step.CancelBooks?) && (funded ==> Gentle(s, step))
    ensures RingOk(s.core) && BooksOf(Apply(s, step), funded)
  {
    hide Books, Places, FatesOk, RolledOk, Exit, Unclaim, MessageKey, With, Cancel, HeldLive, StateOf;
    LiveFacts(s);
    match step
    case CancelKey(id) => LeaveKeepsBooks(s.mgr, s.live, s.rolled, id, s.cancels, funded);
    case CancelBooks(id) => CancelKeepsBooks(s.mgr, s.live, s.rolled, id, s.cancels, funded);
  }

  /** Every step keeps the counters; every step that is gentle also keeps reservations and budget. */
  lemma StepKeepsBooks(s: Sys, step: Step, funded: bool)
    requires BooksOk(s, funded) && Enabled(s, step) && (funded ==> Gentle(s, step))
    ensures RingOk(s.core) && BooksOk(Apply(s, step), funded)
  {
    hide Apply, Enabled, PlacesOk, BooksOf, Gentle, RingOk;
    RingOf(s);
    StepKeepsPlaces(s, step);
    match step
    case Submit(_, _) => OfferStepBooks(s, step, funded);
    case RetryFires(_, _) => OfferStepBooks(s, step, funded);
    case AskManager(_, _) => ManagerStepBooks(s, step, funded);
    case Report(_, _, _) => ManagerStepBooks(s, step, funded);
    case Mark(_) => ManagerStepBooks(s, step, funded);
    case CancelKey(_) => CancelBooksOf(s, step, funded);
    case CancelBooks(_) => CancelBooksOf(s, step, funded);
    case Receive => QueueStepBooks(s, step, funded);
    case File(_) => QueueStepBooks(s, step, funded);
    case PopOne(_) => QueueStepBooks(s, step, funded);
    case _ => QuietBooks(s, step, funded);
  }

  lemma OfferStepBooks(s: Sys, step: Step, funded: bool)
    requires BooksOk(s, funded) && Enabled(s, step) && (step.Submit? || step.RetryFires?)
    ensures RingOk(s.core) && BooksOf(Apply(s, step), funded)
  {
    hide PlacesOk, BooksOf, RingOk, Offer;
    LiveFacts(s);
    match step
    case Submit(msg, at) =>
      IssueBooks(s, Ticketed(s, msg).attempt, funded);
      OfferBooks(Issue(s, Ticketed(s, msg).attempt), Ticketed(s, msg), at, funded);
    case RetryFires(id, at) => OfferBooks(s, Normalize(s.fates[id].msg), at, funded);
  }

  lemma ManagerStepBooks(s: Sys, step: Step, funded: bool)
    requires BooksOk(s, funded) && Enabled(s, step) && (step.AskManager? || step.Report? || step.Mark?)
    ensures RingOk(s.core) && BooksOf(Apply(s, step), funded)
  {
    hide PlacesOk, BooksOf, RingOk, AskStep, ReportStep, MarkStep;
    RingOf(s);
    match step
    case AskManager(id, at) => AskKeepsBooks(s, id, at, funded);
    case Report(id, failed, at) => ReportKeepsBooks(s, id, failed, at, funded);
    case Mark(id) => MarkKeepsBooks(s, id, funded);
  }

  lemma QueueStepBooks(s: Sys, step: Step, funded: bool)
    requires BooksOk(s, funded) && Enabled(s, step) && (step.Receive? || step.File? || step.PopOne?)
    ensures RingOk(s.core) && BooksOf(Apply(s, step), funded)
  {
    hide PlacesOk, BooksOf, RingOk, ReceiveStep, FileStep, PopStep;
    RingOf(s);
    match step
    case Receive => ReceiveBooks(s, funded);
    case File(k) => FileBooks(s, k, funded);
    case PopOne(at) => PopBooks(s, at, funded);
  }

  lemma IssueBooks(s: Sys, attempt: int, funded: bool)
    requires BooksOf(s, funded)
    ensures BooksOf(Issue(s, attempt), funded) && Issue(s, attempt).live == s.live
  {
  }

  lemma EnterKeepsBooks(
      mgr: Mgr, live: map<nat, Live>, rolled: map<nat, Msg>, m: Msg, now: int, cancels: multiset<string>,
      funded: bool)
    requires Books(mgr, live, rolled, cancels, funded) && m.ticket !in live
    ensures Books(mgr, Enter(live, m, now), rolled, cancels, funded)
  {
    hide Books;
    QuietKeepsBooks(mgr, live, Enter(live, m, now), rolled, m.ticket, cancels, funded);
  }

  lemma MoveKeepsBooks(
      mgr: Mgr, live: map<nat, Live>, rolled: map<nat, Msg>, id: nat, p: Phase, cancels: multiset<string>,
      funded: bool)
    requires Books(mgr, live, rolled, cancels, funded) && id in live && Counted(live[id].phase) && Counted(p)
    ensures Books(mgr, Move(live, id, p), rolled, cancels, funded)
  {
    hide Books;
    QuietKeepsBooks(mgr, live, Move(live, id, p), rolled, id, cancels, funded);
  }

  lemma ExitKeepsBooks(mgr: Mgr, live: map<nat, Live>, rolled: map<nat, Msg>, id: nat, cancels: multiset<string>, funded: bool)
    requires Books(mgr, live, rolled, cancels, funded) && id in live
    requires (live[id].phase.Settling? || live[id].phase.Refusing?)
    ensures Books(mgr, Exit(live, id), rolled, cancels, funded)
  {
    hide Books;
    QuietKeepsBooks(mgr, live, Exit(live, id), rolled, id, cancels, funded);
  }

  lemma AccountIn(s: Sys, t: string, funded: bool)
    requires BooksOk(s, funded)
    ensures OneCopy(s.live) && Books(s.mgr, s.live, s.rolled, s.cancels, funded)
    ensures Account(StateOf(s.mgr, t), PolicyOf(s.mgr, t), s.live, s.rolled, t, s.cancels[t], funded)
  {
    hide PlacesOk, Account, OneCopy;
    OneCopyOf(s);
  }

  lemma AskKeepsBooks(s: Sys, id: nat, now: int, funded: bool)
    requires BooksOk(s, funded) && Enabled(s, AskManager(id, now))
    ensures BooksOf(AskStep(s, id, now), funded)
  {
    hide BooksOk, Books, Admit, MessageKey, OneCopy, StateOf, PolicyOf, Account, With;
    var s' := AskStep(s, id, now);
    var m := s.live[id].msg;
    var t := m.tenant;
    AccountIn(s, t, funded);
    KeysAfterMove(s.live, id, Sending);
    AskKeepsAccount(StateOf(s.mgr, t), PolicyOf(s.mgr, t), now, s.live, s.rolled, id, s.cancels[t], funded);
    var st := Admit(StateOf(s.mgr, t), PolicyOf(s.mgr, t), now, MessageKey(m), m.tokens, m.cost).0;
    OneTenant(s.mgr, st, s.live, s'.live, s.rolled, id, t, s.cancels, funded);
  }

  lemma ReportKeepsBooks(s: Sys, id: nat, failed: bool, now: int, funded: bool)
    requires BooksOk(s, funded) && Enabled(s, Report(id, failed, now))
    ensures BooksOf(ReportStep(s, id, failed, now), funded)
  {
    hide BooksOk, Books, Complete, MessageKey, OneCopy, StateOf, PolicyOf, Account, With;
    var s' := ReportStep(s, id, failed, now);
    var m := s.live[id].msg;
    var t, final := m.tenant, FinalFailure(s.cfg, m, failed);
    var p := if final then Marking else Settling(failed);
    AccountIn(s, t, funded);
    KeysAfterMove(s.live, id, p);
    ReportKeepsAccount(StateOf(s.mgr, t), PolicyOf(s.mgr, t), now, s.live, s.rolled, id, failed, final, p, s.cancels[t], funded);
    var st := Complete(StateOf(s.mgr, t), PolicyOf(s.mgr, t), now, MessageKey(m), m.tokens, m.cost, failed, !failed || final);
    OneTenant(s.mgr, st, s.live, s'.live, s.rolled, id, t, s.cancels, funded);
  }

  lemma MarkKeepsBooks(s: Sys, id: nat, funded: bool)
    requires BooksOk(s, funded) && Enabled(s, Mark(id))
    ensures BooksOf(MarkStep(s, id), funded)
  {
    hide BooksOk, Books, MarkDead, MessageKey, OneCopy, StateOf, PolicyOf, Account, With;
    var s' := MarkStep(s, id);
    var m := s.live[id].msg;
    var t := m.tenant;
    AccountIn(s, t, funded);
    MarkKeepsAccount(StateOf(s.mgr, t), PolicyOf(s.mgr, t), s.live, s.rolled, id, s.cancels[t], funded);
    OneTenant(s.mgr, MarkDead(StateOf(s.mgr, t), MessageKey(m)), s.live, s'.live, s.rolled, id, t, s.cancels, funded);
  }

  // ---------------------------------------------------------------- taking back a cancelled admission

  /**
    Taking a cancelled admission back keeps everyone's reservation if and only if no message of the
    tenant that holds the same key is queued or running.
   */
  lemma CancelCoveredIff(s: Sys, id: nat)
    requires BooksOk(s, true) && Enabled(s, CancelBooks(id))
    ensures (forall t :: Covered(StateOf(CancelStep(s, id).mgr, t).reservations, s.live, t)) <==>
            !HeldLive(MessageKey(s.rolled[id]), s.live, s.rolled[id].tenant)
  {
    hide PlacesOk, MessageKey, Cancel, StateOf, PolicyOf, Account, HeldLive, Covered, With;
    var m, mgr' := s.rolled[id], CancelStep(s, id).mgr;
    var t, key := m.tenant, MessageKey(m);
    if HeldLive(key, s.live, t) {
      CancelUncovers(StateOf(s.mgr, t), s.live, m);
    } else {
      assert Gentle(s, CancelBooks(id));
      CancelKeepsBooks(s.mgr, s.live, s.rolled, id, s.cancels, true);
      forall u ensures Covered(StateOf(mgr', u).reservations, s.live, u) {
        CoveredBooks(mgr', s.live, s.rolled - {id}, s.cancels + multiset{t}, u);
      }
    }
  }

  lemma CoveredBooks(mgr: Mgr, live: map<nat, Live>, rolled: map<nat, Msg>, cancels: multiset<string>, t: string)
    requires Books(mgr, live, rolled, cancels, true)
    ensures Covered(StateOf(mgr, t).reservations, live, t)
  {
    assert Account(StateOf(mgr, t), PolicyOf(mgr, t), live, rolled, t, cancels[t], true);
  }

  lemma CancelUncovers(st: TenantState, live: map<nat, Live>, m: Msg)
    requires HeldLive(MessageKey(m), live, m.tenant)
    ensures !Covered(Cancel(st, MessageKey(m)).reservations, live, m.tenant)
  {
    hide MessageKey, Clamp;
    KeyNotEmpty(m);
    var id :| id in live && Holds(live[id], m.tenant) && Key(live, id) == MessageKey(m);
    assert MessageKey(m) !in Cancel(st, MessageKey(m)).reservations;
    assert !Reserved(Cancel(st, MessageKey(m)).reservations, live[id].msg);
  }

  // ---------------------------------------------------------------- the reservations as a whole

  /** Without half-cancelled messages the reservations are exactly the estimates. */
  lemma CoveredIsHeld(r: map<string, Estimate>, live: map<nat, Live>, rolled: map<nat, Msg>, t: string)
    requires OneCopy(live) && Covered(r, live, t) && NoStray(r, live, rolled, t) && RolledOf(rolled, t) == {}
    ensures r == Held(live, t)
  {
    hide MessageKey, Clamp, Held, OneCopy;
    var h := Held(live, t);
    forall k | k in r ensures k in h && h[k] == r[k] {
      assert !HeldRolled(k, rolled, t) by { NoneRolled(k, rolled, t); }
      var id :| id in live && Holds(live[id], t) && Key(live, id) == k;
      HeldAt(live, t, id);
      assert Reserved(r, live[id].msg);
    }
    forall k | k in h ensures k in r {
      var id := HeldBy(live, t, k);
      assert Reserved(r, live[id].msg);
    }
  }

  lemma NoneRolled(k: string, rolled: map<nat, Msg>, t: string)
    requires RolledOf(rolled, t) == {}
    ensures !HeldRolled(k, rolled, t)
  {
    hide MessageKey;
    forall id | id in rolled ensures rolled[id].tenant != t {
      assert rolled[id].tenant == t ==> id in RolledOf(rolled, t);
    }
  }

  lemma HeldBy(live: map<nat, Live>, t: string, k: string) returns (id: nat)
    requires OneCopy(live) && k in Held(live, t)
    ensures id in live && Holds(live[id], t) && Key(live, id) == k
  {
    hide MessageKey, Clamp;
    id :| id in live && Holds(live[id], t) && Key(live, id) == k;
  }

  lemma HeldAt(live: map<nat, Live>, t: string, id: nat)
    requires OneCopy(live) && id in live && Holds(live[id], t)
    ensures Key(live, id) in Held(live, t)
    ensures Held(live, t)[Key(live, id)] == Clamp(live[id].msg.tokens, live[id].msg.cost)
  {
    hide MessageKey, Clamp;
  }
}
