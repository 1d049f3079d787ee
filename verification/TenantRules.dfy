/**
  What the manager's operations decide and change, stated from the history of the record and the
  policy alone: who is refused and why, when the breaker opens, half-opens and closes, what is
  counted, spent and reserved (pkg/tenant/manager.go).
 */
module TenantRules {
  import opened Common
  import opened TenantPolicy
  import opened TenantRuns

  // ---------------------------------------------------------------- history

  /** Failed completions since the last successful one. */
  function Streak(ops: seq<Op>): nat {
    if ops == [] then 0
    else
      var before, op := Streak(ops[..|ops| - 1]), ops[|ops| - 1];
      if !op.OpComplete? then before else if op.failed then before + 1 else 0
  }

  /** How many operations of the run are completions with this outcome. */
  function Completions(ops: seq<Op>, failed: bool): nat {
    if ops == [] then 0
    else
      var op := ops[|ops| - 1];
      Completions(ops[..|ops| - 1], failed) + if op.OpComplete? && op.failed == failed then 1 else 0
  }

  function DeadLetters(ops: seq<Op>): nat {
    if ops == [] then 0 else DeadLetters(ops[..|ops| - 1]) + if ops[|ops| - 1].OpDead? then 1 else 0
  }

  function StartCount(pol: Policy, ops: seq<Op>): nat {
    if ops == [] then 0
    else
      var before := ops[..|ops| - 1];
      StartCount(pol, before) + if Starts(Run(pol, before), pol, ops[|ops| - 1]) then 1 else 0
  }

  /** The estimates of the accepted completions, negative ones counted as nothing. */
  function TokensSpent(ops: seq<Op>): int {
    if ops == [] then 0
    else
      var op := ops[|ops| - 1];
      TokensSpent(ops[..|ops| - 1]) + if op.OpComplete? && op.accepted && op.tokens > 0 then op.tokens else 0
  }

  function CostSpent(ops: seq<Op>): real {
    if ops == [] then 0.0
    else
      var op := ops[|ops| - 1];
      CostSpent(ops[..|ops| - 1]) + if op.OpComplete? && op.accepted && op.cost > 0.0 then op.cost else 0.0
  }

  /** The estimate a message reserves: negative amounts count as nothing. */
  function Estimated(tokens: int, cost: real): Estimate {
    Estimate(if tokens > 0 then tokens else 0, if cost > 0.0 then cost else 0.0)
  }

  lemma RunStep(pol: Policy, ops: seq<Op>, op: Op)
    ensures (ops + [op])[..|ops|] == ops && Run(pol, ops + [op]) == Apply(Run(pol, ops), pol, op)
  {
    assert (ops + [op])[..|ops|] == ops;
  }

  // ---------------------------------------------------------------- one operation on one record

  /** The breaker was opened and its cooldown is over. */
  predicate CooledDown(st: TenantState, pol: Policy, now: int) {
    st.breaker == Open && pol.breakerCooldown > 0 && st.openedAt.Some? && now - st.openedAt.value >= pol.breakerCooldown
  }

  /** The breaker as an enqueue or a start finds it: half-open from the end of the cooldown on. */
  function Found(st: TenantState, pol: Policy, now: int): Breaker {
    if CooledDown(st, pol, now) then HalfOpen else st.breaker
  }

  /** Why an enqueue is refused, given how many enqueues were accepted in the last minute. */
  predicate EnqueueVerdictIs(
      st: TenantState, pol: Policy, now: int, recent: nat, tokens: int, cost: real, verdict: Verdict) {
    var est := Estimated(tokens, cost);
    var shut := Found(st, pol, now) == Open;
    var full := pol.maxQueued > 0 && st.queued >= pol.maxQueued;
    var fast := pol.ratePerMinute > 0 && recent >= pol.ratePerMinute;
    var tokensOut := pol.tokenBudget > 0 && st.tokensUsed + st.reservedTokens + est.tokens > pol.tokenBudget;
    var costOut := pol.costBudget > 0.0 && st.costUsed + st.reservedCost + est.cost > pol.costBudget;
    && (verdict == BreakerIsOpen <==> shut)
    && (verdict == QueueFull <==> !shut && full)
    && (verdict == RateLimited <==> !shut && !full && fast)
    && (verdict == TokenBudgetExceeded <==> !shut && !full && !fast && tokensOut)
    && (verdict == CostBudgetExceeded <==> !shut && !full && !fast && !tokensOut && costOut)
    && (verdict == Admitted <==> !shut && !full && !fast && !tokensOut && !costOut)
  }

  predicate StartVerdictIs(st: TenantState, pol: Policy, now: int, verdict: Verdict) {
    var found := Found(st, pol, now);
    var busy := found == HalfOpen && st.breaker == HalfOpen && st.probing;
    var full := pol.maxRunning > 0 && st.running >= pol.maxRunning;
    && (verdict == BreakerIsOpen <==> found == Open)
    && (verdict == AlreadyProbing <==> busy)
    && (verdict == RunningFull <==> found != Open && !busy && full)
    && (verdict == Admitted <==> found != Open && !busy && !full)
  }

  /** A probe belongs to a half-open breaker, and only non-empty keys are reserved. */
  ghost predicate Tidy(st: TenantState) { (st.probing ==> st.breaker == HalfOpen) && "" !in st.reservations }

  lemma AdmitDecides(st: TenantState, pol: Policy, now: int, key: string, tokens: int, cost: real)
    requires Tidy(st)
    ensures var verdict := Admit(st, pol, now, key, tokens, cost).1;
      EnqueueVerdictIs(st, pol, now, |Prune(st.window, now - MINUTE)|, tokens, cost, verdict)
  {
    hide Prune;
  }

  /** An admitted message is counted and reserved; a refused one leaves depth, reservations and usage alone. */
  ghost predicate AdmittedAs(
      st: TenantState, a: TenantState, pol: Policy, now: int, key: string, tokens: int, cost: real, verdict: Verdict) {
    var est := Estimated(tokens, cost);
    var over := verdict == TokenBudgetExceeded || verdict == CostBudgetExceeded;
    && Tidy(a)
    && a.breaker == (if over then Open else Found(st, pol, now))
    && a.openedAt == (if over then Some(now) else st.openedAt)
    && a.probing == (st.probing && !over)
    && a.queued == st.queued + (if verdict == Admitted then 1 else 0)
    && a.enqueued == st.enqueued + (if verdict == Admitted then 1 else 0)
    && a.rateLimited == st.rateLimited + (if verdict == RateLimited then 1 else 0)
    && a.reservations == (if verdict == Admitted && key != "" then st.reservations[key := est] else st.reservations)
    && a.running == st.running && a.dequeued == st.dequeued && a.completed == st.completed && a.failed == st.failed
    && a.deadLetter == st.deadLetter && a.consecutiveErrors == st.consecutiveErrors
    && a.tokensUsed == st.tokensUsed && a.costUsed == st.costUsed
  }

  lemma AdmitChanges(st: TenantState, pol: Policy, now: int, key: string, tokens: int, cost: real)
    requires Tidy(st)
    ensures var (a, verdict) := Admit(st, pol, now, key, tokens, cost);
      AdmittedAs(st, a, pol, now, key, tokens, cost, verdict)
  {
    hide Prune;
  }

  lemma StartDecides(st: TenantState, pol: Policy, now: int)
    requires Tidy(st)
    ensures StartVerdictIs(st, pol, now, Start(st, pol, now).1)
  {
  }

  /** A started run moves one message from queued to running, and is the probe of a half-open breaker. */
  ghost predicate StartedAs(st: TenantState, a: TenantState, pol: Policy, now: int, verdict: Verdict) {
    var ok, found := verdict == Admitted, Found(st, pol, now);
    && Tidy(a)
    && a == st.(breaker := found, probing := st.probing || (ok && found == HalfOpen),
                running := if ok then st.running + 1 else st.running,
                queued := if ok && st.queued > 0 then st.queued - 1 else st.queued,
                dequeued := if ok then st.dequeued + 1 else st.dequeued)
  }

  lemma StartChanges(st: TenantState, pol: Policy, now: int)
    requires Tidy(st)
    ensures var (a, verdict) := Start(st, pol, now); StartedAs(st, a, pol, now, verdict)
  {
  }

  /**
    The breaker after a completion: a closed one opens if the completion failed and the errors in a row
    have reached a positive limit; a half-open one opens or closes by the outcome; an open one stays.
   */
  ghost predicate JudgedAs(st: TenantState, a: TenantState, pol: Policy, now: int, failed: bool) {
    var errors := if failed then st.consecutiveErrors + 1 else 0;
    && a.consecutiveErrors == errors && !a.probing
    && (st.breaker == Open ==> a.breaker == Open && a.openedAt == st.openedAt)
    && (st.breaker == HalfOpen && failed ==> a.breaker == Open && a.openedAt == Some(now))
    && (st.breaker == HalfOpen && !failed ==> a.breaker == Closed && a.openedAt == None)
    && (st.breaker == Closed ==>
         if failed && pol.maxConsecutiveErrors > 0 && errors >= pol.maxConsecutiveErrors
         then a.breaker == Open && a.openedAt == Some(now)
         else a.breaker == Closed && a.openedAt == st.openedAt)
  }

  lemma CompleteDecides(
      st: TenantState, pol: Policy, now: int, key: string, tokens: int, cost: real, failed: bool, accepted: bool)
    ensures JudgedAs(st, Complete(st, pol, now, key, tokens, cost, failed, accepted), pol, now, failed)
  {
  }

  /** Its counters: one run fewer, one completion or failure more, the estimate spent if accepted, the reservation gone. */
  ghost predicate CompletedAs(
      st: TenantState, a: TenantState, key: string, tokens: int, cost: real, failed: bool, accepted: bool) {
    var est := Estimated(tokens, cost);
    && Tidy(a)
    && a.running == (if st.running > 0 then st.running - 1 else st.running)
    && a.completed == st.completed + (if failed then 0 else 1) && a.failed == st.failed + (if failed then 1 else 0)
    && a.tokensUsed == st.tokensUsed + (if accepted then est.tokens else 0)
    && a.costUsed == st.costUsed + (if accepted then est.cost else 0.0)
    && a.reservations == st.reservations - {key}
    && a.queued == st.queued && a.enqueued == st.enqueued && a.dequeued == st.dequeued && a.deadLetter == st.deadLetter
    && a.rateLimited == st.rateLimited && a.window == st.window
  }

  lemma CompleteChanges(
      st: TenantState, pol: Policy, now: int, key: string, tokens: int, cost: real, failed: bool, accepted: bool)
    requires Tidy(st)
    ensures CompletedAs(
      st, Complete(st, pol, now, key, tokens, cost, failed, accepted), key, tokens, cost, failed, accepted)
  {
    hide Settle, Judge;
    SettleChanges(st, key, tokens, cost, accepted);
    JudgeChanges(Settle(st, key, tokens, cost, accepted), pol, now, failed);
  }

  lemma SettleChanges(st: TenantState, key: string, tokens: int, cost: real, accepted: bool)
    requires Tidy(st)
    ensures var a := Settle(st, key, tokens, cost, accepted);
      var est := Estimated(tokens, cost);
      a == st.(running := if st.running > 0 then st.running - 1 else st.running,
               tokensUsed := st.tokensUsed + (if accepted then est.tokens else 0),
               costUsed := st.costUsed + (if accepted then est.cost else 0.0),
               reservations := st.reservations - {key},
               reservedTokens := a.reservedTokens, reservedCost := a.reservedCost)
  {
    if key !in st.reservations { assert st.reservations - {key} == st.reservations; }
  }

  lemma JudgeChanges(st: TenantState, pol: Policy, now: int, failed: bool)
    ensures var a := Judge(st, pol, now, failed);
      a == st.(completed := st.completed + (if failed then 0 else 1), failed := st.failed + (if failed then 1 else 0),
               consecutiveErrors := a.consecutiveErrors, breaker := a.breaker, openedAt := a.openedAt, probing := false)
  {
  }

  /** A cancelled or dead message gives back its reservation, and no other field but its own counter changes. */
  lemma ReleaseChanges(st: TenantState, key: string)
    requires Tidy(st)
    ensures var a, b := Cancel(st, key), MarkDead(st, key);
      && Tidy(a) && Tidy(b)
      && a == st.(queued := if st.queued > 0 then st.queued - 1 else st.queued, reservations := st.reservations - {key},
                  reservedTokens := a.reservedTokens, reservedCost := a.reservedCost)
      && b == st.(deadLetter := st.deadLetter + 1, reservations := st.reservations - {key},
                  reservedTokens := b.reservedTokens, reservedCost := b.reservedCost)
  {
    if key !in st.reservations { assert st.reservations - {key} == st.reservations; }
  }

  // ---------------------------------------------------------------- over every run

  lemma {:induction false} RunIsTidy(pol: Policy, ops: seq<Op>)
    ensures Tidy(Run(pol, ops))
    decreases |ops|
  {
    hide Admit, Start, Complete, Cancel, MarkDead;
    if ops != [] {
      var st := Run(pol, ops[..|ops| - 1]);
      RunIsTidy(pol, ops[..|ops| - 1]);
      match ops[|ops| - 1]
      case OpEnqueue(at, key, tokens, cost) => AdmitChanges(st, pol, at, key, tokens, cost);
      case OpStart(at) => StartChanges(st, pol, at);
      case OpComplete(at, key, tokens, cost, failed, accepted) =>
        CompleteChanges(st, pol, at, key, tokens, cost, failed, accepted);
      case OpCancel(_, key) => ReleaseChanges(st, key);
      case OpDead(_, key) => ReleaseChanges(st, key);
    }
  }

  /** Every counter of the record is the number of the operations it names. */
  ghost predicate Counts(st: TenantState, pol: Policy, ops: seq<Op>) {
    && st.consecutiveErrors == Streak(ops)
    && st.completed == Completions(ops, false) && st.failed == Completions(ops, true) && st.deadLetter == DeadLetters(ops)
    && st.enqueued == |AcceptedAt(pol, ops)| && st.dequeued == StartCount(pol, ops)
    && st.tokensUsed == TokensSpent(ops) && st.costUsed == CostSpent(ops)
  }

  /** The error streak, the counters and the usage of a record are those of its history. */
  lemma {:induction false} RunCounts(pol: Policy, ops: seq<Op>)
    ensures Counts(Run(pol, ops), pol, ops)
    decreases |ops|
  {
    hide Admit, Start, Complete, Cancel, MarkDead;
    if ops != [] {
      var before, op := ops[..|ops| - 1], ops[|ops| - 1];
      var st := Run(pol, before);
      RunCounts(pol, before);
      RunIsTidy(pol, before);
      match op
      case OpEnqueue(at, key, tokens, cost) => AdmitChanges(st, pol, at, key, tokens, cost);
      case OpStart(at) => StartChanges(st, pol, at);
      case OpComplete(at, key, tokens, cost, failed, accepted) =>
        CompleteChanges(st, pol, at, key, tokens, cost, failed, accepted);
        CompleteDecides(st, pol, at, key, tokens, cost, failed, accepted);
      case OpCancel(_, key) => ReleaseChanges(st, key);
      case OpDead(_, key) => ReleaseChanges(st, key);
    }
  }

  /**
    A completion opens a closed breaker if and only if it failed and the failed completions since the
    last successful one have reached a positive limit; a half-open one it opens or closes by its
    outcome; an open one it leaves.
   */
  lemma CompletionMovesBreaker(pol: Policy, ops: seq<Op>, op: Op)
    requires op.OpComplete?
    ensures var st, after := Run(pol, ops), Run(pol, ops + [op]);
      && after.consecutiveErrors == Streak(ops + [op])
      && (st.breaker == Closed ==>
           if op.failed && pol.maxConsecutiveErrors > 0 && Streak(ops + [op]) >= pol.maxConsecutiveErrors
           then after.breaker == Open && after.openedAt == Some(op.at)
           else after.breaker == Closed)
      && (st.breaker == HalfOpen ==>
           if op.failed then after.breaker == Open && after.openedAt == Some(op.at) else after.breaker == Closed)
      && (st.breaker == Open ==> after.breaker == Open && after.openedAt == st.openedAt)
  {
    hide Complete;
    RunStep(pol, ops, op);
    RunCounts(pol, ops);
    CompleteDecides(Run(pol, ops), pol, op.at, op.key, op.tokens, op.cost, op.failed, op.accepted);
  }

  /** Enqueues and starts half-open a breaker whose cooldown is over; an enqueue over budget opens it; nothing else moves it. */
  lemma OthersMoveBreaker(pol: Policy, ops: seq<Op>, op: Op)
    requires !op.OpComplete?
    ensures var st, after := Run(pol, ops), Run(pol, ops + [op]);
      && (op.OpStart? ==> after.breaker == Found(st, pol, op.at) && after.openedAt == st.openedAt)
      && (op.OpEnqueue? ==>
           var verdict := Admit(st, pol, op.at, op.key, op.tokens, op.cost).1;
           if verdict == TokenBudgetExceeded || verdict == CostBudgetExceeded
           then after.breaker == Open && after.openedAt == Some(op.at)
           else after.breaker == Found(st, pol, op.at) && after.openedAt == st.openedAt)
      && (op.OpCancel? || op.OpDead? ==> after.breaker == st.breaker && after.openedAt == st.openedAt)
  {
    hide Admit, Start, Cancel, MarkDead;
    var st := Run(pol, ops);
    RunStep(pol, ops, op);
    RunIsTidy(pol, ops);
    match op
    case OpEnqueue(at, key, tokens, cost) => AdmitChanges(st, pol, at, key, tokens, cost);
    case OpStart(at) => StartChanges(st, pol, at);
    case OpCancel(_, key) => ReleaseChanges(st, key);
    case OpDead(_, key) => ReleaseChanges(st, key);
  }

  /** Each refusal of an enqueue has the one reason named here, the rate counted over the accepted enqueues of the run. */
  lemma EnqueueRefusedOnlyFor(pol: Policy, ops: seq<Op>, op: Op)
    requires op.OpEnqueue? && Timed(ops + [op])
    ensures var st := Run(pol, ops);
      var recent := |Within(AcceptedAt(pol, ops), op.at - MINUTE, op.at)|;
      EnqueueVerdictIs(st, pol, op.at, recent, op.tokens, op.cost, Admit(st, pol, op.at, op.key, op.tokens, op.cost).1)
  {
    hide Admit, Prune, Within, EnqueueVerdictIs, Tidy, Run, AcceptedAt, Timed;
    RunIsTidy(pol, ops);
    RecentAccepted(pol, ops, op);
    AdmitDecides(Run(pol, ops), pol, op.at, op.key, op.tokens, op.cost);
  }

  /** The pruned window is the accepted enqueues of the last minute. */
  lemma RecentAccepted(pol: Policy, ops: seq<Op>, op: Op)
    requires Timed(ops + [op])
    ensures Prune(Run(pol, ops).window, op.at - MINUTE) == Within(AcceptedAt(pol, ops), op.at - MINUTE, op.at)
  {
    hide Admit, Prune, Within, Run, AcceptedAt;
    var st, accepted := Run(pol, ops), AcceptedAt(pol, ops);
    assert forall i :: 0 <= i < |ops| ==> ops[i] == (ops + [op])[i];
    RateInvHolds(pol, ops);
    StartsFresh(pol);
    var clock := if ops == [] then op.at else ops[|ops| - 1].at;
    assert RateInv(st, accepted, pol, clock);
    assert ops != [] ==> (ops + [op])[|ops| - 1].at <= (ops + [op])[|ops|].at;
    PruneKeepsTail(st.window, accepted, clock, op.at);
    RecentIsTail(Prune(st.window, op.at - MINUTE), accepted, op.at);
  }

  lemma StartsFresh(pol: Policy)
    ensures Run(pol, []) == FRESH && AcceptedAt(pol, []) == []
  {
  }

  lemma RecentIsTail(pruned: seq<int>, accepted: seq<int>, now: int)
    requires WindowTail(pruned, accepted, now) && NoneBefore(pruned, now - MINUTE)
    requires forall i :: 0 <= i < |accepted| ==> accepted[i] <= now
    ensures Within(accepted, now - MINUTE, now) == pruned
  {
    hide Within;
    var k := |accepted| - |pruned|;
    forall i | 0 <= i < |accepted| ensures now - MINUTE <= accepted[i] <= now <==> k <= i {
      if k <= i { assert accepted[i] == pruned[i - k]; }
    }
    WithinOfTail(accepted, k, now - MINUTE, now);
  }

  lemma StartRefusedOnlyFor(pol: Policy, ops: seq<Op>, op: Op)
    requires op.OpStart?
    ensures StartVerdictIs(Run(pol, ops), pol, op.at, Start(Run(pol, ops), pol, op.at).1)
  {
    hide Start;
    RunIsTidy(pol, ops);
    StartDecides(Run(pol, ops), pol, op.at);
  }

  /** Under a fixed policy neither limit is ever exceeded. */
  lemma {:induction false} WithinLimits(pol: Policy, ops: seq<Op>)
    ensures pol.maxRunning > 0 ==> Run(pol, ops).running <= pol.maxRunning
    ensures pol.maxQueued > 0 ==> Run(pol, ops).queued <= pol.maxQueued
    decreases |ops|
  {
    hide Admit, Start, Complete, Cancel, MarkDead;
    if ops != [] {
      var st := Run(pol, ops[..|ops| - 1]);
      WithinLimits(pol, ops[..|ops| - 1]);
      RunIsTidy(pol, ops[..|ops| - 1]);
      match ops[|ops| - 1]
      case OpEnqueue(at, key, tokens, cost) =>
        AdmitDecides(st, pol, at, key, tokens, cost);
        AdmitChanges(st, pol, at, key, tokens, cost);
      case OpStart(at) =>
        StartDecides(st, pol, at);
        StartChanges(st, pol, at);
      case OpComplete(at, key, tokens, cost, failed, accepted) =>
        CompleteChanges(st, pol, at, key, tokens, cost, failed, accepted);
      case OpCancel(_, key) => ReleaseChanges(st, key);
      case OpDead(_, key) => ReleaseChanges(st, key);
    }
  }
}
