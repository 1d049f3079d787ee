/**
  The per-tenant bookkeeping of pkg/tenant/manager.go as functions on values: admission
  with budget reservation, run start, completion, roll-back, and the three-state breaker.
  Times and durations are integers in nanoseconds, costs are reals.
 */
module TenantPolicy {
  import opened Common

  const SECOND: int := 1_000_000_000
  const MINUTE: int := 60 * SECOND

  datatype Breaker = Closed | Open | HalfOpen

  datatype Policy = Policy(
    maxRunning: int,
    maxQueued: int,
    ratePerMinute: int,
    maxConsecutiveErrors: int,
    breakerCooldown: int,
    tokenBudget: int,
    costBudget: real)

  /** What a message reserves while it is queued or running. */
  datatype Estimate = Estimate(tokens: int, cost: real)

  datatype TenantState = TenantState(
    running: int,
    queued: int,
    enqueued: int,
    dequeued: int,
    completed: int,
    failed: int,
    deadLetter: int,
    consecutiveErrors: int,
    breaker: Breaker,
    openedAt: Option<int>,
    probing: bool,
    rateLimited: int,
    tokensUsed: int,
    costUsed: real,
    reservedTokens: int,
    reservedCost: real,
    reservations: map<string, Estimate>,
    window: seq<int>)

  datatype Verdict =
    | Admitted
    | BreakerIsOpen
    | QueueFull
    | RateLimited
    | TokenBudgetExceeded
    | CostBudgetExceeded
    | AlreadyProbing
    | RunningFull

  // ---------------------------------------------------------------- policies

  predicate Normal(p: Policy) {
    && p.maxRunning > 0
    && p.maxQueued > 0
    && p.ratePerMinute > 0
    && p.maxConsecutiveErrors > 0
    && p.breakerCooldown > 0
  }

  /** Every unset limit is replaced by its default; a set limit is kept, and so are the budgets. */
  function NormalizePolicy(p: Policy): (r: Policy)
    ensures Normal(r)
    ensures Normal(p) ==> r == p
    ensures r.tokenBudget == p.tokenBudget && r.costBudget == p.costBudget
  {
    Policy(
      if p.maxRunning <= 0 then 4 else p.maxRunning,
      if p.maxQueued <= 0 then 128 else p.maxQueued,
      if p.ratePerMinute <= 0 then 240 else p.ratePerMinute,
      if p.maxConsecutiveErrors <= 0 then 5 else p.maxConsecutiveErrors,
      if p.breakerCooldown <= 0 then MINUTE else p.breakerCooldown,
      p.tokenBudget,
      p.costBudget)
  }

  // ---------------------------------------------------------------- operations

  const FRESH := TenantState(
    0, 0, 0, 0, 0, 0, 0, 0, Closed, None, false, 0, 0, 0.0, 0, 0.0, map[], [])

  function Clamp(tokens: int, cost: real): Estimate {
    Estimate(Max(0, tokens), MaxReal(0.0, cost))
  }

  /** maybeRecoverBreakerLocked */
  function Recover(st: TenantState, pol: Policy, now: int): TenantState {
    if st.breaker != Open || pol.breakerCooldown <= 0 || st.openedAt.None? then st
    else if now - st.openedAt.value >= pol.breakerCooldown then
      st.(breaker := HalfOpen, probing := false)
    else st
  }

  /** openBreakerLocked */
  function Trip(st: TenantState, now: int): TenantState {
    if st.breaker == Open then st
    else st.(breaker := Open, openedAt := Some(now), probing := false)
  }

  /** pruneOld: drop the leading timestamps that lie before the cutoff. */
  function Prune(ts: seq<int>, cutoff: int): seq<int> {
    if ts == [] || ts[0] >= cutoff then ts else Prune(ts[1..], cutoff)
  }

  /** Give back what a message reserved, if it still holds a reservation. */
  function Release(st: TenantState, key: string): TenantState {
    if key == "" || key !in st.reservations then st
    else
      st.(reservedTokens := st.reservedTokens - st.reservations[key].tokens,
          reservedCost := st.reservedCost - st.reservations[key].cost,
          reservations := st.reservations - {key})
  }

  function Reserve(st: TenantState, key: string, est: Estimate): TenantState {
    if key == "" then st
    else
      var prior := if key in st.reservations then st.reservations[key] else Estimate(0, 0.0);
      st.(reservedTokens := st.reservedTokens - prior.tokens + est.tokens,
          reservedCost := st.reservedCost - prior.cost + est.cost,
          reservations := st.reservations[key := est])
  }

  /** The part of TryEnqueue behind the breaker and queue-depth checks. */
  function AdmitWindowed(st: TenantState, pol: Policy, now: int, key: string, est: Estimate): (TenantState, Verdict) {
    var pruned := st.(window := Prune(st.window, now - MINUTE));
    if pol.ratePerMinute > 0 && |pruned.window| >= pol.ratePerMinute then
      (pruned.(rateLimited := pruned.rateLimited + 1), RateLimited)
    else if pol.tokenBudget > 0 && st.tokensUsed + st.reservedTokens + est.tokens > pol.tokenBudget then
      (Trip(pruned, now), TokenBudgetExceeded)
    else if pol.costBudget > 0.0 && st.costUsed + st.reservedCost + est.cost > pol.costBudget then
      (Trip(pruned, now), CostBudgetExceeded)
    else
      var counted := pruned.(queued := st.queued + 1, enqueued := st.enqueued + 1, window := pruned.window + [now]);
      (Reserve(counted, key, est), Admitted)
  }

  /** TryEnqueue */
  function Admit(st: TenantState, pol: Policy, now: int, key: string, tokens: int, cost: real): (TenantState, Verdict) {
    var rec := Recover(st, pol, now);
    if rec.breaker == Open then (rec, BreakerIsOpen)
    else if pol.maxQueued > 0 && rec.queued >= pol.maxQueued then (rec, QueueFull)
    else AdmitWindowed(rec, pol, now, key, Clamp(tokens, cost))
  }

  /** TryStartRun */
  function Start(st: TenantState, pol: Policy, now: int): (TenantState, Verdict) {
    var rec := Recover(st, pol, now);
    if rec.breaker == Open then (rec, BreakerIsOpen)
    else if rec.breaker == HalfOpen && rec.probing then (rec, AlreadyProbing)
    else if pol.maxRunning > 0 && rec.running >= pol.maxRunning then (rec, RunningFull)
    else
      (rec.(probing := rec.probing || rec.breaker == HalfOpen,
            running := rec.running + 1,
            queued := if rec.queued > 0 then rec.queued - 1 else rec.queued,
            dequeued := rec.dequeued + 1), Admitted)
  }

  /** The usage and reservation half of CompleteRun. */
  function Settle(st: TenantState, key: string, tokens: int, cost: real, accepted: bool): TenantState {
    var est := Clamp(tokens, cost);
    var freed := Release(st.(running := if st.running > 0 then st.running - 1 else st.running), key);
    if accepted then
      freed.(tokensUsed := freed.tokensUsed + est.tokens, costUsed := freed.costUsed + est.cost)
    else freed
  }

  /** The breaker half of CompleteRun. */
  function Judge(st: TenantState, pol: Policy, now: int, failed: bool): TenantState {
    var judged :=
      if failed then
        var counted := st.(failed := st.failed + 1, consecutiveErrors := st.consecutiveErrors + 1);
        var tripped :=
          if pol.maxConsecutiveErrors > 0 && counted.consecutiveErrors >= pol.maxConsecutiveErrors
          then Trip(counted, now) else counted;
        if tripped.breaker == HalfOpen then Trip(tripped, now) else tripped
      else
        var counted := st.(completed := st.completed + 1, consecutiveErrors := 0);
        if counted.breaker == HalfOpen then counted.(breaker := Closed, openedAt := None) else counted;
    judged.(probing := false)
  }

  /** CompleteRun */
  function Complete(st: TenantState, pol: Policy, now: int, key: string, tokens: int, cost: real,
                    failed: bool, accepted: bool): TenantState {
    Judge(Settle(st, key, tokens, cost, accepted), pol, now, failed)
  }

  /** CancelEnqueue */
  function Cancel(st: TenantState, key: string): TenantState {
    Release(st.(queued := if st.queued > 0 then st.queued - 1 else st.queued), key)
  }

  /** MarkDeadLetter */
  function MarkDead(st: TenantState, key: string): TenantState {
    Release(st.(deadLetter := st.deadLetter + 1), key)
  }

  // ---------------------------------------------------------------- reservation sums

  ghost function TokenSum(r: map<string, Estimate>): int
    decreases |r.Keys|
  {
    if r.Keys == {} then 0
    else
      var k :| k in r.Keys;
      assert |(r - {k}).Keys| < |r.Keys| by { assert (r - {k}).Keys == r.Keys - {k}; }
      r[k].tokens + TokenSum(r - {k})
  }

  ghost function CostSum(r: map<string, Estimate>): real
    decreases |r.Keys|
  {
    if r.Keys == {} then 0.0
    else
      var k :| k in r.Keys;
      assert |(r - {k}).Keys| < |r.Keys| by { assert (r - {k}).Keys == r.Keys - {k}; }
      r[k].cost + CostSum(r - {k})
  }

  /** The sum does not depend on the key that is taken out first. */
  lemma {:induction false} SumsWithout(r: map<string, Estimate>, k: string)
    requires k in r
    ensures TokenSum(r) == r[k].tokens + TokenSum(r - {k})
    ensures CostSum(r) == r[k].cost + CostSum(r - {k})
    decreases |r.Keys|
  {
    TokensWithout(r, k);
    CostsWithout(r, k);
  }

  lemma {:induction false} TokensWithout(r: map<string, Estimate>, k: string)
    requires k in r
    ensures TokenSum(r) == r[k].tokens + TokenSum(r - {k})
    decreases |r.Keys|
  {
    var c :| c in r.Keys && TokenSum(r) == r[c].tokens + TokenSum(r - {c});
    if c != k {
      assert (r - {c}).Keys == r.Keys - {c};
      TokensWithout(r - {c}, k);
      assert (r - {k}).Keys == r.Keys - {k};
      TokensWithout(r - {k}, c);
      assert r - {c} - {k} == r - {k} - {c};
    }
  }

  lemma {:induction false} CostsWithout(r: map<string, Estimate>, k: string)
    requires k in r
    ensures CostSum(r) == r[k].cost + CostSum(r - {k})
    decreases |r.Keys|
  {
    var c :| c in r.Keys && CostSum(r) == r[c].cost + CostSum(r - {c});
    if c != k {
      assert (r - {c}).Keys == r.Keys - {c};
      CostsWithout(r - {c}, k);
      assert (r - {k}).Keys == r.Keys - {k};
      CostsWithout(r - {k}, c);
      assert r - {c} - {k} == r - {k} - {c};
    }
  }

  lemma SumsWith(r: map<string, Estimate>, k: string, e: Estimate)
    ensures k !in r ==> TokenSum(r[k := e]) == TokenSum(r) + e.tokens
    ensures k !in r ==> CostSum(r[k := e]) == CostSum(r) + e.cost
    ensures k in r ==> TokenSum(r[k := e]) == TokenSum(r) - r[k].tokens + e.tokens
    ensures k in r ==> CostSum(r[k := e]) == CostSum(r) - r[k].cost + e.cost
  {
    SumsWithout(r[k := e], k);
    assert r[k := e] - {k} == r - {k};
    if k in r { SumsWithout(r, k); } else { assert r - {k} == r; }
  }

  // ---------------------------------------------------------------- what every operation keeps

  /** The reservation totals are the sums of the reservations, and no counter is negative. */
  ghost predicate Balanced(st: TenantState) {
    && st.running >= 0 && st.queued >= 0
    && st.reservedTokens == TokenSum(st.reservations)
    && st.reservedCost == CostSum(st.reservations)
  }

  /** The facts a single tenant's record keeps under every operation, in any order. */
  ghost predicate Sound(st: TenantState) {
    && Balanced(st)
    && (st.probing ==> st.breaker == HalfOpen && st.running >= 1)
    && (st.breaker != Closed ==> st.openedAt.Some?)
  }

  lemma FreshIsSound()
    ensures Sound(FRESH)
  {
    assert FRESH.reservations.Keys == {};
  }

  lemma ReleaseSound(st: TenantState, key: string)
    requires Sound(st)
    ensures Sound(Release(st, key))
  {
    if key in st.reservations { SumsWithout(st.reservations, key); }
  }

  lemma ReserveSound(st: TenantState, key: string, est: Estimate)
    requires Sound(st)
    ensures Sound(Reserve(st, key, est))
  {
    SumsWith(st.reservations, key, est);
  }

  lemma TripSound(st: TenantState, now: int)
    requires Sound(st)
    ensures Sound(Trip(st, now))
  {
    hide TokenSum, CostSum;
  }

  lemma RecoverSound(st: TenantState, pol: Policy, now: int)
    requires Sound(st)
    ensures Sound(Recover(st, pol, now))
  {
    hide TokenSum, CostSum;
  }

  lemma AdmitSound(st: TenantState, pol: Policy, now: int, key: string, tokens: int, cost: real)
    requires Sound(st)
    ensures Sound(Admit(st, pol, now, key, tokens, cost).0)
  {
    hide TokenSum, CostSum, Prune, Trip, Recover, Reserve, Clamp;
    var rec := Recover(st, pol, now);
    RecoverSound(st, pol, now);
    var pruned := rec.(window := Prune(rec.window, now - MINUTE));
    TripSound(pruned, now);
    ReserveSound(pruned.(queued := rec.queued + 1, enqueued := rec.enqueued + 1, window := pruned.window + [now]), key, Clamp(tokens, cost));
  }

  lemma StartSound(st: TenantState, pol: Policy, now: int)
    requires Sound(st)
    ensures Sound(Start(st, pol, now).0)
  {
  }

  lemma SettleBalanced(st: TenantState, key: string, tokens: int, cost: real, accepted: bool)
    requires Balanced(st)
    ensures Balanced(Settle(st, key, tokens, cost, accepted))
  {
    if key in st.reservations { SumsWithout(st.reservations, key); }
  }

  lemma JudgeSound(st: TenantState, pol: Policy, now: int, failed: bool)
    requires Balanced(st) && (st.breaker != Closed ==> st.openedAt.Some?)
    ensures Sound(Judge(st, pol, now, failed))
  {
    hide TokenSum, CostSum;
  }

  lemma SettleKeepsBreaker(st: TenantState, key: string, tokens: int, cost: real, accepted: bool)
    ensures var r := Settle(st, key, tokens, cost, accepted); r.breaker == st.breaker && r.openedAt == st.openedAt
  {
  }

  lemma CompleteSound(st: TenantState, pol: Policy, now: int, key: string, tokens: int, cost: real, failed: bool, accepted: bool)
    requires Sound(st)
    ensures Sound(Complete(st, pol, now, key, tokens, cost, failed, accepted))
  {
    hide Balanced, Settle, Judge;
    SettleBalanced(st, key, tokens, cost, accepted);
    SettleKeepsBreaker(st, key, tokens, cost, accepted);
    JudgeSound(Settle(st, key, tokens, cost, accepted), pol, now, failed);
  }

  lemma CancelSound(st: TenantState, key: string)
    requires Sound(st)
    ensures Sound(Cancel(st, key))
  {
    ReleaseSound(st.(queued := if st.queued > 0 then st.queued - 1 else st.queued), key);
  }

  lemma MarkDeadSound(st: TenantState, key: string)
    requires Sound(st)
    ensures Sound(MarkDead(st, key))
  {
    ReleaseSound(st.(deadLetter := st.deadLetter + 1), key);
  }

  // ---------------------------------------------------------------- cancelling an admission

  /** A cancelled admission leaves no trace in the queue depth and the reservations. */
  lemma CancelUndoesAdmit(st: TenantState, pol: Policy, now: int, key: string, tokens: int, cost: real)
    requires key != "" && key !in st.reservations && st.queued >= 0
    requires Admit(st, pol, now, key, tokens, cost).1 == Admitted
    ensures var u := Cancel(Admit(st, pol, now, key, tokens, cost).0, key);
            && u.queued == st.queued && u.running == st.running
            && u.reservations == st.reservations
            && u.reservedTokens == st.reservedTokens && u.reservedCost == st.reservedCost
            && u.tokensUsed == st.tokensUsed && u.costUsed == st.costUsed
  {
    hide Prune;
    assert st.reservations[key := Clamp(tokens, cost)] - {key} == st.reservations;
  }
}
