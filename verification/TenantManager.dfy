/**
  tenant.Manager of pkg/tenant/manager.go: the object whose methods update the per-tenant
  records in place. Each method is proved against the function of TenantPolicy that the
  theorems about runs are stated for.
 */
module TenantManager {
  import opened Common
  import opened TenantPolicy
  import opened QueueCore
  import opened TenantRules

  /** pruneOld: a scan for the first timestamp that is not before the cutoff. */
  method PruneOld(ts: seq<int>, cutoff: int) returns (kept: seq<int>)
    ensures kept == Prune(ts, cutoff)
  {
    var i := 0;
    while i < |ts| && ts[i] < cutoff
      invariant 0 <= i <= |ts|
      invariant Prune(ts[i..], cutoff) == Prune(ts, cutoff)
    {
      i := i + 1;
      assert ts[i - 1..][1..] == ts[i..];
    }
    kept := ts[i..];
  }

  // The manager's methods work on one tenant's record between fetching it and returning. Those
  // sections are written out here on the record itself.

  /** The section of TryEnqueue behind the breaker and queue-depth checks. */
  method AdmitRecord(
      st: TenantState, pol: Policy, now: int, key: string, est: Estimate) returns (r: TenantState, verdict: Verdict)
    ensures (r, verdict) == AdmitWindowed(st, pol, now, key, est)
  {
    r := st;
    var window := PruneOld(r.window, now - MINUTE);
    r := r.(window := window);
    if pol.ratePerMinute > 0 && |r.window| >= pol.ratePerMinute {
      r := r.(rateLimited := r.rateLimited + 1);
      return r, RateLimited;
    }
    if pol.tokenBudget > 0 && r.tokensUsed + r.reservedTokens + est.tokens > pol.tokenBudget {
      return Trip(r, now), TokenBudgetExceeded;
    }
    if pol.costBudget > 0.0 && r.costUsed + r.reservedCost + est.cost > pol.costBudget {
      return Trip(r, now), CostBudgetExceeded;
    }
    r := r.(queued := r.queued + 1, enqueued := r.enqueued + 1, window := r.window + [now]);
    if key != "" {
      if key in r.reservations {
        var prior := r.reservations[key];
        r := r.(reservedTokens := r.reservedTokens - prior.tokens, reservedCost := r.reservedCost - prior.cost);
      }
      r := r.(reservations := r.reservations[key := est]);
      r := r.(reservedTokens := r.reservedTokens + est.tokens, reservedCost := r.reservedCost + est.cost);
    }
    return r, Admitted;
  }

  method StartRecord(st: TenantState, pol: Policy, now: int) returns (r: TenantState, verdict: Verdict)
    ensures (r, verdict) == Start(st, pol, now)
  {
    r := Recover(st, pol, now);
    match r.breaker {
      case Open => return r, BreakerIsOpen;
      case HalfOpen =>
        if r.probing { return r, AlreadyProbing; }
        r := r.(probing := true);
      case Closed =>
    }
    if pol.maxRunning > 0 && r.running >= pol.maxRunning {
      if r.breaker == HalfOpen { r := r.(probing := false); }
      return r, RunningFull;
    }
    r := r.(running := r.running + 1);
    if r.queued > 0 { r := r.(queued := r.queued - 1); }
    r := r.(dequeued := r.dequeued + 1);
    return r, Admitted;
  }

  method CompleteRecord(
      st: TenantState, pol: Policy, now: int, key: string, tokens: int, cost: real, failed: bool, accepted: bool)
    returns (r: TenantState)
    ensures r == Complete(st, pol, now, key, tokens, cost, failed, accepted)
    ensures JudgedAs(st, r, pol, now, failed)
  {
    CompleteDecides(st, pol, now, key, tokens, cost, failed, accepted);
    hide Judge, Release, JudgedAs;
    r := st;
    if r.running > 0 { r := r.(running := r.running - 1); }
    r := Release(r, key);
    if accepted {
      var est := Clamp(tokens, cost);
      r := r.(tokensUsed := r.tokensUsed + est.tokens, costUsed := r.costUsed + est.cost);
    }
    r := JudgeRecord(r, pol, now, failed);
  }

  method JudgeRecord(st: TenantState, pol: Policy, now: int, failed: bool) returns (r: TenantState)
    ensures r == Judge(st, pol, now, failed) && JudgedAs(st, r, pol, now, failed)
  {
    r := st;
    if failed {
      r := r.(failed := r.failed + 1, consecutiveErrors := r.consecutiveErrors + 1);
      if pol.maxConsecutiveErrors > 0 && r.consecutiveErrors >= pol.maxConsecutiveErrors {
        r := Trip(r, now);
      }
    } else {
      r := r.(completed := r.completed + 1, consecutiveErrors := 0);
      if r.breaker == HalfOpen {
        r := r.(breaker := Closed, probing := false, openedAt := None);
      }
    }
    if r.breaker == HalfOpen && failed { r := Trip(r, now); }
    r := r.(probing := false);
  }

  class Manager {
    const defaultPolicy: Policy
    var policies: map<string, Policy>
    var states: map<string, TenantState>

    function Data(): Mgr
      reads this
    {
      Mgr(defaultPolicy, policies, states)
    }

    constructor (p: Policy)
      ensures Normal(defaultPolicy) && Data() == Mgr(NormalizePolicy(p), map[], map[])
    {
      defaultPolicy := NormalizePolicy(p);
      policies := map[];
      states := map[];
    }

    method SetPolicy(t: string, p: Policy)
      modifies this`policies
      ensures t == "" ==> policies == old(policies)
      ensures t != "" ==> policies == old(policies)[t := NormalizePolicy(p)]
    {
      if t == "" { return; }
      policies := policies[t := NormalizePolicy(p)];
    }

    /** stateLocked: the record of a tenant, created on first use. */
    method StateLocked(t: string) returns (st: TenantState)
      modifies this`states
      ensures st == StateOf(old(Data()), t)
      ensures Data() == With(old(Data()), t, st)
    {
      if t !in states { states := states[t := FRESH]; }
      st := states[t];
      assert states == old(states)[t := st];
    }

    method TryEnqueue(t: string, key: string, tokens: int, cost: real, now: int) returns (verdict: Verdict)
      modifies this`states
      ensures var (st, v) := Admit(StateOf(old(Data()), t), PolicyOf(old(Data()), t), now, key, tokens, cost);
              Data() == With(old(Data()), t, st) && verdict == v
      ensures var st := StateOf(old(Data()), t); var pol := PolicyOf(old(Data()), t); Tidy(st) ==>
        && EnqueueVerdictIs(st, pol, now, |Prune(st.window, now - MINUTE)|, tokens, cost, verdict)
        && AdmittedAs(st, StateOf(Data(), t), pol, now, key, tokens, cost, verdict)
    {
      hide AdmitWindowed, Recover, Clamp, EnqueueVerdictIs, AdmittedAs, Tidy, Prune;
      if Tidy(StateOf(Data(), t)) {
        AdmitDecides(StateOf(Data(), t), PolicyOf(Data(), t), now, key, tokens, cost);
        AdmitChanges(StateOf(Data(), t), PolicyOf(Data(), t), now, key, tokens, cost);
      }
      var pol := PolicyOf(Data(), t);
      var st := StateLocked(t);
      st := Recover(st, pol, now);
      if st.breaker == Open {
        verdict := BreakerIsOpen;
      } else if pol.maxQueued > 0 && st.queued >= pol.maxQueued {
        verdict := QueueFull;
      } else {
        st, verdict := AdmitRecord(st, pol, now, key, Clamp(tokens, cost));
      }
      states := states[t := st];
    }

    method TryStartRun(t: string, now: int) returns (verdict: Verdict)
      modifies this`states
      ensures var (st, v) := Start(StateOf(old(Data()), t), PolicyOf(old(Data()), t), now);
              Data() == With(old(Data()), t, st) && verdict == v
      ensures var st := StateOf(old(Data()), t); var pol := PolicyOf(old(Data()), t);
        Tidy(st) ==> StartVerdictIs(st, pol, now, verdict) && StartedAs(st, StateOf(Data(), t), pol, now, verdict)
    {
      hide Start, StartVerdictIs, StartedAs, Tidy;
      if Tidy(StateOf(Data(), t)) {
        StartDecides(StateOf(Data(), t), PolicyOf(Data(), t), now);
        StartChanges(StateOf(Data(), t), PolicyOf(Data(), t), now);
      }
      var pol := PolicyOf(Data(), t);
      var st := StateLocked(t);
      st, verdict := StartRecord(st, pol, now);
      states := states[t := st];
    }

    method CompleteRun(t: string, key: string, tokens: int, cost: real, failed: bool, accepted: bool, now: int)
      modifies this`states
      ensures Data() == With(old(Data()), t,
        Complete(StateOf(old(Data()), t), PolicyOf(old(Data()), t), now, key, tokens, cost, failed, accepted))
      ensures JudgedAs(StateOf(old(Data()), t), StateOf(Data(), t), PolicyOf(old(Data()), t), now, failed)
      ensures Tidy(StateOf(old(Data()), t)) ==>
        CompletedAs(StateOf(old(Data()), t), StateOf(Data(), t), key, tokens, cost, failed, accepted)
    {
      hide Complete, JudgedAs, CompletedAs, Tidy;
      CompleteDecides(StateOf(Data(), t), PolicyOf(Data(), t), now, key, tokens, cost, failed, accepted);
      if Tidy(StateOf(Data(), t)) {
        CompleteChanges(StateOf(Data(), t), PolicyOf(Data(), t), now, key, tokens, cost, failed, accepted);
      }
      var pol := PolicyOf(Data(), t);
      var st := StateLocked(t);
      st := CompleteRecord(st, pol, now, key, tokens, cost, failed, accepted);
      states := states[t := st];
    }

    method CancelEnqueue(t: string, key: string)
      modifies this`states
      ensures Data() == With(old(Data()), t, Cancel(StateOf(old(Data()), t), key))
    {
      var st := StateLocked(t);
      if st.queued > 0 { st := st.(queued := st.queued - 1); }
      states := states[t := Release(st, key)];
    }

    method MarkDeadLetter(t: string, key: string)
      modifies this`states
      ensures Data() == With(old(Data()), t, MarkDead(StateOf(old(Data()), t), key))
    {
      var st := StateLocked(t);
      st := st.(deadLetter := st.deadLetter + 1);
      states := states[t := Release(st, key)];
    }
  }
}
