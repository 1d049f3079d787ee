/**
  What one tenant's record promises over every run of manager operations
  (pkg/tenant/manager.go): the rolling rate limit and the circuit breaker.
 */
module TenantRuns {
  import opened Common
  import opened TenantPolicy

  datatype Op =
    | OpEnqueue(at: int, key: string, tokens: int, cost: real)
    | OpStart(at: int)
    | OpComplete(at: int, key: string, tokens: int, cost: real, failed: bool, accepted: bool)
    | OpCancel(at: int, key: string)
    | OpDead(at: int, key: string)

  function Apply(st: TenantState, pol: Policy, op: Op): TenantState {
    match op
    case OpEnqueue(at, key, tokens, cost) => Admit(st, pol, at, key, tokens, cost).0
    case OpStart(at) => Start(st, pol, at).0
    case OpComplete(at, key, tokens, cost, failed, accepted) =>
      Complete(st, pol, at, key, tokens, cost, failed, accepted)
    case OpCancel(_, key) => Cancel(st, key)
    case OpDead(_, key) => MarkDead(st, key)
  }

  predicate Accepts(st: TenantState, pol: Policy, op: Op) {
    op.OpEnqueue? && Admit(st, pol, op.at, op.key, op.tokens, op.cost).1 == Admitted
  }

  predicate Starts(st: TenantState, pol: Policy, op: Op) {
    op.OpStart? && Start(st, pol, op.at).1 == Admitted
  }

  /** The record after a run of operations from the fresh record. */
  function Run(pol: Policy, ops: seq<Op>): TenantState {
    if ops == [] then FRESH
    else Apply(Run(pol, ops[..|ops| - 1]), pol, ops[|ops| - 1])
  }

  /** The times of the accepted enqueues of a run, in order. */
  function AcceptedAt(pol: Policy, ops: seq<Op>): seq<int> {
    if ops == [] then []
    else
      var before := ops[..|ops| - 1];
      var op := ops[|ops| - 1];
      AcceptedAt(pol, before) + if Accepts(Run(pol, before), pol, op) then [op.at] else []
  }

  /** The clock never runs backwards. */
  ghost predicate Timed(ops: seq<Op>) {
    forall i, j :: 0 <= i < j < |ops| ==> ops[i].at <= ops[j].at
  }

  lemma {:induction false} RunIsSound(pol: Policy, ops: seq<Op>)
    ensures Sound(Run(pol, ops))
    decreases |ops|
  {
    if ops == [] {
      FreshIsSound();
    } else {
      var st := Run(pol, ops[..|ops| - 1]);
      RunIsSound(pol, ops[..|ops| - 1]);
      match ops[|ops| - 1]
      case OpEnqueue(at, key, tokens, cost) => AdmitSound(st, pol, at, key, tokens, cost);
      case OpStart(at) => StartSound(st, pol, at);
      case OpComplete(at, key, tokens, cost, failed, accepted) =>
        CompleteSound(st, pol, at, key, tokens, cost, failed, accepted);
      case OpCancel(_, key) => CancelSound(st, key);
      case OpDead(_, key) => MarkDeadSound(st, key);
    }
  }

  // ---------------------------------------------------------------- rate limit

  ghost predicate Sorted(ts: seq<int>) {
    forall i, j :: 0 <= i < j < |ts| ==> ts[i] <= ts[j]
  }

  /** The timestamps that lie in the closed interval. */
  function Within(ts: seq<int>, lo: int, hi: int): seq<int> {
    if ts == [] then []
    else Within(ts[..|ts| - 1], lo, hi) + if lo <= ts[|ts| - 1] <= hi then [ts[|ts| - 1]] else []
  }

  /** Any n + 1 consecutive timestamps span more than a minute. */
  ghost predicate Spaced(ts: seq<int>, n: nat) {
    forall i, j :: 0 <= i && i + n <= j < |ts| ==> ts[j] - ts[i] > MINUTE
  }

  /** The window is a tail of the accepted times, and what was cut off is over a minute old. */
  ghost predicate WindowTail(window: seq<int>, accepted: seq<int>, now: int) {
    && |window| <= |accepted|
    && window == accepted[|accepted| - |window|..]
    && (forall i :: 0 <= i < |accepted| - |window| ==> accepted[i] < now - MINUTE)
  }

  ghost predicate NoneBefore(ts: seq<int>, cutoff: int) {
    forall i :: 0 <= i < |ts| ==> ts[i] >= cutoff
  }

  lemma {:induction false} PruneKeepsTail(window: seq<int>, accepted: seq<int>, before: int, now: int)
    requires WindowTail(window, accepted, before) && before <= now
    ensures WindowTail(Prune(window, now - MINUTE), accepted, now)
    ensures Sorted(accepted) ==>
      NoneBefore(Prune(window, now - MINUTE), now - MINUTE)
    decreases |window|
  {
    if window != [] && window[0] < now - MINUTE {
      assert accepted[|accepted| - |window|] == window[0];
      PruneKeepsTail(window[1..], accepted, now, now);
    } else if Sorted(accepted) {
      forall i | 0 <= i < |window| ensures window[i] >= window[0] {
        assert window[i] == accepted[|accepted| - |window| + i];
      }
    }
  }

  ghost predicate RateInv(st: TenantState, accepted: seq<int>, pol: Policy, clock: int) {
    && Sorted(accepted)
    && (forall i :: 0 <= i < |accepted| ==> accepted[i] <= clock)
    && WindowTail(st.window, accepted, clock)
    && (pol.ratePerMinute > 0 ==> Spaced(accepted, pol.ratePerMinute))
  }

  /** An enqueue leaves the window alone, prunes it, or prunes it and appends the admission time. */
  lemma EnqueueWindow(st: TenantState, pol: Policy, op: Op)
    requires op.OpEnqueue?
    ensures var pruned, after := Prune(st.window, op.at - MINUTE), Apply(st, pol, op).window;
            if Accepts(st, pol, op)
            then after == pruned + [op.at] && (pol.ratePerMinute > 0 ==> |pruned| < pol.ratePerMinute)
            else after == st.window || after == pruned
  {
  }

  lemma AppendKeepsTail(pruned: seq<int>, accepted: seq<int>, now: int)
    requires WindowTail(pruned, accepted, now)
    ensures WindowTail(pruned + [now], accepted + [now], now)
  {
    var longer := accepted + [now];
    assert longer[|longer| - |pruned + [now]|..] == pruned + [now];
  }

  lemma EnqueueKeepsRateInv(st: TenantState, accepted: seq<int>, pol: Policy, clock: int, op: Op)
    requires RateInv(st, accepted, pol, clock) && op.OpEnqueue? && clock <= op.at
    ensures RateInv(Apply(st, pol, op), accepted + if Accepts(st, pol, op) then [op.at] else [], pol, op.at)
  {
    hide Accepts, Apply, Prune;
    EnqueueWindow(st, pol, op);
    PruneKeepsTail(st.window, accepted, clock, op.at);
    assert accepted + [] == accepted;
    AppendKeepsTail(Prune(st.window, op.at - MINUTE), accepted, op.at);
  }

  lemma OtherKeepsRateInv(st: TenantState, accepted: seq<int>, pol: Policy, clock: int, op: Op)
    requires RateInv(st, accepted, pol, clock) && !op.OpEnqueue? && clock <= op.at
    ensures RateInv(Apply(st, pol, op), accepted, pol, op.at) && !Accepts(st, pol, op)
  {
    SameWindow(st, pol, op);
    hide Apply;
  }

  lemma SameWindow(st: TenantState, pol: Policy, op: Op)
    requires !op.OpEnqueue?
    ensures Apply(st, pol, op).window == st.window
  {
  }

  lemma {:induction false} RateInvHolds(pol: Policy, ops: seq<Op>)
    requires Timed(ops)
    ensures ops != [] ==> RateInv(Run(pol, ops), AcceptedAt(pol, ops), pol, ops[|ops| - 1].at)
    ensures ops == [] ==> forall t :: RateInv(FRESH, [], pol, t)
    decreases |ops|
  {
    if ops != [] {
      hide RateInv, Apply, Accepts;
      var before, op := ops[..|ops| - 1], ops[|ops| - 1];
      RateInvHolds(pol, before);
      var clock := if before == [] then op.at else before[|before| - 1].at;
      var st, accepted := Run(pol, before), AcceptedAt(pol, before);
      assert accepted + [] == accepted;
      if op.OpEnqueue? {
        EnqueueKeepsRateInv(st, accepted, pol, clock, op);
      } else {
        OtherKeepsRateInv(st, accepted, pol, clock, op);
      }
    }
  }

  lemma {:induction false} WithinSplit(ts: seq<int>, k: nat, lo: int, hi: int)
    requires k <= |ts|
    ensures |Within(ts, lo, hi)| == |Within(ts[..k], lo, hi)| + |Within(ts[k..], lo, hi)|
    decreases |ts|
  {
    if k == |ts| {
      assert ts[..k] == ts;
    } else {
      WithinSplit(ts[..|ts| - 1], k, lo, hi);
      assert ts[..|ts| - 1][..k] == ts[..k];
      assert ts[..|ts| - 1][k..] == ts[k..][..|ts[k..]| - 1];
    }
  }

  lemma {:induction false} WithinBounds(ts: seq<int>, lo: int, hi: int)
    ensures |Within(ts, lo, hi)| <= |ts|
    ensures (forall i :: 0 <= i < |ts| ==> ts[i] < lo) ==> Within(ts, lo, hi) == []
    decreases |ts|
  {
    if ts != [] { WithinBounds(ts[..|ts| - 1], lo, hi); }
  }

  lemma {:induction false} SpacedBoundsWithin(ts: seq<int>, n: nat, lo: int)
    requires Sorted(ts) && Spaced(ts, n) && n > 0
    ensures |Within(ts, lo, lo + MINUTE)| <= n
    decreases |ts|
  {
    var hi := lo + MINUTE;
    if |ts| <= n {
      WithinBounds(ts, lo, hi);
    } else if ts[|ts| - 1] > hi {
      SpacedBoundsWithin(ts[..|ts| - 1], n, lo);
    } else {
      var k := |ts| - n;
      forall i | 0 <= i < k ensures ts[i] < lo { assert ts[|ts| - 1] - ts[i] > MINUTE; }
      WithinSplit(ts, k, lo, hi);
      WithinBounds(ts[..k], lo, hi);
      WithinBounds(ts[k..], lo, hi);
    }
  }

  /** No closed interval of one minute of any run contains more accepted enqueues than the limit. */
  lemma RateLimitHolds(pol: Policy, ops: seq<Op>, from: int)
    requires Timed(ops) && pol.ratePerMinute > 0
    ensures |Within(AcceptedAt(pol, ops), from, from + MINUTE)| <= pol.ratePerMinute
  {
    RateInvHolds(pol, ops);
    SpacedBoundsWithin(AcceptedAt(pol, ops), pol.ratePerMinute, from);
  }

  lemma {:induction false} WithinOfTail(ts: seq<int>, k: nat, lo: int, hi: int)
    requires k <= |ts|
    requires forall i :: 0 <= i < |ts| ==> (lo <= ts[i] <= hi <==> k <= i)
    ensures Within(ts, lo, hi) == ts[k..]
    decreases |ts|
  {
    if k == |ts| {
      assert ts[k..] == [];
      if ts != [] { WithinOfTail(ts[..|ts| - 1], |ts| - 1, lo, hi); }
    } else {
      WithinOfTail(ts[..|ts| - 1], k, lo, hi);
      assert ts[k..] == ts[..|ts| - 1][k..] + [ts[|ts| - 1]];
    }
  }

  /** After an admitted enqueue the window is exactly the accepted times of the last closed minute. */
  lemma WindowIsExact(pol: Policy, ops: seq<Op>, op: Op)
    requires Timed(ops + [op]) && Accepts(Run(pol, ops), pol, op)
    ensures Run(pol, ops + [op]).window == Within(AcceptedAt(pol, ops + [op]), op.at - MINUTE, op.at)
  {
    var st, accepted := Run(pol, ops), AcceptedAt(pol, ops);
    assert (ops + [op])[..|ops|] == ops;
    assert Run(pol, ops + [op]) == Apply(st, pol, op);
    assert AcceptedAt(pol, ops + [op]) == accepted + [op.at];
    assert forall i :: 0 <= i < |ops| ==> ops[i] == (ops + [op])[i];
    RateInvHolds(pol, ops);
    ExactAfter(st, accepted, pol, if ops == [] then op.at else ops[|ops| - 1].at, op);
  }

  lemma ExactAfter(st: TenantState, accepted: seq<int>, pol: Policy, clock: int, op: Op)
    requires RateInv(st, accepted, pol, clock) && clock <= op.at && Accepts(st, pol, op)
    ensures Apply(st, pol, op).window == Within(accepted + [op.at], op.at - MINUTE, op.at)
  {
    assert op.OpEnqueue?;
    hide Apply, Prune, Within;
    PruneKeepsTail(st.window, accepted, clock, op.at);
    EnqueueWindow(st, pol, op);
    ExactTail(Prune(st.window, op.at - MINUTE), accepted, op.at);
  }

  lemma ExactTail(pruned: seq<int>, accepted: seq<int>, now: int)
    requires WindowTail(pruned, accepted, now) && (forall i :: 0 <= i < |accepted| ==> accepted[i] <= now)
    requires NoneBefore(pruned, now - MINUTE)
    ensures pruned + [now] == Within(accepted + [now], now - MINUTE, now)
  {
    hide Within;
    AppendKeepsTail(pruned, accepted, now);
    var all, window := accepted + [now], pruned + [now];
    forall i | 0 <= i < |all|
      ensures now - MINUTE <= all[i] <= now <==> |all| - |window| <= i
    {
      if |all| - |window| <= i { assert all[i] == window[i - (|all| - |window|)]; }
    }
    WithinOfTail(all, |all| - |window|, now - MINUTE, now);
  }

  // ---------------------------------------------------------------- circuit breaker

  /** How many runs were started since the breaker last became half-open; 0 when it is not half-open. */
  function EpisodeStarts(pol: Policy, ops: seq<Op>): nat {
    if ops == [] || Run(pol, ops).breaker != HalfOpen then 0
    else
      var before := ops[..|ops| - 1];
      EpisodeStarts(pol, before) + if Starts(Run(pol, before), pol, ops[|ops| - 1]) then 1 else 0
  }

  lemma {:induction false} HalfOpenProbesOnce(pol: Policy, ops: seq<Op>)
    ensures EpisodeStarts(pol, ops) <= 1
    ensures EpisodeStarts(pol, ops) == 1 <==> Run(pol, ops).probing
    ensures Run(pol, ops).probing ==> Run(pol, ops).breaker == HalfOpen && Run(pol, ops).running >= 1
    decreases |ops|
  {
    RunIsSound(pol, ops);
    if ops != [] {
      HalfOpenProbesOnce(pol, ops[..|ops| - 1]);
      RunIsSound(pol, ops[..|ops| - 1]);
      EpisodeStep(Run(pol, ops[..|ops| - 1]), pol, ops[|ops| - 1]);
    }
  }

  /** A start inside a half-open episode sets the probe flag; nothing else in the episode changes it. */
  lemma EpisodeStep(st: TenantState, pol: Policy, op: Op)
    requires Sound(st)
    ensures var after := Apply(st, pol, op);
            after.breaker == HalfOpen ==>
              (Starts(st, pol, op) ==> !st.probing && after.probing) &&
              (!Starts(st, pol, op) ==> after.probing == st.probing)
  {
  }

  /** Any completion ends a half-open episode: a success closes the breaker, a failure opens it. */
  lemma CompletionEndsEpisode(pol: Policy, ops: seq<Op>, op: Op)
    requires op.OpComplete? && Run(pol, ops).breaker == HalfOpen
    ensures Run(pol, ops + [op]).breaker == if op.failed then Open else Closed
    ensures EpisodeStarts(pol, ops + [op]) == 0
  {
    assert (ops + [op])[..|ops + [op]| - 1] == ops;
  }

  ghost predicate OpenSince(st: TenantState, at: int) {
    st.breaker == Open && st.openedAt == Some(at)
  }

  /** The operation that follows the run is neither an admitted enqueue nor a started run. */
  predicate Refused(pol: Policy, ops: seq<Op>, op: Op) {
    !Accepts(Run(pol, ops), pol, op) && !Starts(Run(pol, ops), pol, op)
  }

  lemma ShutWhileCooling(st: TenantState, pol: Policy, op: Op, since: int)
    requires OpenSince(st, since) && op.at - since < pol.breakerCooldown
    ensures OpenSince(Apply(st, pol, op), since)
    ensures !Accepts(st, pol, op) && !Starts(st, pol, op)
  {
  }

  lemma CoolingStep(pol: Policy, ops: seq<Op>, op: Op, since: int)
    requires OpenSince(Run(pol, ops), since) && op.at - since < pol.breakerCooldown
    ensures OpenSince(Run(pol, ops + [op]), since) && Refused(pol, ops, op)
  {
    assert (ops + [op])[..|ops|] == ops;
    ShutWhileCooling(Run(pol, ops), pol, op, since);
  }

  /**
    Once the breaker has opened, no operation that happens within the cooldown is admitted,
    starts a run, or changes the breaker, however long the run of operations is.
   */
  lemma {:induction false} CooldownHolds(pol: Policy, ops: seq<Op>, more: seq<Op>, since: int)
    requires OpenSince(Run(pol, ops), since)
    requires forall i :: 0 <= i < |more| ==> more[i].at - since < pol.breakerCooldown
    ensures OpenSince(Run(pol, ops + more), since)
    ensures forall i :: 0 <= i < |more| ==> Refused(pol, ops + more[..i], more[i])
    decreases |more|
  {
    hide *;
    if more == [] {
      assert ops + more == ops;
    } else {
      var longer, rest := ops + [more[0]], more[1..];
      CoolingStep(pol, ops, more[0], since);
      CooldownHolds(pol, longer, rest, since);
      assert longer + rest == ops + more;
      forall i | 0 <= i < |more|
        ensures Refused(pol, ops + more[..i], more[i])
      {
        if i == 0 {
          assert ops + more[..0] == ops;
        } else {
          assert longer + rest[..i - 1] == ops + more[..i] && rest[i - 1] == more[i];
        }
      }
    }
  }
}
