/**
  Where the guarantees of the dispatch system end, shown by legal runs: a cancelled admission that
  is taken back late, two ingress loops, and tenants that keep coming back.
 */
module DispatchLimits {
  import opened Common
  import opened TenantPolicy
  import opened QueueCore
  import opened Dispatch
  import opened DispatchPlaces
  import opened DispatchAccounts
  import opened DispatchHistory
  import opened DispatchRuns
  import opened QueueRuns
  import opened Fairness

  // ---------------------------------------------------------------- a late cancellation

  /** A queued message of the tenant has no reservation. */
  ghost predicate Uncovered(s: Sys, id: nat) {
    InPhase(s.live, id, Sending) && MessageKey(s.live[id].msg) !in StateOf(s.mgr, s.live[id].msg.tenant).reservations
  }

  /** A submission about to be sent can be offered again once its key is given back. */
  lemma KeyIsFree(s: Sys, id: nat, now: int)
    requires SysOk(s, false, false) && InPhase(s.live, id, Sending) && s.clock <= now
    ensures !Duplicate(Unclaim(s.core, MessageKey(s.live[id].msg)), MessageKey(s.live[id].msg), now, s.cfg.dedupeWindow)
  {
    hide MessageKey, ListOk, FifosOk, RingOk, FatesOk, RolledOk, BooksOf, AttemptsOk, LedgerOk, QueueKeys, FlightKeys;
    KeysAfterLeave(s.live, id);
    assert Key(s.live, id) == MessageKey(s.live[id].msg);
  }

  /**
    In every reachable state, whenever the manager would admit a message again that is about to be
    sent, there is a run after which that message is queued without a reservation: the caller gives
    the key back, the message is submitted and admitted again, and only then the first admission
    is cancelled.
   */
  lemma LateCancelUncovers(s: Sys, id: nat, now: int)
    requires Reachable(s) && InPhase(s.live, id, Sending) && s.clock <= now
    requires var m := s.live[id].msg; Verdicts(s, m, now).1 == Admitted
    ensures var steps := [CancelKey(id), Submit(s.live[id].msg, now), AskManager(s.issued, now), CancelBooks(id)];
      Legal(s, steps) && Uncovered(Final(s, steps), s.issued)
  {
    hide Reachable, MessageKey, RingOk, Admit, Duplicate, Cancel, Legal, Final, SysOk, Apply, Enabled, Claimed, Judged;
    ReachableOk(s);
    var m := s.live[id].msg;
    GivenBack(s, id, now);
    var s1 := Apply(s, CancelKey(id));
    var m' := Ticketed(s1, m);
    SubmitRun(s1, m, now);
    SubmitEnabled(s1, m, now);
    AskRun(s1, m', now);
    var s2, s3 := Claimed(s1, m', now), Judged(s1, m', now);
    AdmittedAgain(s1, m', now, id);
    LegalOne(s3, CancelBooks(id));
    LegalStep(s2, AskManager(s.issued, now), [CancelBooks(id)]);
    LegalStep(s1, Submit(m, now), [AskManager(s.issued, now)] + [CancelBooks(id)]);
    LegalStep(s, CancelKey(id), [Submit(m, now)] + ([AskManager(s.issued, now)] + [CancelBooks(id)]));
    assert [CancelKey(id), Submit(m, now), AskManager(s.issued, now), CancelBooks(id)] ==
           [CancelKey(id)] + ([Submit(m, now)] + ([AskManager(s.issued, now)] + [CancelBooks(id)]));
  }

  lemma GivenBack(s: Sys, id: nat, now: int)
    requires SysOk(s, false, false) && InPhase(s.live, id, Sending) && s.clock <= now
    ensures RingOk(s.core) && Enabled(s, CancelKey(id))
    ensures var m, s1 := s.live[id].msg, Apply(s, CancelKey(id));
      && RingOk(s1.core) && s1.clock <= now && s1.issued == s.issued && id < s.issued && id in s1.rolled && s1.rolled[id] == m
      && var m' := Ticketed(s1, m);
         && !Duplicate(s1.core, MessageKey(m'), now, s1.cfg.dedupeWindow)
         && Verdicts(s1, m', now) == Verdicts(s, m, now)
         && m'.ticket == s.issued && m'.tenant == m.tenant && MessageKey(m') == MessageKey(m)
  {
    hide MessageKey, RingOk, Admit, Duplicate, SysOk;
    SysPlaces(s);
    LiveFacts(s);
    hide PlacesOk;
    KeyIsFree(s, id, now);
    RingFrame(s.core, Apply(s, CancelKey(id)).core);
    SameKey(s.live[id].msg, s.issued);
  }

  lemma AdmittedAgain(s: Sys, m: Msg, now: int, id: nat)
    requires RingOk(s.core) && m.ticket == s.issued && id in s.rolled && s.rolled[id].tenant == m.tenant
    requires MessageKey(s.rolled[id]) == MessageKey(m) && Verdicts(s, m, now).1 == Admitted
    ensures var s3 := Judged(s, m, now);
      RingOk(s3.core) && Enabled(s3, CancelBooks(id)) && Uncovered(Apply(s3, CancelBooks(id)), s.issued)
  {
    hide MessageKey, RingOk, Admit, Cancel, PruneRecent, Duplicate;
    var s3 := Judged(s, m, now);
    RingFrame(s.core, s3.core);
    CancelForgets(StateOf(s3.mgr, m.tenant), m);
  }

  lemma SysPlaces(s: Sys)
    requires SysOk(s, false, false)
    ensures PlacesOk(s)
  {
  }

  lemma SameKey(m: Msg, ticket: nat)
    ensures MessageKey(Normalize(m.(ticket := ticket))) == MessageKey(m)
  {
  }

  lemma CancelForgets(st: TenantState, m: Msg)
    ensures MessageKey(m) !in Cancel(st, MessageKey(m)).reservations
  {
    KeyNotEmpty(m);
  }

  // ---------------------------------------------------------------- quiet systems with default limits

  const DEFAULTS := Policy(4, 128, 240, 5, MINUTE, 0, 0.0)

  lemma DefaultLimits()
    ensures NormalizePolicy(Policy(0, 0, 0, 0, 0, 0, 0.0)) == DEFAULTS
  {
  }

  /** Nothing runs, n messages are queued, the breaker is closed, and the last admission is not after the clock. */
  ghost predicate Rest(st: TenantState, n: nat, clock: int) {
    st.breaker == Closed && st.running == 0 && st.queued == n && forall i :: 0 <= i < |st.window| ==> st.window[i] <= clock
  }

  lemma {:induction false} PruneAll(ts: seq<int>, cutoff: int)
    requires forall i :: 0 <= i < |ts| ==> ts[i] < cutoff
    ensures Prune(ts, cutoff) == []
  {
    if ts != [] { PruneAll(ts[1..], cutoff); }
  }

  lemma AdmitAtRest(st: TenantState, n: nat, clock: int, now: int, key: string, tokens: int, cost: real)
    requires Rest(st, n, clock) && n < 128 && now > clock + MINUTE
    ensures var (a, verdict) := Admit(st, DEFAULTS, now, key, tokens, cost); verdict == Admitted && Rest(a, n + 1, now)
  {
    PruneAll(st.window, now - MINUTE);
  }

  lemma ServeAtRest(st: TenantState, n: nat, clock: int, now: int, key: string, tokens: int, cost: real)
    requires Rest(st, n, clock) && n > 0 && now >= clock
    ensures Start(st, DEFAULTS, now).1 == Admitted
    ensures Rest(Complete(Start(st, DEFAULTS, now).0, DEFAULTS, now, key, tokens, cost, false, true), n - 1, now)
  {
  }

  /** Every message inside the queue waits in its FIFO, and every tenant is at rest. */
  ghost predicate Calm(s: Sys) {
    && s.core.channel == [] && s.hands == [] && s.cfg.bufferSize > 0
    && (forall t :: PolicyOf(s.mgr, t) == DEFAULTS && Rest(StateOf(s.mgr, t), |FifoOf(s.core.pending, t)|, s.clock))
  }

  // ---------------------------------------------------------------- a message arrives

  ghost function Sent(s: Sys, m: Msg, now: int): Sys {
    var s2 := Judged(s, m, now);
    s2.(core := Push(s2.core, m), sent := s.sent + [m], live := s.live[m.ticket := Live(m, Buffered, now)])
  }

  lemma SendRun(s: Sys, msg: Msg, now: int)
    requires RingOk(s.core) && s.clock <= now && |s.core.channel| < s.cfg.bufferSize
    requires !Duplicate(s.core, MessageKey(Ticketed(s, msg)), now, s.cfg.dedupeWindow)
    requires Verdicts(s, Ticketed(s, msg), now).1 == Admitted
    ensures var steps := EnqueueSteps(s.issued, msg, now, Queued);
      Legal(s, steps) && Final(s, steps) == Sent(s, Ticketed(s, msg), now) && RingOk(Final(s, steps).core)
  {
    hide MessageKey, RingOk, Admit, Duplicate, Apply, Enabled, Legal, Final, Judged, Claimed, Push;
    var m := Ticketed(s, msg);
    SubmitRun(s, msg, now);
    SubmitEnabled(s, msg, now);
    AskRun(s, m, now);
    SentRun(s, m, now);
    ThreeSteps(s, Submit(msg, now), AskManager(s.issued, now), Send(s.issued));
    PushRing(Judged(s, m, now).core, m);
    RingFrame(Judged(s, m, now).core, Push(Judged(s, m, now).core, m));
  }

  lemma PushRing(q: Core, m: Msg)
    ensures Push(q, m).ring == q.ring && Push(q, m).pending == q.pending && Push(q, m).cursor == q.cursor
  {
  }

  function ArriveSteps(id: nat, msg: Msg, now: int): seq<Step> { EnqueueSteps(id, msg, now, Queued) + [Receive, File(0)] }

  /** In a calm system a message is admitted, received and filed, and the system is calm again. */
  lemma Arrives(s: Sys, msg: Msg, now: int)
    requires RingOk(s.core) && Calm(s) && now > s.clock + MINUTE
    requires !Duplicate(s.core, MessageKey(Ticketed(s, msg)), now, s.cfg.dedupeWindow)
    requires |FifoOf(s.core.pending, NormalizeTenant(msg.tenant))| < 128
    ensures var steps, m := ArriveSteps(s.issued, msg, now), Ticketed(s, msg);
      && Legal(s, steps)
      && var s', q := Final(s, steps), AddPending(s.core, m);
         && RingOk(s'.core) && Calm(s') && s'.clock == now && s'.cfg == s.cfg
         && s'.core.ring == q.ring && s'.core.cursor == q.cursor && s'.core.pending == q.pending
  {
    hide MessageKey, RingOk, Admit, Duplicate, Legal, Final, PruneRecent, Rest, Start;
    var m := Ticketed(s, msg);
    var t := m.tenant;
    AdmitAtRest(StateOf(s.mgr, t), |FifoOf(s.core.pending, t)|, s.clock, now, MessageKey(m), m.tokens, m.cost);
    SendRun(s, msg, now);
    var s3 := Sent(s, m, now);
    assert s3.core.channel == [m];
    ReceiveFile(s3);
    LegalConcat(s, EnqueueSteps(s.issued, msg, now, Queued), [Receive, File(0)]);
    ArrivedCalm(s, m, now);
  }

  lemma ArrivedCalm(s: Sys, m: Msg, now: int)
    requires Calm(s) && m.tenant != "" && now > s.clock + MINUTE
    requires Rest(Verdicts(s, m, now).0, |FifoOf(s.core.pending, m.tenant)| + 1, now)
    ensures var s3 := Sent(s, m, now);
      var q := DrainOne(s3.core);
      && Calm(s3.(core := q, live := Move(Move(s3.live, m.ticket, Carried), m.ticket, Waiting)))
      && q.ring == AddPending(s.core, m).ring && q.cursor == s.core.cursor && q.pending == AddPending(s.core, m).pending
  {
    hide MessageKey, Admit, Rest, FifoOf, StateOf, PolicyOf, DrainOne, AddPending, Claim, Move;
    SentCore(s, m, now);
    var s3 := Sent(s, m, now);
    var q := DrainOne(s3.core);
    forall u ensures PolicyOf(s3.mgr, u) == DEFAULTS && Rest(StateOf(s3.mgr, u), |FifoOf(q.pending, u)|, now) {
      RestLater(StateOf(s.mgr, u), |FifoOf(s.core.pending, u)|, s.clock, now);
      FiledFifo(s.core, m, u);
    }
  }

  lemma SentCore(s: Sys, m: Msg, now: int)
    requires s.core.channel == []
    ensures var q := DrainOne(Sent(s, m, now).core);
      && q.channel == [] && q.ring == AddPending(s.core, m).ring && q.cursor == s.core.cursor
      && q.pending == AddPending(s.core, m).pending && AddPending(s.core, m).cursor == s.core.cursor
  {
    hide MessageKey, Admit, Duplicate, PruneRecent;
    assert Sent(s, m, now).core.channel == [m] && [m][1..] == [];
  }

  lemma RestLater(st: TenantState, n: nat, clock: int, now: int)
    requires Rest(st, n, clock) && clock <= now
    ensures Rest(st, n, now)
  {
  }

  // ---------------------------------------------------------------- a message is served

  function ServeSteps(id: nat, now: int): seq<Step> { [PopOne(now), Report(id, false, now), Finish(id, now)] }

  /** The first tenant of the turn is admitted at once. */
  lemma PopAtRest(s: Sys, now: int)
    requires RingOk(s.core) && Calm(s) && s.core.ring != [] && s.clock <= now
    ensures var t := s.core.ring[s.core.cursor];
      && t in s.core.pending && s.core.pending[t] != []
      && Start(StateOf(s.mgr, t), DEFAULTS, now).1 == Admitted
      && var (q, m) := Take(s.core, s.core.cursor);
         Pop(s.core, s.mgr, now) == (q, With(s.mgr, t, Start(StateOf(s.mgr, t), DEFAULTS, now).0), Some(m))
  {
    hide MessageKey, Start, Take, Rest;
    var t := s.core.ring[s.core.cursor];
    assert t in s.core.pending && |FifoOf(s.core.pending, t)| > 0;
    ServeAtRest(StateOf(s.mgr, t), |FifoOf(s.core.pending, t)|, s.clock, now, "", 0, 0.0);
  }

  /** What a worker leaves that serves the first tenant of the turn. */
  ghost function ServedSys(s: Sys, m: Msg, now: int): Sys
    requires RingOk(s.core) && s.core.ring != []
  {
    var t, (q, _) := s.core.ring[s.core.cursor], Take(s.core, s.core.cursor);
    s.(core := Retire(q, m, true, false, now, s.cfg.dedupeWindow),
       mgr := Reported(With(s.mgr, t, Start(StateOf(s.mgr, t), DEFAULTS, now).0), m, false, false, now),
       clock := now,
       finished := s.finished[MessageKey(m) := now],
       popped := s.popped + [m],
       handled := s.handled[m.ticket := 1 + if m.ticket in s.handled then s.handled[m.ticket] else 0],
       live := Exit(s.live, m.ticket),
       fates := s.fates[m.ticket := Succeeded])
  }

  lemma PopApplied(s: Sys, now: int)
    requires RingOk(s.core) && s.clock <= now
    ensures var (q, mgr, out) := Pop(s.core, s.mgr, now);
      out.Some? ==>
        var m := out.value;
        && Served(s, PopOne(now)) == Some(NormalizeTenant(m.tenant))
        && Apply(s, PopOne(now)) ==
           s.(core := q, mgr := mgr, clock := now, popped := s.popped + [m],
              handled := s.handled[m.ticket := 1 + if m.ticket in s.handled then s.handled[m.ticket] else 0],
              live := Move(s.live, m.ticket, Handling))
  {
    hide RingOk, Pop, Move;
  }

  lemma ServeRun(s: Sys, now: int)
    requires PlacesOk(s) && RingOk(s.core) && Calm(s) && s.core.ring != [] && s.clock <= now
    ensures var t := s.core.ring[s.core.cursor];
      && t in s.core.pending && s.core.pending[t] != []
      && var m := s.core.pending[t][0];
         && Legal(s, ServeSteps(m.ticket, now)) && Final(s, ServeSteps(m.ticket, now)) == ServedSys(s, m, now)
         && Served(s, PopOne(now)) == Some(t) && m.tenant == t
  {
    hide MessageKey, RingOk, Take, Pop, Retire, Reported, Start, Calm, PlacesOk, Legal, Final, Apply, Served, With, Enabled;
    RingHas(s);
    PopAtRest(s, now);
    PopEnabled(s, now);
    HeadOf(s, s.core.cursor);
    TakeKeepsRing(s.core, s.core.cursor);
    var t := s.core.ring[s.core.cursor];
    var m := s.core.pending[t][0];
    PopApplied(s, now);
    var s1 := Apply(s, PopOne(now));
    ServedSteps(s1, m.ticket, now);
    assert Exit(s1.live, m.ticket) == Exit(s.live, m.ticket);
    ThreeSteps(s, PopOne(now), Report(m.ticket, false, now), Finish(m.ticket, now));
  }

  lemma PopEnabled(s: Sys, now: int)
    requires s.clock <= now
    ensures Enabled(s, PopOne(now))
  {
  }

  lemma ServedSteps(s: Sys, id: nat, now: int)
    requires RingOk(s.core) && InPhase(s.live, id, Handling) && s.clock <= now
    ensures Enabled(s, Report(id, false, now))
    ensures var m, s1 := s.live[id].msg, Apply(s, Report(id, false, now));
      && s1.core == s.core && Enabled(s1, Finish(id, now))
      && Apply(s1, Finish(id, now)) ==
         s.(core := Retire(s.core, m, true, false, now, s.cfg.dedupeWindow), mgr := Reported(s.mgr, m, false, false, now), clock := now,
            finished := s.finished[MessageKey(m) := now], live := Exit(s.live, id), fates := s.fates[id := Succeeded])
  {
    hide MessageKey, RingOk, Retire, Reported;
    assert Exit(Move(s.live, id, Settling(false)), id) == Exit(s.live, id);
  }

  lemma RingHas(s: Sys)
    requires RingOk(s.core) && s.core.ring != []
    ensures s.core.cursor < |s.core.ring|
  {
  }

  lemma HeadOf(s: Sys, idx: nat)
    requires PlacesOk(s) && idx < |s.core.ring|
    ensures s.core.ring[idx] in s.core.pending && s.core.pending[s.core.ring[idx]] != []
    ensures var m := s.core.pending[s.core.ring[idx]][0];
      && Take(s.core, idx).1 == m && InPhase(s.live, m.ticket, Waiting) && s.live[m.ticket].msg == m
      && m.tenant == NormalizeTenant(m.tenant) == s.core.ring[idx]
  {
    hide Places, FatesOk, RolledOk;
    HeadIsWaiting(s.core, s.live, s.hands, idx);
    LiveFacts(s);
  }

  /** After the first tenant of the turn was served the system is calm again. */
  lemma ServedCalm(s: Sys, m: Msg, now: int)
    requires RingOk(s.core) && Calm(s) && s.core.ring != [] && s.clock <= now
    requires var t := s.core.ring[s.core.cursor]; t in s.core.pending && s.core.pending[t] != [] && m == s.core.pending[t][0] && m.tenant == t
    ensures var s', q := ServedSys(s, m, now), Take(s.core, s.core.cursor).0;
      Calm(s') && s'.core.ring == q.ring && s'.core.cursor == q.cursor && s'.core.pending == q.pending
  {
    hide MessageKey, Start, Complete, Rest, PruneRecent;
    var s', q, t := ServedSys(s, m, now), Take(s.core, s.core.cursor).0, m.tenant;
    TakesHead(s.core, s.core.cursor);
    forall u ensures PolicyOf(s'.mgr, u) == DEFAULTS && Rest(StateOf(s'.mgr, u), |FifoOf(q.pending, u)|, now) {
      RestLater(StateOf(s.mgr, u), |FifoOf(s.core.pending, u)|, s.clock, now);
      TakenFifo(s.core, s.core.cursor, u);
      ServeAtRest(StateOf(s.mgr, t), |FifoOf(s.core.pending, t)|, s.clock, now, MessageKey(m), m.tokens, m.cost);
    }
  }

  // ---------------------------------------------------------------- a fresh system

  lemma FreshCalm() returns (s: Sys)
    ensures Starts(s) && Reachable(s) && Calm(s) && s.core == EMPTY && s.live == map[] && s.issued == 0 && s.clock == 0
    ensures s.cfg == Config(100, 3, 2 * MINUTE) && s.sent == [] && s.popped == []
  {
    s := Init(Config(0, 0, 0), DEFAULTS, map[], 0);
    assert Starts(s);
    LegalNone(s);
    hide Legal, Final;
    assert Starts(s) && Legal(s, []) && s == Final(s, []);
  }

  lemma ReachablePlaces(s: Sys)
    requires Reachable(s)
    ensures PlacesOk(s) && RingOk(s.core)
  {
    hide Reachable, PlacesOk;
    ReachableOk(s);
    RingOf(s);
  }

  lemma ReachableStep(s: Sys, step: Step)
    requires Reachable(s) && Enabled(s, step)
    ensures RingOk(s.core) && Reachable(Apply(s, step))
  {
    hide Reachable, PlacesOk, Apply, Enabled, Legal, Final;
    ReachablePlaces(s);
    LegalOne(s, step);
    ReachableOn(s, [step]);
  }

  /** A message of the tenant with a key the queue does not know. */
  lemma FreshMessage(q: Core, t: string, ticket: nat) returns (msg: Msg)
    requires t != ""
    ensures msg.tenant == t
    ensures forall now, window :: !Duplicate(q, MessageKey(Normalize(msg.(ticket := ticket))), now, window)
  {
    var used := q.inQueue + q.inFlight + q.recent.Keys;
    var r := FreshString(used);
    msg := Msg(0, t, "", "", r, 1, 0, 0.0);
    assert |MessageKey(Normalize(msg.(ticket := ticket)))| > |r|;
  }

  /** Such runs exist: a reachable state in which a queued message has lost its reservation. */
  lemma LateCancelHappens()
    ensures exists s: Sys, id: nat :: Reachable(s) && Uncovered(s, id)
  {
    hide MessageKey, RingOk, Reachable, PlacesOk, Legal, Final, Duplicate, Uncovered, Rest, Admit, Claim;
    var s := FreshCalm();
    ReachablePlaces(s);
    var msg := FreshMessage(s.core, "a", 0);
    var m, now := Ticketed(s, msg), 2 * MINUTE;
    SubmitRun(s, msg, now);
    ReachableStep(s, Submit(msg, now));
    AskRun(s, m, now);
    ReachableStep(Claimed(s, m, now), AskManager(0, now));
    var s' := Judged(s, m, now);
    AdmitAtRest(StateOf(s.mgr, "a"), 0, 0, now, MessageKey(m), m.tokens, m.cost);
    AdmitAtRest(StateOf(s'.mgr, "a"), 1, now, now + 2 * MINUTE, MessageKey(m), m.tokens, m.cost);
    LateCancelUncovers(s', 0, now + 2 * MINUTE);
    var steps := [CancelKey(0), Submit(m, now + 2 * MINUTE), AskManager(1, now + 2 * MINUTE), CancelBooks(0)];
    ReachableOn(s', steps);
    assert Reachable(Final(s', steps)) && Uncovered(Final(s', steps), 1);
  }

  // ---------------------------------------------------------------- two ingress loops

  lemma SentAtRest(s: Sys, n: nat, msg: Msg, now: int)
    requires Reachable(s) && msg.tenant == "a" && now > s.clock + MINUTE && |s.core.channel| < s.cfg.bufferSize && n < 128
    requires PolicyOf(s.mgr, "a") == DEFAULTS && Rest(StateOf(s.mgr, "a"), n, s.clock)
    requires !Duplicate(s.core, MessageKey(Ticketed(s, msg)), now, s.cfg.dedupeWindow)
    ensures var m := Ticketed(s, msg);
      var s' := Sent(s, m, now);
      && Reachable(s') && s'.core.channel == s.core.channel + [m] && s'.sent == s.sent + [m] && s'.popped == s.popped
      && s'.hands == s.hands && s'.core.pending == s.core.pending && s'.core.ring == s.core.ring && s'.core.cursor == s.core.cursor
      && s'.clock == now && s'.issued == s.issued + 1 && s'.cfg == s.cfg && m.ticket == s.issued && m.tenant == "a"
      && PolicyOf(s'.mgr, "a") == DEFAULTS && Rest(StateOf(s'.mgr, "a"), n + 1, now)
  {
    hide MessageKey, RingOk, Reachable, PlacesOk, Legal, Final, Duplicate, Rest, Admit, PruneRecent;
    var m := Ticketed(s, msg);
    ReachablePlaces(s);
    AdmitAtRest(StateOf(s.mgr, "a"), n, s.clock, now, MessageKey(m), m.tokens, m.cost);
    SendRun(s, msg, now);
    ReachableOn(s, EnqueueSteps(s.issued, msg, now, Queued));
  }

  lemma TwoReceived(s: Sys, m1: Msg, m2: Msg) returns (s': Sys)
    requires Reachable(s) && s.core.channel == [m1, m2] && s.hands == []
    ensures Reachable(s') && s' == s.(core := s.core.(channel := []), hands := [m1, m2], live := s'.live)
  {
    hide RingOk, Reachable, Move;
    ReachableStep(s, Receive);
    var s1 := Apply(s, Receive);
    assert s1 == s.(core := s.core.(channel := [m2]), hands := [m1], live := s1.live);
    ReachableStep(s1, Receive);
    s' := Apply(s1, Receive);
  }

  /** Two loops that have received one message each file them in the other order. */
  lemma FiledTheOtherWay(s: Sys, m1: Msg, m2: Msg) returns (s': Sys)
    requires Reachable(s) && s.hands == [m1, m2] && s.core.pending == map[] && s.core.ring == []
    requires m1.tenant == m2.tenant == "a"
    ensures Reachable(s')
    ensures s' == s.(core := s.core.(pending := map["a" := [m2, m1]], ring := ["a"]), hands := [], live := s'.live)
  {
    hide RingOk, Reachable, Move;
    ReachableStep(s, File(1));
    var s1 := Apply(s, File(1));
    assert s1 == s.(core := s.core.(pending := map["a" := [m2]], ring := ["a"]), hands := [m1], live := s1.live);
    ReachableStep(s1, File(0));
    assert [m2] + [m1] == [m2, m1];
    s' := Apply(s1, File(0));
  }

  /** With two ingress loops a tenant's messages can be dispatched in another order than they entered the channel. */
  lemma TwoLoopsReorder()
    ensures exists s: Sys :: Reachable(s) && !(Of(s.popped, "a") <= Of(s.sent, "a"))
  {
    hide MessageKey, RingOk, Reachable, PlacesOk, Duplicate, Rest, Admit, Of, Sent, Take, Start;
    var s0 := FreshCalm();
    var first := FreshMessage(s0.core, "a", s0.issued);
    SentAtRest(s0, 0, first, 2 * MINUTE);
    var m1 := Ticketed(s0, first);
    var s1 := Sent(s0, m1, 2 * MINUTE);
    var second := FreshMessage(s1.core, "a", s1.issued);
    SentAtRest(s1, 1, second, 4 * MINUTE);
    var m2 := Ticketed(s1, second);
    var s2 := Sent(s1, m2, 4 * MINUTE);
    assert s2.core.channel == [m1, m2] && s2.sent == [m1, m2];
    var taken := TwoReceived(s2, m1, m2);
    var s3 := FiledTheOtherWay(taken, m1, m2);
    ServeAtRest(StateOf(s3.mgr, "a"), 2, 4 * MINUTE, 4 * MINUTE, "", 0, 0.0);
    PopsSecond(s3, m1, m2);
    SecondFirst(m1, m2);
  }

  lemma PopsSecond(s: Sys, m1: Msg, m2: Msg)
    requires Reachable(s) && s.core.pending == map["a" := [m2, m1]] && s.core.ring == ["a"] && s.core.cursor == 0
    requires s.popped == []
    requires PolicyOf(s.mgr, "a") == DEFAULTS && Start(StateOf(s.mgr, "a"), DEFAULTS, s.clock).1 == Admitted
    ensures exists s': Sys :: Reachable(s') && s'.popped == [m2] && s'.sent == s.sent
  {
    hide RingOk, Reachable, PlacesOk, Start, MessageKey, Move;
    ReachableStep(s, PopOne(s.clock));
    assert Pop(s.core, s.mgr, s.clock).2 == Some(m2);
    var s' := Apply(s, PopOne(s.clock));
    assert s'.popped == [m2];
  }

  lemma SecondFirst(m1: Msg, m2: Msg)
    requires m1.tenant == m2.tenant == "a" && m1.ticket != m2.ticket
    ensures !(Of([m2], "a") <= Of([m1, m2], "a"))
  {
    OfOne(m2, "a");
    OfHead([m1, m2], "a");
    assert Of([m1, m2], "a")[0] == m1;
  }

  // ---------------------------------------------------------------- overtaking

  /** Whenever a worker looks for work, `t` has a pending message and the manager would admit it. */
  ghost predicate Waits(s: Sys, steps: seq<Step>, t: string)
    requires Legal(s, steps)
    decreases |steps|
  {
    steps == [] ||
    (&& (steps[0].PopOne? ==> t in s.core.pending && Eligible(s.mgr, t, steps[0].at))
     && Waits(Apply(s, steps[0]), steps[1..], t))
  }

  /** While `t` waits, exactly these tenants are dispatched. */
  ghost predicate Passes(s: Sys, steps: seq<Step>, t: string, order: seq<string>) {
    Legal(s, steps) && Waits(s, steps, t) && Dispatched(s, steps) == order
  }

  lemma {:induction false} PassesConcat(s: Sys, a: seq<Step>, b: seq<Step>, t: string, order: seq<string>, order': seq<string>)
    requires Passes(s, a, t, order) && Passes(Final(s, a), b, t, order')
    ensures Passes(s, a + b, t, order + order') && Final(s, a + b) == Final(Final(s, a), b)
    decreases |a|
  {
    hide Apply, Enabled, RingOk, Eligible, Served;
    LegalConcat(s, a, b);
    if a == [] {
      assert a + b == b && order + order' == order';
    } else {
      assert (a + b)[0] == a[0] && (a + b)[1..] == a[1..] + b;
      var later := Dispatched(Apply(s, a[0]), a[1..]);
      var first := match Served(s, a[0]) case None => [] case Some(u) => [u];
      PassesConcat(Apply(s, a[0]), a[1..], b, t, later, order');
      assert first + (later + order') == (first + later) + order';
    }
  }

  lemma {:induction false} NobodyPasses(s: Sys, steps: seq<Step>, t: string)
    requires Legal(s, steps) && forall i :: 0 <= i < |steps| ==> !steps[i].PopOne?
    ensures Passes(s, steps, t, [])
    decreases |steps|
  {
    hide Apply, Enabled, RingOk, Eligible;
    if steps != [] { NobodyPasses(Apply(s, steps[0]), steps[1..], t); }
  }

  lemma ServePasses(s: Sys, id: nat, now: int, t: string)
    requires Legal(s, ServeSteps(id, now)) && t in s.core.pending && Eligible(s.mgr, t, now) && Served(s, PopOne(now)).Some?
    ensures Passes(s, ServeSteps(id, now), t, [Served(s, PopOne(now)).value])
  {
    hide Apply, Enabled, RingOk, Eligible, Served;
    var steps, rest := ServeSteps(id, now), [Report(id, false, now), Finish(id, now)];
    assert steps[0] == PopOne(now) && steps[1..] == rest;
    NobodyPasses(Apply(s, PopOne(now)), rest, t);
  }

  /** "b" has a message and is not next; x and then y are, with one message each. */
  ghost predicate Shape(s: Sys, x: string, y: string) {
    && Reachable(s) && Calm(s) && x != y && x != "b" && y != "b" && x != "" && y != ""
    && s.core.ring == ["b", x, y] && s.core.cursor == 1
    && |FifoOf(s.core.pending, x)| == |FifoOf(s.core.pending, y)| == |FifoOf(s.core.pending, "b")| == 1
  }

  lemma AtRestEligible(s: Sys, t: string, now: int)
    requires Calm(s) && s.clock <= now && |FifoOf(s.core.pending, t)| > 0
    ensures t in s.core.pending && Eligible(s.mgr, t, now)
  {
    hide Rest, Start;
    ServeAtRest(StateOf(s.mgr, t), |FifoOf(s.core.pending, t)|, s.clock, now, "", 0, 0.0);
  }

  /** x is served while "b" waits, and comes back behind y: the same shape again. */
  lemma HalfTurn(s: Sys, x: string, y: string) returns (steps: seq<Step>)
    requires Shape(s, x, y)
    ensures Passes(s, steps, "b", [x]) && Shape(Final(s, steps), y, x)
  {
    hide MessageKey, RingOk, Reachable, Rest, PlacesOk, Legal, Final, Calm, Served, Dispatched, Waits, Eligible,
         ServedSys, Duplicate;
    var now := s.clock;
    ReachablePlaces(s);
    ServeRun(s, now);
    AtRestEligible(s, "b", now);
    var m := s.core.pending[x][0];
    var serve := ServeSteps(m.ticket, now);
    ServePasses(s, m.ticket, now, "b");
    ServedCalm(s, m, now);
    ReachableOn(s, serve);
    var s1 := Final(s, serve);
    ReachablePlaces(s1);
    ServedShape(s, x, y);
    var msg := FreshMessage(s1.core, x, s1.issued);
    Arrives(s1, msg, s1.clock + 2 * MINUTE);
    var arrive := ArriveSteps(s1.issued, msg, s1.clock + 2 * MINUTE);
    ReachableOn(s1, arrive);
    NobodyPasses(s1, arrive, "b");
    ArrivedShape(s1.core, Ticketed(s1, msg), x, y);
    steps := serve + arrive;
    PassesConcat(s, serve, arrive, "b", [x], []);
    assert [x] + [] == [x];
  }

  lemma ServedShape(s: Sys, x: string, y: string)
    requires Shape(s, x, y) && RingOk(s.core)
    ensures var q := Take(s.core, 1).0;
      && q.ring == ["b", y] && q.cursor == 1 && x !in q.pending
      && |FifoOf(q.pending, y)| == |FifoOf(q.pending, "b")| == 1
  {
    hide MessageKey, Reachable, Calm;
    assert s.core.ring[1] == x && x in s.core.ring;
    assert s.core.pending[x][1..] == [];
    assert ["b", x, y][..1] + ["b", x, y][2..] == ["b", y];
  }

  lemma ArrivedShape(q: Core, m: Msg, x: string, y: string)
    requires m.tenant == x && x != "" && x != y && x != "b" && q.ring == ["b", y] && q.cursor == 1 && x !in q.pending
    requires |FifoOf(q.pending, y)| == |FifoOf(q.pending, "b")| == 1
    ensures var q' := AddPending(q, m);
      && q'.ring == ["b", y, x] && q'.cursor == 1
      && |FifoOf(q'.pending, x)| == |FifoOf(q'.pending, y)| == |FifoOf(q'.pending, "b")| == 1
  {
  }

  // ---------------------------------------------------------------- without end

  function Rounds(n: nat): seq<string> { if n == 0 then [] else ["a", "c"] + Rounds(n - 1) }

  lemma {:induction false} ManyRounds(s: Sys, n: nat) returns (steps: seq<Step>)
    requires Shape(s, "a", "c")
    ensures Passes(s, steps, "b", Rounds(n))
    decreases n
  {
    hide Shape, Passes;
    if n == 0 {
      steps := [];
      LegalNone(s);
      NobodyPasses(s, [], "b");
    } else {
      var first := HalfTurn(s, "a", "c");
      PassesLegal(s, first, "b", ["a"]);
      var s1 := Final(s, first);
      var second := HalfTurn(s1, "c", "a");
      PassesLegal(s1, second, "b", ["c"]);
      PassesConcat(s, first, second, "b", ["a"], ["c"]);
      var rest := ManyRounds(Final(s1, second), n - 1);
      assert ["a"] + ["c"] == ["a", "c"];
      PassesLegal(s, first + second, "b", ["a", "c"]);
      PassesConcat(s, first + second, rest, "b", ["a", "c"], Rounds(n - 1));
      steps := first + second + rest;
    }
  }

  lemma PassesLegal(s: Sys, steps: seq<Step>, t: string, order: seq<string>)
    requires Passes(s, steps, t, order)
    ensures Legal(s, steps)
  {
  }

  /** From a fresh system, a message of a tenant arrives. */
  lemma NextArrives(s: Sys, t: string) returns (s': Sys, m: Msg)
    requires Reachable(s) && Calm(s) && t != "" && |FifoOf(s.core.pending, t)| < 128
    ensures Reachable(s') && Calm(s') && m.tenant == t
    ensures s'.core.ring == AddPending(s.core, m).ring && s'.core.cursor == AddPending(s.core, m).cursor
    ensures s'.core.pending == AddPending(s.core, m).pending
  {
    hide MessageKey, RingOk, Reachable, PlacesOk, Legal, Final, Calm, Duplicate;
    ReachablePlaces(s);
    var msg := FreshMessage(s.core, t, s.issued);
    Arrives(s, msg, s.clock + 2 * MINUTE);
    var steps := ArriveSteps(s.issued, msg, s.clock + 2 * MINUTE);
    ReachableOn(s, steps);
    s', m := Final(s, steps), Ticketed(s, msg);
  }

  /** "b", "b", "a" and "c" arrive, and the first "b" is served. */
  lemma Crossing() returns (s: Sys)
    ensures Shape(s, "a", "c")
  {
    hide MessageKey, Reachable, Calm, RingOk, Legal, Final, PlacesOk, ServedSys, Served;
    var s0 := FreshCalm();
    var s1, b1 := NextArrives(s0, "b");
    assert s1.core.pending == map["b" := [b1]] && s1.core.ring == ["b"] && s1.core.cursor == 0;
    var s2, b2 := NextArrives(s1, "b");
    assert [b1] + [b2] == [b1, b2];
    assert s2.core.pending == map["b" := [b1, b2]] && s2.core.ring == ["b"] && s2.core.cursor == 0;
    var s3, a := NextArrives(s2, "a");
    assert s3.core.pending == map["b" := [b1, b2], "a" := [a]] && s3.core.ring == ["b", "a"] && s3.core.cursor == 0;
    var s4, c := NextArrives(s3, "c");
    assert s4.core.pending == map["b" := [b1, b2], "a" := [a], "c" := [c]] && s4.core.ring == ["b", "a", "c"] && s4.core.cursor == 0;
    ReachablePlaces(s4);
    ServeRun(s4, s4.clock);
    ServedCalm(s4, b1, s4.clock);
    ReachableOn(s4, ServeSteps(b1.ticket, s4.clock));
    s := Final(s4, ServeSteps(b1.ticket, s4.clock));
    FirstServed(s4.core, b1, b2, a, c);
  }

  lemma FirstServed(q: Core, b1: Msg, b2: Msg, a: Msg, c: Msg)
    requires q.pending == map["b" := [b1, b2], "a" := [a], "c" := [c]] && q.ring == ["b", "a", "c"] && q.cursor == 0
    ensures var q' := Take(q, 0).0;
      && q'.ring == ["b", "a", "c"] && q'.cursor == 1
      && |FifoOf(q'.pending, "a")| == |FifoOf(q'.pending, "c")| == |FifoOf(q'.pending, "b")| == 1
  {
    hide MessageKey;
    assert [b1, b2][1..] == [b2];
  }

  ghost predicate Overtaken(s: Sys, n: nat) { exists steps: seq<Step> :: Passes(s, steps, "b", Rounds(n)) }

  /**
    Without that restriction on newcomers the bypass is not bounded: there is a reachable state
    from which, for every n, a run dispatches "a" and "c" n times each while "b" has a pending
    message and would be admitted whenever a worker looks for work.
   */
  lemma ReturningTenantsOvertake()
    ensures exists s: Sys :: Reachable(s) && forall n: nat :: Overtaken(s, n)
  {
    hide Shape, Passes, Reachable;
    var s := Crossing();
    assert Reachable(s) by { ShapeReachable(s); }
    forall n: nat ensures Overtaken(s, n) {
      var steps := ManyRounds(s, n);
    }
  }

  lemma ShapeReachable(s: Sys)
    requires Shape(s, "a", "c")
    ensures Reachable(s)
  {
  }
}
