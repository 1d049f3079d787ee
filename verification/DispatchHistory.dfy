/**
  What the dispatch system remembers: the pruned completion map decides like the full history,
  each tenant's messages are dispatched in the order they entered the channel, every submission
  is accounted for exactly once, and none is handled more often than the attempt limit allows.
 */
module DispatchHistory {
  import opened Common
  import opened TenantPolicy
  import opened QueueCore
  import opened Dispatch
  import opened DispatchPlaces

  // ---------------------------------------------------------------- deduplication

  /** The pruned map agrees with the history on every key that still matters. */
  ghost predicate RecentOk(recent: map<string, int>, finished: map<string, int>, clock: int, window: int) {
    && (forall k :: k in recent ==> k in finished && finished[k] == recent[k])
    && (forall k :: k in finished ==> finished[k] <= clock && (k in recent || clock - finished[k] > window))
  }

  /** Whatever is inside the queue came in after the window of its key's last completion. */
  ghost predicate EnteredOk(live: map<nat, Live>, finished: map<string, int>, clock: int, window: int) {
    forall id :: id in live ==>
      live[id].since <= clock && (Key(live, id) in finished ==> live[id].since - finished[Key(live, id)] > window)
  }

  /** Pruning does not change a single decision. */
  lemma PrunedDecidesLikeHistory(
      recent: map<string, int>, finished: map<string, int>, clock: int, window: int, key: string, now: int)
    requires RecentOk(recent, finished, clock, window) && clock <= now
    ensures (key in recent && now - recent[key] <= window) <==> (key in finished && now - finished[key] <= window)
  {
  }

  lemma ClaimKeepsRecent(q: Core, finished: map<string, int>, clock: int, key: string, now: int, window: int)
    requires RecentOk(q.recent, finished, clock, window) && clock <= now
    ensures RecentOk(Claim(q, key, now, window).recent, finished, now, window)
    ensures !Duplicate(q, key, now, window) && key in finished ==> now - finished[key] > window
  {
  }

  lemma RetireKeepsRecent(q: Core, finished: map<string, int>, clock: int, m: Msg, over: bool, final: bool, now: int, window: int)
    requires RecentOk(q.recent, finished, clock, window) && clock <= now
    ensures RecentOk(Retire(q, m, over, final, now, window).recent, if over then finished[MessageKey(m) := now] else finished, now, window)
  {
    hide MessageKey;
  }

  lemma MoveKeepsEntered(live: map<nat, Live>, id: nat, p: Phase, finished: map<string, int>, clock: int, now: int, window: int)
    requires EnteredOk(live, finished, clock, window) && clock <= now
    ensures EnteredOk(Move(live, id, p), finished, now, window)
  {
    hide MessageKey;
    var live' := Move(live, id, p);
    forall j | j in live'
      ensures live'[j].since <= now && (Key(live', j) in finished ==> live'[j].since - finished[Key(live', j)] > window)
    {
      assert j in live && Key(live', j) == Key(live, j);
    }
  }

  lemma ExitKeepsEntered(live: map<nat, Live>, id: nat, finished: map<string, int>, clock: int, now: int, window: int, over: bool)
    requires EnteredOk(live, finished, clock, window) && clock <= now && OneCopy(live) && id in live
    ensures EnteredOk(Exit(live, id), if over then finished[Key(live, id) := now] else finished, now, window)
  {
    hide MessageKey;
    var live' := Exit(live, id);
    forall j | j in live' ensures j in live && Key(live', j) == Key(live, j) && Key(live, j) != Key(live, id) { }
  }

  lemma EnterKeepsEntered(live: map<nat, Live>, m: Msg, finished: map<string, int>, clock: int, now: int, window: int)
    requires EnteredOk(live, finished, clock, window) && clock <= now
    requires MessageKey(m) in finished ==> now - finished[MessageKey(m)] > window
    ensures EnteredOk(Enter(live, m, now), finished, now, window)
  {
    hide MessageKey;
    var live' := Enter(live, m, now);
    forall j | j in live' && j != m.ticket ensures j in live && Key(live', j) == Key(live, j) { }
  }

  ghost predicate DedupOk(s: Sys) {
    && RecentOk(s.core.recent, s.finished, s.clock, s.cfg.dedupeWindow)
    && EnteredOk(s.live, s.finished, s.clock, s.cfg.dedupeWindow)
  }

  lemma RecentLater(recent: map<string, int>, finished: map<string, int>, clock: int, now: int, window: int)
    requires RecentOk(recent, finished, clock, window) && clock <= now
    ensures RecentOk(recent, finished, now, window)
  {
  }

  lemma EnteredLater(live: map<nat, Live>, finished: map<string, int>, clock: int, now: int, window: int)
    requires EnteredOk(live, finished, clock, window) && clock <= now
    ensures EnteredOk(live, finished, now, window)
  {
    hide MessageKey;
  }

  lemma RecentPop(q: Core, mgr: Mgr, now: int)
    requires RingOk(q)
    ensures Pop(q, mgr, now).0.recent == q.recent
  {
    hide Scan, MessageKey;
  }

  lemma RecentFrames(q: Core, key: string, m: Msg)
    ensures Unclaim(q, key).recent == q.recent && Push(q, m).recent == q.recent && AddPending(q, m).recent == q.recent
  {
    hide Scan, MessageKey;
  }

  lemma OfferKeepsDedup(s: Sys, m: Msg, now: int)
    requires DedupOk(s) && s.clock <= now
    ensures DedupOk(Offer(s, m, now))
  {
    hide MessageKey, Claim, Enter, EnteredOk, RecentOk, Duplicate;
    ClaimKeepsRecent(s.core, s.finished, s.clock, MessageKey(m), now, s.cfg.dedupeWindow);
    EnteredLater(s.live, s.finished, s.clock, now, s.cfg.dedupeWindow);
    if !Duplicate(s.core, MessageKey(m), now, s.cfg.dedupeWindow) {
      EnterKeepsEntered(s.live, m, s.finished, s.clock, now, s.cfg.dedupeWindow);
    }
  }

  /** A submission changes phase or leaves without finishing; the completions stay. */
  lemma MoveDedup(s: Sys, s': Sys, id: nat, p: Phase)
    requires DedupOk(s) && s.clock <= s'.clock && s'.cfg == s.cfg && s'.finished == s.finished
    requires s'.core.recent == s.core.recent
    requires s'.live == Move(s.live, id, p) || s'.live == s.live
    ensures DedupOk(s')
  {
    hide EnteredOk, RecentOk, Move;
    RecentLater(s.core.recent, s.finished, s.clock, s'.clock, s.cfg.dedupeWindow);
    EnteredLater(s.live, s.finished, s.clock, s'.clock, s.cfg.dedupeWindow);
    MoveKeepsEntered(s.live, id, p, s.finished, s.clock, s'.clock, s.cfg.dedupeWindow);
  }

  lemma LeaveDedup(s: Sys, id: nat, fate: Fate)
    requires PlacesOk(s) && DedupOk(s) && id in s.live
    ensures DedupOk(LeaveStep(s, id, fate))
  {
    hide PlacesOk, EnteredOk, RecentOk, Exit, Unclaim, MessageKey, OneCopy;
    OneCopyOf(s);
    RecentFrames(s.core, MessageKey(s.live[id].msg), s.live[id].msg);
    ExitKeepsEntered(s.live, id, s.finished, s.clock, s.clock, s.cfg.dedupeWindow, false);
  }

  lemma FinishDedup(s: Sys, id: nat, now: int)
    requires PlacesOk(s) && DedupOk(s) && Enabled(s, Finish(id, now))
    ensures DedupOk(FinishStep(s, id, now))
  {
    hide PlacesOk, EnteredOk, RecentOk, Exit, Retire, MessageKey, OneCopy, FateAfter;
    OneCopyOf(s);
    var m, failed := s.live[id].msg, s.live[id].phase.failed;
    var final := FinalFailure(s.cfg, m, failed);
    RetireKeepsRecent(s.core, s.finished, s.clock, m, !failed || final, final, now, s.cfg.dedupeWindow);
    ExitKeepsEntered(s.live, id, s.finished, s.clock, now, s.cfg.dedupeWindow, !failed || final);
  }

  lemma PopDedup(s: Sys, now: int)
    requires PlacesOk(s) && DedupOk(s) && s.clock <= now
    ensures RingOk(s.core) && DedupOk(PopStep(s, now))
  {
    hide PlacesOk, RingOk, EnteredOk, RecentOk, Pop, Move;
    RingOf(s);
    RecentPop(s.core, s.mgr, now);
    var out := Pop(s.core, s.mgr, now).2;
    MoveDedup(s, PopStep(s, now), if out.Some? then out.value.ticket else 0, Handling);
  }

  /** The steps in which a submission goes from one phase to another. */
  lemma QuietDedup(s: Sys, step: Step)
    requires PlacesOk(s) && DedupOk(s) && Enabled(s, step)
    requires step.AskManager? || step.Send? || step.Receive? || step.File? || step.Report? || step.Mark?
    ensures RingOk(s.core) && DedupOk(Apply(s, step))
  {
    hide PlacesOk, RingOk, DedupOk, Admit, Reported, Marked, MessageKey, Push, AddPending, Without, Move;
    RingOf(s);
    match step
    case AskManager(id, at) =>
      var s' := Apply(s, step);
      MoveDedup(s, s', id, if s'.live == Move(s.live, id, Sending) then Sending else Refusing);
    case Send(id) => RecentFrames(s.core, "", s.live[id].msg); MoveDedup(s, Apply(s, step), id, Buffered);
    case Receive => MoveDedup(s, Apply(s, step), s.core.channel[0].ticket, Carried);
    case File(k) => RecentFrames(s.core, "", s.hands[k]); MoveDedup(s, Apply(s, step), s.hands[k].ticket, Waiting);
    case Report(id, failed, at) =>
      MoveDedup(s, Apply(s, step), id, if FinalFailure(s.cfg, s.live[id].msg, failed) then Marking else Settling(failed));
    case Mark(id) => MoveDedup(s, Apply(s, step), id, Settling(true));
  }

  lemma StepKeepsDedup(s: Sys, step: Step)
    requires PlacesOk(s) && DedupOk(s) && Enabled(s, step)
    ensures RingOk(s.core) && DedupOk(Apply(s, step))
  {
    hide PlacesOk, RingOk, DedupOk, Offer, AskStep, LeaveStep, SendStep, ReceiveStep, FileStep, PopStep, ReportStep,
         MarkStep, FinishStep;
    RingOf(s);
    match step
    case Submit(msg, at) =>
      IssueDedup(s, Ticketed(s, msg).attempt);
      OfferKeepsDedup(Issue(s, Ticketed(s, msg).attempt), Ticketed(s, msg), at);
    case RetryFires(id, at) => OfferKeepsDedup(s, Normalize(s.fates[id].msg), at);
    case RetryAbandoned(_) => SameDedup(s, Apply(s, step));
    case GiveBack(id) => LeaveDedup(s, id, Rejected);
    case CancelKey(id) =>
      LeaveDedup(s, id, Cancelled);
      SameDedup(LeaveStep(s, id, Cancelled), Apply(s, step));
    case CancelBooks(_) => SameDedup(s, Apply(s, step));
    case PopOne(at) => PopDedup(s, at);
    case Finish(id, at) => FinishDedup(s, id, at);
    case _ => QuietDedup(s, step);
  }

  lemma SameDedup(s: Sys, s': Sys)
    requires DedupOk(s) && s'.core == s.core && s'.live == s.live && s'.finished == s.finished && s'.clock == s.clock
    requires s'.cfg == s.cfg
    ensures DedupOk(s')
  {
  }

  lemma IssueDedup(s: Sys, attempt: int)
    requires DedupOk(s)
    ensures DedupOk(Issue(s, attempt)) && Issue(s, attempt).clock == s.clock
  {
  }

  // ---------------------------------------------------------------- per-tenant order

  /** The messages of one tenant, in order. */
  function Of(ms: seq<Msg>, t: string): seq<Msg> {
    if ms == [] then []
    else Of(ms[..|ms| - 1], t) + if ms[|ms| - 1].tenant == t then [ms[|ms| - 1]] else []
  }

  function FifoOf(pending: map<string, seq<Msg>>, t: string): seq<Msg> {
    if t in pending then pending[t] else []
  }

  lemma OfAppend(ms: seq<Msg>, m: Msg, t: string)
    ensures Of(ms + [m], t) == Of(ms, t) + if m.tenant == t then [m] else []
  {
    assert (ms + [m])[..|ms|] == ms;
  }

  lemma {:induction false} OfConcat(a: seq<Msg>, b: seq<Msg>, t: string)
    ensures Of(a + b, t) == Of(a, t) + Of(b, t)
    decreases |b|
  {
    if b == [] {
      assert a + b == a;
    } else {
      var most, m := b[..|b| - 1], b[|b| - 1];
      assert a + b == (a + most) + [m];
      OfAppend(a + most, m, t);
      OfConcat(a, most, t);
      OfAppend(most, m, t);
      assert most + [m] == b;
    }
  }

  lemma OfOne(m: Msg, t: string)
    ensures Of([m], t) == if m.tenant == t then [m] else []
  {
    OfAppend([], m, t);
    assert [] + [m] == [m];
  }

  lemma OfHead(ms: seq<Msg>, t: string)
    requires ms != []
    ensures Of(ms, t) == (if ms[0].tenant == t then [ms[0]] else []) + Of(ms[1..], t)
  {
    hide Of;
    assert ms == [ms[0]] + ms[1..];
    OfConcat([ms[0]], ms[1..], t);
    OfOne(ms[0], t);
  }

  lemma {:induction false} OfHas(ms: seq<Msg>, t: string, m: Msg)
    ensures m in Of(ms, t) <==> m in ms && m.tenant == t
  {
    if ms != [] {
      OfHas(ms[..|ms| - 1], t, m);
      assert ms == ms[..|ms| - 1] + [ms[|ms| - 1]];
    }
  }

  /** The k-th message taken out of the middle. */
  lemma OfWithout(ms: seq<Msg>, k: nat, t: string)
    requires k < |ms|
    ensures Of(ms, t) == Of(ms[..k], t) + (if ms[k].tenant == t then [ms[k]] else []) + Of(ms[k + 1..], t)
    ensures Of(Without(ms, k), t) == Of(ms[..k], t) + Of(ms[k + 1..], t)
  {
    hide Of;
    assert ms == ms[..k] + ms[k..] && ms[k..][1..] == ms[k + 1..];
    OfConcat(ms[..k], ms[k..], t);
    OfHead(ms[k..], t);
    OfConcat(ms[..k], ms[k + 1..], t);
  }

  /** Everything sent is what was dispatched, what waits, what the ingress loops hold, and what is still in the channel. */
  ghost predicate FifoOk(q: Core, hands: seq<Msg>, sent: seq<Msg>, popped: seq<Msg>) {
    forall t :: FifoAt(q, hands, sent, popped, t)
  }

  ghost predicate FifoAt(q: Core, hands: seq<Msg>, sent: seq<Msg>, popped: seq<Msg>, t: string) {
    Of(sent, t) == Of(popped, t) + FifoOf(q.pending, t) + Of(hands, t) + Of(q.channel, t)
  }

  lemma PushKeepsFifo(q: Core, hands: seq<Msg>, sent: seq<Msg>, popped: seq<Msg>, m: Msg)
    requires FifoOk(q, hands, sent, popped)
    ensures FifoOk(Push(q, m), hands, sent + [m], popped)
  {
    hide FifoOf, Of;
    forall t ensures FifoAt(Push(q, m), hands, sent + [m], popped, t) {
      assert FifoAt(q, hands, sent, popped, t);
      OfAppend(sent, m, t);
      OfAppend(q.channel, m, t);
    }
  }

  lemma ReceiveKeepsFifo(q: Core, hands: seq<Msg>, sent: seq<Msg>, popped: seq<Msg>)
    requires FifoOk(q, hands, sent, popped) && q.channel != []
    ensures FifoOk(q.(channel := q.channel[1..]), hands + [q.channel[0]], sent, popped)
  {
    hide FifoOf, Of;
    var m := q.channel[0];
    forall t ensures FifoAt(q.(channel := q.channel[1..]), hands + [m], sent, popped, t) {
      assert FifoAt(q, hands, sent, popped, t);
      OfAppend(hands, m, t);
      OfHead(q.channel, t);
    }
  }

  /** No earlier received message of the same tenant is still in an ingress loop's hands. */
  predicate InTurn(hands: seq<Msg>, k: nat)
    requires k < |hands|
  {
    forall j :: 0 <= j < k ==> hands[j].tenant != hands[k].tenant
  }

  lemma FiledFifo(q: Core, m: Msg, t: string)
    requires m.tenant != ""
    ensures FifoOf(AddPending(q, m).pending, t) == FifoOf(q.pending, t) + if m.tenant == t then [m] else []
    ensures AddPending(q, m).channel == q.channel
  {
  }

  lemma NoneBefore(hands: seq<Msg>, k: nat)
    requires k < |hands|
    ensures InTurn(hands, k) <==> Of(hands[..k], hands[k].tenant) == []
  {
    hide Of;
    var t := hands[k].tenant;
    if InTurn(hands, k) {
      if Of(hands[..k], t) != [] {
        OfHas(hands[..k], t, Of(hands[..k], t)[0]);
        assert false;
      }
    } else {
      var j :| 0 <= j < k && hands[j].tenant == t;
      assert hands[..k][j] == hands[j];
      OfHas(hands[..k], t, hands[j]);
    }
  }

  /** Filing keeps the tenant's order if and only if the tenant's oldest received message is filed. */
  lemma FileKeepsFifoIff(q: Core, hands: seq<Msg>, sent: seq<Msg>, popped: seq<Msg>, k: nat)
    requires FifoOk(q, hands, sent, popped) && k < |hands| && hands[k].tenant != ""
    requires forall i, j :: 0 <= i < j < |hands| ==> hands[i].ticket != hands[j].ticket
    ensures FifoOk(AddPending(q, hands[k]), Without(hands, k), sent, popped) <==> InTurn(hands, k)
  {
    hide FifoOf, Of, AddPending, Without, InTurn;
    var m, q', hands' := hands[k], AddPending(q, hands[k]), Without(hands, k);
    NoneBefore(hands, k);
    if InTurn(hands, k) {
      forall t ensures FifoAt(q', hands', sent, popped, t) {
        assert FifoAt(q, hands, sent, popped, t);
        FiledFifo(q, m, t);
        OfWithout(hands, k, t);
      }
    } else {
      var t := m.tenant;
      assert FifoAt(q, hands, sent, popped, t);
      FiledFifo(q, m, t);
      OfWithout(hands, k, t);
      var before, after := Of(hands[..k], t), Of(hands[k + 1..], t);
      OfHas(hands[..k], t, before[0]);
      assert before[0] != m;
      Swapped(Of(popped, t) + FifoOf(q.pending, t), before, m, after, Of(q.channel, t));
      assert !FifoAt(q', hands', sent, popped, t);
    }
  }

  lemma Swapped(front: seq<Msg>, before: seq<Msg>, m: Msg, after: seq<Msg>, back: seq<Msg>)
    requires before != [] && before[0] != m
    ensures front + (before + [m] + after) + back != front + [m] + (before + after) + back
  {
    var a, b := front + (before + [m] + after) + back, front + [m] + (before + after) + back;
    assert a[|front|] == before[0] && b[|front|] == m;
  }

  lemma TakenFifo(q: Core, idx: nat, t: string)
    requires RingOk(q) && idx < |q.ring| && Take(q, idx).1.tenant == q.ring[idx]
    ensures var (q', m) := Take(q, idx);
            FifoOf(q.pending, t) == (if m.tenant == t then [m] else []) + FifoOf(q'.pending, t)
    ensures Take(q, idx).0.channel == q.channel
  {
    hide MessageKey;
  }

  lemma TakeKeepsFifo(q: Core, hands: seq<Msg>, sent: seq<Msg>, popped: seq<Msg>, idx: nat)
    requires RingOk(q) && FifoOk(q, hands, sent, popped) && idx < |q.ring| && Take(q, idx).1.tenant == q.ring[idx]
    ensures FifoOk(Take(q, idx).0, hands, sent, popped + [Take(q, idx).1])
  {
    hide Take, FifoOf, Of;
    var (q', m) := Take(q, idx);
    forall t ensures FifoAt(q', hands, sent, popped + [m], t) {
      assert FifoAt(q, hands, sent, popped, t);
      OfAppend(popped, m, t);
      TakenFifo(q, idx, t);
    }
  }

  ghost predicate OrderOk(s: Sys) { FifoOk(s.core, s.hands, s.sent, s.popped) }

  /** The step files a message, if it files one, in its tenant's turn. */
  ghost predicate Orderly(s: Sys, step: Step) { step.File? && step.k < |s.hands| ==> InTurn(s.hands, step.k) }

  lemma FifoFrame(q: Core, q': Core, hands: seq<Msg>, sent: seq<Msg>, popped: seq<Msg>)
    requires FifoOk(q, hands, sent, popped) && q'.pending == q.pending && q'.channel == q.channel
    ensures FifoOk(q', hands, sent, popped)
  {
    hide FifoOf, Of;
    forall t ensures FifoAt(q', hands, sent, popped, t) { assert FifoAt(q, hands, sent, popped, t); }
  }

  lemma PopKeepsFifo(q: Core, live: map<nat, Live>, hands: seq<Msg>, mgr: Mgr, now: int, sent: seq<Msg>, popped: seq<Msg>)
    requires Places(q, live, hands) && FifoOk(q, hands, sent, popped)
    ensures var (q', _, out) := Pop(q, mgr, now);
            FifoOk(q', hands, sent, if out.None? then popped else popped + [out.value])
  {
    hide Scan, Take, FifoOk, KeysOk, ListOk, FifosOk;
    if q.ring != [] {
      var found := Scan(q.ring, q.cursor, |q.ring|, mgr, now).1;
      if found.Some? {
        HeadIsWaiting(q, live, hands, found.value);
        TakeKeepsFifo(q, hands, sent, popped, found.value);
      }
    }
  }

  lemma FileOrderIff(s: Sys, k: nat)
    requires PlacesOk(s) && OrderOk(s) && k < |s.hands|
    ensures OrderOk(FileStep(s, k)) <==> InTurn(s.hands, k)
  {
    hide Places, FifoOk, AddPending, Without, Move, FatesOk, RolledOk, InTurn;
    HandsNamed(s);
    FileKeepsFifoIff(s.core, s.hands, s.sent, s.popped, k);
  }

  lemma HandsNamed(s: Sys)
    requires PlacesOk(s)
    ensures forall i :: 0 <= i < |s.hands| ==> s.hands[i].tenant != ""
    ensures forall i, j :: 0 <= i < j < |s.hands| ==> s.hands[i].ticket != s.hands[j].ticket
  {
    hide KeysOk, RingOk, FifosOk, FatesOk, RolledOk, MessageKey;
    forall i | 0 <= i < |s.hands| ensures s.hands[i].tenant != "" {
      assert s.hands[i].ticket in s.live;
    }
  }

  lemma QueueStepOrder(s: Sys, step: Step)
    requires PlacesOk(s) && OrderOk(s) && Enabled(s, step) && Orderly(s, step)
    requires step.Send? || step.Receive? || step.File? || step.PopOne?
    ensures RingOk(s.core) && OrderOk(Apply(s, step))
  {
    hide Places, FifoOk, Move, Pop, Push, FileStep, FatesOk, RolledOk, InTurn;
    LiveFacts(s);
    match step
    case Send(id) => PushKeepsFifo(s.core, s.hands, s.sent, s.popped, s.live[id].msg);
    case Receive => ReceiveKeepsFifo(s.core, s.hands, s.sent, s.popped);
    case File(k) => FileOrderIff(s, k);
    case PopOne(at) => PopKeepsFifo(s.core, s.live, s.hands, s.mgr, at, s.sent, s.popped);
  }

  lemma StepKeepsOrder(s: Sys, step: Step)
    requires PlacesOk(s) && OrderOk(s) && Enabled(s, step) && Orderly(s, step)
    ensures RingOk(s.core) && OrderOk(Apply(s, step))
  {
    hide PlacesOk, RingOk, FifoOk, MessageKey, Move, Enter, Exit, Admit, Cancel, Reported, Marked, Duplicate,
         PruneRecent, Orderly;
    RingOf(s);
    if step.Send? || step.Receive? || step.File? || step.PopOne? {
      QueueStepOrder(s, step);
    } else {
      FifoFrame(s.core, Apply(s, step).core, s.hands, s.sent, s.popped);
    }
  }

  // ---------------------------------------------------------------- attempts

  /** The phases in which the current attempt has already been counted. */
  function Started(p: Phase): nat { if p.Handling? || p.Marking? || p.Settling? then 1 else 0 }

  ghost predicate AttemptOk(attempt: int, first: int, handled: int, max: int) {
    attempt == first + handled && 1 <= first && attempt <= Max(first, max)
  }

  /** How often a submission that came in with this attempt number may be handled. */
  function Limit(first: int, max: int): int { Max(1, max - first + 1) }

  ghost predicate Attempts(
      live: map<nat, Live>, fates: map<nat, Fate>, first: map<nat, int>, handled: map<nat, nat>, issued: nat,
      max: int) {
    && (forall i :: 0 <= i < issued ==> i in first && i in handled && 0 <= handled[i] <= Limit(first[i], max))
    && (forall i :: i in live ==> LiveAttempt(live[i], i, first, handled, max))
    && (forall i :: i in fates ==> FateAttempt(fates[i], i, first, handled, max))
  }

  /** Inside the queue: one attempt per handling, the current one included once it has started. */
  ghost predicate LiveAttempt(e: Live, i: nat, first: map<nat, int>, handled: map<nat, nat>, max: int) {
    i in first && i in handled && AttemptOk(e.msg.attempt, first[i], handled[i] as int - Started(e.phase), max)
  }

  /** A waiting retry has the next attempt number; a dead letter has used the last one. */
  ghost predicate FateAttempt(f: Fate, i: nat, first: map<nat, int>, handled: map<nat, nat>, max: int) {
    && (f.AwaitingRetry? ==> i in first && i in handled && AttemptOk(f.msg.attempt, first[i], handled[i], max))
    && (f.DeadLettered? ==>
         && i in first && i in handled && AttemptOk(f.msg.attempt, first[i], handled[i] as int - 1, max)
         && f.msg.attempt >= max)
  }

  ghost predicate AttemptsOk(s: Sys) {
    Attempts(s.live, s.fates, s.first, s.handled, s.issued, s.cfg.maxAttempts)
  }

  /** A waiting message that is dispatched is handled once more. */
  lemma HandledOnceMore(
      live: map<nat, Live>, fates: map<nat, Fate>, first: map<nat, int>, handled: map<nat, nat>, issued: nat,
      max: int, id: nat)
    requires Attempts(live, fates, first, handled, issued, max) && InPhase(live, id, Waiting) && id !in fates
    ensures id in handled && Attempts(Move(live, id, Handling), fates, first, handled[id := 1 + handled[id]], issued, max)
  {
  }

  lemma PopDispatches(s: Sys, now: int)
    requires PlacesOk(s)
    ensures var out := Pop(s.core, s.mgr, now).2;
      out.Some? ==> InPhase(s.live, out.value.ticket, Waiting) && out.value.ticket !in s.fates
  {
    hide KeysOk, ListOk, FifosOk, Scan, Take, MessageKey;
    if s.core.ring != [] {
      var found := Scan(s.core.ring, s.core.cursor, |s.core.ring|, s.mgr, now).1;
      if found.Some? { HeadIsWaiting(s.core, s.live, s.hands, found.value); }
    }
  }

  lemma PopKeepsAttempts(s: Sys, now: int)
    requires PlacesOk(s) && AttemptsOk(s) && s.clock <= now
    ensures RingOk(s.core) && AttemptsOk(PopStep(s, now))
  {
    hide Places, FatesOk, RolledOk, Pop, Attempts, Move;
    RingOf(s);
    PopDispatches(s, now);
    var out := Pop(s.core, s.mgr, now).2;
    if out.Some? {
      HandledOnceMore(s.live, s.fates, s.first, s.handled, s.issued, s.cfg.maxAttempts, out.value.ticket);
    }
  }

  lemma MoveKeepsAttempts(s: Sys, id: nat, p: Phase, fates: map<nat, Fate>)
    requires AttemptsOk(s) && (id in s.live ==> Started(p) == Started(s.live[id].phase))
    requires forall i :: i in fates && (fates[i].AwaitingRetry? || fates[i].DeadLettered?) ==> i in s.fates && s.fates[i] == fates[i]
    ensures Attempts(Move(s.live, id, p), fates, s.first, s.handled, s.issued, s.cfg.maxAttempts)
  {
    hide AttemptOk, Limit;
  }

  lemma ExitKeepsAttempts(s: Sys, id: nat, fates: map<nat, Fate>)
    requires AttemptsOk(s)
    requires forall i :: i in fates && (fates[i].AwaitingRetry? || fates[i].DeadLettered?) ==> i in s.fates && s.fates[i] == fates[i]
    ensures Attempts(Exit(s.live, id), fates, s.first, s.handled, s.issued, s.cfg.maxAttempts)
  {
    hide AttemptOk, Limit;
  }

  lemma AbandonKeepsAttempts(s: Sys, id: nat)
    requires AttemptsOk(s)
    ensures Attempts(s.live, s.fates[id := Abandoned], s.first, s.handled, s.issued, s.cfg.maxAttempts)
  {
  }

  lemma RetryKeepsAttempts(s: Sys, id: nat, now: int)
    requires PlacesOk(s) && AttemptsOk(s) && Enabled(s, RetryFires(id, now))
    ensures AttemptsOk(Offer(s, Normalize(s.fates[id].msg), now))
  {
    hide PlacesOk, MessageKey, Duplicate, Claim, Attempts, Enter;
    LiveFacts(s);
    ReenterAttempts(s.live, s.fates, s.first, s.handled, s.issued, s.cfg.maxAttempts, id, now);
  }

  lemma ReenterAttempts(
      live: map<nat, Live>, fates: map<nat, Fate>, first: map<nat, int>, handled: map<nat, nat>, issued: nat, max: int,
      id: nat, now: int)
    requires Attempts(live, fates, first, handled, issued, max) && id in fates && fates[id].AwaitingRetry?
    requires fates[id].msg.ticket == id && fates[id].msg.tenant != ""
    ensures var m := Normalize(fates[id].msg);
      && m == fates[id].msg
      && Attempts(live, fates[id := Deduplicated], first, handled, issued, max)
      && Attempts(Enter(live, m, now), fates - {id}, first, handled, issued, max)
  {
    hide Limit;
    var m := fates[id].msg;
    assert FateAttempt(fates[id], id, first, handled, max);
    assert m.attempt >= 1 && LiveAttempt(Live(m, Admitting, now), id, first, handled, max);
    hide LiveAttempt, FateAttempt;
  }

  lemma SubmitKeepsAttempts(s: Sys, msg: Msg, now: int)
    requires PlacesOk(s) && AttemptsOk(s)
    ensures AttemptsOk(Offer(Issue(s, Ticketed(s, msg).attempt), Ticketed(s, msg), now))
  {
    hide PlacesOk, MessageKey, Duplicate, Claim, Attempts, Enter;
    LiveFacts(s);
    IssueKeepsAttempts(s.live, s.fates, s.first, s.handled, s.issued, s.cfg.maxAttempts, Ticketed(s, msg), now);
  }

  lemma IssueKeepsAttempts(
      live: map<nat, Live>, fates: map<nat, Fate>, first: map<nat, int>, handled: map<nat, nat>, issued: nat, max: int, m: Msg, now: int)
    requires Attempts(live, fates, first, handled, issued, max) && m.ticket == issued && m.attempt >= 1
    requires (forall id :: id in live ==> id < issued) && (forall id :: id in fates ==> id < issued)
    ensures var first', handled' := first[issued := m.attempt], handled[issued := 0];
      && Attempts(live, fates[issued := Deduplicated], first', handled', issued + 1, max)
      && Attempts(Enter(live, m, now), fates - {issued}, first', handled', issued + 1, max)
  {
    hide Attempts;
    var first', handled' := first[issued := m.attempt], handled[issued := 0];
    MoreAttempts(live, fates, first, handled, issued, max, m.attempt);
    EnterAttempts(live, fates, first', handled', issued + 1, max, m, now);
  }

  lemma MoreAttempts(
      live: map<nat, Live>, fates: map<nat, Fate>, first: map<nat, int>, handled: map<nat, nat>, issued: nat,
      max: int, attempt: int)
    requires Attempts(live, fates, first, handled, issued, max) && attempt >= 1
    requires (forall id :: id in live ==> id < issued) && (forall id :: id in fates ==> id < issued)
    ensures Attempts(live, fates, first[issued := attempt], handled[issued := 0], issued + 1, max)
  {
    hide AttemptOk;
  }

  lemma EnterAttempts(
      live: map<nat, Live>, fates: map<nat, Fate>, first: map<nat, int>, handled: map<nat, nat>, issued: nat,
      max: int, m: Msg, now: int)
    requires Attempts(live, fates, first, handled, issued, max) && m.ticket in first && m.ticket in handled
    requires first[m.ticket] == m.attempt >= 1 && handled[m.ticket] == 0
    ensures Attempts(live, fates[m.ticket := Deduplicated], first, handled, issued, max)
    ensures Attempts(Enter(live, m, now), fates - {m.ticket}, first, handled, issued, max)
  {
    hide Limit;
    assert LiveAttempt(Live(m, Admitting, now), m.ticket, first, handled, max);
    hide LiveAttempt, FateAttempt;
  }

  lemma FinishKeepsAttempts(s: Sys, id: nat, now: int)
    requires PlacesOk(s) && AttemptsOk(s) && Enabled(s, Finish(id, now))
    ensures AttemptsOk(FinishStep(s, id, now))
  {
    hide PlacesOk, MessageKey, Retire, Attempts, FateAfter, Exit;
    LiveFacts(s);
    SettleAttempts(s.live, s.fates, s.first, s.handled, s.issued, s.cfg.maxAttempts, id, s.live[id].phase.failed);
  }

  lemma SettleAttempts(
      live: map<nat, Live>, fates: map<nat, Fate>, first: map<nat, int>, handled: map<nat, nat>, issued: nat, max: int,
      id: nat, failed: bool)
    requires Attempts(live, fates, first, handled, issued, max) && id in live && Started(live[id].phase) == 1
    ensures var m := live[id].msg;
      Attempts(Exit(live, id), fates[id := FateAfter(m, failed, failed && m.attempt >= max)], first, handled, issued, max)
  {
    hide Limit;
    var m := live[id].msg;
    assert LiveAttempt(live[id], id, first, handled, max);
    assert FateAttempt(FateAfter(m, failed, failed && m.attempt >= max), id, first, handled, max);
    hide LiveAttempt, FateAttempt;
  }

  /** The steps in which a submission goes from one phase to another within its attempt. */
  lemma QuietKeepsAttempts(s: Sys, step: Step)
    requires PlacesOk(s) && AttemptsOk(s) && Enabled(s, step)
    requires (step.AskManager? || step.Send? || step.Report? || step.Mark?)
    ensures RingOk(s.core) && AttemptsOk(Apply(s, step))
  {
    hide PlacesOk, RingOk, MessageKey, Admit, Reported, Marked, Push, Attempts, Move;
    RingOf(s);
    match step
    case AskManager(id, _) => MoveKeepsAttempts(s, id, Sending, s.fates); MoveKeepsAttempts(s, id, Refusing, s.fates);
    case Send(id) => MoveKeepsAttempts(s, id, Buffered, s.fates);
    case Report(id, failed, _) =>
      MoveKeepsAttempts(s, id, if FinalFailure(s.cfg, s.live[id].msg, failed) then Marking else Settling(failed), s.fates);
    case Mark(id) => MoveKeepsAttempts(s, id, Settling(true), s.fates);
  }

  lemma IngressKeepsAttempts(s: Sys, step: Step)
    requires PlacesOk(s) && AttemptsOk(s) && Enabled(s, step) && (step.Receive? || step.File?)
    ensures RingOk(s.core) && AttemptsOk(Apply(s, step))
  {
    hide Places, FatesOk, RolledOk, RingOk, AddPending, Without, Attempts, Move;
    RingOf(s);
    match step
    case Receive =>
      ReceiveKeepsPlaces(s.core, s.live, s.hands);
      MoveKeepsAttempts(s, s.core.channel[0].ticket, Carried, s.fates);
    case File(k) =>
      FileKeepsPlaces(s.core, s.live, s.hands, k);
      MoveKeepsAttempts(s, s.hands[k].ticket, Waiting, s.fates);
  }

  lemma LeaveKeepsAttempts(s: Sys, id: nat, fate: Fate)
    requires AttemptsOk(s) && id in s.live && !fate.AwaitingRetry? && !fate.DeadLettered?
    ensures AttemptsOk(LeaveStep(s, id, fate))
  {
    hide MessageKey, Unclaim, Attempts, Exit;
    ExitKeepsAttempts(s, id, s.fates[id := fate]);
  }

  lemma StepKeepsAttempts(s: Sys, step: Step)
    requires PlacesOk(s) && AttemptsOk(s) && Enabled(s, step)
    ensures RingOk(s.core) && AttemptsOk(Apply(s, step))
  {
    hide PlacesOk, RingOk, Attempts, Offer, Issue, FinishStep, PopStep, LeaveStep, MessageKey, Cancel, With,
         AskStep, SendStep, ReceiveStep, FileStep, ReportStep, MarkStep;
    RingOf(s);
    match step
    case Submit(msg, at) => SubmitKeepsAttempts(s, msg, at);
    case RetryFires(id, at) => RetryKeepsAttempts(s, id, at);
    case RetryAbandoned(id) => AbandonKeepsAttempts(s, id);
    case GiveBack(id) => LeaveKeepsAttempts(s, id, Rejected);
    case CancelKey(id) => LeaveKeepsAttempts(s, id, Cancelled);
    case CancelBooks(_) =>
    case PopOne(at) => PopKeepsAttempts(s, at);
    case Finish(id, at) => FinishKeepsAttempts(s, id, at);
    case Receive => IngressKeepsAttempts(s, step);
    case File(_) => IngressKeepsAttempts(s, step);
    case _ => QuietKeepsAttempts(s, step);
  }

  // ---------------------------------------------------------------- conservation

  /** Every submission is inside the queue or has a fate, and the dead letters are exactly the dead-lettered ones. */
  ghost predicate Ledger(q: Core, live: map<nat, Live>, fates: map<nat, Fate>, issued: nat) {
    && (forall i :: 0 <= i < issued ==> i in live || i in fates)
    && (forall j :: 0 <= j < |q.dlq| ==> q.dlq[j].ticket in fates && fates[q.dlq[j].ticket] == DeadLettered(q.dlq[j]))
    && (forall i, j :: 0 <= i < j < |q.dlq| ==> q.dlq[i].ticket != q.dlq[j].ticket)
    && (forall i :: i in fates && fates[i].DeadLettered? ==> fates[i].msg.ticket == i && fates[i].msg in q.dlq)
  }

  ghost predicate LedgerOk(s: Sys) { Ledger(s.core, s.live, s.fates, s.issued) }

  lemma DlqFrames(q: Core, key: string, m: Msg, now: int, window: int)
    ensures Unclaim(q, key).dlq == q.dlq && Push(q, m).dlq == q.dlq && AddPending(q, m).dlq == q.dlq
    ensures Claim(q, key, now, window).dlq == q.dlq
  {
    hide MessageKey, PruneRecent;
  }

  lemma DlqPop(q: Core, mgr: Mgr, now: int)
    requires RingOk(q)
    ensures Pop(q, mgr, now).0.dlq == q.dlq
  {
    hide Scan, MessageKey;
  }

  lemma FinishKeepsLedger(
      q: Core, live: map<nat, Live>, fates: map<nat, Fate>, issued: nat, id: nat, failed: bool, final: bool,
      now: int, window: int)
    requires Ledger(q, live, fates, issued) && FatesOk(fates, live, issued) && id in live && live[id].msg.ticket == id
    requires final ==> failed
    ensures var m := live[id].msg;
      Ledger(Retire(q, m, !failed || final, final, now, window), Exit(live, id), fates[id := FateAfter(m, failed, final)], issued)
  {
    hide MessageKey, PruneRecent;
    var m := live[id].msg;
    var q', fates' := Retire(q, m, !failed || final, final, now, window), fates[id := FateAfter(m, failed, final)];
    forall i | i in fates' && fates'[i].DeadLettered? ensures fates'[i].msg.ticket == i && fates'[i].msg in q'.dlq {
      if i != id { assert fates[i].msg in q.dlq; }
    }
  }

  /** Changes that only move a submission around, or bring it in or take it out with a fate other than the dead letters. */
  lemma LedgerFrame(
      q: Core, q': Core, live: map<nat, Live>, live': map<nat, Live>, fates: map<nat, Fate>, fates': map<nat, Fate>,
      id: nat, issued: nat, issued': nat)
    requires Ledger(q, live, fates, issued) && q'.dlq == q.dlq && AgreeOff(live, live', id)
    requires forall i :: i != id ==> (i in fates <==> i in fates') && (i in fates ==> fates[i] == fates'[i])
    requires id in live' || id in fates'
    requires (id in fates ==> !fates[id].DeadLettered?) && (id in fates' ==> !fates'[id].DeadLettered?)
    requires issued' == issued || (issued' == issued + 1 && id == issued)
    ensures Ledger(q', live', fates', issued')
  {
  }

  lemma OfferKeepsLedger(s: Sys, m: Msg, now: int, issued: nat)
    requires Ledger(s.core, s.live, s.fates, issued) && m.ticket !in s.live
    requires s.issued == issued || (s.issued == issued + 1 && m.ticket == issued)
    requires m.ticket in s.fates ==> !s.fates[m.ticket].DeadLettered?
    ensures LedgerOk(Offer(s, m, now))
  {
    hide MessageKey, Ledger, Claim, Duplicate;
    var s' := Offer(s, m, now);
    DlqFrames(s.core, MessageKey(m), m, now, s.cfg.dedupeWindow);
    LedgerFrame(s.core, s'.core, s.live, s'.live, s.fates, s'.fates, m.ticket, issued, s.issued);
  }

  lemma StepKeepsLedger(s: Sys, step: Step)
    requires PlacesOk(s) && LedgerOk(s) && Enabled(s, step)
    ensures RingOk(s.core) && LedgerOk(Apply(s, step))
  {
    hide Places, FatesOk, RolledOk, RingOk, Ledger, Offer, FinishStep, PopStep, LeaveStep, AskStep, SendStep,
         ReceiveStep, FileStep,
         ReportStep, MarkStep, MessageKey, Cancel, With;
    LiveFacts(s);
    match step
    case Submit(msg, at) => OfferKeepsLedger(Issue(s, Ticketed(s, msg).attempt), Ticketed(s, msg), at, s.issued);
    case RetryFires(id, at) => OfferKeepsLedger(s, Normalize(s.fates[id].msg), at, s.issued);
    case RetryAbandoned(id) => LedgerFrame(s.core, s.core, s.live, s.live, s.fates, s.fates[id := Abandoned], id, s.issued, s.issued);
    case GiveBack(id) => LeaveKeepsLedger(s, id, Rejected);
    case CancelKey(id) => LeaveKeepsLedger(s, id, Cancelled);
    case CancelBooks(_) =>
    case PopOne(at) => PopKeepsLedger(s, at);
    case Finish(id, at) => FinishLedger(s, id, at);
    case _ => QuietKeepsLedger(s, step);
  }

  lemma FinishLedger(s: Sys, id: nat, now: int)
    requires PlacesOk(s) && LedgerOk(s) && Enabled(s, Finish(id, now))
    ensures LedgerOk(FinishStep(s, id, now))
  {
    hide Places, FatesOk, RolledOk, Ledger, Retire, Exit, FateAfter, MessageKey;
    LiveFacts(s);
    var m, failed := s.live[id].msg, s.live[id].phase.failed;
    FinishKeepsLedger(s.core, s.live, s.fates, s.issued, id, failed, FinalFailure(s.cfg, m, failed), now, s.cfg.dedupeWindow);
  }

  lemma LeaveKeepsLedger(s: Sys, id: nat, fate: Fate)
    requires PlacesOk(s) && LedgerOk(s) && id in s.live && !fate.DeadLettered?
    ensures LedgerOk(LeaveStep(s, id, fate))
  {
    hide Places, FatesOk, RolledOk, Ledger, Unclaim, MessageKey;
    LiveFacts(s);
    var s' := LeaveStep(s, id, fate);
    DlqFrames(s.core, MessageKey(s.live[id].msg), s.live[id].msg, 0, 0);
    LedgerFrame(s.core, s'.core, s.live, s'.live, s.fates, s'.fates, id, s.issued, s.issued);
  }

  /** The steps in which a submission goes from one phase to another. */
  lemma QuietKeepsLedger(s: Sys, step: Step)
    requires PlacesOk(s) && LedgerOk(s) && Enabled(s, step)
    requires step.AskManager? || step.Send? || step.Receive? || step.File? || step.Report? || step.Mark?
    ensures RingOk(s.core) && LedgerOk(Apply(s, step))
  {
    hide PlacesOk, RingOk, MessageKey, Admit, Reported, Marked, Push, AddPending, Without, Ledger, Move;
    RingOf(s);
    var q' := Apply(s, step).core;
    match step
    case AskManager(id, _) =>
      LedgerMove(s.core, q', s.live, s.fates, s.issued, id, Sending);
      LedgerMove(s.core, q', s.live, s.fates, s.issued, id, Refusing);
    case Send(id) =>
      DlqFrames(s.core, "", s.live[id].msg, 0, 0);
      LedgerMove(s.core, q', s.live, s.fates, s.issued, id, Buffered);
    case Receive => LedgerMove(s.core, q', s.live, s.fates, s.issued, s.core.channel[0].ticket, Carried);
    case File(k) =>
      DlqFrames(s.core, "", s.hands[k], 0, 0);
      LedgerMove(s.core, q', s.live, s.fates, s.issued, s.hands[k].ticket, Waiting);
    case Report(id, failed, _) =>
      LedgerMove(s.core, q', s.live, s.fates, s.issued, id, if FinalFailure(s.cfg, s.live[id].msg, failed) then Marking else Settling(failed));
    case Mark(id) => LedgerMove(s.core, q', s.live, s.fates, s.issued, id, Settling(true));
  }

  lemma PopKeepsLedger(s: Sys, now: int)
    requires PlacesOk(s) && LedgerOk(s)
    ensures RingOk(s.core) && LedgerOk(PopStep(s, now))
  {
    hide PlacesOk, RingOk, Pop, Ledger, Move;
    RingOf(s);
    DlqPop(s.core, s.mgr, now);
    var (q', _, out) := Pop(s.core, s.mgr, now);
    match out
    case None => LedgerMove(s.core, q', s.live, s.fates, s.issued, s.issued, Handling);
    case Some(m) => LedgerMove(s.core, q', s.live, s.fates, s.issued, m.ticket, Handling);
  }

  lemma LedgerMove(q: Core, q': Core, live: map<nat, Live>, fates: map<nat, Fate>, issued: nat, id: nat, p: Phase)
    requires Ledger(q, live, fates, issued) && q'.dlq == q.dlq
    ensures Ledger(q', live, fates, issued) && Ledger(q', Move(live, id, p), fates, issued)
  {
  }
}
