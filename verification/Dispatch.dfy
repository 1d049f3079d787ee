/**
  The queue of pkg/queue/memory_queue.go together with the tenant manager of
  pkg/tenant/manager.go and the goroutines that use them, as one transition system. A step is
  one critical section of one goroutine, under the queue's lock or the manager's: an interleaving
  of any number of callers, ingress loops, workers and retry timers is a sequence of steps. The
  one step that stands for several critical sections is PopOne: the pop loop asks the manager once
  per tenant while it holds the queue's lock, and here it asks them all at one moment.
 */
module Dispatch {
  import opened TenantPolicy
  import opened QueueCore

  /** Where a submission that is inside the queue currently is. */
  datatype Phase =
    | Admitting          // key recorded in inQueue, manager not asked yet
    | Refusing           // refused by the manager, key not yet given back
    | Sending            // admitted by the manager, not yet in the channel
    | Buffered           // in the channel
    | Carried            // received by an ingress loop, not yet in its tenant's FIFO
    | Waiting            // in its tenant's FIFO
    | Handling           // a worker runs the handler
    | Marking            // its last attempt failed, to be counted as a dead letter
    | Settling(failed: bool)  // the manager knows the outcome, the queue does not yet

  datatype Live = Live(msg: Msg, phase: Phase, since: int)

  /** Where a submission that is not inside the queue is. */
  datatype Fate =
    | AwaitingRetry(msg: Msg)
    | Succeeded
    | DeadLettered(msg: Msg)
    | Rejected
    | Cancelled
    | Deduplicated
    | Abandoned

  datatype Sys = Sys(
    cfg: Config,
    core: Core,
    mgr: Mgr,
    live: map<nat, Live>,
    fates: map<nat, Fate>,
    hands: seq<Msg>,              // what the ingress loops have received and not filed, oldest first
    rolled: map<nat, Msg>,        // cancelled submissions whose admission the manager still counts
    issued: nat,
    clock: int,
    finished: map<string, int>,   // last completion of every key, never pruned
    first: map<nat, int>,         // attempt number a submission came in with
    handled: map<nat, nat>,       // how often its handler was started
    sent: seq<Msg>,               // everything that ever entered the channel
    popped: seq<Msg>,             // everything that was ever dispatched
    cancels: multiset<string>)    // tenants whose enqueue the manager has cancelled

  datatype Step =
    | Submit(msg: Msg, at: int)
    | RetryFires(id: nat, at: int)
    | RetryAbandoned(id: nat)
    | AskManager(id: nat, at: int)
    | GiveBack(id: nat)           // the key of a refused submission
    | Send(id: nat)
    | CancelKey(id: nat)          // the caller's context ends: first the key ...
    | CancelBooks(id: nat)        // ... then the admission
    | Receive
    | File(k: nat)                // the loop with the k-th oldest received message
    | PopOne(at: int)
    | Report(id: nat, failed: bool, at: int)
    | Mark(id: nat)
    | Finish(id: nat, at: int)

  ghost function Init(cfg: Config, defaultPolicy: Policy, policies: map<string, Policy>, start: int): Sys {
    Sys(NormalizeConfig(cfg), EMPTY, Mgr(defaultPolicy, policies, map[]), map[], map[], [], map[], 0, start,
        map[], map[], map[], [], [], multiset{})
  }

  // ---------------------------------------------------------------- steps

  predicate InPhase(live: map<nat, Live>, id: nat, p: Phase) {
    id in live && live[id].phase == p
  }

  function Enter(live: map<nat, Live>, m: Msg, now: int): map<nat, Live> {
    live[m.ticket := Live(m, Admitting, now)]
  }

  function Move(live: map<nat, Live>, id: nat, p: Phase): map<nat, Live> {
    if id in live then live[id := live[id].(phase := p)] else live
  }

  function Exit(live: map<nat, Live>, id: nat): map<nat, Live> {
    live - {id}
  }

  predicate FinalFailure(cfg: Config, m: Msg, failed: bool) {
    failed && m.attempt >= cfg.maxAttempts
  }

  ghost predicate Enabled(s: Sys, step: Step) {
    match step
    case Submit(_, at) => s.clock <= at
    case RetryFires(id, at) => s.clock <= at && id in s.fates && s.fates[id].AwaitingRetry?
    case RetryAbandoned(id) => id in s.fates && s.fates[id].AwaitingRetry?
    case AskManager(id, at) => s.clock <= at && InPhase(s.live, id, Admitting)
    case GiveBack(id) => InPhase(s.live, id, Refusing)
    case Send(id) => InPhase(s.live, id, Sending) && |s.core.channel| < s.cfg.bufferSize
    case CancelKey(id) => InPhase(s.live, id, Sending)
    case CancelBooks(id) => id in s.rolled
    case Receive => s.core.channel != []
    case File(k) => k < |s.hands|
    case PopOne(at) => s.clock <= at
    case Report(id, _, at) => s.clock <= at && InPhase(s.live, id, Handling)
    case Mark(id) => InPhase(s.live, id, Marking)
    case Finish(id, at) => s.clock <= at && id in s.live && s.live[id].phase.Settling?
  }

  /** The first critical section of Enqueue. */
  ghost function Offer(s: Sys, m: Msg, now: int): Sys {
    var key := MessageKey(m);
    var dup := Duplicate(s.core, key, now, s.cfg.dedupeWindow);
    s.(core := Claim(s.core, key, now, s.cfg.dedupeWindow),
       live := if dup then s.live else Enter(s.live, m, now),
       fates := if dup then s.fates[m.ticket := Deduplicated] else s.fates - {m.ticket},
       clock := now)
  }

  ghost function Ticketed(s: Sys, msg: Msg): Msg { Normalize(msg.(ticket := s.issued)) }

  ghost function Issue(s: Sys, attempt: int): Sys {
    s.(issued := s.issued + 1, first := s.first[s.issued := attempt], handled := s.handled[s.issued := 0])
  }

  /** TryEnqueue. */
  ghost function AskStep(s: Sys, id: nat, now: int): Sys
    requires id in s.live
  {
    var m := s.live[id].msg;
    var (st, verdict) := Admit(StateOf(s.mgr, m.tenant), PolicyOf(s.mgr, m.tenant), now, MessageKey(m), m.tokens, m.cost);
    s.(mgr := With(s.mgr, m.tenant, st),
       clock := now,
       live := Move(s.live, id, if verdict == Admitted then Sending else Refusing))
  }

  /** The key is given back; the submission is over. */
  ghost function LeaveStep(s: Sys, id: nat, fate: Fate): Sys
    requires id in s.live
  {
    s.(core := Unclaim(s.core, MessageKey(s.live[id].msg)), live := Exit(s.live, id), fates := s.fates[id := fate])
  }

  ghost function SendStep(s: Sys, id: nat): Sys
    requires id in s.live
  {
    var m := s.live[id].msg;
    s.(core := Push(s.core, m), sent := s.sent + [m], live := Move(s.live, id, Buffered))
  }

  /** CancelEnqueue. */
  ghost function CancelStep(s: Sys, id: nat): Sys
    requires id in s.rolled
  {
    var m := s.rolled[id];
    s.(mgr := With(s.mgr, m.tenant, Cancel(StateOf(s.mgr, m.tenant), MessageKey(m))),
       cancels := s.cancels + multiset{m.tenant},
       rolled := s.rolled - {id})
  }

  /** An ingress loop takes the first message out of the channel. */
  ghost function ReceiveStep(s: Sys): Sys
    requires s.core.channel != []
  {
    var m := s.core.channel[0];
    s.(core := s.core.(channel := s.core.channel[1..]), hands := s.hands + [m], live := Move(s.live, m.ticket, Carried))
  }

  function Without<T>(xs: seq<T>, k: nat): seq<T>
    requires k < |xs|
  {
    xs[..k] + xs[k + 1..]
  }

  /** An ingress loop puts what it received into its tenant's FIFO. */
  ghost function FileStep(s: Sys, k: nat): Sys
    requires k < |s.hands|
  {
    var m := s.hands[k];
    s.(core := AddPending(s.core, m), hands := Without(s.hands, k), live := Move(s.live, m.ticket, Waiting))
  }

  ghost function PopStep(s: Sys, now: int): Sys
    requires RingOk(s.core)
  {
    var (core, mgr, out) := Pop(s.core, s.mgr, now);
    match out
    case None => s.(core := core, mgr := mgr, clock := now)
    case Some(m) =>
      s.(core := core, mgr := mgr, clock := now,
         popped := s.popped + [m],
         handled := s.handled[m.ticket := 1 + if m.ticket in s.handled then s.handled[m.ticket] else 0],
         live := Move(s.live, m.ticket, Handling))
  }

  /** CompleteRun. */
  function Reported(mgr: Mgr, m: Msg, failed: bool, final: bool, now: int): Mgr {
    With(mgr, m.tenant,
         Complete(StateOf(mgr, m.tenant), PolicyOf(mgr, m.tenant), now, MessageKey(m), m.tokens, m.cost, failed, !failed || final))
  }

  ghost function ReportStep(s: Sys, id: nat, failed: bool, now: int): Sys
    requires id in s.live
  {
    var m := s.live[id].msg;
    var final := FinalFailure(s.cfg, m, failed);
    s.(mgr := Reported(s.mgr, m, failed, final, now),
       clock := now,
       live := Move(s.live, id, if final then Marking else Settling(failed)))
  }

  /** MarkDeadLetter. */
  function Marked(mgr: Mgr, m: Msg): Mgr {
    With(mgr, m.tenant, MarkDead(StateOf(mgr, m.tenant), MessageKey(m)))
  }

  /** The manager's half of finishAttempt. */
  function Settled(mgr: Mgr, m: Msg, failed: bool, final: bool, now: int): Mgr {
    var reported := Reported(mgr, m, failed, final, now);
    if final then Marked(reported, m) else reported
  }

  lemma SettledIs(mgr: Mgr, m: Msg, failed: bool, last: bool, now: int)
    ensures SettledAs(mgr, Settled(mgr, m, failed, failed && last, now), m, failed, last, now)
  {
    hide MessageKey, Complete, MarkDead;
  }

  ghost function MarkStep(s: Sys, id: nat): Sys
    requires id in s.live
  {
    s.(mgr := Marked(s.mgr, s.live[id].msg), live := Move(s.live, id, Settling(true)))
  }

  /** The queue's half of finishAttempt. */
  ghost function FinishStep(s: Sys, id: nat, now: int): Sys
    requires id in s.live && s.live[id].phase.Settling?
  {
    var m := s.live[id].msg;
    var failed := s.live[id].phase.failed;
    var final := FinalFailure(s.cfg, m, failed);
    var over := !failed || final;
    s.(core := Retire(s.core, m, over, final, now, s.cfg.dedupeWindow),
       clock := now,
       finished := if over then s.finished[MessageKey(m) := now] else s.finished,
       live := Exit(s.live, id),
       fates := s.fates[id := FateAfter(m, failed, final)])
  }

  function FateAfter(m: Msg, failed: bool, final: bool): Fate {
    if !failed then Succeeded
    else if final then DeadLettered(m)
    else AwaitingRetry(m.(attempt := m.attempt + 1))
  }

  ghost function Apply(s: Sys, step: Step): Sys
    requires Enabled(s, step) && RingOk(s.core)
  {
    match step
    case Submit(msg, at) => Offer(Issue(s, Ticketed(s, msg).attempt), Ticketed(s, msg), at)
    case RetryFires(id, at) => Offer(s, Normalize(s.fates[id].msg), at)
    case RetryAbandoned(id) => s.(fates := s.fates[id := Abandoned])
    case AskManager(id, at) => AskStep(s, id, at)
    case GiveBack(id) => LeaveStep(s, id, Rejected)
    case Send(id) => SendStep(s, id)
    case CancelKey(id) => LeaveStep(s, id, Cancelled).(rolled := s.rolled[id := s.live[id].msg])
    case CancelBooks(id) => CancelStep(s, id)
    case Receive => ReceiveStep(s)
    case File(k) => FileStep(s, k)
    case PopOne(at) => PopStep(s, at)
    case Report(id, failed, at) => ReportStep(s, id, failed, at)
    case Mark(id) => MarkStep(s, id)
    case Finish(id, at) => FinishStep(s, id, at)
  }
}
