/**
  The methods of queue.MemoryQueue as runs of the dispatch system: with nobody else at work, each
  of them leaves the queue and the manager as a short run of the system's steps does.
 */
module QueueRuns {
  import opened TenantPolicy
  import opened QueueCore
  import opened Dispatch
  import opened DispatchRuns

  // ---------------------------------------------------------------- Enqueue

  /** The steps of one call of Enqueue, by its outcome. */
  function EnqueueSteps(id: nat, msg: Msg, now: int, r: EnqueueResult): seq<Step> {
    match r
    case Dropped => [Submit(msg, now)]
    case Refused(_) => [Submit(msg, now), AskManager(id, now), GiveBack(id)]
    case Queued => [Submit(msg, now), AskManager(id, now), Send(id)]
    case CtxDone => [Submit(msg, now), AskManager(id, now), CancelKey(id), CancelBooks(id)]
  }

  ghost function Claimed(s: Sys, m: Msg, now: int): Sys {
    s.(core := Claim(s.core, MessageKey(m), now, s.cfg.dedupeWindow),
       live := Enter(s.live, m, now), fates := s.fates - {m.ticket}, clock := now,
       issued := s.issued + 1, first := s.first[s.issued := m.attempt], handled := s.handled[s.issued := 0])
  }

  function Verdicts(s: Sys, m: Msg, now: int): (TenantState, Verdict) {
    Admit(StateOf(s.mgr, m.tenant), PolicyOf(s.mgr, m.tenant), now, MessageKey(m), m.tokens, m.cost)
  }

  lemma SubmitRun(s: Sys, msg: Msg, now: int)
    requires RingOk(s.core) && s.clock <= now
    ensures var m := Ticketed(s, msg);
      var s' := Apply(s, Submit(msg, now));
      && RingOk(s'.core)
      && (Duplicate(s.core, MessageKey(m), now, s.cfg.dedupeWindow) ==>
           s'.core == Claim(s.core, MessageKey(m), now, s.cfg.dedupeWindow) && s'.mgr == s.mgr)
      && (!Duplicate(s.core, MessageKey(m), now, s.cfg.dedupeWindow) ==> s' == Claimed(s, m, now))
  {
    hide MessageKey, RingOk, Duplicate;
    var m := Ticketed(s, msg);
    RingFrame(s.core, Claim(s.core, MessageKey(m), now, s.cfg.dedupeWindow));
  }

  /** TryEnqueue right after the claim. */
  ghost function Judged(s: Sys, m: Msg, now: int): Sys {
    var (st, verdict) := Verdicts(s, m, now);
    Claimed(s, m, now).(
      mgr := With(s.mgr, m.tenant, st),
      live := s.live[m.ticket := Live(m, if verdict == Admitted then Sending else Refusing, now)])
  }

  lemma AskRun(s: Sys, m: Msg, now: int)
    requires RingOk(s.core) && m.ticket == s.issued
    ensures var s1 := Claimed(s, m, now);
      && RingOk(s1.core) && Enabled(s1, AskManager(s.issued, now))
      && Apply(s1, AskManager(s.issued, now)) == Judged(s, m, now)
  {
    hide MessageKey, RingOk, Admit, Duplicate, PruneRecent;
    RingFrame(s.core, Claimed(s, m, now).core);
  }

  lemma JudgedRing(s: Sys, m: Msg, now: int)
    requires RingOk(s.core)
    ensures RingOk(Judged(s, m, now).core) && RingOk(Unclaim(Judged(s, m, now).core, MessageKey(m)))
    ensures Judged(s, m, now).core.channel == s.core.channel && Judged(s, m, now).cfg == s.cfg
  {
    hide MessageKey, RingOk, Admit, PruneRecent, Duplicate;
    RingFrame(s.core, Judged(s, m, now).core);
    RingFrame(s.core, Unclaim(Judged(s, m, now).core, MessageKey(m)));
  }

  /** The key of a refused message is given back. */
  lemma RefusedRun(s: Sys, m: Msg, now: int)
    requires RingOk(s.core) && m.ticket == s.issued && Verdicts(s, m, now).1 != Admitted
    ensures var s2 := Judged(s, m, now);
      && RingOk(s2.core) && Enabled(s2, GiveBack(s.issued))
      && var s3 := Apply(s2, GiveBack(s.issued));
         s3.core == Unclaim(s2.core, MessageKey(m)) && s3.mgr == s2.mgr
  {
    hide MessageKey, RingOk, Admit, Claim, Unclaim;
    JudgedRing(s, m, now);
  }

  /** An admitted message enters the channel. */
  lemma SentRun(s: Sys, m: Msg, now: int)
    requires RingOk(s.core) && m.ticket == s.issued && Verdicts(s, m, now).1 == Admitted
    requires |s.core.channel| < s.cfg.bufferSize
    ensures var s2 := Judged(s, m, now);
      && RingOk(s2.core) && Enabled(s2, Send(s.issued))
      && Apply(s2, Send(s.issued)) ==
         s2.(core := Push(s2.core, m), sent := s.sent + [m], live := s.live[m.ticket := Live(m, Buffered, now)])
  {
    hide MessageKey, RingOk, Admit, Claim, Push;
    JudgedRing(s, m, now);
  }

  /** The context of an admitted message ends first: the key, then the admission. */
  lemma CancelledRun(s: Sys, m: Msg, now: int)
    requires RingOk(s.core) && m.ticket == s.issued && Verdicts(s, m, now).1 == Admitted
    ensures var s2, key := Judged(s, m, now), MessageKey(m);
      && RingOk(s2.core) && Enabled(s2, CancelKey(s.issued))
      && var s3 := Apply(s2, CancelKey(s.issued));
         && RingOk(s3.core) && Enabled(s3, CancelBooks(s.issued))
         && var s4 := Apply(s3, CancelBooks(s.issued));
            s4.core == Unclaim(s2.core, key) && s4.mgr == With(s2.mgr, m.tenant, Cancel(StateOf(s2.mgr, m.tenant), key))
  {
    hide MessageKey, RingOk, Admit, Claim, Unclaim, Cancel, With;
    JudgedRing(s, m, now);
  }

  lemma {:induction false} LegalStep(s: Sys, step: Step, rest: seq<Step>)
    requires RingOk(s.core) && Enabled(s, step) && Legal(Apply(s, step), rest)
    ensures Legal(s, [step] + rest) && Final(s, [step] + rest) == Final(Apply(s, step), rest)
  {
    hide Apply, Enabled, RingOk;
    assert ([step] + rest)[0] == step && ([step] + rest)[1..] == rest;
  }

  /** An undisturbed Enqueue is a run of the system. */
  lemma EnqueueIsRun(s: Sys, msg: Msg, now: int, ctxDone: bool)
    requires RingOk(s.core) && s.clock <= now
    ensures var (q, mgr, r) := Enqueued(s.core, s.mgr, s.cfg, Ticketed(s, msg), now, ctxDone);
      var steps := EnqueueSteps(s.issued, msg, now, r);
      Legal(s, steps) && Final(s, steps).core == q && Final(s, steps).mgr == mgr
  {
    hide MessageKey, RingOk, Admit, Duplicate, PruneRecent, Cancel, Apply, Enabled, Legal, Final, Claim;
    var m, id := Ticketed(s, msg), s.issued;
    var (q, mgr, r) := Enqueued(s.core, s.mgr, s.cfg, m, now, ctxDone);
    SubmitRun(s, msg, now);
    SubmitEnabled(s, msg, now);
    if r == Dropped {
      LegalOne(s, Submit(msg, now));
      return;
    }
    var s1, s2 := Claimed(s, m, now), Judged(s, m, now);
    AskRun(s, m, now);
    match r
    case Refused(_) =>
      RefusedRun(s, m, now);
      ThreeSteps(s, Submit(msg, now), AskManager(id, now), GiveBack(id));
    case Queued =>
      SentRun(s, m, now);
      ThreeSteps(s, Submit(msg, now), AskManager(id, now), Send(id));
    case CtxDone =>
      CancelledRun(s, m, now);
      var s3 := Apply(s2, CancelKey(id));
      LegalOne(s3, CancelBooks(id));
      LegalStep(s2, CancelKey(id), [CancelBooks(id)]);
      LegalStep(s1, AskManager(id, now), [CancelKey(id)] + [CancelBooks(id)]);
      LegalStep(s, Submit(msg, now), [AskManager(id, now)] + ([CancelKey(id)] + [CancelBooks(id)]));
      assert EnqueueSteps(id, msg, now, r) == [Submit(msg, now)] + ([AskManager(id, now)] + ([CancelKey(id)] + [CancelBooks(id)]));
  }

  lemma SubmitEnabled(s: Sys, msg: Msg, now: int)
    requires s.clock <= now
    ensures Enabled(s, Submit(msg, now))
  {
  }

  lemma ThreeSteps(s: Sys, a: Step, b: Step, c: Step)
    requires RingOk(s.core) && Enabled(s, a)
    requires RingOk(Apply(s, a).core) && Enabled(Apply(s, a), b)
    requires RingOk(Apply(Apply(s, a), b).core) && Enabled(Apply(Apply(s, a), b), c)
    ensures Legal(s, [a, b, c]) && Final(s, [a, b, c]) == Apply(Apply(Apply(s, a), b), c)
  {
    hide Apply, Enabled, RingOk, Legal, Final;
    var s1 := Apply(s, a);
    LegalOne(Apply(s1, b), c);
    LegalStep(s1, b, [c]);
    LegalStep(s, a, [b] + [c]);
    assert [a] + ([b] + [c]) == [a, b, c];
  }

  // ---------------------------------------------------------------- the ingress loop

  /** Everything in the channel is received and filed, one message after the other. */
  function IngressSteps(n: nat): seq<Step> { if n == 0 then [] else [Receive, File(0)] + IngressSteps(n - 1) }

  lemma ReceiveFile(s: Sys)
    requires RingOk(s.core) && s.hands == [] && s.core.channel != []
    ensures Legal(s, [Receive, File(0)])
    ensures var s', m := Final(s, [Receive, File(0)]), s.core.channel[0];
      && RingOk(s'.core)
      && s' == s.(core := DrainOne(s.core), live := Move(Move(s.live, m.ticket, Carried), m.ticket, Waiting))
  {
    hide RingOk, Legal, Final;
    var m, s1 := s.core.channel[0], Apply(s, Receive);
    RingFrame(s.core, s1.core);
    assert s1.hands == [m];
    AddPendingKeepsRing(s1.core, m);
    LegalOne(s1, File(0));
    LegalStep(s, Receive, [File(0)]);
    assert [Receive] + [File(0)] == [Receive, File(0)];
    assert Without([m], 0) == [];
  }

  lemma {:induction false} IngressIsRun(s: Sys)
    requires RingOk(s.core) && s.hands == []
    ensures var steps := IngressSteps(|s.core.channel|);
      Legal(s, steps) && Final(s, steps).core == DrainAll(s.core) && Final(s, steps).mgr == s.mgr && Final(s, steps).hands == []
    decreases |s.core.channel|
  {
    hide RingOk, Legal, Final, AddPending;
    if s.core.channel == [] {
      LegalNone(s);
    } else {
      ReceiveFile(s);
      DrainedChannel(s.core);
      var s' := Final(s, [Receive, File(0)]);
      IngressIsRun(s');
      LegalConcat(s, [Receive, File(0)], IngressSteps(|s'.core.channel|));
    }
  }

  lemma DrainedChannel(q: Core)
    requires q.channel != []
    ensures DrainOne(q).channel == q.channel[1..]
  {
  }

  lemma LegalNone(s: Sys)
    ensures Legal(s, []) && Final(s, []) == s
  {
  }

  // ---------------------------------------------------------------- workers

  lemma PopIsRun(s: Sys, now: int)
    requires RingOk(s.core) && s.clock <= now
    ensures var (q, mgr, out) := Pop(s.core, s.mgr, now);
      && Legal(s, [PopOne(now)])
      && var s' := Final(s, [PopOne(now)]);
         s'.core == q && s'.mgr == mgr && s'.popped == if out.Some? then s.popped + [out.value] else s.popped
  {
    hide RingOk, Legal, Final, Pop, Move;
    LegalOne(s, PopOne(now));
    match Pop(s.core, s.mgr, now).2
    case None =>
    case Some(m) => assert Apply(s, PopOne(now)).popped == s.popped + [m];
  }

  function FinishSteps(id: nat, failed: bool, final: bool, now: int): seq<Step> {
    [Report(id, failed, now)] + (if final then [Mark(id)] else []) + [Finish(id, now)]
  }

  /** Report, and Mark after the last failed attempt. */
  ghost function ReportedSys(s: Sys, id: nat, failed: bool, now: int): Sys
    requires id in s.live
  {
    var m := s.live[id].msg;
    s.(mgr := Settled(s.mgr, m, failed, FinalFailure(s.cfg, m, failed), now), clock := now, live := Move(s.live, id, Settling(failed)))
  }

  lemma ReportRun(s: Sys, id: nat, failed: bool, now: int)
    requires RingOk(s.core) && s.clock <= now && InPhase(s.live, id, Handling)
    ensures Enabled(s, Report(id, failed, now))
    ensures var s1 := Apply(s, Report(id, failed, now));
      && s1.core == s.core
      && if FinalFailure(s.cfg, s.live[id].msg, failed) then Enabled(s1, Mark(id)) && Apply(s1, Mark(id)) == ReportedSys(s, id, failed, now)
         else s1 == ReportedSys(s, id, failed, now)
  {
    hide RingOk, Reported, Marked;
    assert Move(Move(s.live, id, Marking), id, Settling(true)) == Move(s.live, id, Settling(true));
  }

  lemma FinishRun(s: Sys, id: nat, failed: bool, now: int)
    requires RingOk(s.core) && InPhase(s.live, id, Handling)
    ensures var s2, m := ReportedSys(s, id, failed, now), s.live[id].msg;
      var final := FinalFailure(s.cfg, m, failed);
      && s2.core == s.core && Enabled(s2, Finish(id, now))
      && var s3 := Apply(s2, Finish(id, now));
         && s3.core == Retire(s.core, m, !failed || final, final, now, s.cfg.dedupeWindow) && s3.mgr == s2.mgr
         && id in s3.fates && s3.fates[id] == FateAfter(m, failed, final)
  {
    hide RingOk, Settled, Retire, FateAfter, MessageKey;
  }

  lemma FinalIs(cfg: Config, m: Msg, failed: bool)
    ensures FinalFailure(cfg, m, failed) <==> failed && m.attempt >= cfg.maxAttempts
  {
  }

  /** finishAttempt of a message that a worker handles is a run of the system. */
  lemma FinishIsRun(s: Sys, id: nat, failed: bool, now: int)
    requires RingOk(s.core) && s.clock <= now && InPhase(s.live, id, Handling)
    ensures var m := s.live[id].msg;
      var last := m.attempt >= s.cfg.maxAttempts;
      var steps := FinishSteps(id, failed, failed && last, now);
      && Legal(s, steps)
      && var s' := Final(s, steps);
         && FinishedAs(s.core, s'.core, m, failed, last, now, s.cfg.dedupeWindow)
         && SettledAs(s.mgr, s'.mgr, m, failed, last, now)
         && id in s'.fates
         && s'.fates[id] == (if !failed then Succeeded else if last then DeadLettered(m)
                             else AwaitingRetry(m.(attempt := m.attempt + 1)))
  {
    FinalIs(s.cfg, s.live[id].msg, failed);
    RetireIs(s.core, s.live[id].msg, failed, s.live[id].msg.attempt >= s.cfg.maxAttempts, now, s.cfg.dedupeWindow);
    SettledIs(s.mgr, s.live[id].msg, failed, s.live[id].msg.attempt >= s.cfg.maxAttempts, now);
    hide RingOk, Legal, Final, Settled, Retire, FinishedAs, SettledAs, Apply, Enabled, FinalFailure;
    ReportRun(s, id, failed, now);
    FinishRun(s, id, failed, now);
    var final := FinalFailure(s.cfg, s.live[id].msg, failed);
    var s1 := Apply(s, Report(id, failed, now));
    if final {
      ThreeSteps(s, Report(id, failed, now), Mark(id), Finish(id, now));
      assert FinishSteps(id, failed, final, now) == [Report(id, failed, now), Mark(id), Finish(id, now)];
    } else {
      LegalOne(s1, Finish(id, now));
      LegalStep(s, Report(id, failed, now), [Finish(id, now)]);
      assert FinishSteps(id, failed, final, now) == [Report(id, failed, now)] + [Finish(id, now)];
    }
  }
}
