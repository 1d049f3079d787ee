/**
  queue.MemoryQueue of pkg/queue/memory_queue.go: the object with its lock-protected methods,
  its pop loop, ingress drain and pruning loop. Each method is proved against the functions on
  values that the dispatch system is made of, and keeps the ring invariant.
 */
module MemoryQueueObject {
  import opened Common
  import opened TenantPolicy
  import opened QueueCore
  import opened Dispatch
  import opened TenantManager
  import opened TenantRules

  class MemoryQueue {
    const cfg: Config
    const mgr: Manager
    var ch: seq<Msg>
    var pending: map<string, seq<Msg>>
    var tenantOrder: seq<string>
    var nextTenant: nat
    var inQueue: set<string>
    var inFlight: set<string>
    var recent: map<string, int>
    var dlq: seq<Msg>

    function Data(): Core
      reads this
    {
      Core(ch, pending, tenantOrder, nextTenant, inQueue, inFlight, recent, dlq)
    }

    ghost predicate Valid()
      reads this
    {
      RingOk(Data())
    }

    constructor (cfg: Config, mgr: Manager)
      ensures Valid() && Data() == EMPTY && this.cfg == NormalizeConfig(cfg) && this.mgr == mgr
    {
      this.cfg := NormalizeConfig(cfg);
      this.mgr := mgr;
      ch, pending, tenantOrder, nextTenant := [], map[], [], 0;
      inQueue, inFlight, recent, dlq := {}, {}, map[], [];
    }

    /** pruneRecentLocked: drop every entry older than the window. */
    method PruneRecentLocked(now: int)
      modifies this`recent
      ensures recent == PruneRecent(old(recent), now, cfg.dedupeWindow)
    {
      if |recent| == 0 {
        assert recent.Keys == {};
        assert recent == PruneRecent(old(recent), now, cfg.dedupeWindow);
        return;
      }
      var todo := recent.Keys;
      while todo != {}
        invariant todo <= old(recent).Keys
        invariant forall k :: k in recent <==> k in old(recent) && (k in todo || now - old(recent)[k] <= cfg.dedupeWindow)
        invariant forall k :: k in recent ==> recent[k] == old(recent)[k]
        decreases |todo|
      {
        var k :| k in todo;
        if k in recent && now - recent[k] > cfg.dedupeWindow { recent := recent - {k}; }
        todo := todo - {k};
      }
    }

    /** The first critical section of Enqueue. */
    method ClaimLocked(key: string, now: int) returns (duplicate: bool)
      requires Valid()
      modifies this`recent, this`inQueue
      ensures Valid() && Data() == Claim(old(Data()), key, now, cfg.dedupeWindow)
      ensures duplicate == Duplicate(old(Data()), key, now, cfg.dedupeWindow)
    {
      hide RingOk;
      ghost var start := Data();
      PruneRecentLocked(now);
      duplicate := key in inQueue || key in inFlight || (key in recent && now - recent[key] <= cfg.dedupeWindow);
      if !duplicate { inQueue := inQueue + {key}; }
      RingFrame(start, Data());
    }

    /** Enqueue behind the nil check, on the normalized copy. */
    method EnqueueCopy(cp: Msg, now: int, ctxDone: bool) returns (r: EnqueueResult)
      requires Valid()
      modifies this, mgr
      ensures Valid() && (Data(), mgr.Data(), r) == Enqueued(old(Data()), old(mgr.Data()), cfg, cp, now, ctxDone)
    {
      hide MessageKey, Admit, Cancel, RingOk, Duplicate, PruneRecent, EnqueueVerdictIs, AdmittedAs, Tidy, Prune;
      var key := MessageKey(cp);
      ghost var start := Data();
      var duplicate := ClaimLocked(key, now);
      if duplicate { return Dropped; }
      var v := mgr.TryEnqueue(cp.tenant, key, cp.tokens, cp.cost, now);
      if v != Admitted {
        inQueue := inQueue - {key};
        RingFrame(start, Data());
        return Refused(v);
      }
      if |ch| < cfg.bufferSize && !ctxDone {
        ch := ch + [cp];
        RingFrame(start, Data());
        return Queued;
      }
      inQueue := inQueue - {key};
      RingFrame(start, Data());
      mgr.CancelEnqueue(cp.tenant, key);
      return CtxDone;
    }

    /** Enqueue; None is the error for a nil message, which changes nothing. */
    method Enqueue(msg: Option<Msg>, now: int, ctxDone: bool) returns (r: Option<EnqueueResult>)
      requires Valid()
      modifies this, mgr
      ensures Valid()
      ensures msg.None? ==> r == None && Data() == old(Data()) && mgr.Data() == old(mgr.Data())
      ensures msg.Some? ==>
        r.Some? && (Data(), mgr.Data(), r.value) == Enqueued(old(Data()), old(mgr.Data()), cfg, Normalize(msg.value), now, ctxDone)
      ensures msg.Some? ==>
        var m := msg.value;
        var cp := m.(tenant := if m.tenant == "" then "default" else m.tenant, attempt := if m.attempt > 0 then m.attempt else 1);
        EnqueuedAs(old(Data()), Data(), old(mgr.Data()), mgr.Data(), cfg, cp, now, ctxDone, r.value)
    {
      if msg.None? { return None; }
      hide EnqueuedAs, Enqueued, RingOk;
      var cp := Normalize(msg.value);
      EnqueuedIs(Data(), mgr.Data(), cfg, cp, now, ctxDone);
      var result := EnqueueCopy(cp, now, ctxDone);
      return Some(result);
    }

    method AddPendingLocked(msg: Msg)
      requires Valid()
      modifies this`pending, this`tenantOrder
      ensures Valid() && Data() == AddPending(old(Data()), msg)
    {
      AddPendingKeepsRing(Data(), msg);
      var t := NormalizeTenant(msg.tenant);
      if t !in pending {
        tenantOrder := tenantOrder + [t];
        pending := pending[t := [msg]];
      } else {
        pending := pending[t := pending[t] + [msg]];
      }
    }

    /** One wake-up of ingressLoop: everything buffered moves to the FIFOs as one batch. */
    method IngressDrain()
      requires Valid()
      modifies this
      ensures Valid() && Data() == DrainAll(old(Data()))
    {
      hide RingOk, AddPending;
      while ch != []
        invariant Valid()
        invariant DrainAll(Data()) == DrainAll(old(Data()))
        decreases |ch|
      {
        ghost var before := Data();
        var msg := ch[0];
        ch := ch[1..];
        RingFrame(before, Data());
        AddPendingLocked(msg);
        assert Data() == DrainOne(before);
        AddPendingChannel(before.(channel := ch), msg);
      }
    }

    /** removeTenantLocked; an index outside the ring is ignored. */
    method RemoveTenantLocked(idx: int)
      modifies this`tenantOrder, this`nextTenant
      ensures 0 <= idx < |old(tenantOrder)| ==> (tenantOrder, nextTenant) == RemoveTenant(old(tenantOrder), old(nextTenant), idx)
      ensures !(0 <= idx < |old(tenantOrder)|) ==> tenantOrder == old(tenantOrder) && nextTenant == old(nextTenant)
    {
      if idx < 0 || idx >= |tenantOrder| { return; }
      tenantOrder := tenantOrder[..idx] + tenantOrder[idx + 1..];
      if |tenantOrder| == 0 {
        nextTenant := 0;
        return;
      }
      if nextTenant >= |tenantOrder| { nextTenant := 0; }
    }

    /**
      popEligibleLocked. The branch for a ring tenant with an empty FIFO cannot be taken: the
      ring invariant rules it out.
     */
    method PopEligibleLocked(now: int) returns (out: Option<Msg>, hadPending: bool)
      requires Valid()
      modifies this, mgr
      ensures Valid()
      ensures (Data(), mgr.Data(), out) == Pop(old(Data()), old(mgr.Data()), now)
      ensures PoppedAs(old(Data()), Data(), old(mgr.Data()), mgr.Data(), now, out)
      ensures hadPending == (old(tenantOrder) != [])
    {
      hide Start, MessageKey, RingOk, Take, Scan, PoppedAs, StartVerdictIs, StartedAs, Tidy;
      PopFindsFirst(Data(), mgr.Data(), now);
      if |tenantOrder| == 0 { return None, false; }
      ghost var q0, m0 := Data(), mgr.Data();
      ghost var n := |tenantOrder|;
      RingCursor(q0);
      var checked := 0;
      while checked < |tenantOrder| && |tenantOrder| > 0
        invariant 0 <= checked <= n
        invariant Data() == q0.(cursor := nextTenant) && nextTenant < n
        invariant nextTenant == if q0.cursor + checked < n then q0.cursor + checked else q0.cursor + checked - n
        invariant Scan(tenantOrder, nextTenant, n - checked, mgr.Data(), now) == Scan(q0.ring, q0.cursor, n, m0, now)
        decreases |tenantOrder| - checked
      {
        CursorInRange(nextTenant, |tenantOrder|);
        RingTenant(q0, nextTenant);
        ScanStep(tenantOrder, nextTenant, n - checked, mgr.Data(), now);
        var idx := nextTenant % |tenantOrder|;
        var t := tenantOrder[idx];
        var tenantQueue := pending[t];
        if |tenantQueue| == 0 {
          assert false;
        }
        var msg := tenantQueue[0];
        var v := mgr.TryStartRun(t, now);
        if v != Admitted {
          nextTenant := Next(idx, |tenantOrder|);
          checked := checked + 1;
          continue;
        }
        hadPending := true;
        Dispatch(t, idx, msg, q0);
        return Some(msg), true;
      }
      ScanEnd(tenantOrder, nextTenant, mgr.Data(), now);
      hadPending := true;
      out := None;
    }

    /** The tail of popEligibleLocked, once the manager has admitted the tenant. */
    method Dispatch(t: string, idx: nat, msg: Msg, ghost q0: Core)
      requires RingOk(q0) && idx < |q0.ring| && t == q0.ring[idx] && t in q0.pending && q0.pending[t] != []
      requires msg == q0.pending[t][0]
      requires Data() == q0.(cursor := idx)
      modifies this
      ensures Valid() && Data() == Take(q0, idx).0 && msg == Take(q0, idx).1
    {
      hide MessageKey, RingOk, RemoveTenant;
      TakeKeepsRing(q0, idx);
      var rest := pending[t][1..];
      if |rest| == 0 {
        pending := pending - {t};
        RemoveTenantLocked(idx);
      } else {
        pending := pending[t := rest];
        nextTenant := Next(idx, |tenantOrder|);
      }
      var key := MessageKey(msg);
      inQueue := inQueue - {key};
      inFlight := inFlight + {key};
    }

    /** finishAttempt; the result is the message a retry timer will enqueue again. */
    method FinishAttempt(msg: Msg, failed: bool, now: int) returns (retry: Option<Msg>)
      requires Valid()
      modifies this, mgr
      ensures Valid()
      ensures FinishedAs(old(Data()), Data(), msg, failed, msg.attempt >= cfg.maxAttempts, now, cfg.dedupeWindow)
      ensures SettledAs(old(mgr.Data()), mgr.Data(), msg, failed, msg.attempt >= cfg.maxAttempts, now)
      ensures retry == if failed && msg.attempt < cfg.maxAttempts then Some(msg.(attempt := msg.attempt + 1)) else None
    {
      hide MessageKey, Complete, MarkDead, RingOk, FinishedAs, SettledAs;
      ghost var start, books, last := Data(), mgr.Data(), msg.attempt >= cfg.maxAttempts;
      RetireIs(start, msg, failed, last, now, cfg.dedupeWindow);
      SettledIs(books, msg, failed, last, now);
      var key := MessageKey(msg);
      var finalFailure := failed && msg.attempt >= cfg.maxAttempts;
      mgr.CompleteRun(msg.tenant, key, msg.tokens, msg.cost, failed, !failed || finalFailure, now);
      if finalFailure { mgr.MarkDeadLetter(msg.tenant, key); }
      inFlight := inFlight - {key};
      if !failed || finalFailure { recent := recent[key := now]; }
      PruneRecentLocked(now);
      if finalFailure { dlq := dlq + [msg]; }
      RingFrame(start, Data());
      assert Data() == Retire(start, msg, !failed || (failed && last), failed && last, now, cfg.dedupeWindow);
      assert mgr.Data() == Settled(books, msg, failed, failed && last, now);
      if !failed || finalFailure { return None; }
      return Some(msg.(attempt := msg.attempt + 1));
    }
  }

  lemma AddPendingChannel(q: Core, m: Msg)
    ensures AddPending(q, m).channel == q.channel
  {
  }

  lemma CursorInRange(i: nat, n: nat)
    requires i < n
    ensures i % n == i
  {
  }

  lemma RingCursor(q: Core)
    requires RingOk(q) && q.ring != []
    ensures q.cursor < |q.ring|
  {
  }

  lemma RingTenant(q: Core, idx: nat)
    requires RingOk(q) && idx < |q.ring|
    ensures q.ring[idx] in q.pending && q.pending[q.ring[idx]] != []
  {
  }

  lemma ScanStep(ring: seq<string>, idx: nat, left: nat, m: Mgr, now: int)
    requires idx < |ring| && left > 0
    ensures var t := ring[idx];
            var (st, v) := Start(StateOf(m, t), PolicyOf(m, t), now);
            Scan(ring, idx, left, m, now) ==
              if v == Admitted then (With(m, t, st), Some(idx)) else Scan(ring, Next(idx, |ring|), left - 1, With(m, t, st), now)
  {
    hide Start;
  }

  lemma ScanEnd(ring: seq<string>, idx: nat, m: Mgr, now: int)
    requires idx < |ring|
    ensures Scan(ring, idx, 0, m, now) == (m, None)
  {
  }
}
