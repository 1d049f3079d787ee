/**
  The data of pkg/queue/memory_queue.go and its lock-protected operations as functions on
  values: message keys, the per-tenant FIFOs, the round-robin ring and its pop loop, and the
  deduplication map. `Mgr` is the tenant manager's data, which the pop loop consults.
 */
module QueueCore {
  import opened Common
  import opened TenantPolicy

  /**
    A queued message. `ticket` numbers the submissions; the program has no such number, and no
    operation looks at it: it only lets the model follow one submission through its retries.
   */
  datatype Msg = Msg(
    ticket: nat,
    tenant: string,
    task: string,
    run: string,
    dedupe: string,
    attempt: int,
    tokens: int,
    cost: real)

  datatype Config = Config(bufferSize: int, maxAttempts: int, dedupeWindow: int)

  /** The fields of MemoryQueue. */
  datatype Core = Core(
    channel: seq<Msg>,
    pending: map<string, seq<Msg>>,
    ring: seq<string>,
    cursor: nat,
    inQueue: set<string>,
    inFlight: set<string>,
    recent: map<string, int>,
    dlq: seq<Msg>)

  /** The fields of tenant.Manager. */
  datatype Mgr = Mgr(
    defaultPolicy: Policy,
    policies: map<string, Policy>,
    states: map<string, TenantState>)

  const EMPTY := Core([], map[], [], 0, {}, {}, map[], [])

  // ---------------------------------------------------------------- configuration and keys

  function NormalizeConfig(c: Config): (r: Config)
    ensures r.bufferSize > 0 && r.maxAttempts > 0 && r.dedupeWindow > 0
    ensures c.bufferSize > 0 && c.maxAttempts > 0 && c.dedupeWindow > 0 ==> r == c
  {
    Config(if c.bufferSize <= 0 then 100 else c.bufferSize,
           if c.maxAttempts <= 0 then 3 else c.maxAttempts,
           if c.dedupeWindow <= 0 then 2 * MINUTE else c.dedupeWindow)
  }

  function NormalizeTenant(t: string): (r: string)
    ensures r != ""
    ensures t != "" ==> r == t
  {
    if t == "" then "default" else t
  }

  function MessageKey(m: Msg): string {
    NormalizeTenant(m.tenant) + "#" + if m.dedupe != "" then m.dedupe else m.task + "#" + m.run
  }

  /** The copy Enqueue works on: tenant and attempt number filled in. */
  function Normalize(m: Msg): Msg {
    m.(tenant := NormalizeTenant(m.tenant), attempt := if m.attempt <= 0 then 1 else m.attempt)
  }

  lemma Joined(a: string, b: string, x: string, y: string)
    requires '#' !in a && '#' !in b && a + "#" + x == b + "#" + y
    ensures a == b && x == y
  {
    var k := a + "#" + x;
    assert k[|a|] == '#' && k[|b|] == '#';
    assert k[..|a|] == a && k[..|b|] == b;
    assert k[|a| + 1..] == x && k[|b| + 1..] == y;
  }

  /** Without a separator in tenant and task ids, a key stands for one tenant's dedupe key, or for one of its runs. */
  lemma KeysIdentify(a: Msg, b: Msg)
    requires a.tenant != "" && b.tenant != "" && '#' !in a.tenant && '#' !in b.tenant
    requires '#' !in a.task && '#' !in b.task && (a.dedupe == "" <==> b.dedupe == "")
    ensures MessageKey(a) == MessageKey(b) <==>
      && a.tenant == b.tenant && a.dedupe == b.dedupe
      && (a.dedupe == "" ==> a.task == b.task && a.run == b.run)
  {
    if MessageKey(a) == MessageKey(b) {
      var x := if a.dedupe != "" then a.dedupe else a.task + "#" + a.run;
      var y := if b.dedupe != "" then b.dedupe else b.task + "#" + b.run;
      assert MessageKey(a) == a.tenant + "#" + x && MessageKey(b) == b.tenant + "#" + y;
      Joined(a.tenant, b.tenant, x, y);
      if a.dedupe == "" {
        Joined(a.task, b.task, a.run, b.run);
      }
    }
  }

  /** Two keys can only collide across tenants when a tenant id contains the separator. */
  lemma KeysSeparateTenants(a: Msg, b: Msg)
    requires MessageKey(a) == MessageKey(b)
    requires '#' !in NormalizeTenant(a.tenant) && '#' !in NormalizeTenant(b.tenant)
    ensures NormalizeTenant(a.tenant) == NormalizeTenant(b.tenant)
  {
    var s, t := NormalizeTenant(a.tenant), NormalizeTenant(b.tenant);
    var k := MessageKey(a);
    assert k[|s|] == '#' && k[|t|] == '#';
    assert k[..|s|] == s && k[..|t|] == t;
  }

  /** ... and with such an id they do. */
  lemma KeysCollideAcrossTenants()
    ensures exists a: Msg, b: Msg :: a.tenant != b.tenant && MessageKey(a) == MessageKey(b)
  {
    var a := Msg(0, "a", "", "", "b#c", 1, 0, 0.0);
    var b := Msg(1, "a#b", "", "", "c", 1, 0, 0.0);
    assert MessageKey(a) == "a#b#c" == MessageKey(b);
    assert a.tenant != b.tenant && MessageKey(a) == MessageKey(b);
  }

  // ---------------------------------------------------------------- the manager's data

  function PolicyOf(m: Mgr, t: string): Policy {
    if t in m.policies then m.policies[t] else m.defaultPolicy
  }

  function StateOf(m: Mgr, t: string): TenantState {
    if t in m.states then m.states[t] else FRESH
  }

  function With(m: Mgr, t: string, st: TenantState): (r: Mgr)
    ensures forall u :: StateOf(r, u) == if u == t then st else StateOf(m, u)
    ensures forall u :: PolicyOf(r, u) == PolicyOf(m, u)
  {
    m.(states := m.states[t := st])
  }

  // ---------------------------------------------------------------- deduplication

  function PruneRecent(recent: map<string, int>, now: int, window: int): map<string, int> {
    map k | k in recent && now - recent[k] <= window :: recent[k]
  }

  /** Whether Enqueue drops a message with this key without an error. */
  predicate Duplicate(q: Core, key: string, now: int, window: int) {
    || key in q.inQueue
    || key in q.inFlight
    || (key in q.recent && now - q.recent[key] <= window)
  }

  /** The first critical section of Enqueue: prune, look the key up, and claim it when it is new. */
  function Claim(q: Core, key: string, now: int, window: int): Core {
    if Duplicate(q, key, now, window) then q.(recent := PruneRecent(q.recent, now, window))
    else q.(recent := PruneRecent(q.recent, now, window), inQueue := q.inQueue + {key})
  }

  function Unclaim(q: Core, key: string): Core {
    q.(inQueue := q.inQueue - {key})
  }

  function Push(q: Core, m: Msg): Core {
    q.(channel := q.channel + [m])
  }

  /** The critical section of finishAttempt. */
  function Retire(q: Core, m: Msg, over: bool, final: bool, now: int, window: int): Core {
    var key := MessageKey(m);
    q.(inFlight := q.inFlight - {key},
       recent := PruneRecent(if over then q.recent[key := now] else q.recent, now, window),
       dlq := if final then q.dlq + [m] else q.dlq)
  }

  datatype EnqueueResult = Dropped | Refused(reason: Verdict) | CtxDone | Queued

  /**
    Enqueue of a normalized message with nobody else at work; `ctxDone` says whether the caller's
    context ends before the channel takes the message.
   */
  function Enqueued(q: Core, mgr: Mgr, cfg: Config, m: Msg, now: int, ctxDone: bool): (Core, Mgr, EnqueueResult) {
    var key := MessageKey(m);
    var claimed := Claim(q, key, now, cfg.dedupeWindow);
    var (st, verdict) := Admit(StateOf(mgr, m.tenant), PolicyOf(mgr, m.tenant), now, key, m.tokens, m.cost);
    if Duplicate(q, key, now, cfg.dedupeWindow) then (claimed, mgr, Dropped)
    else if verdict != Admitted then (Unclaim(claimed, key), With(mgr, m.tenant, st), Refused(verdict))
    else if |q.channel| < cfg.bufferSize && !ctxDone then (Push(claimed, m), With(mgr, m.tenant, st), Queued)
    else (Unclaim(claimed, key), With(With(mgr, m.tenant, st), m.tenant, Cancel(st, key)), CtxDone)
  }

  /** The key is queued, in flight, or completed within the window. */
  predicate Known(q: Core, key: string, now: int, window: int) {
    key in q.inQueue || key in q.inFlight || (key in q.recent && q.recent[key] >= now - window)
  }

  /** The manager differs in at most this tenant's record. */
  ghost predicate OnlyTenant(mgr: Mgr, mgr': Mgr, t: string) {
    (forall u :: PolicyOf(mgr', u) == PolicyOf(mgr, u)) && (forall u :: u != t ==> StateOf(mgr', u) == StateOf(mgr, u))
  }

  /**
    What Enqueue leaves: a known key changes nothing but forgets old completions; otherwise the manager
    decides. An admitted message joins the end of the channel and holds its key if there is room and the
    caller still waits; if not, both its key and its admission are given back.
   */
  ghost predicate EnqueuedAs(
      q: Core, q': Core, mgr: Mgr, mgr': Mgr, cfg: Config, m: Msg, now: int, ctxDone: bool, r: EnqueueResult) {
    var key := MessageKey(m);
    var (st, verdict) := Admit(StateOf(mgr, m.tenant), PolicyOf(mgr, m.tenant), now, key, m.tokens, m.cost);
    var known, room := Known(q, key, now, cfg.dedupeWindow), |q.channel| < cfg.bufferSize && !ctxDone;
    && (r == Dropped <==> known)
    && (r.Refused? <==> !known && verdict != Admitted) && (r.Refused? ==> r.reason == verdict)
    && (r == Queued <==> !known && verdict == Admitted && room)
    && (r == CtxDone <==> !known && verdict == Admitted && !room)
    && q'.channel == (if r == Queued then q.channel + [m] else q.channel)
    && q'.inQueue == (if r == Queued then q.inQueue + {key} else q.inQueue)
    && q' == q.(channel := q'.channel, inQueue := q'.inQueue, recent := q'.recent)
    && (forall k :: k in q'.recent <==> k in q.recent && q.recent[k] >= now - cfg.dedupeWindow)
    && (forall k :: k in q'.recent ==> q'.recent[k] == q.recent[k])
    && OnlyTenant(mgr, mgr', m.tenant)
    && StateOf(mgr', m.tenant) ==
         if known then StateOf(mgr, m.tenant) else if r == CtxDone then Cancel(st, key) else st
  }

  lemma EnqueuedIs(q: Core, mgr: Mgr, cfg: Config, m: Msg, now: int, ctxDone: bool)
    ensures var (q', mgr', r) := Enqueued(q, mgr, cfg, m, now, ctxDone);
      EnqueuedAs(q, q', mgr, mgr', cfg, m, now, ctxDone, r)
  {
    hide MessageKey, Admit, Cancel;
    var key := MessageKey(m);
    assert key !in q.inQueue ==> q.inQueue + {key} - {key} == q.inQueue;
  }

  /** When the key last completed, after a completion now if there is one. */
  function CompletedAt(q: Core, m: Msg, over: bool, k: string, now: int): Option<int> {
    if over && k == MessageKey(m) then Some(now) else if k in q.recent then Some(q.recent[k]) else None
  }

  /**
    What finishAttempt leaves of the queue: the key is no longer in flight; a success or a last failure
    is remembered as completed now; a last failure is a dead letter; completions older than the window
    are forgotten; nothing else changes.
   */
  ghost predicate FinishedAs(q: Core, q': Core, m: Msg, failed: bool, last: bool, now: int, window: int) {
    && q'.channel == q.channel && q'.pending == q.pending && q'.ring == q.ring && q'.cursor == q.cursor
    && q'.inQueue == q.inQueue && q'.inFlight == q.inFlight - {MessageKey(m)}
    && q'.dlq == (if failed && last then q.dlq + [m] else q.dlq)
    && forall k ::
         var at := CompletedAt(q, m, !failed || last, k, now);
         && (k in q'.recent <==> at.Some? && now - at.value <= window)
         && (k in q'.recent ==> q'.recent[k] == at.value)
  }

  lemma RetireIs(q: Core, m: Msg, failed: bool, last: bool, now: int, window: int)
    ensures FinishedAs(q, Retire(q, m, !failed || (failed && last), failed && last, now, window), m, failed, last, now, window)
  {
    hide MessageKey;
  }

  /** What it leaves of the manager: the run completed, and a last failure marked as a dead letter, in one record. */
  ghost predicate SettledAs(mgr: Mgr, mgr': Mgr, m: Msg, failed: bool, last: bool, now: int) {
    var key := MessageKey(m);
    var done := Complete(StateOf(mgr, m.tenant), PolicyOf(mgr, m.tenant), now, key, m.tokens, m.cost, failed, !failed || last);
    && (forall u :: PolicyOf(mgr', u) == PolicyOf(mgr, u))
    && (forall u :: StateOf(mgr', u) ==
         if u != m.tenant then StateOf(mgr, u) else if failed && last then MarkDead(done, key) else done)
  }

  // ---------------------------------------------------------------- per-tenant FIFOs and ring

  function AddPending(q: Core, m: Msg): Core {
    var t := NormalizeTenant(m.tenant);
    if t in q.pending then q.(pending := q.pending[t := q.pending[t] + [m]])
    else q.(pending := q.pending[t := [m]], ring := q.ring + [t])
  }

  /** The first message of the channel moves to its tenant's FIFO. */
  function DrainOne(q: Core): Core {
    if q.channel == [] then q
    else AddPending(q.(channel := q.channel[1..]), q.channel[0])
  }

  function DrainAll(q: Core): Core
    decreases |q.channel|
  {
    if q.channel == [] then q else DrainAll(DrainOne(q))
  }

  /** removeTenantLocked */
  function RemoveTenant(ring: seq<string>, cursor: nat, idx: nat): (r: (seq<string>, nat))
    requires idx < |ring|
    ensures r.1 < |r.0| || r.1 == 0
  {
    var shorter := ring[..idx] + ring[idx + 1..];
    (shorter, if cursor >= |shorter| then 0 else cursor)
  }

  function Next(idx: nat, n: nat): (r: nat)
    requires idx < n
    ensures r == if idx + 1 == n then 0 else idx + 1
  {
    (idx + 1) % n
  }

  /**
    The loop of popEligibleLocked from the tenant under the cursor, with `left` tenants still to
    be asked: the manager's data after the refusals, and the index of the tenant that was admitted.
   */
  function Scan(ring: seq<string>, idx: nat, left: nat, m: Mgr, now: int): (r: (Mgr, Option<nat>))
    requires idx < |ring|
    ensures r.1.Some? ==> r.1.value < |ring|
    decreases left
  {
    if left == 0 then (m, None)
    else
      var t := ring[idx];
      var (st, verdict) := Start(StateOf(m, t), PolicyOf(m, t), now);
      if verdict == Admitted then (With(m, t, st), Some(idx))
      else Scan(ring, Next(idx, |ring|), left - 1, With(m, t, st), now)
  }

  /** What happens to the queue when the tenant at `idx` is dispatched. */
  function Take(q: Core, idx: nat): (r: (Core, Msg))
    requires idx < |q.ring| && q.ring[idx] in q.pending && q.pending[q.ring[idx]] != []
  {
    var t := q.ring[idx];
    var msg := q.pending[t][0];
    var rest := q.pending[t][1..];
    var key := MessageKey(msg);
    var moved := q.(inQueue := q.inQueue - {key}, inFlight := q.inFlight + {key});
    if rest == [] then
      var (ring, cursor) := RemoveTenant(q.ring, idx, idx);
      (moved.(pending := q.pending - {t}, ring := ring, cursor := cursor), msg)
    else
      (moved.(pending := q.pending[t := rest], cursor := Next(idx, |q.ring|)), msg)
  }

  /** popEligibleLocked */
  function Pop(q: Core, m: Mgr, now: int): (Core, Mgr, Option<Msg>)
    requires RingOk(q)
  {
    if q.ring == [] then (q, m, None)
    else
      var (m', found) := Scan(q.ring, q.cursor, |q.ring|, m, now);
      if found.None? then (q, m', None)
      else var (q', msg) := Take(q, found.value); (q', m', Some(msg))
  }

  // ---------------------------------------------------------------- the ring invariant

  /**
    The ring lists, once each, exactly the tenants with a non-empty FIFO, every FIFO holds only
    its own tenant's messages, and the cursor points into the ring.
   */
  ghost predicate RingOk(q: Core) {
    && NoDup(q.ring)
    && (forall t :: t in q.ring <==> t in q.pending)
    && (forall t :: t in q.pending ==> q.pending[t] != [])
    && (forall t, i :: t in q.pending && 0 <= i < |q.pending[t]| ==> NormalizeTenant(q.pending[t][i].tenant) == t)
    && (q.cursor < |q.ring| || q.cursor == 0)
  }

  lemma RingFrame(q: Core, q': Core)
    requires RingOk(q) && q'.ring == q.ring && q'.pending == q.pending && q'.cursor == q.cursor
    ensures RingOk(q')
  {
  }

  lemma AddPendingKeepsRing(q: Core, m: Msg)
    requires RingOk(q)
    ensures RingOk(AddPending(q, m))
  {
  }

  lemma TakeKeepsRing(q: Core, idx: nat)
    requires RingOk(q) && idx < |q.ring|
    ensures RingOk(Take(q, idx).0)
  {
    var t := q.ring[idx];
    var r := Take(q, idx).0;
    if q.pending[t][1..] == [] {
      forall u ensures u in r.ring <==> u in r.pending {
        if u in r.pending {
          var i :| 0 <= i < |q.ring| && q.ring[i] == u;
          if i < idx { assert r.ring[i] == u; } else { assert r.ring[i - 1] == u; }
        }
      }
    }
  }

  lemma {:induction false} DrainAllKeepsRing(q: Core)
    requires RingOk(q)
    ensures RingOk(DrainAll(q)) && DrainAll(q).channel == []
    decreases |q.channel|
  {
    if q.channel != [] {
      AddPendingKeepsRing(q.(channel := q.channel[1..]), q.channel[0]);
      DrainAllKeepsRing(DrainOne(q));
    }
  }

  // ---------------------------------------------------------------- the ring seen from the cursor

  /** The tenants in the order the pop loop asks them. */
  function Turn(q: Core): (r: seq<string>)
    requires RingOk(q)
    ensures |r| == |q.ring|
  {
    Rotated(q.ring, q.cursor)
  }

  function Rotated(ring: seq<string>, cursor: nat): (r: seq<string>)
    requires cursor < |ring| || cursor == 0
    ensures |r| == |ring|
  {
    ring[cursor..] + ring[..cursor]
  }

  /** The index of the k-th tenant after the cursor. */
  function Ahead(cursor: nat, k: nat, n: nat): (r: nat)
    requires cursor < n && k < n
    ensures r < n
  {
    if cursor + k < n then cursor + k else cursor + k - n
  }

  lemma RotateOn(ring: seq<string>, cursor: nat, d: nat)
    requires cursor < |ring| && d < |ring|
    ensures var turn, idx := Rotated(ring, cursor), Ahead(cursor, d, |ring|);
            && turn[d] == ring[idx]
            && Rotated(ring, Next(idx, |ring|)) == turn[d + 1..] + turn[..d] + [turn[d]]
  {
    var turn, idx, n := Rotated(ring, cursor), Ahead(cursor, d, |ring|), |ring|;
    var on, want := Rotated(ring, Next(idx, n)), turn[d + 1..] + turn[..d] + [turn[d]];
    forall i | 0 <= i < n ensures on[i] == want[i] {
      var j := if d + 1 + i < n then d + 1 + i else d + 1 + i - n;
      assert want[i] == turn[j] == ring[Ahead(cursor, j, n)];
    }
  }

  lemma RotateOff(ring: seq<string>, cursor: nat, d: nat)
    requires cursor < |ring| && d < |ring|
    ensures var turn, idx := Rotated(ring, cursor), Ahead(cursor, d, |ring|);
            var (shorter, at) := RemoveTenant(ring, idx, idx);
            Rotated(shorter, at) == turn[d + 1..] + turn[..d]
  {
    var turn, idx, n := Rotated(ring, cursor), Ahead(cursor, d, |ring|), |ring|;
    var (shorter, at) := RemoveTenant(ring, idx, idx);
    var off, want := Rotated(shorter, at), turn[d + 1..] + turn[..d];
    forall i | 0 <= i < n - 1 ensures off[i] == want[i] {
      var j := if d + 1 + i < n then d + 1 + i else d + 1 + i - n;
      assert want[i] == turn[j] == ring[Ahead(cursor, j, n)];
    }
  }

  /** Dispatching the tenant `d` places after the cursor moves it, and everyone asked before it, to the back. */
  lemma TakeTurns(q: Core, d: nat)
    requires RingOk(q) && d < |q.ring|
    ensures var idx := Ahead(q.cursor, d, |q.ring|);
            var turn, after := Turn(q), Take(q, idx).0;
            && turn[d] == q.ring[idx]
            && RingOk(after)
            && Turn(after) == turn[d + 1..] + turn[..d] + (if turn[d] in after.pending then [turn[d]] else [])
  {
    var idx := Ahead(q.cursor, d, |q.ring|);
    TakeKeepsRing(q, idx);
    RotateOn(q.ring, q.cursor, d);
    RotateOff(q.ring, q.cursor, d);
    var turn := Turn(q);
    assert turn[d + 1..] + turn[..d] + [] == turn[d + 1..] + turn[..d];
  }

  // ---------------------------------------------------------------- who is dispatched

  /** Whether the manager would let this tenant start a run now. */
  predicate Eligible(m: Mgr, t: string, now: int) {
    Start(StateOf(m, t), PolicyOf(m, t), now).1 == Admitted
  }

  /** `m` is `m0` after the first k tenants of the turn were asked; all others are untouched. */
  ghost predicate Asked(turn: seq<string>, k: nat, m0: Mgr, m: Mgr, now: int)
    requires k <= |turn|
  {
    && (forall t :: PolicyOf(m, t) == PolicyOf(m0, t))
    && (forall e :: 0 <= e < k ==> StateOf(m, turn[e]) == Start(StateOf(m0, turn[e]), PolicyOf(m0, turn[e]), now).0)
    && (forall t :: t !in turn[..k] ==> StateOf(m, t) == StateOf(m0, t))
  }

  lemma AskedOneMore(turn: seq<string>, k: nat, m0: Mgr, m: Mgr, now: int)
    requires NoDup(turn) && k < |turn| && Asked(turn, k, m0, m, now)
    ensures Eligible(m, turn[k], now) == Eligible(m0, turn[k], now)
    ensures Asked(turn, k + 1, m0, With(m, turn[k], Start(StateOf(m, turn[k]), PolicyOf(m, turn[k]), now).0), now)
  {
    hide Start;
    var t := turn[k];
    assert t !in turn[..k];
    assert StateOf(m, t) == StateOf(m0, t);
    assert turn[..k + 1] == turn[..k] + [t];
  }

  lemma RotatedAt(ring: seq<string>, cursor: nat, k: nat)
    requires NoDup(ring) && cursor < |ring| && k < |ring|
    ensures var turn := Rotated(ring, cursor);
      |turn| == |ring| && NoDup(turn) && turn[k] == ring[Ahead(cursor, k, |ring|)]
  {
  }

  lemma {:induction false} ScanFrom(ring: seq<string>, cursor: nat, k: nat, m0: Mgr, m: Mgr, now: int)
    requires NoDup(ring) && cursor < |ring| && k < |ring|
    requires Asked(Rotated(ring, cursor), k, m0, m, now)
    requires forall e :: 0 <= e < k ==> !Eligible(m0, Rotated(ring, cursor)[e], now)
    ensures ScanSpec(ring, cursor, m0, now, Scan(ring, Ahead(cursor, k, |ring|), |ring| - k, m, now))
    decreases |ring| - k
  {
    hide Start, Rotated, Asked, NoDup;
    var turn, idx := Rotated(ring, cursor), Ahead(cursor, k, |ring|);
    RotatedAt(ring, cursor, k);
    AskedOneMore(turn, k, m0, m, now);
    var m' := With(m, turn[k], Start(StateOf(m, turn[k]), PolicyOf(m, turn[k]), now).0);
    if !Eligible(m, turn[k], now) {
      if k + 1 < |ring| {
        assert Ahead(cursor, k + 1, |ring|) == Next(idx, |ring|);
        ScanFrom(ring, cursor, k + 1, m0, m', now);
      } else {
        assert Scan(ring, Next(idx, |ring|), 0, m', now) == (m', None);
      }
    } else {
      assert FoundAt(ring, cursor, k, m0, now, m', idx);
    }
  }

  /** The outcome of the pop loop, without the loop. */
  ghost predicate ScanSpec(ring: seq<string>, cursor: nat, m: Mgr, now: int, r: (Mgr, Option<nat>))
    requires cursor < |ring|
  {
    var turn := Rotated(ring, cursor);
    match r.1
    case None => (forall e :: 0 <= e < |turn| ==> !Eligible(m, turn[e], now)) && Asked(turn, |turn|, m, r.0, now)
    case Some(idx) => exists d :: 0 <= d < |turn| && FoundAt(ring, cursor, d, m, now, r.0, idx)
  }

  ghost predicate FoundAt(ring: seq<string>, cursor: nat, d: nat, m: Mgr, now: int, m': Mgr, idx: nat)
    requires cursor < |ring| && d < |ring|
  {
    var turn := Rotated(ring, cursor);
    && idx == Ahead(cursor, d, |ring|)
    && Eligible(m, turn[d], now)
    && (forall e :: 0 <= e < d ==> !Eligible(m, turn[e], now))
    && Asked(turn, d + 1, m, m', now)
  }

  lemma AskedNone(turn: seq<string>, m: Mgr, now: int)
    ensures Asked(turn, 0, m, m, now)
  {
    hide Start;
  }

  /**
    A pop dispatches the oldest message of the first tenant, in ring order from the cursor, that
    the manager admits; it dispatches nothing only if the manager refuses every pending tenant.
   */
  lemma ScanFindsFirst(q: Core, m: Mgr, now: int)
    requires RingOk(q) && q.ring != []
    ensures ScanSpec(q.ring, q.cursor, m, now, Scan(q.ring, q.cursor, |q.ring|, m, now))
  {
    assert Ahead(q.cursor, 0, |q.ring|) == q.cursor;
    hide Scan, ScanSpec, Rotated, Eligible;
    AskedNone(Rotated(q.ring, q.cursor), m, now);
    ScanFrom(q.ring, q.cursor, 0, m, m, now);
  }

  /** The same, in terms of the message that comes out. */
  ghost predicate PoppedAs(q: Core, q': Core, m: Mgr, m': Mgr, now: int, out: Option<Msg>)
    requires RingOk(q) && RingOk(q')
  {
    match out
    case None => q' == q && forall t :: t in q.pending ==> !Eligible(m, t, now)
    case Some(msg) => exists d :: 0 <= d < |Turn(q)| && DispatchedAt(q, m, now, d, q', m', msg)
  }

  lemma PopFindsFirst(q: Core, m: Mgr, now: int)
    requires RingOk(q)
    ensures var (q', m', out) := Pop(q, m, now);
            && RingOk(q')
            && PoppedAs(q, q', m, m', now, out)
  {
    hide Start, Scan, Take, Eligible, Asked, TakenAs;
    if q.ring != [] {
      ScanFindsFirst(q, m, now);
      var (m', found) := Scan(q.ring, q.cursor, |q.ring|, m, now);
      if found.None? {
        RefusedAll(q, m, now);
      } else {
        var d: nat :| d < |q.ring| && FoundAt(q.ring, q.cursor, d, m, now, m', found.value);
        TakeTurns(q, d);
        assert Pop(q, m, now) == (Take(q, found.value).0, m', Some(Take(q, found.value).1));
        TakesHead(q, found.value);
        assert DispatchedAt(q, m, now, d, Pop(q, m, now).0, m', Pop(q, m, now).2.value);
      }
    }
  }

  /** The tenant's oldest message leaves its FIFO, and its key moves from the queue into flight; nothing else but the ring changes. */
  ghost predicate TakenAs(q: Core, q': Core, t: string, out: Msg) {
    && t in q.pending && q.pending[t] != [] && out == q.pending[t][0]
    && q'.pending == (if |q.pending[t]| == 1 then q.pending - {t} else q.pending[t := q.pending[t][1..]])
    && q'.inQueue == q.inQueue - {MessageKey(out)} && q'.inFlight == q.inFlight + {MessageKey(out)}
    && q'.channel == q.channel && q'.recent == q.recent && q'.dlq == q.dlq
  }

  lemma TakesHead(q: Core, idx: nat)
    requires RingOk(q) && idx < |q.ring|
    ensures q.ring[idx] in q.pending && TakenAs(q, Take(q, idx).0, q.ring[idx], Take(q, idx).1)
  {
    hide MessageKey;
  }

  lemma RefusedAll(q: Core, m: Mgr, now: int)
    requires RingOk(q)
    requires forall e :: 0 <= e < |Turn(q)| ==> !Eligible(m, Turn(q)[e], now)
    ensures forall t :: t in q.pending ==> !Eligible(m, t, now)
  {
    hide Eligible;
    forall t | t in q.pending ensures !Eligible(m, t, now) {
      assert t in q.ring;
      assert t in Turn(q);
    }
  }

  /** `out` is the head of the d-th tenant's FIFO, everyone before it was refused, and the ring moved on. */
  ghost predicate DispatchedAt(q: Core, m: Mgr, now: int, d: nat, q': Core, m': Mgr, out: Msg)
    requires RingOk(q) && RingOk(q') && d < |Turn(q)|
  {
    var turn := Turn(q);
    var t := turn[d];
    && Eligible(m, t, now)
    && (forall e :: 0 <= e < d ==> !Eligible(m, turn[e], now))
    && TakenAs(q, q', t, out)
    && q' == Take(q, Ahead(q.cursor, d, |q.ring|)).0
    && q.ring[Ahead(q.cursor, d, |q.ring|)] == t
    && Turn(q') == turn[d + 1..] + turn[..d] + (if t in q'.pending then [t] else [])
    && Asked(turn, d + 1, m, m', now)
  }
}
