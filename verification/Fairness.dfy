/**
  Round-robin fairness of the dispatch system: how far a tenant can be overtaken.
 */
module Fairness {
  import opened Common
  import opened TenantPolicy
  import opened QueueCore
  import opened Dispatch
  import opened DispatchPlaces
  import opened DispatchRuns

  /** The tenant a step dispatches, if any. */
  ghost function Served(s: Sys, step: Step): Option<string>
    requires RingOk(s.core)
  {
    if !step.PopOne? then None
    else match Pop(s.core, s.mgr, step.at).2 case None => None case Some(m) => Some(NormalizeTenant(m.tenant))
  }

  /** The tenants dispatched by a run, in order. */
  ghost function Dispatched(s: Sys, steps: seq<Step>): seq<string>
    requires Legal(s, steps)
    decreases |steps|
  {
    if steps == [] then []
    else
      (match Served(s, steps[0]) case None => [] case Some(t) => [t]) + Dispatched(Apply(s, steps[0]), steps[1..])
  }

  /** The step files a message of a tenant that is not in the ring yet. */
  ghost predicate Newcomer(s: Sys, step: Step) {
    step.File? && step.k < |s.hands| && NormalizeTenant(s.hands[step.k].tenant) !in s.core.pending
  }

  /** A newcomer arrives only while `t` stands at or behind the cursor in the ring. */
  ghost predicate NoOvertaking(s: Sys, step: Step, t: string) {
    Newcomer(s, step) ==> s.core.cursor <= |s.core.ring| && t in s.core.ring[s.core.cursor..]
  }

  /**
    Until `t` is dispatched, no newcomer arrives that would be asked before `t`, and the manager
    would admit `t` whenever a worker looks for work.
   */
  ghost predicate Patient(s: Sys, steps: seq<Step>, t: string)
    requires Legal(s, steps)
    decreases |steps|
  {
    steps == [] ||
    (&& NoOvertaking(s, steps[0], t)
     && (steps[0].PopOne? ==> Eligible(s.mgr, t, steps[0].at))
     && (Served(s, steps[0]) == Some(t) || Patient(Apply(s, steps[0]), steps[1..], t)))
  }

  /** Up to `t`, only a dispatch changes the order in which the tenants are asked. */
  lemma TurnStays(s: Sys, step: Step, t: string, p: nat)
    requires PlacesOk(s) && Enabled(s, step) && !step.PopOne? && NoOvertaking(s, step, t)
    requires RingOk(s.core) && p < |Turn(s.core)| && Turn(s.core)[p] == t
    ensures RingOk(Apply(s, step).core) && p < |Turn(Apply(s, step).core)|
    ensures Turn(Apply(s, step).core)[..p + 1] == Turn(s.core)[..p + 1]
  {
    hide KeysOk, ListOk, FifosOk, FatesOk, RolledOk, Pop, Move, Enter, Exit, Admit, Cancel, Reported, Marked,
         MessageKey, PruneRecent, RingOk, Turn;
    RingStays(s, step);
    var q, q' := s.core, Apply(s, step).core;
    if Newcomer(s, step) {
      BehindCursor(q, t, p);
      NewcomerTurn(q, s.hands[step.k]);
    } else {
      assert q'.ring == q.ring && q'.cursor == q.cursor;
      SameTurn(q, q');
    }
  }

  lemma SameTurn(q: Core, q': Core)
    requires RingOk(q) && RingOk(q') && q'.ring == q.ring && q'.cursor == q.cursor
    ensures Turn(q') == Turn(q)
  {
  }

  lemma BehindCursor(q: Core, t: string, p: nat)
    requires RingOk(q) && p < |Turn(q)| && Turn(q)[p] == t && q.cursor <= |q.ring| && t in q.ring[q.cursor..]
    ensures p < |q.ring| - q.cursor
  {
    var i :| q.cursor <= i < |q.ring| && q.ring[i] == t;
    DistinctTurn(q);
    assert Turn(q)[i - q.cursor] == t;
  }

  lemma RingStays(s: Sys, step: Step)
    requires PlacesOk(s) && Enabled(s, step)
    ensures RingOk(Apply(s, step).core)
  {
    StepKeepsPlaces(s, step);
  }

  /** The tenant `d` places after the cursor was served, and the one at `p` now stands at `p - d - 1` behind the same tenants. */
  ghost predicate MovedUp(turn: seq<string>, turn': seq<string>, p: nat, d: nat)
    requires d < p < |turn|
  {
    && p - d - 1 < |turn'| && turn'[p - d - 1] == turn[p]
    && forall i :: 0 <= i < p - d - 1 ==> turn'[i] == turn[d + 1 + i]
  }

  /** A pop at which `t` is admissible serves `t`, or someone asked before it, and `t` moves up by at least one. */
  lemma PopMovesUp(q: Core, mgr: Mgr, now: int, p: nat)
    requires RingOk(q) && p < |Turn(q)| && Eligible(mgr, Turn(q)[p], now)
    ensures var (q', _, out) := Pop(q, mgr, now);
            && RingOk(q') && out.Some?
            && var u := NormalizeTenant(out.value.tenant);
               u != Turn(q)[p] ==> exists d: nat :: d < p && Turn(q)[d] == u && MovedUp(Turn(q), Turn(q'), p, d)
  {
    hide Eligible, Asked, Take, Scan, Pop;
    PopFindsFirst(q, mgr, now);
    var (q', m', out) := Pop(q, mgr, now);
    var turn := Turn(q);
    assert turn[p] in q.pending by { assert turn[p] in turn; TurnIsRing(q, p); }
    var d: nat :| d < |turn| && DispatchedAt(q, mgr, now, d, q', m', out.value);
    assert d <= p;
    assert NormalizeTenant(out.value.tenant) == turn[d];
    if turn[d] != turn[p] {
      RotatedUp(turn, Turn(q'), p, d, if turn[d] in q'.pending then [turn[d]] else []);
    }
  }

  lemma TurnIsRing(q: Core, p: nat)
    requires RingOk(q) && p < |Turn(q)|
    ensures Turn(q)[p] in q.pending
  {
    assert Turn(q)[p] in q.ring;
  }

  lemma RotatedUp(turn: seq<string>, turn': seq<string>, p: nat, d: nat, tail: seq<string>)
    requires d < p < |turn| && turn' == turn[d + 1..] + turn[..d] + tail
    ensures MovedUp(turn, turn', p, d)
  {
  }

  lemma DistinctTurn(q: Core)
    requires RingOk(q)
    ensures NoDup(Turn(q))
  {
    var turn := Turn(q);
    forall i, j | 0 <= i < j < |turn| ensures turn[i] != turn[j] {
      var a := if i < |q.ring| - q.cursor then i + q.cursor else i - (|q.ring| - q.cursor);
      var b := if j < |q.ring| - q.cursor then j + q.cursor else j - (|q.ring| - q.cursor);
      assert turn[i] == q.ring[a] && turn[j] == q.ring[b] && a != b;
    }
  }

  /** The dispatched tenants are pairwise different and all among the first p of the turn. */
  ghost predicate Bypassed(turn: seq<string>, p: nat, dispatched: seq<string>)
    requires p <= |turn|
  {
    && |dispatched| <= p
    && NoDup(dispatched)
    && forall i :: 0 <= i < |dispatched| ==> dispatched[i] in turn[..p]
  }

  /**
    Bounded bypass. As long as `t` is not dispatched, the tenants that are dispatched are pairwise
    different and all stood before `t` in the turn.
   */
  lemma {:induction false} BoundedBypass(s: Sys, steps: seq<Step>, t: string, p: nat)
    requires PlacesOk(s) && Legal(s, steps) && Patient(s, steps, t)
    requires p < |Turn(s.core)| && Turn(s.core)[p] == t && t !in Dispatched(s, steps)
    ensures Bypassed(Turn(s.core), p, Dispatched(s, steps))
    decreases |steps|
  {
    hide Turn, PlacesOk, Eligible, NoOvertaking, Apply, Enabled, RingOk, Pop, MovedUp;
    if steps == [] { return; }
    var step, rest := steps[0], steps[1..];
    StepKeepsPlaces(s, step);
    var s' := Apply(s, step);
    var later := Dispatched(s', rest);
    if !step.PopOne? {
      TurnStays(s, step, t, p);
      assert [] + later == later;
      SamePrefix(Turn(s.core), Turn(s'.core), p);
      BoundedBypass(s', rest, t, p);
    } else {
      assert step == PopOne(step.at);
      ServedAhead(s, step.at, t, p);
      var u := Served(s, step).value;
      hide Served;
      assert Dispatched(s, steps) == [u] + later;
      NotInEither(u, later, t);
      var d: nat :| d < p && Turn(s.core)[d] == u && MovedUp(Turn(s.core), Turn(s'.core), p, d);
      MovedTo(Turn(s.core), Turn(s'.core), p, d);
      BoundedBypass(s', rest, t, p - d - 1);
      DistinctTurnOf(s);
      StillAhead(Turn(s.core), Turn(s'.core), later, d, p);
    }
  }

  lemma SamePrefix(a: seq<string>, b: seq<string>, p: nat)
    requires p < |a| && p < |b| && a[..p + 1] == b[..p + 1]
    ensures a[p] == b[p] && a[..p] == b[..p]
  {
    assert a[..p + 1][p] == a[p] && b[..p + 1][p] == b[p];
    assert a[..p] == a[..p + 1][..p] && b[..p] == b[..p + 1][..p];
  }

  lemma MovedTo(turn: seq<string>, turn': seq<string>, p: nat, d: nat)
    requires d < p < |turn| && MovedUp(turn, turn', p, d)
    ensures p - d - 1 < |turn'| && turn'[p - d - 1] == turn[p]
  {
  }

  lemma NotInEither(u: string, later: seq<string>, t: string)
    requires t !in [u] + later
    ensures u != t && t !in later
  {
    forall i | 0 <= i < |later| ensures later[i] != t { assert ([u] + later)[i + 1] == later[i]; }
    assert ([u] + later)[0] == u;
  }

  lemma ServedAhead(s: Sys, now: int, t: string, p: nat)
    requires PlacesOk(s) && Enabled(s, PopOne(now)) && p < |Turn(s.core)| && Turn(s.core)[p] == t && Eligible(s.mgr, t, now)
    ensures RingOk(Apply(s, PopOne(now)).core) && Served(s, PopOne(now)).Some?
    ensures var u := Served(s, PopOne(now)).value;
            u != t ==> exists d: nat :: d < p && Turn(s.core)[d] == u && MovedUp(Turn(s.core), Turn(Apply(s, PopOne(now)).core), p, d)
  {
    hide Eligible, KeysOk, ListOk, FifosOk, FatesOk, RolledOk, Pop, Move, MovedUp, Turn;
    PopMovesUp(s.core, s.mgr, now, p);
  }

  lemma DistinctTurnOf(s: Sys)
    requires PlacesOk(s)
    ensures NoDup(Turn(s.core))
  {
    DistinctTurn(s.core);
  }

  /** Whoever stands before `t` after the dispatch stood between the dispatched tenant and `t` before it. */
  lemma StillAhead(turn: seq<string>, turn': seq<string>, later: seq<string>, d: nat, p: nat)
    requires NoDup(turn) && d < p < |turn| && MovedUp(turn, turn', p, d)
    requires Bypassed(turn', p - d - 1, later)
    ensures Bypassed(turn, p, [turn[d]] + later)
  {
    forall i | 0 <= i < |later| ensures later[i] in turn[..p] && later[i] != turn[d] {
      var k :| 0 <= k < p - d - 1 && turn'[k] == later[i];
      assert turn[..p][d + 1 + k] == later[i];
    }
    assert turn[..p][d] == turn[d];
  }

  /** In every reachable state a patient tenant is served within one dispatch per tenant of the ring. */
  lemma ServedWithinOneTurn(s: Sys, steps: seq<Step>, t: string)
    requires Reachable(s) && Legal(s, steps) && t in s.core.pending && Patient(s, steps, t)
    requires |Dispatched(s, steps)| >= |s.core.ring| || !NoDup(Dispatched(s, steps))
    ensures t in Dispatched(s, steps)
  {
    hide Reachable, Legal, Patient, Dispatched;
    ReachableOk(s);
    assert t in s.core.ring;
    var turn := Turn(s.core);
    assert t in turn;
    var p: nat :| p < |turn| && turn[p] == t;
    if t !in Dispatched(s, steps) {
      BoundedBypass(s, steps, t, p);
    }
  }

  /** A newcomer is put at the end of the ring, which is not the end of the turn. */
  lemma NewcomerTurn(q: Core, m: Msg)
    requires RingOk(q) && NormalizeTenant(m.tenant) !in q.pending
    ensures RingOk(AddPending(q, m))
    ensures var back := |q.ring| - q.cursor;
            Turn(AddPending(q, m)) == Turn(q)[..back] + [NormalizeTenant(m.tenant)] + Turn(q)[back..]
  {
    AddPendingKeepsRing(q, m);
  }

  /** So it overtakes exactly the waiting tenants that stand before the cursor in the ring. */
  lemma NewcomerOvertakesIff(q: Core, m: Msg, i: nat, a: nat, b: nat)
    requires RingOk(q) && NormalizeTenant(m.tenant) !in q.pending && i < |q.ring|
    requires RingOk(AddPending(q, m)) && a < |Turn(AddPending(q, m))| && b < |Turn(AddPending(q, m))|
    requires Turn(AddPending(q, m))[a] == NormalizeTenant(m.tenant) && Turn(AddPending(q, m))[b] == q.ring[i]
    ensures a < b <==> i < q.cursor
  {
    var q' := AddPending(q, m);
    DistinctTurn(q');
    var t, n, turn' := NormalizeTenant(m.tenant), |q.ring|, Turn(q');
    assert q'.ring == q.ring + [t];
    assert turn'[n - q.cursor] == t;
    if i < q.cursor {
      assert turn'[n - q.cursor + 1 + i] == q.ring[i];
    } else {
      assert turn'[i - q.cursor] == q.ring[i];
    }
  }
}
